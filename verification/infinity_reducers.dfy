/**
 * The infinity-loading sample's state (a first page that loads, then more pages appended, each
 * item with its own favourite-saving status) and its nine reducers.
 */
module InfinityReducers {
  import opened Wrappers
  import opened ListExt

  /** A loaded item; the reducers only look at its id. */
  datatype Item = Item(id: int, name: string, isFavorite: bool)

  datatype ItemWrapper = ItemWrapper(
    item: Item,
    isSavingNewFavoriteState: bool,
    errorSavingFavoriteState: Option<Throwable>)

  datatype NextItemsState = NextItemsState(isLoading: bool, error: Option<Throwable>)

  datatype InfinityLoadingState = InfinityLoadingState(
    isLoading: bool,
    error: Option<Throwable>,
    content: seq<ItemWrapper>,
    nextItemsState: NextItemsState)

  datatype InfinityReducer =
    | ShowLoading
    | ShowError(error: Throwable)
    | ShowContent(content: seq<ItemWrapper>)
    | ShowNextLoading
    | ShowNextError(error: Throwable)
    | ShowNextContent(nextContent: seq<ItemWrapper>)
    | ShowFavoriteItemLoading(item: ItemWrapper)
    | ShowFavoriteItemError(item: ItemWrapper, error: Throwable)
    | ShowUpdatedItem(updated: Item)

  /** The entries of `content` that hold the item with this id become `w`. */
  function ReplaceItem(content: seq<ItemWrapper>, w: ItemWrapper): (r: seq<ItemWrapper>)
    ensures |r| == |content|
    ensures forall i :: 0 <= i < |content| && content[i].item.id == w.item.id ==> r[i] == w
    ensures forall i :: 0 <= i < |content| && content[i].item.id != w.item.id ==> r[i] == content[i]
  {
    Replace(content, w, (x: ItemWrapper) => x.item.id == w.item.id)
  }

  /** The wrapper a favourite-state reducer puts in place of the item's entries, if it is one. */
  function FavoriteWrapper(r: InfinityReducer): (w: Option<ItemWrapper>)
    ensures r.ShowFavoriteItemLoading? ==>
      w == Some(r.item.(isSavingNewFavoriteState := true, errorSavingFavoriteState := None))
    ensures r.ShowFavoriteItemError? ==>
      w == Some(r.item.(isSavingNewFavoriteState := false, errorSavingFavoriteState := Some(r.error)))
    ensures r.ShowUpdatedItem? ==> w == Some(ItemWrapper(r.updated, false, None))
    ensures w.Some? <==> r.ShowFavoriteItemLoading? || r.ShowFavoriteItemError? || r.ShowUpdatedItem?
  {
    match r
    case ShowFavoriteItemLoading(item) =>
      Some(item.(isSavingNewFavoriteState := true, errorSavingFavoriteState := None))
    case ShowFavoriteItemError(item, error) =>
      Some(item.(isSavingNewFavoriteState := false, errorSavingFavoriteState := Some(error)))
    case ShowUpdatedItem(updated) => Some(ItemWrapper(updated, false, None))
    case _ => None
  }

  /** The reducers' `reduce`. */
  function Reduce(r: InfinityReducer, oldState: InfinityLoadingState): (s: InfinityLoadingState)
    // ShowLoading starts over: loading, no error, no content, no next page pending.
    ensures r.ShowLoading? ==>
      s.isLoading && s.error.None? && s.content == [] && s.nextItemsState == NextItemsState(false, None)
    // ShowError and ShowContent end the first load and leave the next-page status alone.
    ensures r.ShowError? ==>
      !s.isLoading && s.error == Some(r.error)
      && s.content == oldState.content && s.nextItemsState == oldState.nextItemsState
    ensures r.ShowContent? ==>
      !s.isLoading && s.error.None? && s.content == r.content && s.nextItemsState == oldState.nextItemsState
    // The next-page reducers change only the next-page status and, for ShowNextContent, append.
    ensures r.ShowNextLoading? ==> s == oldState.(nextItemsState := NextItemsState(true, None))
    ensures r.ShowNextError? ==> s == oldState.(nextItemsState := NextItemsState(false, Some(r.error)))
    ensures r.ShowNextContent? ==>
      && |s.content| == |oldState.content| + |r.nextContent|
      && s.content[..|oldState.content|] == oldState.content
      && s.content[|oldState.content|..] == r.nextContent
      && s.nextItemsState == NextItemsState(false, None)
      && s.isLoading == oldState.isLoading && s.error == oldState.error
    // The favourite-state reducers change only the entries holding the item's id.
    ensures FavoriteWrapper(r).Some? ==>
      && |s.content| == |oldState.content|
      && s.isLoading == oldState.isLoading && s.error == oldState.error
      && s.nextItemsState == oldState.nextItemsState
      && (forall i :: 0 <= i < |s.content| ==>
            s.content[i] == (if oldState.content[i].item.id == FavoriteWrapper(r).value.item.id
                             then FavoriteWrapper(r).value else oldState.content[i]))
  {
    match r
    case ShowLoading =>
      oldState.(isLoading := true, error := None, content := [], nextItemsState := NextItemsState(false, None))
    case ShowError(error) => oldState.(isLoading := false, error := Some(error))
    case ShowContent(content) => oldState.(isLoading := false, error := None, content := content)
    case ShowNextLoading => oldState.(nextItemsState := NextItemsState(true, None))
    case ShowNextError(error) => oldState.(nextItemsState := NextItemsState(false, Some(error)))
    case ShowNextContent(nextContent) =>
      oldState.(content := oldState.content + nextContent,
                nextItemsState := oldState.nextItemsState.(isLoading := false, error := None))
    case ShowFavoriteItemLoading(_) => oldState.(content := ReplaceItem(oldState.content, FavoriteWrapper(r).value))
    case ShowFavoriteItemError(_, _) => oldState.(content := ReplaceItem(oldState.content, FavoriteWrapper(r).value))
    case ShowUpdatedItem(_) => oldState.(content := ReplaceItem(oldState.content, FavoriteWrapper(r).value))
  }

  /** The ids of the listed items, in order. */
  function Ids(content: seq<ItemWrapper>): (ids: seq<int>)
    ensures |ids| == |content|
    ensures forall i :: 0 <= i < |content| ==> ids[i] == content[i].item.id
  {
    if content == [] then [] else [content[0].item.id] + Ids(content[1..])
  }

  /** A favourite-state reducer never reorders, adds or removes items: the ids stay as they were. */
  lemma FavoriteReducersKeepIds(r: InfinityReducer, s: InfinityLoadingState)
    requires FavoriteWrapper(r).Some?
    ensures Ids(Reduce(r, s).content) == Ids(s.content)
  {
  }

  /**
   * Saving a favourite and then receiving the updated item leaves each of the item's entries
   * holding the updated item, no longer saving and with no error; every other entry is as before.
   */
  lemma SaveThenUpdateSettles(s: InfinityLoadingState, w: ItemWrapper, updated: Item)
    requires updated.id == w.item.id
    ensures var t := Reduce(ShowUpdatedItem(updated), Reduce(ShowFavoriteItemLoading(w), s));
      && |t.content| == |s.content|
      && forall i :: 0 <= i < |s.content| ==>
           t.content[i] == (if s.content[i].item.id == w.item.id then ItemWrapper(updated, false, None) else s.content[i])
  {
  }

  /** Favourite-state reducers for different items commute. */
  lemma {:induction false} FavoriteReducersOnDifferentItemsCommute(r: InfinityReducer, r': InfinityReducer, s: InfinityLoadingState)
    requires FavoriteWrapper(r).Some? && FavoriteWrapper(r').Some?
    requires FavoriteWrapper(r).value.item.id != FavoriteWrapper(r').value.item.id
    ensures Reduce(r', Reduce(r, s)) == Reduce(r, Reduce(r', s))
  {
    var a := Reduce(r', Reduce(r, s));
    var b := Reduce(r, Reduce(r', s));
    assert forall i :: 0 <= i < |a.content| ==> a.content[i] == b.content[i];
  }

  /** A first page followed by a next page shows both, in order, with nothing loading. */
  lemma FirstPageThenNextPage(s: InfinityLoadingState, page: seq<ItemWrapper>, next: seq<ItemWrapper>)
    ensures var t := Reduce(ShowNextContent(next), Reduce(ShowNextLoading, Reduce(ShowContent(page), Reduce(ShowLoading, s))));
      && t.content == page + next
      && !t.isLoading && t.error.None?
      && t.nextItemsState == NextItemsState(false, None)
  {
  }
}
