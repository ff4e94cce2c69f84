/**
 * ViewFinishingDetector: whether a view that is going away is gone for good, so that its
 * Coreactor can be cleared, or is only being recreated. Only the flags the rule reads are kept.
 */
module Finishing {
  import opened Wrappers

  datatype Activity = Activity(isChangingConfigurations: bool, isFinishing: bool)

  /** A fragment, with the activity it is attached to, if any. */
  datatype Fragment = Fragment(activity: Option<Activity>, isRemoving: bool)

  /**
   * `isFinishing(activity)`: an activity is gone for good when it finishes without being
   * recreated; a finishing activity's removed fragments then do not report finishing.
   */
  predicate ActivityIsFinishing(a: Activity)
    ensures a.isChangingConfigurations ==> !ActivityIsFinishing(a)
    ensures !a.isChangingConfigurations ==> (ActivityIsFinishing(a) <==> a.isFinishing)
    ensures ActivityIsFinishing(a) ==> FragmentIsFinishing(Fragment(Some(a), true)) == Ok(false)
  {
    !a.isChangingConfigurations && a.isFinishing
  }

  /** `isFinishing(fragment)`; a fragment with no activity raises a CoreactorException. */
  function FragmentIsFinishing(f: Fragment): (r: Result<bool>)
    ensures r.Err? <==> f.activity.None?
    ensures r.Err? ==> r.error == FragmentNotAttached
    ensures f.activity.Some? && (f.activity.value.isChangingConfigurations || f.activity.value.isFinishing)
      ==> r == Ok(false)
    ensures f.activity.Some? && !f.activity.value.isChangingConfigurations && !f.activity.value.isFinishing
      ==> r == Ok(f.isRemoving)
  {
    match f.activity
    case None => Err(FragmentNotAttached)
    case Some(a) =>
      if a.isChangingConfigurations || a.isFinishing then Ok(false) else Ok(f.isRemoving)
  }

  /**
   * A fragment counts as finishing only when it is being removed from an activity that is
   * itself neither finishing nor being recreated: a finishing activity clears its own
   * Coreactors, so its fragments never report it a second time.
   */
  lemma FragmentAndActivityNeverBothFinishing(f: Fragment)
    requires f.activity.Some?
    ensures FragmentIsFinishing(f) == Ok(true) ==> !ActivityIsFinishing(f.activity.value) && f.isRemoving
    ensures ActivityIsFinishing(f.activity.value) ==> FragmentIsFinishing(f) == Ok(false)
  {
  }

  /** During a configuration change neither an activity nor its fragments are finishing. */
  lemma ConfigurationChangeIsNotFinishing(f: Fragment)
    requires f.activity.Some? && f.activity.value.isChangingConfigurations
    ensures !ActivityIsFinishing(f.activity.value) && FragmentIsFinishing(f) == Ok(false)
  {
  }
}
