/** The plan-creation progress view: a percentage that creeps up by 5 per tick and
    stops at 95 until the plan's theme record appears, a rotating status message,
    and a status check that re-arms itself while the record is missing. Timers are
    steps: each call of `Tick`, `RotateMessage` or `CheckPlanStatus` is one firing. */
module PlanProgress {
  import opened Common

  /** The error code the database returns when a single-row query finds no row. */
  const NotFoundCode := "PGRST116"

  const StatusMessages: seq<string> := [
    "Analyzing your career goals...",
    "Cross referencing your goals to skills...",
    "Drafting your personalized plan...",
    "Developing Monthly Themes...",
    "Crafting personalized strategies...",
    "Developing your career roadmap...",
    "Verifying plan with industry standards...",
    "Cross Validating plan with career targets...",
    "Finalizing your career roadmap...",
    "Saving your career plan..."]

  /** How the theme-record query ended: whether a row came back, and the code of the
      error it reported, if any. */
  datatype ThemeLookup = ThemeLookup(found: bool, errorCode: Option<string>)

  /** One firing of the progress interval: +5 below 95, 95 from there on. A progress
      of 100 falls back to 95, since the interval keeps running once the plan is ready. */
  function TickValue(progress: int): (next: int)
    ensures progress < 95 ==> next == progress + 5
    ensures progress >= 95 ==> next == 95
    ensures progress % 5 == 0 ==> next <= 95 && next % 5 == 0
  {
    if progress >= 95 then 95 else progress + 5
  }

  /** The progress after `n` ticks from `start`. */
  function Ticks(start: int, n: nat): int
    decreases n
  {
    if n == 0 then start else Ticks(TickValue(start), n - 1)
  }

  /** From 0, `n` ticks give 5n, capped at 95. */
  lemma {:induction false} TicksFromZero(n: nat)
    ensures Ticks(0, n) == if 5 * n >= 95 then 95 else 5 * n
  {
    TicksFrom(0, n);
  }

  lemma {:induction false} TicksFrom(start: nat, n: nat)
    requires start % 5 == 0 && start <= 95
    ensures Ticks(start, n) == if start + 5 * n >= 95 then 95 else start + 5 * n
    decreases n
  {
    if n > 0 {
      TicksFrom(TickValue(start), n - 1);
    }
  }

  /** The values the bar can show: multiples of 5 from 0 to 100. */
  predicate OnScale(progress: int) {
    0 <= progress <= 100 && progress % 5 == 0
  }

  /** What a status check does, given whether the view is still mounted. */
  datatype CheckDecision = SetReady | Reschedule | Stop | Ignore

  /** `checkPlanStatus` after its query: an error other than not-found ends the
      checks; a row sets progress to 100; no row re-arms the check. Once unmounted,
      nothing is set and nothing re-armed. */
  function Decide(lookup: ThemeLookup, mounted: bool): (d: CheckDecision)
    ensures d == SetReady <==> (mounted && lookup.found
      && (lookup.errorCode.None? || lookup.errorCode.value == NotFoundCode))
    ensures d == Reschedule <==> (mounted && !lookup.found
      && (lookup.errorCode.None? || lookup.errorCode.value == NotFoundCode))
    ensures lookup.errorCode.Some? && lookup.errorCode.value != NotFoundCode ==> d == Stop
  {
    if lookup.errorCode.Some? && lookup.errorCode.value != NotFoundCode then Stop
    else if !mounted then Ignore
    else if lookup.found then SetReady
    else Reschedule
  }

  class ProgressView {
    var progress: int
    var message: string
    var isMounted: bool
    var ticking: bool            // the progress interval is armed
    var rotating: bool           // the message interval is armed
    var checkPending: bool       // a status check is scheduled
    ghost var ready: bool        // a check has found the record while mounted

    /** The bar stays on the scale; until the record is found it stays at or below 95;
        after unmount no timer is armed. */
    ghost predicate Valid()
      reads this
    {
      && OnScale(progress)
      && (!ready ==> progress <= 95)
      && (!isMounted ==> !ticking && !rotating)
    }

    /** Mounting: 0%, the first message, both intervals armed and a first check. */
    constructor ()
      ensures Valid()
      ensures progress == 0 && message == StatusMessages[0] && !ready
      ensures isMounted && ticking && rotating && checkPending
    {
      progress := 0;
      message := StatusMessages[0];
      isMounted := true;
      ticking := true;
      rotating := true;
      checkPending := true;
      ready := false;
    }

    /** A firing of the progress interval. */
    method Tick()
      requires Valid()
      modifies this
      ensures Valid()
      ensures ticking && isMounted ==> progress == TickValue(old(progress))
      ensures !(ticking && isMounted) ==> progress == old(progress)
      ensures message == old(message) && isMounted == old(isMounted) && ready == old(ready)
      ensures ticking == old(ticking) && rotating == old(rotating) && checkPending == old(checkPending)
    {
      if ticking && isMounted {
        progress := TickValue(progress);
      }
    }

    /** A firing of the message interval, with the random pick as a parameter. */
    method RotateMessage(pick: nat)
      requires pick < |StatusMessages|
      modifies this
      ensures rotating && isMounted ==> message == StatusMessages[pick]
      ensures !(rotating && isMounted) ==> message == old(message)
      ensures progress == old(progress) && isMounted == old(isMounted) && ready == old(ready)
      ensures ticking == old(ticking) && rotating == old(rotating) && checkPending == old(checkPending)
    {
      if rotating && isMounted {
        message := StatusMessages[pick];
      }
    }

    /** The pending status check runs with the query's outcome. */
    method CheckPlanStatus(lookup: ThemeLookup)
      requires Valid()
      modifies this
      ensures Valid()
      ensures var d := Decide(lookup, old(isMounted));
        && (d == SetReady ==> progress == 100 && ready)
        && (d != SetReady ==> progress == old(progress) && ready == old(ready))
        && (checkPending <==> d == Reschedule)
      ensures message == old(message) && isMounted == old(isMounted)
      ensures ticking == old(ticking) && rotating == old(rotating)
    {
      checkPending := false;
      var decision := Decide(lookup, isMounted);
      if decision == SetReady {
        progress := 100;
        ready := true;
      } else if decision == Reschedule {
        checkPending := true;
      }
    }

    /** Unmounting: the flag drops and both intervals are cleared; a check already
        scheduled still runs, but by `Decide` it sets and re-arms nothing. */
    method Unmount()
      requires Valid()
      modifies this
      ensures Valid()
      ensures !isMounted && !ticking && !rotating
      ensures progress == old(progress) && message == old(message)
      ensures checkPending == old(checkPending) && ready == old(ready)
    {
      isMounted := false;
      ticking := false;
      rotating := false;
    }
  }
}
