/**
 The scheduler of the session manager's polls: one task at a time, and a
 trigger that finds one running asks for another.
 */
module PollSchedulers {

  /**
   `Draining`: the task runs. `Drained`: its last run ended, and the trigger
   that began it has not come back yet; `#inFlight` is set in both.
   */
  datatype Phase = Idle | Draining | Drained

  datatype Scheduler = Scheduler(phase: Phase, pending: bool, stopped: bool)

  const FRESH := Scheduler(Idle, false, false)

  /** `Ends`: the awaited task came to its end, by a result or by throwing. `Settles`: the awaiting trigger went on. */
  datatype Event = Trigger | Ends(ok: bool) | Settles | Stop

  function On(s: Scheduler, event: Event): Scheduler {
    match event
    case Trigger =>
      if s.stopped then s
      else if !s.phase.Idle? then s.(pending := true)
      else s.(phase := Draining, pending := false)
    case Ends(ok) =>
      if !s.phase.Draining? then s
      else if ok && s.pending && !s.stopped then s.(pending := false)
      else s.(phase := Drained)
    case Settles => if s.phase.Drained? then s.(phase := Idle) else s
    case Stop => s.(stopped := true)
  }

  /** Whether an event begins a run of the task. */
  predicate Begins(s: Scheduler, event: Event) {
    match event
    case Trigger => !s.stopped && s.phase.Idle?
    case Ends(ok) => s.phase.Draining? && ok && s.pending && !s.stopped
    case _ => false
  }

  /** Runs of the task begun and ended, and whether a trigger is left that no run was begun after. */
  datatype Tally = Tally(s: Scheduler, begun: nat, ended: nat, unserved: bool)

  function Run(events: seq<Event>): Tally {
    if events == [] then Tally(FRESH, 0, 0, false)
    else
      var t := Run(events[..|events| - 1]);
      var event := events[|events| - 1];
      Tally(On(t.s, event),
            t.begun + if Begins(t.s, event) then 1 else 0,
            t.ended + if event.Ends? && t.s.phase.Draining? then 1 else 0,
            if Begins(t.s, event) then false else t.unserved || event.Trigger?)
  }

  /** The task never runs twice at once. */
  lemma {:induction false} OneAtATime(events: seq<Event>)
    ensures var t := Run(events); t.begun - t.ended == if t.s.phase.Draining? then 1 else 0
  {
    if events != [] {
      OneAtATime(events[..|events| - 1]);
    }
  }

  function StateAt(events: seq<Event>, k: nat): Scheduler
    requires k <= |events|
  {
    Run(events[..k]).s
  }

  /** A run of the task begins with event `k`. */
  predicate BeginsAt(events: seq<Event>, k: nat) {
    k < |events| && Begins(StateAt(events, k), events[k])
  }

  /** Event `k` is a trigger that finds the scheduler idle and not stopped. */
  predicate Starts(events: seq<Event>, k: nat) {
    k < |events| && events[k].Trigger? && StateAt(events, k).phase.Idle? && !StateAt(events, k).stopped
  }

  /** The task that runs at event `i` comes to its end at `k`, by a result, and nothing was stopped. */
  ghost predicate GoesOn(events: seq<Event>, i: nat, k: nat) {
    && i < k < |events| && StateAt(events, i).phase.Draining? && events[k] == Ends(true) && !StateAt(events, k).stopped
    && forall j :: i < j < k ==> !events[j].Ends?
  }

  /** A run of the task begins with event `i` or later. */
  ghost predicate Served(events: seq<Event>, i: nat) {
    exists k: nat :: i <= k && BeginsAt(events, k)
  }

  lemma NextState(events: seq<Event>, k: nat)
    requires k < |events|
    ensures StateAt(events, k + 1) == On(StateAt(events, k), events[k])
  {
    assert events[..k + 1][..k] == events[..k];
  }

  /** While no end comes, the task runs on, and a trigger's mark stays unless the scheduler was stopped before it. */
  lemma {:induction false} RunsOn(events: seq<Event>, i: nat, k: nat)
    requires i < k <= |events| && StateAt(events, i).phase.Draining? && events[i].Trigger?
    requires forall j :: i < j < k ==> !events[j].Ends?
    ensures StateAt(events, k).phase.Draining? && (StateAt(events, k).pending || StateAt(events, k).stopped)
  {
    NextState(events, k - 1);
    if i < k - 1 {
      RunsOn(events, i, k - 1);
    }
    hide StateAt;
  }

  /** A task that runs at `k` and was not begun since `i` ran at `i`, and came to no end since. */
  lemma {:induction false} RanBefore(events: seq<Event>, i: nat, k: nat)
    requires i <= k <= |events| && StateAt(events, k).phase.Draining?
    requires forall j: nat :: i <= j < k ==> !BeginsAt(events, j)
    ensures StateAt(events, i).phase.Draining? && forall j :: i <= j < k ==> !events[j].Ends?
  {
    if i < k {
      NextState(events, k - 1);
      assert !BeginsAt(events, k - 1);
      RanBefore(events, i, k - 1);
    }
    hide StateAt;
  }

  lemma {:induction false} FirstBegin(events: seq<Event>, i: nat, n: nat) returns (k: nat)
    requires i <= n && BeginsAt(events, n)
    ensures i <= k && BeginsAt(events, k) && forall j: nat :: i <= j < k ==> !BeginsAt(events, j)
    decreases n - i
  {
    if BeginsAt(events, i) {
      k := i;
    } else {
      k := FirstBegin(events, i + 1, n);
    }
    hide BeginsAt;
  }

  /**
   Over any events whatever: a trigger is followed by a run of the task if
   and only if the task was running and came to its end by a result, with
   nothing stopped, or the trigger itself or a later one found the scheduler
   idle and not stopped. All else loses it: a trigger in the gap, after a
   stop, or under a task that throws or is stopped, when none starts anew.
   */
  lemma EveryTriggerIsServed(events: seq<Event>, i: nat)
    requires i < |events| && events[i].Trigger?
    ensures Served(events, i) <==>
            (exists k: nat :: GoesOn(events, i, k)) || (exists k: nat :: i <= k && Starts(events, k))
  {
    if k: nat :| GoesOn(events, i, k) {
      RunsOn(events, i, k);
      assert BeginsAt(events, k);
    }
    if k: nat :| i <= k && Starts(events, k) {
      assert BeginsAt(events, k);
    }
    if Served(events, i) {
      var n: nat :| i <= n && BeginsAt(events, n);
      var k := FirstBegin(events, i, n);
      if events[k].Trigger? {
        assert Starts(events, k);
      } else {
        RanBefore(events, i, k);
        assert i < k && GoesOn(events, i, k);
      }
    }
    hide StateAt;
  }

  /** However the run came about: a trigger under a running task begins another run iff that task ends by a result. */
  lemma {:induction false} RunningTaskServes(events: seq<Event>, more: seq<Event>, ok: bool)
    requires Run(events).s.phase.Draining? && !Run(events).s.stopped
    requires forall event <- more :: event.Trigger? || event.Settles?
    ensures var s := Run(events + [Trigger] + more).s;
            s.phase.Draining? && !s.stopped && s.pending && (Begins(s, Ends(ok)) <==> ok)
  {
    var before := events + [Trigger];
    assert before[..|events|] == events;
    if more == [] {
      assert before + [] == before;
    } else {
      var init := more[..|more| - 1];
      RunningTaskServes(events, init, ok);
      assert (before + more)[..|before + more| - 1] == before + init;
    }
  }

  /** Nothing begins the task once the scheduler was stopped. */
  lemma {:induction false} StoppedForGood(events: seq<Event>, i: nat, k: nat)
    requires i < k <= |events| && events[i].Stop?
    ensures StateAt(events, k).stopped && !BeginsAt(events, k)
  {
    NextState(events, k - 1);
    if i < k - 1 {
      StoppedForGood(events, i, k - 1);
    }
    hide StateAt;
  }

  lemma {:induction false} MarkedIsUnserved(events: seq<Event>)
    ensures Run(events).s.pending ==> Run(events).unserved
  {
    if events != [] {
      MarkedIsUnserved(events[..|events| - 1]);
    }
  }

  /** The task runs for a trigger only: one that begins it, or one that no run was begun after yet. */
  lemma RunsWhenAsked(events: seq<Event>, event: Event)
    requires Begins(Run(events).s, event)
    ensures event.Trigger? || Run(events).unserved
  {
    MarkedIsUnserved(events);
    hide Run;
  }

  /** A trigger in the gap between a drain's end and its trigger's return, and no other after it, is forgotten. */
  lemma GapForgets(events: seq<Event>)
    requires Run(events).s.phase.Drained? && !Run(events).s.stopped
    ensures var t := Run(events + [Trigger] + [Settles]);
            t.unserved && t.s.phase.Idle? && t.begun == Run(events).begun
  {
    var more := events + [Trigger];
    assert more[..|events|] == events && (more + [Settles])[..|more|] == more;
  }

  /** `BoundedPollScheduler`. */
  class BoundedPollScheduler {
    var phase: Phase
    var pending: bool
    var stopped: bool

    ghost function State(): Scheduler
      reads this
    {
      Scheduler(phase, pending, stopped)
    }

    constructor ()
      ensures State() == FRESH
    {
      phase, pending, stopped := Idle, false, false;
    }

    /** `trigger`, up to its await: whether it begins the task. */
    method Trigger() returns (begins: bool)
      modifies this
      ensures State() == On(old(State()), Event.Trigger) && begins == Begins(old(State()), Event.Trigger)
    {
      if stopped {
        return false;
      }
      if !phase.Idle? {
        pending := true;
        return false;
      }
      phase := Draining;
      pending := false;
      return true;
    }

    /** `#drain`, after its await: whether the task runs again. */
    method TaskEnded(ok: bool) returns (again: bool)
      requires phase.Draining?
      modifies this
      ensures State() == On(old(State()), Ends(ok)) && again == Begins(old(State()), Ends(ok))
    {
      if ok && pending && !stopped {
        pending := false;
        return true;
      }
      phase := Drained;
      return false;
    }

    method Stop()
      modifies this
      ensures State() == On(old(State()), Event.Stop)
    {
      stopped := true;
    }
  }
}
