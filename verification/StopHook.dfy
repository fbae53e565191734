/**
 The Stop hook's own files: when it refuses a stop, and which text a stop it
 lets pass is recorded with.
 */
module StopHooks {
  import opened Records
  import opened OrderedMaps
  import opened WaitingRequests
  import opened Turns
  import opened TurnHistory
  import opened Courses
  import opened HookAgreement
  import opened Channels
  import opened AgreementRuns
  import opened HookServer
  import Ledgers

  /** `stopRefusal`: the requests the model is told to answer, or nothing, and the turn ends. */
  function StopRefusal(active: bool, background: Option<bool>,
                       waiting: Option<seq<RequestId>>): Option<seq<RequestId>> {
    if active || background != Some(false) || waiting.None? || waiting.value == [] then None else waiting
  }

  /**
   A stop after a refused one, one that leaves background work or does not say
   that it leaves none, and one with nothing to answer all pass. Over any run
   of the server whose log is well-formed, any other is refused exactly when
   the ledger has an open request bound to the turn, with the model told of
   all of those, if and only if no message sets one of them apart. Under the
   id a turn goes by that always holds, and under any id retained it names
   none but those.
   */
  lemma RefusesWhatIsOwed(binding: bool, lastStopMs: Option<nat>, events: seq<Event>, graceMs: nat,
                          owning: seq<RequestId>, p: PromptId, active: bool, background: Option<bool>)
    requires WellFormed(binding, lastStopMs, events, graceMs)
    ensures var s := Reach(binding, lastStopMs, events, graceMs).s;
            var log, c := LogOf(TraceOf(binding, lastStopMs, events, graceMs)),
              CourseNow(binding, lastStopMs, events, graceMs);
            var refusal, owed := StopRefusal(active, background, Found(s, log, owning, p)), BoundBy(s, p);
            && (active || background != Some(false) ==> refusal == None)
            && (!active && background == Some(false) ==>
                  && (refusal == (if owed == [] then None else Some(owed)) <==>
                      forall r <- FileOf(s, owning).openIds :: !SetApart(log, s.tracker, c, r, p))
                  && (p !in c.names ==> refusal == if owed == [] then None else Some(owed))
                  && (Retained(s.tracker, c, p) && refusal.Some? ==> forall r <- refusal.value :: r in owed))
  {
    hide *;
    HookFindsTheBound(binding, lastStopMs, events, graceMs, owning, p);
    HookFindsItsTurns(binding, lastStopMs, events, graceMs, owning, p);
    RefusalIs(active, background, Found(Reach(binding, lastStopMs, events, graceMs).s,
                                        LogOf(TraceOf(binding, lastStopMs, events, graceMs)), owning, p));
  }

  lemma RefusalIs(active: bool, background: Option<bool>, waiting: Option<seq<RequestId>>)
    ensures active || background != Some(false) ==> StopRefusal(active, background, waiting) == None
    ensures !active && background == Some(false) ==>
              StopRefusal(active, background, waiting) ==
              if waiting.None? || waiting.value == [] then None else waiting
  {}

  // The text of a refused stop.

  /** What a refused stop kept: its text, if it had one, and when. */
  datatype Kept = Kept(text: Option<string>, atMs: nat)

  /** The hook's two files: the refused stop's, and the time of the last recorded Stop. */
  datatype Files = Files(nudge: Option<Kept>, lastStopMs: Option<nat>)

  /** `removed`: whether deleting the refused stop's file worked. */
  datatype Hooked =
    | Refused(text: Option<string>, atMs: nat)
    | Passed(final: Option<string>, atMs: nat, waits: bool, removed: bool)

  /** `refusedStopText`. */
  function RefusedText(f: Files): Option<string> {
    if f.nudge.None? || (f.lastStopMs.Some? && f.nudge.value.atMs <= f.lastStopMs.value) then None
    else if f.nudge.value.text == Some("") then None
    else f.nudge.value.text
  }

  /** The text a Stop is recorded with: a refused stop's of this turn first, and none when nothing waits for it. */
  function RecordedText(f: Files, final: Option<string>, waits: bool): Option<string> {
    if waits then RefusedText(f).OrElse(final) else None
  }

  /** `recordRefusedStop`, and the Stop branch of `recordHookEvent`. */
  function Write(f: Files, h: Hooked): Files {
    match h
    case Refused(text, at) => f.(nudge := Some(Kept(text, at)))
    case Passed(_, at, _, removed) => Files(if removed then None else f.nudge, Some(at))
  }

  function FilesAfter(hs: seq<Hooked>): Files {
    if hs == [] then Files(None, None) else Write(FilesAfter(hs[..|hs| - 1]), hs[|hs| - 1])
  }

  predicate InOrder(hs: seq<Hooked>) {
    forall i, j :: 0 <= i < j < |hs| ==> hs[i].atMs <= hs[j].atMs
  }

  /** Where the turn now running began: after the last Stop that passed. */
  function TurnStart(hs: seq<Hooked>): (i: nat)
    ensures i <= |hs| && (forall k :: i <= k < |hs| ==> hs[k].Refused?) && (0 < i ==> hs[i - 1].Passed?)
  {
    if hs == [] || hs[|hs| - 1].Passed? then |hs| else TurnStart(hs[..|hs| - 1])
  }

  /** The text of the last stop refused in this turn, if that came later than the Stop before the turn. */
  function TurnsText(hs: seq<Hooked>): Option<string> {
    var start := TurnStart(hs);
    if start == |hs| then None
    else if 0 < start && hs[|hs| - 1].atMs <= hs[start - 1].atMs then None
    else if hs[|hs| - 1].text == Some("") then None
    else hs[|hs| - 1].text
  }

  lemma {:induction false} FilesHold(hs: seq<Hooked>)
    requires InOrder(hs)
    ensures var f, start := FilesAfter(hs), TurnStart(hs);
            && f.lastStopMs == (if start == 0 then None else Some(hs[start - 1].atMs))
            && (start < |hs| ==> f.nudge == Some(Kept(hs[|hs| - 1].text, hs[|hs| - 1].atMs)))
            && (start == |hs| && f.nudge.Some? ==> f.lastStopMs.Some? && f.nudge.value.atMs <= f.lastStopMs.value)
            && (f.nudge.Some? ==> hs != [] && f.nudge.value.atMs <= hs[|hs| - 1].atMs)
  {
    if hs != [] {
      var init := hs[..|hs| - 1];
      assert InOrder(init);
      FilesHold(init);
    }
  }

  /**
   With hooks called in the order of their times, a Stop takes up the text of
   a stop refused in its own turn only: never an earlier turn's, whether or
   not that one's file could be removed. When nothing waits for it, it is
   recorded with none.
   */
  lemma TakesItsOwnTurnsText(hs: seq<Hooked>, final: Option<string>)
    requires InOrder(hs)
    ensures RecordedText(FilesAfter(hs), final, true) == TurnsText(hs).OrElse(final)
    ensures RecordedText(FilesAfter(hs), final, false) == None
  {
    FilesHold(hs);
  }
}
