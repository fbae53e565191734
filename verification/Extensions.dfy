/**
 Extensions' wrappers around a step of the channel's: whatever they do, the
 step runs once and its outcome is what the channel sees; what they did
 wrong is reported.
 */
module Extensions {
  import opened Records

  /** What a step or a wrapper returns; a promise is never compared with another value. */
  datatype Value = Plain(n: int) | Promise(n: int)
  datatype Error = Error(n: int)
  datatype Outcome = Returned(value: Value) | Threw(error: Error)

  /** What a wrapper does next, given what its calls of `run` gave so far. */
  datatype Move = Again | End(outcome: Outcome)

  /** A wrapper's synchronous behaviour; it calls `run` no more than `limit` times once the first gave an outcome. */
  datatype Behaviour = Behaviour(plan: seq<Outcome> -> Move, limit: Outcome -> nat) {
    ghost predicate Ends() {
      forall seen: seq<Outcome> :: seen != [] && limit(seen[0]) < |seen| ==> plan(seen).End?
    }
  }

  type Wrapper = w: Behaviour | w.Ends() witness Behaviour(_ => End(Returned(Plain(0))), _ => 0)

  /** Reports are made once for each key: the extension's place in the list, and what it did. */
  datatype Report = Failed(extension: nat) | RanTwice(extension: nat) | OtherValue(extension: nat)

  /** The step's runs so far, and the reports made. */
  datatype State = State(runs: nat, reported: set<Report>)

  /** What the wrapper's code came to: how it ended, what its first `run` gave, if it called it, and the state then. */
  datatype Invoked = Invoked(end: Outcome, first: Option<Outcome>, s: State)

  function Note(s: State, report: Report): State {
    s.(reported := s.reported + {report})
  }

  /** `next`, once the wrappers from `i` on are nested around the step; its k-th run gives `step(k)`. */
  function Nested(ws: seq<Wrapper>, i: nat, step: nat -> Outcome, s: State): (Outcome, State)
    requires i <= |ws|
    decreases |ws| - i, 2
  {
    if i == |ws| then (step(s.runs), s.(runs := s.runs + 1)) else Guarded(ws, i, step, s)
  }

  /** `invoke(once)`. */
  function Invoke(ws: seq<Wrapper>, i: nat, step: nat -> Outcome, s: State): Invoked
    requires i < |ws|
    decreases |ws| - i, 0
  {
    match ws[i].plan([])
    case End(outcome) => Invoked(outcome, None, s)
    case Again =>
      var (outcome, after) := Nested(ws, i + 1, step, s);
      InvokeMore(ws[i], i, [outcome], after)
  }

  /** A further call of `run` is reported, and given what the first one gave. */
  function InvokeMore(w: Wrapper, i: nat, seen: seq<Outcome>, s: State): Invoked
    requires seen != []
    decreases w.limit(seen[0]) + 1 - |seen|
  {
    match w.plan(seen)
    case End(outcome) => Invoked(outcome, Some(seen[0]), s)
    case Again => InvokeMore(w, i, seen + [seen[0]], Note(s, RanTwice(i)))
  }

  predicate SameValue(a: Value, b: Value) {
    a.Promise? || b.Promise? || a == b
  }

  /** What the channel gets, and is told, once the wrapper's code came to `r`. */
  function Settle(ws: seq<Wrapper>, i: nat, step: nat -> Outcome, r: Invoked): (Outcome, State)
    requires i < |ws|
    decreases |ws| - i, 0
  {
    if r.first.None? then Nested(ws, i + 1, step, Note(r.s, Failed(i)))
    else
      var outcome := r.first.value;
      if r.end.Threw? then (outcome, if r.end == outcome then r.s else Note(r.s, Failed(i)))
      else if outcome.Threw? || SameValue(outcome.value, r.end.value) then (outcome, r.s)
      else (outcome, Note(r.s, OtherValue(i)))
  }

  /** `guarded`. */
  function Guarded(ws: seq<Wrapper>, i: nat, step: nat -> Outcome, s: State): (Outcome, State)
    requires i < |ws|
    decreases |ws| - i, 1
  {
    Settle(ws, i, step, Invoke(ws, i, step, s))
  }

  // What a wrapper deserves.

  /** A wrapper's course when every `run` gives `outcome`: how often it calls `run`, and how it ends. */
  function Course(w: Wrapper, outcome: Outcome): (nat, Outcome) {
    match w.plan([])
    case End(end) => (0, end)
    case Again => CourseMore(w, [outcome])
  }

  function CourseMore(w: Wrapper, seen: seq<Outcome>): (c: (nat, Outcome))
    requires seen != []
    ensures |seen| <= c.0
    decreases w.limit(seen[0]) + 1 - |seen|
  {
    match w.plan(seen)
    case End(end) => (|seen|, end)
    case Again => CourseMore(w, seen + [seen[0]])
  }

  /** Called `run` once, and passed on what it gave: the contract of a wrapper. */
  predicate KeepsContract(w: Wrapper, outcome: Outcome) {
    var (calls, end) := Course(w, outcome);
    calls == 1 && (end == outcome || (end.Returned? && outcome.Returned? && SameValue(outcome.value, end.value)))
  }

  function Deserves(w: Wrapper, i: nat, outcome: Outcome): set<Report> {
    (if Course(w, outcome).0 > 1 then {RanTwice(i)} else {}) + DeservesAtEnd(w, i, outcome)
  }

  function DeservesAtEnd(w: Wrapper, i: nat, outcome: Outcome): set<Report> {
    var (calls, end) := Course(w, outcome);
    if calls == 0 || (end.Threw? && end != outcome) then {Failed(i)}
    else if end.Returned? && outcome.Returned? && !SameValue(outcome.value, end.value) then {OtherValue(i)}
    else {}
  }

  function DeservedFrom(ws: seq<Wrapper>, i: nat, outcome: Outcome): set<Report>
    requires i <= |ws|
    decreases |ws| - i
  {
    if i == |ws| then {} else Deserves(ws[i], i, outcome) + DeservedFrom(ws, i + 1, outcome)
  }

  lemma {:induction false} InvokeOnCourse(w: Wrapper, i: nat, seen: seq<Outcome>, s: State)
    requires seen != []
    ensures var (calls, end) := CourseMore(w, seen);
            InvokeMore(w, i, seen, s) ==
              Invoked(end, Some(seen[0]), if calls == |seen| then s else Note(s, RanTwice(i)))
    decreases w.limit(seen[0]) + 1 - |seen|
  {
    if w.plan(seen).Again? {
      InvokeOnCourse(w, i, seen + [seen[0]], Note(s, RanTwice(i)));
      assert Note(Note(s, RanTwice(i)), RanTwice(i)) == Note(s, RanTwice(i));
    }
  }

  lemma SetsUnite<T>(a: set<T>, inner: set<T>, twice: set<T>, rest: set<T>)
    ensures a + inner + twice + rest == a + (twice + rest + inner)
    ensures a + rest + inner == a + ({} + rest + inner)
  {}

  lemma SettledWithRest(ws: seq<Wrapper>, i: nat, step: nat -> Outcome, r: Invoked, outcome: Outcome)
    requires i < |ws| && r.first == Some(outcome) && Course(ws[i], outcome) == (Course(ws[i], outcome).0, r.end)
    requires Course(ws[i], outcome).0 > 0
    ensures Settle(ws, i, step, r) == (outcome, State(r.s.runs, r.s.reported + DeservesAtEnd(ws[i], i, outcome)))
  {
    hide Course;
    assert r.s.reported + {} == r.s.reported;
  }

  /** One wrapper around a step that runs once and gives `outcome`. */
  lemma GuardedOnce(ws: seq<Wrapper>, i: nat, step: nat -> Outcome, s: State, outcome: Outcome, inner: set<Report>)
    requires i < |ws|
    requires forall t: State :: t.runs == s.runs ==>
               Nested(ws, i + 1, step, t) == (outcome, State(s.runs + 1, t.reported + inner))
    ensures Guarded(ws, i, step, s) == (outcome, State(s.runs + 1, s.reported + (Deserves(ws[i], i, outcome) + inner)))
  {
    var w := ws[i];
    var (calls, end) := Course(w, outcome);
    assert Nested(ws, i + 1, step, s) == (outcome, State(s.runs + 1, s.reported + inner));
    var rest := DeservesAtEnd(w, i, outcome);
    if w.plan([]).End? {
      assert Nested(ws, i + 1, step, Note(s, Failed(i))) ==
             (outcome, State(s.runs + 1, s.reported + {Failed(i)} + inner));
      SetsUnite(s.reported, inner, {}, rest);
    } else {
      var twice := if calls > 1 then {RanTwice(i)} else {};
      InvokeOnCourse(w, i, [outcome], State(s.runs + 1, s.reported + inner));
      hide CourseMore, InvokeMore, Nested, DeservesAtEnd, Settle;
      assert s.reported + inner + {} == s.reported + inner;
      assert Invoke(ws, i, step, s) == Invoked(end, Some(outcome), State(s.runs + 1, s.reported + inner + twice));
      SettledWithRest(ws, i, step, Invoke(ws, i, step, s), outcome);
      SetsUnite(s.reported, inner, twice, rest);
    }
  }

  /**
   For any wrappers, behaving in any way: the step runs exactly once, its
   outcome is the outcome, and each wrapper is reported for exactly what it
   did wrong.
   */
  lemma {:induction false} RunsOnce(ws: seq<Wrapper>, i: nat, step: nat -> Outcome, s: State)
    requires i <= |ws|
    ensures var outcome := step(s.runs);
            Nested(ws, i, step, s) == (outcome, State(s.runs + 1, s.reported + DeservedFrom(ws, i, outcome)))
    decreases |ws| - i
  {
    if i == |ws| {
      assert s.reported + {} == s.reported;
    } else {
      var outcome := step(s.runs);
      var inner := DeservedFrom(ws, i + 1, outcome);
      forall t: State | t.runs == s.runs
        ensures Nested(ws, i + 1, step, t) == (outcome, State(s.runs + 1, t.reported + inner)) {
        RunsOnce(ws, i + 1, step, t);
      }
      GuardedOnce(ws, i, step, s, outcome, inner);
    }
  }

  /** An extension is reported exactly when its wrapper broke the contract. */
  lemma ReportedIfMisbehaved(w: Wrapper, i: nat, outcome: Outcome)
    ensures Deserves(w, i, outcome) == {} <==> KeepsContract(w, outcome) || SwallowsOnce(w, outcome)
  {}

  /**
   What a wrapper is reported for: running the step more than once; failing,
   by running it never or by throwing what the step did not throw; and
   returning, of a step that returned, another value, promises aside.
   */
  lemma ReportedFor(w: Wrapper, i: nat, outcome: Outcome, report: Report)
    ensures var (calls, end) := Course(w, outcome);
            report in Deserves(w, i, outcome) <==>
            || (report == RanTwice(i) && calls > 1)
            || (report == Failed(i) && (calls == 0 || (end.Threw? && end != outcome)))
            || (report == OtherValue(i) && calls > 0 && end.Returned? && outcome.Returned?
                && end.value.Plain? && outcome.value.Plain? && end.value != outcome.value)
  {}

  /** The step threw, and the wrapper, having run it once, returned all the same: not reported, and not heeded. */
  predicate SwallowsOnce(w: Wrapper, outcome: Outcome) {
    outcome.Threw? && Course(w, outcome).0 == 1 && Course(w, outcome).1.Returned?
  }
}

/** The wrappers as they run. */
module ExtensionHosting {
  import opened Records
  import opened Extensions

  class ExtensionHost {
    const wrappers: seq<Wrapper>
    const step: nat -> Outcome
    var runs: nat
    var reported: set<Report>

    ghost function StateNow(): State
      reads this
    {
      State(runs, reported)
    }

    constructor (wrappers: seq<Wrapper>, step: nat -> Outcome)
      ensures this.wrappers == wrappers && this.step == step && StateNow() == State(0, {})
    {
      this.wrappers, this.step := wrappers, step;
      runs, reported := 0, {};
    }

    method LogOnce(report: Report)
      modifies this
      ensures StateNow() == Note(old(StateNow()), report)
    {
      if report !in reported {
        reported := reported + {report};
      }
    }

    /** `next`, once the wrappers from `i` on are nested around the step. */
    method Next(i: nat) returns (outcome: Outcome)
      requires i <= |wrappers|
      modifies this
      ensures (outcome, StateNow()) == Nested(wrappers, i, step, old(StateNow()))
      decreases |wrappers| - i, 1
    {
      if i == |wrappers| {
        outcome := step(runs);
        runs := runs + 1;
      } else {
        outcome := Guarded(i);
      }
    }

    /** `guarded`; `first` is what `called`, `value`, `stepThrew` and `stepError` hold. */
    method Guarded(i: nat) returns (outcome: Outcome)
      requires i < |wrappers|
      modifies this
      ensures (outcome, StateNow()) == Extensions.Guarded(wrappers, i, step, old(StateNow()))
      decreases |wrappers| - i, 0
    {
      var w := wrappers[i];
      var first: Option<Outcome> := None;
      var seen: seq<Outcome> := [];
      var move := w.plan(seen);
      if move.Again? {
        var got := Next(i + 1);
        first, seen := Some(got), [got];
        move := w.plan(seen);
        while move.Again?
          invariant seen != [] && first == Some(seen[0]) && move == w.plan(seen)
          invariant InvokeMore(w, i, seen, StateNow()) == Invoke(wrappers, i, step, old(StateNow()))
          decreases w.limit(seen[0]) + 1 - |seen|
        {
          LogOnce(RanTwice(i));
          seen := seen + [seen[0]];
          move := w.plan(seen);
        }
      }
      assert Invoked(move.outcome, first, StateNow()) == Invoke(wrappers, i, step, old(StateNow()));
      var end := move.outcome;
      if end.Threw? {
        if first == Some(end) {
          return end;
        }
        LogOnce(Failed(i));
        if first.None? {
          outcome := Next(i + 1);
          return;
        }
        return first.value;
      }
      if first.Some? && first.value.Threw? {
        return first.value;
      }
      if first.None? {
        LogOnce(Failed(i));
        outcome := Next(i + 1);
        return;
      }
      if !SameValue(first.value.value, end.value) {
        LogOnce(OtherValue(i));
      }
      return first.value;
    }

    /** `wrapAll`: the step runs exactly once, and its outcome is what the channel gets. */
    method WrapAll() returns (outcome: Outcome)
      modifies this
      ensures outcome == step(old(runs)) && runs == old(runs) + 1
      ensures reported == old(reported) + DeservedFrom(wrappers, 0, outcome)
    {
      RunsOnce(wrappers, 0, step, StateNow());
      outcome := Next(0);
    }
  }
}
