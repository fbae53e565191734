/**
 The frames of an answer said of what the handler and the interceptors do,
 not of how the dispatch goes: the handler's texts in order whatever the
 interceptors are, all the frames when those pass on what they awaited, and
 what those make of it that do not.
 */
module PromptAnswers {
  import opened Records
  import opened OrderedMaps
  import opened PromptDispatch

  /** `n` acks in a row. */
  function Acks(n: nat): seq<Frame> {
    if n == 0 then [] else Acks(n - 1) + [Ack]
  }

  /** What the handler's own steps come to: a chunk for each text, an ack for each tick when those are kept up. */
  function BodyOf(steps: seq<Step>, keepAlive: bool): seq<Frame> {
    if steps == [] then []
    else
      var last := steps[|steps| - 1];
      BodyOf(steps[..|steps| - 1], keepAlive)
      + if last.Send? then [Chunk(last.text)] else if keepAlive then [Ack] else []
  }

  /** An error with the thrown value's own code, or 500. */
  function ErrorOf(failure: Failure): Frame {
    ErrorFrame(if failure.Rejected? then failure.code else 500)
  }

  function Closing(result: Result): seq<Frame> {
    if result.Thrown? then [ErrorOf(result.failure), Terminator] else [Terminator]
  }

  lemma AcksAre(n: nat)
    ensures Acks(n) == seq(n, i requires 0 <= i < n => Ack)
  {
    if n > 0 {
      AcksAre(n - 1);
    }
  }

  lemma {:induction false} AcksMore(m: nat, n: nat)
    ensures Acks(m) + Acks(n) == Acks(m + n)
  {
    if n > 0 {
      AcksMore(m, n - 1);
      Assoc(Acks(m), Acks(n - 1), [Ack]);
    } else {
      Nothing(Acks(m));
    }
  }

  // Whatever the interceptors do.

  /** What was sent so far: nothing, or the ack, all of the handler's frames, and acks of the timer's. */
  ghost predicate Shaped(q: Request, s: State) {
    if !s.started then s.frames == [] && !s.timer
    else
      && s.timer == q.keepAlive
      && exists n: nat :: s.frames == [Ack] + BodyOf(q.handling.steps, q.keepAlive) + Acks(n) && (q.keepAlive || n == 0)
  }

  lemma FiredAcks(s: State, n: nat)
    ensures Fired(s, n) == s.(frames := s.frames + Acks(if s.timer then n else 0))
  {
    AcksAre(n);
    Nothing(s.frames);
  }

  lemma FiredIsShaped(q: Request, s: State, n: nat, now: nat)
    requires Shaped(q, s)
    ensures Shaped(q, Fired(s, n).(now := now))
  {
    FiredAcks(s, n);
    if s.started {
      var body := [Ack] + BodyOf(q.handling.steps, q.keepAlive);
      var m: nat :| s.frames == body + Acks(m) && (q.keepAlive || m == 0);
      var more := if s.timer then n else 0;
      AcksMore(m, more);
      Assoc(body, Acks(m), Acks(more));
      assert Fired(s, n).frames == body + Acks(m + more);
    } else {
      Nothing(s.frames);
    }
  }

  lemma {:induction false} HandleSends(s: State, steps: seq<Step>)
    ensures Handle(s, steps) == s.(frames := s.frames + BodyOf(steps, s.timer))
  {
    if steps == [] {
      Nothing(s.frames);
    } else {
      var init, last := steps[..|steps| - 1], steps[|steps| - 1];
      HandleSends(s, init);
      FiredAcks(Handle(s, init), 1);
      assert Acks(1) == [] + [Ack];
      Assoc(s.frames, BodyOf(init, s.timer), if last.Send? then [Chunk(last.text)] else if s.timer then [Ack] else []);
      Nothing(Handle(s, init).frames);
      hide Handle, Fired;
    }
  }

  /** The innermost `next`, called the first time: the ack, the handler's frames, and what the handler came to. */
  lemma Serves(q: Request, s: State)
    requires !s.started && s.frames == []
    ensures Serve(q, s) ==
            (q.handling.result,
             s.(started := true, timer := q.keepAlive, handled := s.handled + 1, answered := q.handling.result.Done?,
                frames := [Ack] + BodyOf(q.handling.steps, q.keepAlive)))
  {
    var acked := s.(started := true, frames := s.frames + [Ack], timer := q.keepAlive, handled := s.handled + 1);
    assert s.frames + [Ack] == [Ack];
    HandleSends(acked, q.handling.steps);
    hide Handle;
  }

  /** Called again, it throws, and nothing else happens. */
  lemma ServesOnce(q: Request, s: State)
    requires s.started
    ensures Serve(q, s) == (Thrown(Plain), s)
  {}

  lemma ServeIsShaped(q: Request, s: State)
    requires Shaped(q, s)
    ensures Shaped(q, Serve(q, s).1)
  {
    if s.started {
      ServesOnce(q, s);
    } else {
      Serves(q, s);
      var n := Serve(q, s).1;
      Nothing(n.frames);
      assert n.frames == [Ack] + BodyOf(q.handling.steps, q.keepAlive) + Acks(0);
    }
    hide Serve;
  }

  lemma {:induction false} AtIsShaped(q: Request, i: nat, s: State)
    requires i <= |q.interceptors| && Shaped(q, s)
    ensures Shaped(q, At(q, i, s).1)
    decreases |q.interceptors| - i, 1, 0
  {
    hide Shaped, Serve;
    if i == |q.interceptors| {
      ServeIsShaped(q, s);
    } else {
      InterceptIsShaped(q, i, [], s);
    }
  }

  lemma {:induction false} InterceptIsShaped(q: Request, i: nat, seen: seq<Result>, s: State)
    requires i < |q.interceptors| && Shaped(q, s)
    ensures Shaped(q, Intercept(q, i, seen, s).1)
    decreases |q.interceptors| - i, 0, q.interceptors[i].limit + 1 - |seen|
  {
    var move := q.interceptors[i].plan(s.now, seen);
    var waited := Fired(s, move.fires).(now := s.now + 1);
    FiredIsShaped(q, s, move.fires, s.now + 1);
    hide Shaped, Fired;
    if move.Await? {
      AtIsShaped(q, i + 1, waited);
      InterceptIsShaped(q, i, seen + [At(q, i + 1, waited).0], At(q, i + 1, waited).1);
    }
  }

  /** An answer's end: the terminator, after one error frame at most. */
  predicate IsClosing(frames: seq<Frame>) {
    frames == [Terminator] || (|frames| == 2 && frames[0].ErrorFrame? && frames[1] == Terminator)
  }

  /** An answer in full: the ack, the handler's frames, `n` acks after them, and `closing`. */
  ghost predicate Answers(q: Request, frames: seq<Frame>, n: nat, closing: seq<Frame>) {
    && frames == [Ack] + BodyOf(q.handling.steps, q.keepAlive) + Acks(n) + closing
    && IsClosing(closing) && (q.keepAlive || n == 0) && (q.handling.result.Done? ==> closing == [Terminator])
  }

  /**
   Whatever the interceptors do and however often they call `next`: the answer
   is its end alone, or the ack, then exactly the handler's frames, once and
   in order, with the acks that keep it alive, and its end, which tells of no
   error when the handler completed.
   */
  lemma SendsTheHandlersFrames(q: Request)
    requires q.admission.Admitted?
    ensures IsClosing(Dispatch(q)) || exists n: nat, closing :: Answers(q, Dispatch(q), n, closing)
    ensures Reached(q) ==> exists n: nat, closing :: Answers(q, Dispatch(q), n, closing)
  {
    AtIsShaped(q, 0, FRESH);
    AtInOrder(q, 0, FRESH);
    var (result, s) := At(q, 0, FRESH);
    var failure := ChainFailure(result, s);
    var closing :=
      (if failure.Some? && !s.answered then [ErrorFrame(CodeOf(failure.value))] else []) + [Terminator];
    hide At;
    Assoc(s.frames, if failure.Some? && !s.answered then [ErrorFrame(CodeOf(failure.value))] else [], [Terminator]);
    assert Dispatch(q) == s.frames + closing;
    if s.started {
      var n: nat :| s.frames == [Ack] + BodyOf(q.handling.steps, q.keepAlive) + Acks(n) && (q.keepAlive || n == 0);
      assert Answers(q, Dispatch(q), n, closing);
    } else {
      Nothing(closing);
    }
  }

  // Interceptors that pass on what they awaited.

  /** Awaits `next` once, whenever it is called, and comes to what that came to. */
  ghost predicate PassesOn(b: Interceptor) {
    && (forall now: nat :: b.plan(now, []).Await?)
    && (forall now: nat, r: Result :: b.plan(now, [r]).Finish? && b.plan(now, [r]).result == r)
  }

  /** How often the timer fires between the handler's end and the chain's, from interceptor `i` on, called at `now`. */
  function LateFires(q: Request, i: nat, now: nat): nat
    requires i <= |q.interceptors|
    decreases |q.interceptors| - i
  {
    if i == |q.interceptors| then 0
    else
      LateFires(q, i + 1, now + 1)
      + q.interceptors[i].plan(now + 2 * (|q.interceptors| - i) - 1, [q.handling.result]).fires
  }

  /** What was sent once the handler ended and the timer fired `n` times. */
  function Sent(q: Request, n: nat): seq<Frame> {
    [Ack] + BodyOf(q.handling.steps, q.keepAlive) + Acks(if q.keepAlive then n else 0)
  }

  /** The chain has come to the handler's result, at `now`. */
  predicate CameTo(q: Request, s: State, n: State, fires: nat, now: nat) {
    n == s.(started := true, timer := q.keepAlive, handled := s.handled + 1, answered := q.handling.result.Done?,
            frames := Sent(q, fires), now := now)
  }

  lemma SentMore(q: Request, n: State, s: State, fires: nat, more: nat, now: nat)
    requires CameTo(q, s, n, fires, n.now)
    ensures CameTo(q, s, Fired(n, more).(now := now), fires + more, now)
  {
    FiredAcks(n, more);
    var body := [Ack] + BodyOf(q.handling.steps, q.keepAlive);
    if q.keepAlive {
      AcksMore(fires, more);
      Assoc(body, Acks(fires), Acks(more));
    } else {
      Nothing(n.frames);
    }
    hide Fired, BodyOf;
  }

  lemma {:induction false} PassedOn(q: Request, i: nat, s: State)
    requires i <= |q.interceptors| && forall k :: i <= k < |q.interceptors| ==> PassesOn(q.interceptors[k])
    requires !s.started && s.frames == [] && !s.timer
    ensures At(q, i, s).0 == q.handling.result
    ensures CameTo(q, s, At(q, i, s).1, LateFires(q, i, s.now), s.now + 2 * (|q.interceptors| - i))
    decreases |q.interceptors| - i
  {
    if i == |q.interceptors| {
      Serves(q, s);
      Nothing([Ack] + BodyOf(q.handling.steps, q.keepAlive));
      hide Serve, BodyOf;
    } else {
      var b, result := q.interceptors[i], q.handling.result;
      assert PassesOn(b);
      var waited := s.(now := s.now + 1);
      Goes(q, i, [], s);
      assert Fired(s, b.plan(s.now, []).fires).(now := s.now + 1) == waited;
      PassedOn(q, i + 1, waited);
      var n := At(q, i + 1, waited).1;
      Goes(q, i, [result], n);
      var late := b.plan(n.now, [result]);
      assert late.Finish? && late.result == result;
      assert n.now == s.now + 2 * (|q.interceptors| - i) - 1;
      assert [] + [result] == [result];
      hide Fired, CameTo;
      MomentAside(q, waited, s, n, LateFires(q, i + 1, waited.now), n.now);
      SentMore(q, n, s, LateFires(q, i + 1, waited.now), late.fires, n.now + 1);
    }
  }

  lemma MomentAside(q: Request, s: State, t: State, n: State, fires: nat, now: nat)
    requires CameTo(q, s, n, fires, now) && t == s.(now := t.now)
    ensures CameTo(q, t, n, fires, now)
  {}

  /**
   With interceptors that all pass on what they awaited, or with none: the
   answer is the ack, the handler's frames, an ack for each later tick when
   those are kept up, an error with the thrown value's code, or 500, when
   the handler threw, and only then, and the terminator.
   */
  lemma PassedOnAnswers(q: Request)
    requires q.admission.Admitted? && forall b <- q.interceptors :: PassesOn(b)
    ensures Dispatch(q) == Sent(q, LateFires(q, 0, 0)) + Closing(q.handling.result)
  {
    forall k | 0 <= k < |q.interceptors| ensures PassesOn(q.interceptors[k]) {
      assert q.interceptors[k] in q.interceptors;
    }
    PassedOn(q, 0, FRESH);
    var s := At(q, 0, FRESH).1;
    hide At, LateFires, Sent, PassesOn;
    if q.handling.result.Thrown? {
      Assoc(s.frames, [ErrorOf(q.handling.result.failure)], [Terminator]);
    } else {
      Nothing(s.frames);
    }
  }

  // Interceptors that do not.

  /** Frames sent, and then an end: an error only when the handler did not complete and the chain came to one. */
  lemma Closes(q: Request, s: State, result: Result, fires: nat, now: nat)
    requires q.admission.Admitted? && At(q, 0, FRESH) == (result, s) && CameTo(q, FRESH, s, fires, now)
    ensures Dispatch(q) ==
            Sent(q, fires) + if q.handling.result.Done? then [Terminator] else Closing(result)
  {
    hide At, Sent;
    if q.handling.result.Thrown? && result.Thrown? {
      Assoc(s.frames, [ErrorOf(result.failure)], [Terminator]);
    } else {
      Nothing(s.frames);
    }
  }

  /** The first interceptor comes to a result without calling `next`: no ack, and an error, of its own or 500. */
  lemma AnswersForNext(q: Request)
    requires q.admission.Admitted? && q.interceptors != [] && q.interceptors[0].plan(0, []).Finish?
    ensures var own := q.interceptors[0].plan(0, []).result;
            Dispatch(q) == if own.Thrown? then Closing(own) else [ErrorFrame(500), Terminator]
  {
    Goes(q, 0, [], FRESH);
    hide At, Intercept;
  }

  /**
   The first one awaits `next` and comes to a result of its own, the others
   pass on what they awaited: its error is told only when the handler threw,
   and the handler's never.
   */
  lemma AnswersAfterNext(q: Request, own: Result, fires: nat)
    requires q.admission.Admitted? && q.interceptors != []
    requires forall k :: 1 <= k < |q.interceptors| ==> PassesOn(q.interceptors[k])
    requires q.interceptors[0].plan(0, []).Await?
    requires q.interceptors[0].plan(2 * |q.interceptors| - 1, [q.handling.result]) == Finish(fires, own)
    ensures Dispatch(q) == Sent(q, LateFires(q, 1, 1) + fires)
                           + if q.handling.result.Done? then [Terminator] else Closing(own)
  {
    var waited := FRESH.(now := 1);
    Goes(q, 0, [], FRESH);
    assert Fired(FRESH, q.interceptors[0].plan(0, []).fires).(now := 1) == waited;
    PassedOn(q, 1, waited);
    var n := At(q, 1, waited).1;
    assert [] + [q.handling.result] == [q.handling.result];
    Goes(q, 0, [q.handling.result], n);
    hide At, Intercept, Fired, CameTo, PassesOn, LateFires;
    MomentAside(q, waited, FRESH, n, LateFires(q, 1, 1), 2 * |q.interceptors| - 1);
    assert n.now == 2 * |q.interceptors| - 1 by { CameNow(q, waited, n, LateFires(q, 1, 1), 2 * |q.interceptors| - 1); }
    SentMore(q, n, FRESH, LateFires(q, 1, 1), fires, n.now + 1);
    Closes(q, Fired(n, fires).(now := n.now + 1), own, LateFires(q, 1, 1) + fires, n.now + 1);
  }

  lemma CameNow(q: Request, s: State, n: State, fires: nat, now: nat)
    requires CameTo(q, s, n, fires, now)
    ensures n.now == now && n.started
  {}

  /** The only interceptor awaits `next` twice: the second call throws and runs no handler. */
  lemma SecondCallThrows(q: Request, first: nat, second: nat, own: Result)
    requires q.admission.Admitted? && |q.interceptors| == 1
    requires q.interceptors[0].plan(0, []).Await?
    requires q.interceptors[0].plan(1, [q.handling.result]) == Await(first)
    requires q.interceptors[0].plan(2, [q.handling.result, Thrown(Plain)]) == Finish(second, own)
    ensures Dispatch(q) == Sent(q, first + second) + if q.handling.result.Done? then [Terminator] else Closing(own)
    ensures At(q, 0, FRESH).1.handled == 1
  {
    var waited, r := FRESH.(now := 1), q.handling.result;
    Goes(q, 0, [], FRESH);
    assert Fired(FRESH, q.interceptors[0].plan(0, []).fires).(now := 1) == waited;
    PassedOn(q, 1, waited);
    var n := At(q, 1, waited).1;
    CameNow(q, waited, n, 0, 1);
    MomentAside(q, waited, FRESH, n, 0, 1);
    Goes(q, 0, [r], n);
    var m := Fired(n, first).(now := 2);
    SentMore(q, n, FRESH, 0, first, 2);
    CameNow(q, FRESH, m, first, 2);
    ServesOnce(q, m);
    assert At(q, 1, m) == Serve(q, m);
    Goes(q, 0, [r, Thrown(Plain)], m);
    assert [] + [r] == [r] && [r] + [Thrown(Plain)] == [r, Thrown(Plain)];
    hide At, Intercept, Fired, LateFires, Serve;
    SentMore(q, m, FRESH, first, second, 3);
    Closes(q, Fired(m, second).(now := 3), own, first + second, 3);
  }
}
