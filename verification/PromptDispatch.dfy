/**
 The frames a prompt request is answered with: for whatever the envelope
 decodes to, the gate admits, the interceptors do around the step they
 await, and the handler sends and comes to.
 */
module PromptDispatch {
  import opened Records

  datatype Frame = Ack | Chunk(text: string) | ErrorFrame(code: int) | Terminator

  /** A thrown value: one that carries a code of its own, or any other. */
  datatype Failure = Rejected(code: int) | Plain

  /** What an awaited call came to. */
  datatype Result = Done | Thrown(failure: Failure)

  /** What the handler does: sends, and waits in which the keep-alive timer fires. */
  datatype Step = Send(text: string) | Fire

  datatype Handling = Handling(steps: seq<Step>, result: Result)

  /** What an interceptor does next, after `fires` of the timer: await `next()`, or come to a result. */
  datatype Move = Await(fires: nat) | Finish(fires: nat, result: Result)

  /** An interceptor's behaviour, by the moment and by what its calls of `next` came to so far. */
  datatype Behaviour = Behaviour(plan: (nat, seq<Result>) -> Move, limit: nat) {
    ghost predicate Ends() {
      forall now: nat, seen: seq<Result> :: limit < |seen| ==> plan(now, seen).Finish?
    }
  }

  type Interceptor = b: Behaviour | b.Ends() witness Behaviour((_, _) => Finish(0, Done), 0)

  /** What decoding the envelope and asking the gate came to. */
  datatype Admission = Malformed | Refused(code: int) | GateFailed | Admitted

  datatype Request = Request(
    admission: Admission,
    interceptors: seq<Interceptor>,
    handling: Handling,
    keepAlive: bool)

  /** One request's dispatch as it goes: `handled` counts the handler's runs, `now` every await begun. */
  datatype State = State(frames: seq<Frame>, started: bool, answered: bool, timer: bool, handled: nat, now: nat)

  const FRESH := State([], false, false, false, 0, 0)

  /** The timer fires `n` times. */
  function Fired(s: State, n: nat): State {
    if !s.timer then s else s.(frames := s.frames + seq(n, i requires 0 <= i < n => Ack))
  }

  function Handle(s: State, steps: seq<Step>): State {
    if steps == [] then s
    else
      var before := Handle(s, steps[..|steps| - 1]);
      match steps[|steps| - 1]
      case Send(text) => before.(frames := before.frames + [Chunk(text)])
      case Fire => Fired(before, 1)
  }

  /** `serve`: the leading ack, the keep-alive timer, the handler; a second call throws. */
  function Serve(q: Request, s: State): (Result, State) {
    if s.started then (Thrown(Plain), s)
    else
      var acked := s.(started := true, frames := s.frames + [Ack], timer := q.keepAlive, handled := s.handled + 1);
      var after := Handle(acked, q.handling.steps);
      (q.handling.result, after.(answered := q.handling.result.Done?))
  }

  /** `at(i)` of `runIntercepted`. */
  function At(q: Request, i: nat, s: State): (Result, State)
    requires i <= |q.interceptors|
    decreases |q.interceptors| - i, 1, 0
  {
    if i == |q.interceptors| then Serve(q, s) else Intercept(q, i, [], s)
  }

  function Intercept(q: Request, i: nat, seen: seq<Result>, s: State): (Result, State)
    requires i < |q.interceptors|
    decreases |q.interceptors| - i, 0, q.interceptors[i].limit + 1 - |seen|
  {
    var move := q.interceptors[i].plan(s.now, seen);
    var waited := Fired(s, move.fires).(now := s.now + 1);
    match move
    case Finish(_, result) => (result, waited)
    case Await(_) =>
      var (result, after) := At(q, i + 1, waited);
      Intercept(q, i, seen + [result], after)
  }

  /** How the chain goes on from a move of interceptor `i` that was just made. */
  function Going(q: Request, i: nat, seen: seq<Result>, move: Move, s: State): (Result, State)
    requires i < |q.interceptors|
  {
    match move
    case Finish(_, end) => (end, s)
    case Await(_) =>
      var (result, after) := At(q, i + 1, s);
      Intercept(q, i, seen + [result], after)
  }

  lemma Goes(q: Request, i: nat, seen: seq<Result>, s: State)
    requires i < |q.interceptors|
    ensures var move := q.interceptors[i].plan(s.now, seen);
            Intercept(q, i, seen, s) == Going(q, i, seen, move, Fired(s, move.fires).(now := s.now + 1))
    ensures At(q, i, s) == Intercept(q, i, [], s)
  {}

  /** `rejectionOf`, and the code of a plain failure. */
  function CodeOf(failure: Failure): int {
    match failure
    case Rejected(code) => code
    case Plain => 500
  }

  /** What the chain's failure is, if it failed: an interceptor that never called `next` gave no answer. */
  function ChainFailure(result: Result, s: State): Option<Failure> {
    match result
    case Thrown(failure) => Some(failure)
    case Done => if s.started then None else Some(Plain)
  }

  /** `#dispatchPrompt`: all the frames of the answer. */
  function Dispatch(q: Request): seq<Frame> {
    match q.admission
    case Malformed => [ErrorFrame(400), Terminator]
    case Refused(code) => [ErrorFrame(code), Terminator]
    case GateFailed => [ErrorFrame(500), Terminator]
    case Admitted =>
      var (result, s) := At(q, 0, FRESH);
      var failure := ChainFailure(result, s);
      s.frames + (if failure.Some? && !s.answered then [ErrorFrame(CodeOf(failure.value))] else []) + [Terminator]
  }

  // What every answer keeps to.

  predicate IsBody(frame: Frame) {
    frame.Ack? || frame.Chunk?
  }

  /** Nothing was sent before the first `serve`; from then on the ack leads, and the handler ran once. */
  ghost predicate InOrder(q: Request, s: State) {
    && (forall frame <- s.frames :: IsBody(frame))
    && (!s.started ==> s == FRESH.(now := s.now))
    && (s.started ==> s.frames != [] && s.frames[0] == Ack && s.handled == 1 && s.timer == q.keepAlive)
    && (s.started ==> s.answered == q.handling.result.Done?)
    && (!q.keepAlive ==> forall k :: 0 < k < |s.frames| ==> s.frames[k] != Ack)
  }

  lemma FiredInOrder(q: Request, s: State, n: nat)
    requires InOrder(q, s)
    ensures InOrder(q, Fired(s, n)) && Fired(s, n) == s.(frames := Fired(s, n).frames)
  {}

  lemma {:induction false} HandleInOrder(q: Request, s: State, steps: seq<Step>)
    requires InOrder(q, s) && s.started
    ensures InOrder(q, Handle(s, steps)) && Handle(s, steps) == s.(frames := Handle(s, steps).frames)
  {
    if steps != [] {
      HandleInOrder(q, s, steps[..|steps| - 1]);
      FiredInOrder(q, Handle(s, steps[..|steps| - 1]), 1);
      hide Fired;
    }
  }

  lemma ServeInOrder(q: Request, s: State)
    requires InOrder(q, s)
    ensures var (result, after) := Serve(q, s); InOrder(q, after) && after.started
  {
    if !s.started {
      var acked := s.(started := true, frames := s.frames + [Ack], timer := q.keepAlive, handled := s.handled + 1,
                      answered := q.handling.result.Done?);
      assert s.frames + [Ack] == [Ack];
      HandleInOrder(q, acked, q.handling.steps);
      HandleSame(acked.(answered := false), acked, q.handling.steps);
    }
  }

  lemma {:induction false} HandleSame(s: State, t: State, steps: seq<Step>)
    requires s == t.(answered := s.answered)
    ensures Handle(s, steps) == Handle(t, steps).(answered := s.answered)
  {
    if steps != [] {
      HandleSame(s, t, steps[..|steps| - 1]);
    }
  }

  lemma {:induction false} AtInOrder(q: Request, i: nat, s: State)
    requires i <= |q.interceptors| && InOrder(q, s)
    ensures InOrder(q, At(q, i, s).1)
    decreases |q.interceptors| - i, 1, 0
  {
    if i == |q.interceptors| {
      ServeInOrder(q, s);
    } else {
      InterceptInOrder(q, i, [], s);
    }
  }

  lemma {:induction false} InterceptInOrder(q: Request, i: nat, seen: seq<Result>, s: State)
    requires i < |q.interceptors| && InOrder(q, s)
    ensures InOrder(q, Intercept(q, i, seen, s).1)
    decreases |q.interceptors| - i, 0, q.interceptors[i].limit + 1 - |seen|
  {
    var move := q.interceptors[i].plan(s.now, seen);
    var waited := Fired(s, move.fires).(now := s.now + 1);
    FiredInOrder(q, s, move.fires);
    assert InOrder(q, waited);
    hide InOrder, Fired;
    if move.Await? {
      AtInOrder(q, i + 1, waited);
      InterceptInOrder(q, i, seen + [At(q, i + 1, waited).0], At(q, i + 1, waited).1);
    }
  }

  /** Whether the interceptors let the request through to the innermost `next`. */
  predicate Reached(q: Request) {
    q.admission.Admitted? && At(q, 0, FRESH).1.started
  }

  /** The answer reports an error: the request was refused, or failed before the handler completed. */
  predicate ReportsError(q: Request) {
    !q.admission.Admitted? ||
    var (result, s) := At(q, 0, FRESH);
    !s.answered && (result.Thrown? || !s.started)
  }

  /**
   The code an error is reported with: 400 for the envelope, the gate's or the
   thrown value's own, 500 for any other.
   */
  function ErrorCode(q: Request): int
    requires ReportsError(q)
  {
    match q.admission
    case Malformed => 400
    case Refused(code) => code
    case GateFailed => 500
    case Admitted =>
      var result := At(q, 0, FRESH).0;
      if result.Thrown? && result.failure.Rejected? then result.failure.code else 500
  }

  /**
   Every answer ends with its one terminator. It has one error frame, right
   before the terminator, when it reports an error, and none otherwise; a
   request whose handler completed reports none. It is acknowledged, first
   of all, exactly when the innermost `next` was reached, and then the
   handler ran, once.
   */
  lemma AnswersInOrder(q: Request)
    ensures var frames, last := Dispatch(q), |Dispatch(q)| - 1;
            && 0 <= last && (forall k :: 0 <= k <= last ==> (frames[k].Terminator? <==> k == last))
            && (forall k :: 0 <= k <= last ==> (frames[k].ErrorFrame? <==> k == last - 1 && ReportsError(q)))
            && (ReportsError(q) ==> 0 < last)
            && (Reached(q) ==> 0 < last && frames[0] == Ack)
            && (!Reached(q) ==> Ack !in frames)
            && (!q.keepAlive ==> forall k :: 0 < k <= last ==> frames[k] != Ack)
            && (ReportsError(q) ==> frames[last - 1] == ErrorFrame(ErrorCode(q)))
    ensures Reached(q) && q.handling.result.Done? ==> !ReportsError(q)
    ensures q.admission.Admitted? ==> At(q, 0, FRESH).1.handled == if Reached(q) then 1 else 0
  {
    if q.admission.Admitted? {
      AtInOrder(q, 0, FRESH);
      hide At;
      var body := At(q, 0, FRESH).1.frames;
      assert forall k :: 0 <= k < |body| ==> Dispatch(q)[k] == body[k] && IsBody(body[k]);
    }
  }
}

/** A dispatch as it runs. */
module PromptDispatching {
  import opened Records
  import opened PromptDispatch

  class Dispatcher {
    const q: Request
    var frames: seq<Frame>
    var started: bool
    var answered: bool
    var timer: bool
    var handled: nat
    var now: nat

    ghost function StateNow(): State
      reads this
    {
      State(frames, started, answered, timer, handled, now)
    }

    constructor (q: Request)
      ensures this.q == q && StateNow() == FRESH
    {
      this.q, frames, started, answered, timer, handled, now := q, [], false, false, false, 0, 0;
    }

    /** The timer's callback, `n` times over: it answers while it is set. */
    method Fire(n: nat)
      modifies this`frames
      ensures StateNow() == Fired(old(StateNow()), n)
    {
      if timer {
        frames := frames + seq(n, i requires 0 <= i < n => Ack);
      }
    }

    /** `serve`, with `#ackAndKeepAlive` and the awaited handler. */
    method Serve() returns (result: Result)
      modifies this
      ensures (result, StateNow()) == PromptDispatch.Serve(q, old(StateNow()))
    {
      if started {
        return Thrown(Plain);
      }
      started := true;
      frames := frames + [Ack];
      timer := q.keepAlive;
      handled := handled + 1;
      ghost var acked := StateNow();
      var steps := q.handling.steps;
      for i := 0 to |steps|
        invariant StateNow() == Handle(acked, steps[..i])
      {
        assert steps[..i + 1][..i] == steps[..i];
        match steps[i] {
          case Send(text) => frames := frames + [Chunk(text)];
          case Fire => Fire(1);
        }
      }
      assert steps[..|steps|] == steps;
      result := q.handling.result;
      answered := result.Done?;
    }

    /** What interceptor `i` does until it calls `next` again or comes to a result. */
    method MoveOn(i: nat, seen: seq<Result>) returns (move: Move)
      requires i < |q.interceptors|
      modifies this
      ensures Intercept(q, i, seen, old(StateNow())) == Going(q, i, seen, move, StateNow())
      ensures q.interceptors[i].limit < |seen| ==> move.Finish?
    {
      hide Intercept, Going;
      Goes(q, i, seen, StateNow());
      move := q.interceptors[i].plan(now, seen);
      Fire(move.fires);
      now := now + 1;
    }

    /** `at(i)` of `runIntercepted`. */
    method At(i: nat) returns (result: Result)
      requires i <= |q.interceptors|
      modifies this
      ensures (result, StateNow()) == PromptDispatch.At(q, i, old(StateNow()))
      decreases |q.interceptors| - i
    {
      if i == |q.interceptors| {
        result := Serve();
        return;
      }
      hide PromptDispatch.Serve, PromptDispatch.At, Intercept;
      Goes(q, i, [], StateNow());
      var seen: seq<Result> := [];
      var move := MoveOn(i, seen);
      while move.Await?
        invariant PromptDispatch.At(q, i, old(StateNow())) == Going(q, i, seen, move, StateNow())
        invariant q.interceptors[i].limit < |seen| ==> move.Finish?
        decreases q.interceptors[i].limit + 1 - |seen|
      {
        var r := At(i + 1);
        seen := seen + [r];
        move := MoveOn(i, seen);
      }
      result := move.result;
    }

    /** `#dispatchPrompt`. */
    method Dispatch()
      requires StateNow() == FRESH
      modifies this
      ensures frames == PromptDispatch.Dispatch(q)
      ensures handled == if Reached(q) then 1 else 0
    {
      AnswersInOrder(q);
      match q.admission {
        case Malformed => frames := [ErrorFrame(400)];
        case Refused(code) => frames := [ErrorFrame(code)];
        case GateFailed => frames := [ErrorFrame(500)];
        case Admitted =>
          var result := At(0);
          if result.Done? && !started {
            result := Thrown(Plain);
          }
          timer := false;
          if result.Thrown? && !answered {
            frames := frames + [ErrorFrame(CodeOf(result.failure))];
          }
      }
      frames := frames + [Terminator];
    }
  }
}
