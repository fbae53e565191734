/**
 The turn tracker as a value: what each record does to its state, and which
 calls it then makes to the server, in order.
 The class `TurnTracker` updates its fields in place; every method is tied
 to the function of the same name, and the theorems are about the functions.
 */
module Turns {
  import opened Records
  import opened OrderedMaps

  /** How many ended turns, and how many aliases, are remembered. */
  const ENDED_KEPT: nat := 256
  const LOCAL_TURN_PREFIX := "local-"

  datatype TurnKind = Served | Local

  /** The name and session that a local turn's two events carry. */
  datatype LocalTurn = LocalTurn(id: string, sessionId: Option<string>)

  datatype Turn = Turn(
    promptId: PromptId,
    kind: TurnKind,
    startedAtMs: nat,
    sessionId: Option<string>,
    requests: seq<RequestId>,
    local: Option<LocalTurn>)

  /** The open turn; a message with a new id renames it while `batchUntilMs` is there and not past. */
  datatype OpenTurn = OpenTurn(turn: Turn, batchUntilMs: Option<nat>)

  datatype TurnEnd =
    | StopEnd(stop: StopRecord)
    | FailureEnd(failedAtMs: nat, error: Option<string>, errorDetails: Option<string>)
    | NextEnd(nextAtMs: nat)
    | ShutdownEnd(shutdownAtMs: nat)
  {
    function AtMs(): nat {
      match this
      case StopEnd(stop) => stop.atMs
      case FailureEnd(at, _, _) => at
      case NextEnd(at) => at
      case ShutdownEnd(at) => at
    }
  }

  /** One call of a hook of the server's. */
  datatype Call =
    | BindingStarted
    | PromptStarted(requestId: RequestId, turn: Turn, atMs: nat, sessionId: Option<string>)
    | PromptRebound(requestId: RequestId, promptId: PromptId)
    | LocalTurnStarted(local: LocalTurn, atMs: nat)
    | LocalTurnEnded(local: LocalTurn, failed: bool, atMs: nat)
    | TurnEnded(turn: Turn, end: TurnEnd)

  datatype Tracker = Tracker(
    binding: bool,
    current: Option<OpenTurn>,
    lastStartMs: Option<nat>,
    lastEndMs: Option<nat>,
    ended: OMap<PromptId, Turn>,
    bound: map<RequestId, PromptId>,
    alias: OMap<PromptId, PromptId>)
  {
    /** One look-up in the alias map, with the id itself as default. */
    function Resolve(promptId: PromptId): PromptId {
      if promptId in alias.vals then alias.vals[promptId] else promptId
    }

    predicate IsCurrent(promptId: PromptId) {
      current.Some? && current.value.turn.promptId == promptId
    }

    /** The current turn or a remembered one, if the resolved id is its. */
    function TurnOf(promptId: PromptId): Option<Turn> {
      var id := Resolve(promptId);
      if IsCurrent(id) then Some(current.value.turn)
      else if id in ended.vals then Some(ended.vals[id])
      else None
    }

    /** The requests taken into the turn running now. */
    function CurrentRequests(): seq<RequestId> {
      if current.Some? then current.value.turn.requests else []
    }
  }

  function Init(binding: bool, lastStopMs: Option<nat>): Tracker {
    Tracker(binding, None, None, lastStopMs, Empty(), map[], Empty())
  }

  /** The state after an operation, and the hook calls it made. */
  datatype Effect = Effect(state: Tracker, calls: seq<Call>)

  // The steps an operation is made of.

  function LocalOf(promptId: PromptId, sessionId: Option<string>): LocalTurn {
    LocalTurn(LOCAL_TURN_PREFIX + promptId.text, sessionId)
  }

  /** What ending `turn` reports. */
  function EndCalls(turn: Turn, end: TurnEnd): seq<Call> {
    [TurnEnded(turn, end)] +
    if turn.local.Some? then [LocalTurnEnded(turn.local.value, end.FailureEnd?, end.AtMs())] else []
  }

  function End(t: Tracker, end: TurnEnd): Effect {
    if t.current.None? then Effect(t, [])
    else
      var turn := t.current.value.turn;
      Effect(t.(current := None, ended := PutCapped(t.ended, turn.promptId, turn, ENDED_KEPT)), EndCalls(turn, end))
  }

  function BeginServed(t: Tracker, promptId: PromptId, atMs: nat, sessionId: Option<string>): Tracker {
    var turn := Turn(promptId, Served, atMs, sessionId, [], None);
    t.(current := Some(OpenTurn(turn, Some(atMs + CHANNEL_BATCH_MS))), lastStartMs := Some(atMs))
  }

  function BeginLocal(t: Tracker, promptId: PromptId, atMs: nat, sessionId: Option<string>): Effect {
    var local := LocalOf(promptId, sessionId);
    var turn := Turn(promptId, Local, atMs, sessionId, [], Some(local));
    Effect(t.(current := Some(OpenTurn(turn, None)), lastStartMs := Some(atMs)), [LocalTurnStarted(local, atMs)])
  }

  /** The current turn ends at `atMs` without a Stop, and a local turn begins. */
  function NextLocal(t: Tracker, promptId: PromptId, atMs: nat, sessionId: Option<string>): Effect {
    var e := End(t, NextEnd(atMs));
    var b := BeginLocal(e.state, promptId, atMs, sessionId);
    Effect(b.state, e.calls + b.calls)
  }

  function BreakBatch(t: Tracker): Tracker {
    if t.current.Some? then t.(current := Some(t.current.value.(batchUntilMs := None))) else t
  }

  /** Every alias of `from` is one of `to` now, and `from` too. */
  function Realias(alias: OMap<PromptId, PromptId>, from: PromptId, to: PromptId): OMap<PromptId, PromptId> {
    PutCapped(Moved(alias, from, to), from, to, ENDED_KEPT)
  }

  function Moved(alias: OMap<PromptId, PromptId>, from: PromptId, to: PromptId): OMap<PromptId, PromptId> {
    WithVals(alias, map k | k in alias.vals :: if alias.vals[k] == from then to else alias.vals[k])
  }

  function Rebound(requests: seq<RequestId>, promptId: PromptId): (calls: seq<Call>)
    ensures |calls| == |requests|
    ensures forall i :: 0 <= i < |requests| ==> calls[i] == PromptRebound(requests[i], promptId)
  {
    seq(|requests|, i requires 0 <= i < |requests| => PromptRebound(requests[i], promptId))
  }

  /** The open turn gets a new id: its old one and all that meant it become aliases, and its requests are bound anew. */
  function Rename(t: Tracker, promptId: PromptId): Effect
    requires t.current.Some?
  {
    var turn := t.current.value.turn;
    Effect(t.(current := Some(t.current.value.(turn := turn.(promptId := promptId))),
              alias := Realias(t.alias, turn.promptId, promptId),
              bound := t.bound + map r | r in turn.requests :: promptId),
           Rebound(turn.requests, promptId))
  }

  /** A channel submit of the current turn's id, one taken with it, or one that begins a turn. */
  function Enter(t: Tracker, promptId: PromptId, atMs: nat, sessionId: Option<string>): (e: Effect)
    ensures e.state.current.Some?
  {
    if t.IsCurrent(promptId) then Effect(t, [])
    else if t.current.Some? && t.current.value.batchUntilMs.Some? && atMs <= t.current.value.batchUntilMs.value then
      Rename(t, promptId)
    else
      var e := End(t, NextEnd(atMs));
      Effect(BeginServed(e.state, promptId, atMs, sessionId), e.calls)
  }

  /** A further channel submit keeps an open batch open. */
  function Extended(open: OpenTurn, atMs: nat): OpenTurn {
    if open.batchUntilMs.Some? then open.(batchUntilMs := Some(atMs + CHANNEL_BATCH_MS)) else open
  }

  function Join(t: Tracker, requestId: RequestId, promptId: PromptId, atMs: nat, sessionId: Option<string>): Effect
    requires t.current.Some?
  {
    var open := t.current.value;
    var turn := open.turn.(requests := open.turn.requests + [requestId]);
    Effect(t.(current := Some(open.(turn := turn)), bound := t.bound[requestId := promptId]),
           [PromptStarted(requestId, turn, atMs, sessionId)])
  }

  function TakeChannel(t: Tracker, requestId: RequestId, promptId: PromptId, atMs: nat,
                       sessionId: Option<string>, isOpen: bool): Effect
  {
    var binds := requestId !in t.bound && isOpen;
    var e := Enter(t, promptId, atMs, sessionId);
    var x := e.state.(current := Some(Extended(e.state.current.value, atMs)));
    if !binds then Effect(x, e.calls)
    else
      var j := Join(x, requestId, promptId, atMs, sessionId);
      Effect(j.state, e.calls + j.calls)
  }

  function TakeTyped(t: Tracker, promptId: PromptId, atMs: nat, sessionId: Option<string>): Effect {
    if t.IsCurrent(promptId) then Effect(BreakBatch(t), [])
    else NextLocal(t, promptId, atMs, sessionId)
  }

  // The records.

  /** A submit's record. `isOpen` is the server's answer for its request. */
  function Submitted(t: Tracker, submit: SubmitRecord, isOpen: bool, session: Option<string>): Effect {
    if submit.promptId.None? then
      Effect(if submit.requestId.None? then BreakBatch(t) else t, [])
    else
      var promptId := t.Resolve(submit.promptId.value);
      var begun := if t.binding then [] else [BindingStarted];
      var b := t.(binding := true);
      if promptId in b.ended.vals then Effect(b, begun)
      else
        var sessionId := submit.sessionId.OrElse(session);
        var e := if submit.requestId.Some?
                 then TakeChannel(b, submit.requestId.value, promptId, submit.atMs, sessionId, isOpen)
                 else TakeTyped(b, promptId, submit.atMs, sessionId);
        Effect(e.state, begun + e.calls)
  }

  predicate Surfaces(t: Tracker, promptId: PromptId) {
    !t.IsCurrent(promptId) && promptId !in t.ended.vals
  }

  /**
   The start a surfaced turn is given: the last Stop's time, if that is past
   and after every begin, or else `atMs`.
   */
  function Since(t: Tracker, atMs: nat): nat {
    if && t.lastEndMs.Some? && t.lastEndMs.value <= atMs
       && (t.lastStartMs.None? || t.lastEndMs.value > t.lastStartMs.value)
    then t.lastEndMs.value else atMs
  }

  function Surface(t: Tracker, promptId: PromptId, atMs: nat, sessionId: Option<string>): Effect {
    if Surfaces(t, promptId) then NextLocal(t, promptId, Since(t, atMs), sessionId) else Effect(t, [])
  }

  /** A tool call. */
  function Activity(t: Tracker, activity: TurnActivity, session: Option<string>): Effect {
    if !t.binding || activity.promptId.None? then Effect(t, [])
    else
      var promptId := t.Resolve(activity.promptId.value);
      var s := Surface(t, promptId, activity.atMs, session);
      Effect(if s.state.IsCurrent(promptId) then BreakBatch(s.state) else s.state, s.calls)
  }

  /** A Stop's or a failure's record: the end of the turn `id` names, unless it is a late one. */
  function Finished(t: Tracker, id: Option<PromptId>, sessionId: Option<string>, end: TurnEnd): Effect {
    if !t.binding then Effect(t, [])
    else if id.None? then Effect(BreakBatch(t), [])
    else
      var promptId := t.Resolve(id.value);
      var s := Surface(t, promptId, end.AtMs(), sessionId);
      if !s.state.IsCurrent(promptId) then s
      else if !Surfaces(t, promptId) && end.AtMs() <= s.state.current.value.turn.startedAtMs then s
      else
        var e := End(s.state.(lastEndMs := Some(end.AtMs())), end);
        Effect(e.state, s.calls + e.calls)
  }

  function Stopped(t: Tracker, stop: StopRecord, session: Option<string>): Effect {
    Finished(t, stop.promptId, stop.sessionId.OrElse(session), StopEnd(stop))
  }

  function Failed(t: Tracker, failure: FailureRecord, session: Option<string>): Effect {
    Finished(t, failure.promptId, failure.sessionId.OrElse(session),
             FailureEnd(failure.atMs, failure.error, failure.errorDetails))
  }

  function Forget(t: Tracker, requestId: RequestId): Tracker {
    t.(bound := t.bound - {requestId})
  }

}

/** The tracker as it runs. */
module TurnTracking {
  import opened Records
  import opened OrderedMaps
  import opened Turns

  /** `TurnTracker`: fields updated in place, hook calls returned in the order made. */
  class TurnTracker {
    var binding: bool
    var current: Option<OpenTurn>
    var lastStartMs: Option<nat>
    var lastEndMs: Option<nat>
    var ended: OMap<PromptId, Turn>
    var bound: map<RequestId, PromptId>
    var alias: OMap<PromptId, PromptId>

    ghost function State(): Tracker
      reads this
    {
      Tracker(binding, current, lastStartMs, lastEndMs, ended, bound, alias)
    }

    constructor (binding: bool, lastStopMs: Option<nat>)
      ensures State() == Init(binding, lastStopMs)
    {
      this.binding, current := binding, None;
      lastStartMs, lastEndMs := None, lastStopMs;
      ended, bound, alias := Empty(), map[], Empty();
    }

    /** `#resolve`. */
    method Resolve(promptId: PromptId) returns (id: PromptId)
      ensures id == State().Resolve(promptId)
    {
      id := if promptId in alias.vals then alias.vals[promptId] else promptId;
    }

    /** `turn`. */
    method TurnOf(promptId: PromptId) returns (turn: Option<Turn>)
      ensures turn == State().TurnOf(promptId)
    {
      var id := Resolve(promptId);
      if current.Some? && current.value.turn.promptId == id {
        return Some(current.value.turn);
      }
      turn := if id in ended.vals then Some(ended.vals[id]) else None;
    }

    method Forget(requestId: RequestId)
      modifies this
      ensures State() == Turns.Forget(old(State()), requestId)
    {
      bound := bound - {requestId};
    }

    method BreakBatch()
      modifies this
      ensures State() == Turns.BreakBatch(old(State()))
    {
      if current.Some? {
        current := Some(current.value.(batchUntilMs := None));
      }
    }

    /** `#end`. */
    method End(end: TurnEnd) returns (calls: seq<Call>)
      modifies this
      ensures Effect(State(), calls) == Turns.End(old(State()), end)
    {
      if current.None? {
        return [];
      }
      hide PutCapped;
      var turn := current.value.turn;
      current := None;
      ended := PutCapped(ended, turn.promptId, turn, ENDED_KEPT);
      calls := [TurnEnded(turn, end)];
      if turn.local.Some? {
        calls := calls + [LocalTurnEnded(turn.local.value, end.FailureEnd?, end.AtMs())];
      }
      assert calls == EndCalls(turn, end);
    }

    /** `#begin`. */
    method Begin(open: OpenTurn)
      modifies this
      ensures State() == old(State()).(current := Some(open), lastStartMs := Some(open.turn.startedAtMs))
    {
      current := Some(open);
      lastStartMs := Some(open.turn.startedAtMs);
    }

    /** `#beginLocal`. */
    method BeginLocal(promptId: PromptId, atMs: nat, sessionId: Option<string>) returns (calls: seq<Call>)
      modifies this
      ensures Effect(State(), calls) == Turns.BeginLocal(old(State()), promptId, atMs, sessionId)
    {
      var local := LocalOf(promptId, sessionId);
      Begin(OpenTurn(Turn(promptId, Local, atMs, sessionId, [], Some(local)), None));
      calls := [LocalTurnStarted(local, atMs)];
    }

    /** The first half of `#rename`: every alias of `from`, one by one. */
    static method MoveAliases(alias: OMap<PromptId, PromptId>, from: PromptId, to: PromptId)
      returns (moved: OMap<PromptId, PromptId>)
      ensures moved == Moved(alias, from, to)
    {
      var vals := alias.vals;
      for i := 0 to |alias.keys|
        invariant vals.Keys == alias.vals.Keys
        invariant forall j :: 0 <= j < i ==>
            vals[alias.keys[j]] == if alias.vals[alias.keys[j]] == from then to else alias.vals[alias.keys[j]]
        invariant forall j :: i <= j < |alias.keys| ==> vals[alias.keys[j]] == alias.vals[alias.keys[j]]
      {
        var id := alias.keys[i];
        assert forall j :: 0 <= j < |alias.keys| && j != i ==> alias.keys[j] != id;
        if vals[id] == from {
          vals := vals[id := to];
        }
      }
      moved := WithVals(alias, vals);
      assert vals == Moved(alias, from, to).vals;
    }

    /** `#rename`. */
    method Rename(promptId: PromptId) returns (calls: seq<Call>)
      requires current.Some?
      modifies this
      ensures Effect(State(), calls) == Turns.Rename(old(State()), promptId)
    {
      hide Moved, PutCapped;
      var turn := current.value.turn;
      var moved := MoveAliases(alias, turn.promptId, promptId);
      alias := PutCapped(moved, turn.promptId, promptId, ENDED_KEPT);
      current := Some(current.value.(turn := turn.(promptId := promptId)));
      calls := Rebind(turn.requests, promptId);
    }

    /** The last loop of `#rename`. */
    method Rebind(requests: seq<RequestId>, promptId: PromptId) returns (calls: seq<Call>)
      modifies this`bound
      ensures bound == old(bound) + map r | r in requests :: promptId
      ensures calls == Rebound(requests, promptId)
    {
      calls := [];
      for i := 0 to |requests|
        invariant |calls| == i && forall j :: 0 <= j < i ==> calls[j] == PromptRebound(requests[j], promptId)
        invariant bound.Keys == old(bound).Keys + set j | 0 <= j < i :: requests[j]
        invariant forall r <- bound :: bound[r] == if r in requests[..i] then promptId else old(bound)[r]
      {
        bound := bound[requests[i] := promptId];
        calls := calls + [PromptRebound(requests[i], promptId)];
      }
      assert calls == Rebound(requests, promptId);
    }

    /** `#surface`. */
    method Surface(promptId: PromptId, atMs: nat, sessionId: Option<string>) returns (surfaced: bool, calls: seq<Call>)
      modifies this
      ensures surfaced == Surfaces(old(State()), promptId)
      ensures Effect(State(), calls) == Turns.Surface(old(State()), promptId, atMs, sessionId)
    {
      if (current.Some? && current.value.turn.promptId == promptId) || promptId in ended.vals {
        return false, [];
      }
      var since := atMs;
      if lastEndMs.Some? && lastEndMs.value <= atMs && (lastStartMs.None? || lastEndMs.value > lastStartMs.value) {
        since := lastEndMs.value;
      }
      var ends := End(NextEnd(since));
      var begins := BeginLocal(promptId, since, sessionId);
      return true, ends + begins;
    }

    /** `submitted` for a channel's message, from the check of its request on. */
    method TakeChannel(requestId: RequestId, promptId: PromptId, atMs: nat, sessionId: Option<string>, isOpen: bool)
      returns (calls: seq<Call>)
      modifies this
      ensures Effect(State(), calls) == Turns.TakeChannel(old(State()), requestId, promptId, atMs, sessionId, isOpen)
    {
      hide Realias, PutCapped;
      var binds := requestId !in bound && isOpen;
      calls := [];
      if current.None? || current.value.turn.promptId != promptId {
        if current.Some? && current.value.batchUntilMs.Some? && atMs <= current.value.batchUntilMs.value {
          calls := Rename(promptId);
        } else {
          calls := End(NextEnd(atMs));
          Begin(OpenTurn(Turn(promptId, Served, atMs, sessionId, [], None), Some(atMs + CHANNEL_BATCH_MS)));
        }
      }
      var open := current.value;
      if open.batchUntilMs.Some? {
        open := open.(batchUntilMs := Some(atMs + CHANNEL_BATCH_MS));
      }
      current := Some(open);
      if !binds {
        return;
      }
      open := open.(turn := open.turn.(requests := open.turn.requests + [requestId]));
      current := Some(open);
      bound := bound[requestId := promptId];
      calls := calls + [PromptStarted(requestId, open.turn, atMs, sessionId)];
    }

    method Submitted(submit: SubmitRecord, isOpen: bool, session: Option<string>) returns (calls: seq<Call>)
      modifies this
      ensures Effect(State(), calls) == Turns.Submitted(old(State()), submit, isOpen, session)
    {
      calls := [];
      if submit.promptId.None? {
        if submit.requestId.None? {
          BreakBatch();
        }
        return;
      }
      var promptId := Resolve(submit.promptId.value);
      if !binding {
        binding := true;
        calls := [BindingStarted];
      }
      if promptId in ended.vals {
        return;
      }
      var sessionId := submit.sessionId.OrElse(session);
      if submit.requestId.Some? {
        var more := TakeChannel(submit.requestId.value, promptId, submit.atMs, sessionId, isOpen);
        calls := calls + more;
        return;
      }
      if current.Some? && current.value.turn.promptId == promptId {
        BreakBatch();
        return;
      }
      var ends := End(NextEnd(submit.atMs));
      var begins := BeginLocal(promptId, submit.atMs, sessionId);
      calls := calls + (ends + begins);
    }

    method Activity(activity: TurnActivity, session: Option<string>) returns (calls: seq<Call>)
      modifies this
      ensures Effect(State(), calls) == Turns.Activity(old(State()), activity, session)
    {
      if !binding || activity.promptId.None? {
        return [];
      }
      var promptId := Resolve(activity.promptId.value);
      var surfaced;
      surfaced, calls := Surface(promptId, activity.atMs, session);
      if current.Some? && current.value.turn.promptId == promptId {
        BreakBatch();
      }
    }

    /** The common part of `stopped` and `failed`. */
    method Finished(id: Option<PromptId>, sessionId: Option<string>, end: TurnEnd) returns (calls: seq<Call>)
      modifies this
      ensures Effect(State(), calls) == Turns.Finished(old(State()), id, sessionId, end)
    {
      calls := [];
      if !binding {
        return;
      }
      if id.None? {
        BreakBatch();
        return;
      }
      var promptId := Resolve(id.value);
      var surfaced;
      surfaced, calls := Surface(promptId, end.AtMs(), sessionId);
      if current.None? || current.value.turn.promptId != promptId {
        return;
      }
      if !surfaced && end.AtMs() <= current.value.turn.startedAtMs {
        return;
      }
      lastEndMs := Some(end.AtMs());
      var more := End(end);
      calls := calls + more;
    }

    method Stopped(stop: StopRecord, session: Option<string>) returns (calls: seq<Call>)
      modifies this
      ensures Effect(State(), calls) == Turns.Stopped(old(State()), stop, session)
    {
      calls := Finished(stop.promptId, stop.sessionId.OrElse(session), StopEnd(stop));
    }

    method Failed(failure: FailureRecord, session: Option<string>) returns (calls: seq<Call>)
      modifies this
      ensures Effect(State(), calls) == Turns.Failed(old(State()), failure, session)
    {
      calls := Finished(failure.promptId, failure.sessionId.OrElse(session),
                        FailureEnd(failure.atMs, failure.error, failure.errorDetails));
    }

    method Shutdown(atMs: nat) returns (calls: seq<Call>)
      modifies this
      ensures Effect(State(), calls) == Turns.End(old(State()), ShutdownEnd(atMs))
    {
      calls := End(ShutdownEnd(atMs));
    }
  }
}
