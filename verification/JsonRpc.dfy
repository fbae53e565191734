/**
 The JSON-RPC client over lines: how text cut anywhere becomes messages, and
 how each request is settled, once.
 */
module JsonRpc {
  import opened Records
  import opened OrderedMaps

  datatype Id = Num(n: int) | Text(s: string)

  /** A parsed line, by the members it has. */
  datatype Message = Message(id: Option<Id>, result: Option<string>, error: Option<string>, verb: Option<string>)

  /** What a line, trimmed, comes to. */
  datatype Parsed = Blank | Invalid | Valid(message: Message)

  type Parser = string -> Parsed

  /** What the client tells the outside: requests settled, and the server's own messages. */
  datatype Output =
    | Resolved(id: Id, result: string)
    | Failed(id: Id, error: string)
    | TimedOut(id: Id)
    | ClosedOn(id: Id)
    | NotWritten(id: Id)
    | RefusedClosed
    | Asked(asked: Id, verb: string)
    | Notified(verb: string)
    | Complained
  {
    predicate Settles() {
      Resolved? || Failed? || TimedOut? || ClosedOn? || NotWritten?
    }
  }

  datatype Client = Client(pending: OMap<Id, string>, nextId: nat, buffer: string, closed: bool)

  const OPENED := Client(Empty(), 1, "", false)

  datatype Step = Step(c: Client, out: seq<Output>)

  /** `request`; `written`: the transport took the line. */
  function Request(c: Client, verb: string, written: bool): Step {
    if c.closed then Step(c, [RefusedClosed])
    else
      var id := Num(c.nextId);
      var next := c.(nextId := c.nextId + 1);
      if written then Step(next.(pending := Put(c.pending, id, verb)), []) else Step(next, [NotWritten(id)])
  }

  /** `#dispatch`. */
  function Dispatch(c: Client, m: Message): Step {
    if m.id.Some? && (m.result.Some? || m.error.Some?) then
      var id := m.id.value;
      if id !in c.pending.vals then Step(c, [])
      else Step(c.(pending := Delete(c.pending, id)),
                [if m.error.Some? then Failed(id, m.error.value) else Resolved(id, m.result.value)])
    else if m.id.Some? && m.verb.Some? then Step(c, [Asked(m.id.value, m.verb.value)])
    else if m.verb.Some? then Step(c, [Notified(m.verb.value)])
    else Step(c, [])
  }

  function Newline(s: string): (i: nat)
    ensures i <= |s|
    ensures i < |s| ==> s[i] == '\n'
    ensures forall k :: 0 <= k < i ==> s[k] != '\n'
  {
    if s == "" || s[0] == '\n' then 0 else 1 + Newline(s[1..])
  }

  /** The first whole line of a buffer, and what comes after its newline. */
  function FirstLine(buffer: string): string
    requires Newline(buffer) < |buffer|
  {
    buffer[..Newline(buffer)]
  }

  function AfterLine(buffer: string): string
    requires Newline(buffer) < |buffer|
  {
    buffer[Newline(buffer) + 1..]
  }

  function TakeLine(c: Client, line: string, parse: Parser): (s: Step)
    ensures s.c.buffer == c.buffer
  {
    match parse(line)
    case Blank => Step(c, [])
    case Invalid => Step(c, [Complained])
    case Valid(m) => Dispatch(c, m)
  }

  /** The loop of `#onData`: every whole line in the buffer. */
  function Drain(c: Client, parse: Parser): Step
    decreases |c.buffer|
  {
    if Newline(c.buffer) == |c.buffer| then Step(c, [])
    else
      var s := TakeLine(c.(buffer := AfterLine(c.buffer)), FirstLine(c.buffer), parse);
      var rest := Drain(s.c, parse);
      Step(rest.c, s.out + rest.out)
  }

  /** `#onData`. */
  function Feed(c: Client, chunk: string, parse: Parser): Step {
    Drain(c.(buffer := c.buffer + chunk), parse)
  }

  /** The timer of a pending request. */
  function TimeOut(c: Client, id: Id): Step {
    if id in c.pending.vals then Step(c.(pending := Delete(c.pending, id)), [TimedOut(id)]) else Step(c, [])
  }

  function AllClosed(ids: seq<Id>): (out: seq<Output>)
    ensures |out| == |ids| && forall i :: 0 <= i < |out| ==> out[i] == ClosedOn(ids[i])
  {
    seq(|ids|, i requires 0 <= i < |ids| => ClosedOn(ids[i]))
  }

  /** `#close`. */
  function Close(c: Client): Step {
    if c.closed then Step(c, []) else Step(c.(closed := true, pending := Empty()), AllClosed(c.pending.keys))
  }

  // Any chunking.

  function FeedAll(c: Client, chunks: seq<string>, parse: Parser): Step {
    if chunks == [] then Step(c, [])
    else
      var before := FeedAll(c, chunks[..|chunks| - 1], parse);
      var now := Feed(before.c, chunks[|chunks| - 1], parse);
      Step(now.c, before.out + now.out)
  }

  function Joined(chunks: seq<string>): string {
    if chunks == [] then "" else Joined(chunks[..|chunks| - 1]) + chunks[|chunks| - 1]
  }

  /** No whole line is left in a drained buffer. */
  predicate Drained(c: Client) {
    Newline(c.buffer) == |c.buffer|
  }

  lemma AfterIsShorter(buffer: string)
    requires Newline(buffer) < |buffer|
    ensures |AfterLine(buffer)| < |buffer|
  {}

  lemma {:induction false} DrainLeavesNone(c: Client, parse: Parser)
    ensures Drained(Drain(c, parse).c)
    decreases |c.buffer|
  {
    if Newline(c.buffer) < |c.buffer| {
      AfterIsShorter(c.buffer);
      hide AfterLine, FirstLine, TakeLine, Drained, Newline;
      DrainLeavesNone(TakeLine(c.(buffer := AfterLine(c.buffer)), FirstLine(c.buffer), parse).c, parse);
    }
  }

  /** The first newline is the only one with none before it. */
  lemma NewlineIs(s: string, i: nat)
    requires i < |s| && s[i] == '\n' && forall k :: 0 <= k < i ==> s[k] != '\n'
    ensures Newline(s) == i
  {}

  lemma Slices(s: string, t: string, i: nat)
    requires i <= |s|
    ensures (s + t)[..i] == s[..i] && (s + t)[i..] == s[i..] + t
  {}

  lemma LineBefore(s: string, t: string)
    requires Newline(s) < |s|
    ensures Newline(s + t) < |s + t| && FirstLine(s + t) == FirstLine(s) && AfterLine(s + t) == AfterLine(s) + t
  {
    var i := Newline(s);
    hide Newline;
    NewlineIs(s + t, i);
    Slices(s, t, i);
    Slices(s, t, i + 1);
  }

  lemma BufferAside(c: Client, line: string, parse: Parser, b: string)
    ensures TakeLine(c.(buffer := b), line, parse) ==
            Step(TakeLine(c, line, parse).c.(buffer := b), TakeLine(c, line, parse).out)
  {}

  /** Draining after more text arrived is draining before and after it. */
  lemma {:induction false} DrainOnward(c: Client, t: string, parse: Parser)
    ensures var before := Drain(c, parse);
            var after := Drain(before.c.(buffer := before.c.buffer + t), parse);
            Drain(c.(buffer := c.buffer + t), parse) == Step(after.c, before.out + after.out)
    decreases |c.buffer|
  {
    if Newline(c.buffer) == |c.buffer| {
      Nothing(Drain(c.(buffer := c.buffer + t), parse).out);
      hide Newline, AfterLine, FirstLine, TakeLine;
    } else {
      AfterIsShorter(c.buffer);
      LineBefore(c.buffer, t);
      hide Newline, AfterLine, FirstLine, TakeLine;
      var line, rest := FirstLine(c.buffer), AfterLine(c.buffer);
      var s := TakeLine(c.(buffer := rest), line, parse);
      BufferAside(c.(buffer := rest), line, parse, rest + t);
      DrainOnward(s.c, t, parse);
      var before := Drain(s.c, parse);
      var after := Drain(before.c.(buffer := before.c.buffer + t), parse);
      Assoc(s.out, before.out, after.out);
    }
  }

  /** Cut anywhere, the same text dispatches the same messages and leaves the same buffer. */
  lemma {:induction false} ChunkingAside(c: Client, chunks: seq<string>, parse: Parser)
    requires Drained(c)
    ensures FeedAll(c, chunks, parse) == Feed(c, Joined(chunks), parse)
  {
    if chunks == [] {
      assert c.(buffer := c.buffer + "") == c;
    } else {
      var init, last := chunks[..|chunks| - 1], chunks[|chunks| - 1];
      ChunkingAside(c, init, parse);
      DrainOnward(c.(buffer := c.buffer + Joined(init)), last, parse);
      Assoc(c.buffer, Joined(init), last);
      hide Drain;
    }
  }

  /**
   A request and the server's answer to it: settled with that answer, and the
   client is as it was but for the id used.
   */
  lemma AnsweredRoundTrip(c: Client, verb: string, line: string, parse: Parser, answer: Message)
    requires !c.closed && c.buffer == "" && '\n' !in line && Num(c.nextId) !in c.pending.vals
    requires parse(line) == Valid(answer) && answer.id == Some(Num(c.nextId))
             && (answer.result.Some? || answer.error.Some?)
    ensures var asked := Request(c, verb, true);
            var answered := Feed(asked.c, line + "\n", parse);
            && asked.out == [] && Num(c.nextId) in asked.c.pending.vals
            && answered.c.pending.vals == c.pending.vals && answered.c.buffer == "" && answered.c.nextId == c.nextId + 1
            && answered.out == [if answer.error.Some? then Failed(Num(c.nextId), answer.error.value)
                                else Resolved(Num(c.nextId), answer.result.value)]
  {
    var id := Num(c.nextId);
    var asked := Request(c, verb, true).c;
    assert Delete(asked.pending, id).vals == c.pending.vals;
    var s := Dispatch(asked, answer);
    assert s.c == asked.(pending := Delete(asked.pending, id));
    hide Delete, Dispatch, Newline;
    FeedsOneLine(asked, line, parse, answer);
  }

  /** A whole line that comes alone is dispatched, and leaves nothing. */
  lemma FeedsOneLine(c: Client, line: string, parse: Parser, m: Message)
    requires c.buffer == "" && '\n' !in line && parse(line) == Valid(m)
    ensures Feed(c, line + "\n", parse) == Dispatch(c, m)
  {
    var text := line + "\n";
    assert c.buffer + text == text;
    LineAlone(line);
    hide Dispatch, Newline;
    var fed := c.(buffer := text);
    assert fed.(buffer := "") == c;
    assert TakeLine(c, line, parse) == Dispatch(c, m);
    var s := Dispatch(c, m);
    assert Drain(fed, parse) == Step(Drain(s.c, parse).c, s.out + Drain(s.c, parse).out);
    assert Drain(s.c, parse) == Step(s.c, []);
    Nothing(s.out);
    hide Drain;
  }

  lemma LineAlone(line: string)
    requires '\n' !in line
    ensures var text := line + "\n";
            Newline(text) < |text| && FirstLine(text) == line && AfterLine(text) == "" && Newline("") == 0
  {
    var text := line + "\n";
    assert text[|line|] == '\n' && forall k :: 0 <= k < |line| ==> text[k] == line[k];
    NewlineIs(text, |line|);
    Slices(line, "\n", |line|);
    assert text[|line| + 1..] == "" && line[..|line|] == line;
    hide Newline;
  }

  /** An answer to a request: it has an id, and a result or an error. */
  predicate IsAnswer(m: Message) {
    m.id.Some? && (m.result.Some? || m.error.Some?)
  }

  /**
   One whole line that comes alone. An answer settles the request that waits
   for it, by its error if it has one, and tells nothing when none does; what
   has a method asks or notifies, as it has an id or not; anything else, and
   a blank line, is told to nobody; what is no message is complained of. No
   request but the one answered stops waiting.
   */
  lemma LineTells(c: Client, line: string, parse: Parser)
    requires c.buffer == "" && '\n' !in line
    ensures var s := Feed(c, line + "\n", parse);
            match parse(line)
            case Blank => s == Step(c, [])
            case Invalid => s == Step(c, [Complained])
            case Valid(m) =>
              && s.c == c.(pending := s.c.pending)
              && if IsAnswer(m) && m.id.value in c.pending.vals then
                   && s.c.pending.vals == c.pending.vals - {m.id.value}
                   && s.out == [if m.error.Some? then Failed(m.id.value, m.error.value)
                                else Resolved(m.id.value, m.result.value)]
                 else
                   && s.c == c
                   && s.out == if IsAnswer(m) || m.verb.None? then []
                               else if m.id.Some? then [Asked(m.id.value, m.verb.value)]
                               else [Notified(m.verb.value)]
  {
    if parse(line).Valid? {
      FeedsOneLine(c, line, parse, parse(line).message);
      hide Feed, Delete;
    } else {
      var text := line + "\n";
      assert c.buffer + text == text;
      LineAlone(line);
      hide Newline;
      var fed := c.(buffer := text);
      assert fed.(buffer := "") == c;
      var out := if parse(line).Invalid? then [Complained] else [];
      assert TakeLine(c, line, parse) == Step(c, out);
      assert Drain(fed, parse) == Step(Drain(c, parse).c, out + Drain(c, parse).out);
      assert Drain(c, parse) == Step(c, []);
      Nothing(out);
      hide Drain;
    }
  }

  /**
   A close rejects every waiting request, in the order they were made, and
   none twice: a second one does nothing, and no request is taken after it.
   */
  lemma ClosesOnce(c: Client, verb: string, written: bool)
    requires !c.closed
    ensures var s := Close(c);
            && |s.out| == |c.pending.keys|
            && (forall i :: 0 <= i < |s.out| ==> s.out[i] == ClosedOn(c.pending.keys[i]))
            && s.c.pending.vals == map[] && Close(s.c) == Step(s.c, [])
            && Request(s.c, verb, written) == Step(s.c, [RefusedClosed])
  {}

  /** A request gets the next id, never used again; it waits if its line was written, and fails at once if not. */
  lemma RequestWaits(c: Client, verb: string, written: bool)
    requires !c.closed
    ensures var s, id := Request(c, verb, written), Num(c.nextId);
            && s.c == c.(nextId := c.nextId + 1, pending := s.c.pending)
            && (written ==> s.out == [] && s.c.pending.vals == c.pending.vals[id := verb])
            && (!written ==> s.out == [NotWritten(id)] && s.c.pending == c.pending)
  {}

  /** The timer of a waiting request settles that request, and no other; of one settled it does nothing. */
  lemma TimesOut(c: Client, id: Id)
    ensures var s := TimeOut(c, id);
            && s.c == c.(pending := s.c.pending) && s.c.pending.vals == c.pending.vals - {id}
            && s.out == if id in c.pending.vals then [TimedOut(id)] else []
  {}

  // Each request settled once.

  datatype Event = Call(verb: string, written: bool) | Data(chunk: string) | Timer(id: Id) | Shut

  function On(c: Client, event: Event, parse: Parser): Step {
    match event
    case Call(verb, written) => Request(c, verb, written)
    case Data(chunk) => Feed(c, chunk, parse)
    case Timer(id) => TimeOut(c, id)
    case Shut => Close(c)
  }

  function Run(events: seq<Event>, parse: Parser): Step {
    if events == [] then Step(OPENED, [])
    else
      var before := Run(events[..|events| - 1], parse);
      var now := On(before.c, events[|events| - 1], parse);
      Step(now.c, before.out + now.out)
  }

  /** The ids of the requests settled, in order. */
  function Settled(out: seq<Output>): seq<Id> {
    if out == [] then []
    else
      var last := out[|out| - 1];
      Settled(out[..|out| - 1]) + if last.Settles() then [last.id] else []
  }

  /** Every id handed out is pending or settled, not both, and settled at most once; none is pending once closed. */
  ghost predicate Partitioned(c: Client, settled: seq<Id>) {
    && NoDup(settled) && 0 < c.nextId
    && (forall id <- c.pending.vals :: id.Num? && 0 < id.n < c.nextId && id !in settled)
    && (forall id <- settled :: id.Num? && 0 < id.n < c.nextId)
    && (forall n :: 0 < n < c.nextId ==> Num(n) in c.pending.vals || Num(n) in settled)
    && (c.closed ==> c.pending.vals == map[])
  }

  lemma {:induction false} SettledConcat(a: seq<Output>, b: seq<Output>)
    ensures Settled(a + b) == Settled(a) + Settled(b)
  {
    if b == [] {
      Nothing(a);
      Nothing(Settled(a));
    } else {
      var init := b[..|b| - 1];
      SettledConcat(a, init);
      assert (a + b)[..|a + b| - 1] == a + init;
      Assoc(Settled(a), Settled(init), if b[|b| - 1].Settles() then [b[|b| - 1].id] else []);
    }
  }

  lemma SettledOne(o: Output)
    ensures Settled([o]) == if o.Settles() then [o.id] else []
  {
    assert [o][..0] == [];
  }

  lemma SettleOne(c: Client, id: Id, settled: seq<Id>)
    requires Partitioned(c, settled) && id in c.pending.vals
    ensures Partitioned(c.(pending := Delete(c.pending, id)), settled + [id])
  {}

  lemma DispatchPartitions(c: Client, m: Message, settled: seq<Id>)
    requires Partitioned(c, settled)
    ensures var s := Dispatch(c, m); Partitioned(s.c, settled + Settled(s.out))
  {
    hide Partitioned, Settled;
    var s := Dispatch(c, m);
    Nothing(settled);
    if s.out == [] {
      SettledNone();
    } else {
      assert s.out == [s.out[0]];
      SettledOne(s.out[0]);
      if s.out[0].Settles() {
        SettleOne(c, m.id.value, settled);
      }
    }
  }

  lemma SettledNone()
    ensures Settled([]) == []
  {}

  lemma TakeLinePartitions(c: Client, line: string, parse: Parser, settled: seq<Id>)
    requires Partitioned(c, settled)
    ensures var s := TakeLine(c, line, parse); Partitioned(s.c, settled + Settled(s.out))
  {
    hide Partitioned, Settled, Dispatch;
    Nothing(settled);
    SettledNone();
    SettledOne(Complained);
    if parse(line).Valid? {
      DispatchPartitions(c, parse(line).message, settled);
    }
  }

  lemma CutAside(c: Client, settled: seq<Id>, b: string)
    requires Partitioned(c, settled)
    ensures Partitioned(c.(buffer := b), settled)
  {}

  lemma {:induction false} DrainPartitions(c: Client, parse: Parser, settled: seq<Id>)
    requires Partitioned(c, settled)
    ensures var s := Drain(c, parse); Partitioned(s.c, settled + Settled(s.out))
    decreases |c.buffer|
  {
    hide Partitioned, TakeLine, AfterLine, FirstLine, Settled, Newline;
    if Newline(c.buffer) == |c.buffer| {
      SettledNone();
      Nothing(settled);
    } else {
      AfterIsShorter(c.buffer);
      var cut, line := c.(buffer := AfterLine(c.buffer)), FirstLine(c.buffer);
      CutAside(c, settled, AfterLine(c.buffer));
      TakeLinePartitions(cut, line, parse, settled);
      var s := TakeLine(cut, line, parse);
      DrainPartitions(s.c, parse, settled + Settled(s.out));
      var rest := Drain(s.c, parse);
      SettledConcat(s.out, rest.out);
      Assoc(settled, Settled(s.out), Settled(rest.out));
    }
  }

  lemma {:induction false} ClosedSettle(ids: seq<Id>)
    ensures Settled(AllClosed(ids)) == ids
  {
    if ids != [] {
      var init := ids[..|ids| - 1];
      ClosedSettle(init);
      assert AllClosed(ids)[..|ids| - 1] == AllClosed(init);
    }
  }

  lemma NoDupConcat<T>(a: seq<T>, b: seq<T>)
    requires NoDup(a) && NoDup(b) && forall x <- b :: x !in a
    ensures NoDup(a + b)
  {
    forall i, j | 0 <= i < j < |a + b| ensures (a + b)[i] != (a + b)[j] {
      if i < |a| <= j {
        assert b[j - |a|] in b && a[i] in a;
      }
    }
  }

  lemma ClosePartitions(c: Client, settled: seq<Id>)
    requires Partitioned(c, settled)
    ensures var s := Close(c); Partitioned(s.c, settled + Settled(s.out)) && s.c.closed
  {
    if c.closed {
      Nothing(settled);
    } else {
      ClosedSettle(c.pending.keys);
      NoDupConcat(settled, c.pending.keys);
    }
  }

  lemma RequestPartitions(c: Client, verb: string, written: bool, settled: seq<Id>)
    requires Partitioned(c, settled)
    ensures var s := Request(c, verb, written); Partitioned(s.c, settled + Settled(s.out))
  {
    Nothing(settled);
    SettledNone();
    SettledOne(RefusedClosed);
    SettledOne(NotWritten(Num(c.nextId)));
    hide Settled;
  }

  lemma OnPartitions(c: Client, event: Event, parse: Parser, settled: seq<Id>)
    requires Partitioned(c, settled)
    ensures var s := On(c, event, parse); Partitioned(s.c, settled + Settled(s.out))
  {
    hide Partitioned, Settled, Drain, Request, Close;
    match event
    case Data(chunk) =>
      CutAside(c, settled, c.buffer + chunk);
      DrainPartitions(c.(buffer := c.buffer + chunk), parse, settled);
    case Shut => ClosePartitions(c, settled);
    case Timer(id) =>
      Nothing(settled);
      SettledNone();
      SettledOne(TimedOut(id));
      if id in c.pending.vals {
        SettleOne(c, id, settled);
      }
    case Call(verb, written) => RequestPartitions(c, verb, written, settled);
  }

  /**
   Over any run: every request id is allocated once and settled at most once,
   pending and settled ids partition the allocated ones, and once the client
   is closed nothing is pending.
   */
  lemma {:induction false} RunPartitions(events: seq<Event>, parse: Parser)
    ensures Partitioned(Run(events, parse).c, Settled(Run(events, parse).out))
  {
    if events != [] {
      var before := Run(events[..|events| - 1], parse);
      var now := On(before.c, events[|events| - 1], parse);
      RunPartitions(events[..|events| - 1], parse);
      OnPartitions(before.c, events[|events| - 1], parse, Settled(before.out));
      SettledConcat(before.out, now.out);
      hide Partitioned, On;
    }
  }
}

/** The client as it runs. */
module JsonLineRpc {
  import opened Records
  import opened OrderedMaps
  import opened JsonRpc

  /** `JsonLineRpcClient`; what a call tells the outside is returned, in order. */
  class JsonLineRpcClient {
    const parse: Parser
    var pending: OMap<Id, string>
    var nextId: nat
    var buffer: string
    var closed: bool

    ghost function State(): Client
      reads this
    {
      Client(pending, nextId, buffer, closed)
    }

    constructor (parse: Parser)
      ensures this.parse == parse && State() == OPENED
    {
      this.parse, pending, nextId, buffer, closed := parse, Empty(), 1, "", false;
    }

    method Request(verb: string, written: bool) returns (out: seq<Output>)
      modifies this
      ensures Step(State(), out) == JsonRpc.Request(old(State()), verb, written)
    {
      if closed {
        return [RefusedClosed];
      }
      var id := Num(nextId);
      nextId := nextId + 1;
      if !written {
        return [NotWritten(id)];
      }
      pending := Put(pending, id, verb);
      return [];
    }

    method OnData(chunk: string) returns (out: seq<Output>)
      modifies this
      ensures Step(State(), out) == Feed(old(State()), chunk, parse)
    {
      buffer := buffer + chunk;
      out := [];
      ghost var start := State();
      Nothing(Drain(start, parse).out);
      while Newline(buffer) < |buffer|
        invariant Drain(start, parse) == Step(Drain(State(), parse).c, out + Drain(State(), parse).out)
        decreases |buffer|
      {
        var line := FirstLine(buffer);
        AfterIsShorter(buffer);
        buffer := AfterLine(buffer);
        ghost var was, taken := out, TakeLine(State(), line, parse);
        hide FirstLine, AfterLine, Newline, JsonRpc.Dispatch;
        Nothing(was);
        match parse(line) {
          case Blank =>
          case Invalid =>
            out := out + [Complained];
          case Valid(m) =>
            var more := Dispatch(m);
            out := out + more;
        }
        assert State() == taken.c && out == was + taken.out;
        Assoc(was, taken.out, Drain(taken.c, parse).out);
      }
      Nothing(out);
    }

    method Dispatch(m: Message) returns (out: seq<Output>)
      modifies this
      ensures Step(State(), out) == JsonRpc.Dispatch(old(State()), m)
    {
      if m.id.Some? && (m.result.Some? || m.error.Some?) {
        var id := m.id.value;
        if id !in pending.vals {
          return [];
        }
        pending := Delete(pending, id);
        if m.error.Some? {
          return [Failed(id, m.error.value)];
        }
        return [Resolved(id, m.result.value)];
      }
      if m.id.Some? && m.verb.Some? {
        return [Asked(m.id.value, m.verb.value)];
      }
      if m.verb.Some? {
        return [Notified(m.verb.value)];
      }
      return [];
    }

    /** The callback of a request's timer. */
    method TimeOut(id: Id) returns (out: seq<Output>)
      modifies this
      ensures Step(State(), out) == JsonRpc.TimeOut(old(State()), id)
    {
      if id !in pending.vals {
        return [];
      }
      pending := Delete(pending, id);
      return [TimedOut(id)];
    }

    method Close() returns (out: seq<Output>)
      modifies this
      ensures Step(State(), out) == JsonRpc.Close(old(State()))
    {
      if closed {
        return [];
      }
      closed := true;
      out := [];
      for i := 0 to |pending.keys|
        invariant State() == old(State()).(closed := true) && out == AllClosed(pending.keys[..i])
      {
        out := out + [ClosedOn(pending.keys[i])];
      }
      assert pending.keys[..|pending.keys|] == pending.keys;
      pending := Empty();
    }
  }
}
