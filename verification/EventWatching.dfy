/** Polls, one after another, and what they hand over. */
module EventWatching {
  import opened Records
  import opened OrderedMaps
  import opened Bytes
  import opened EventLogs
  import StableSorts

  datatype Session = Session(sessionId: string, source: string, atMs: nat)

  /** What the files held at one poll. */
  datatype Files = Files(session: Option<Session>, log: Sight, activity: Option<TurnActivity>)

  /** What the watcher keeps between polls. */
  datatype Watch = Watch(session: Option<Session>, offset: nat, activity: Option<TurnActivity>)

  datatype Report =
    | SessionSeen(session: Session)
    | LineSeen(event: SessionEvent)
    | ToolSeen(activity: TurnActivity)

  datatype Due = Due(atMs: nat, report: Report)

  /** A call of a handler. */
  datatype Heard =
    | SessionStarted(started: string, source: string)
    | EventHeard(event: SessionEvent, of: Option<string>)
    | ActivityHeard(activity: TurnActivity)

  type Parser = Line -> Option<SessionEvent>

  function AtMs(e: SessionEvent): nat {
    match e
    case Submit(submit) => submit.atMs
    case Stop(stop) => stop.atMs
    case Failure(failure) => failure.atMs
  }

  /** The events of the lines that parse, in order. */
  function Parsed(lines: seq<Line>, parse: Parser): seq<SessionEvent> {
    if lines == [] then []
    else
      var event := parse(lines[|lines| - 1]);
      Parsed(lines[..|lines| - 1], parse) + if event.Some? then [event.value] else []
  }

  function LinesDue(events: seq<SessionEvent>): (due: seq<Due>)
    ensures |due| == |events| && forall i :: 0 <= i < |due| ==> due[i] == Due(AtMs(events[i]), LineSeen(events[i]))
  {
    seq(|events|, i requires 0 <= i < |events| => Due(AtMs(events[i]), LineSeen(events[i])))
  }

  function SessionDue(w: Watch, files: Files): seq<Due> {
    if files.session.Some? && !(w.session.Some? && files.session.value.atMs == w.session.value.atMs)
    then [Due(files.session.value.atMs, SessionSeen(files.session.value))] else []
  }

  predicate NewActivity(w: Watch, files: Files) {
    files.activity.Some? && !(w.activity.Some? && files.activity.value.atMs == w.activity.value.atMs)
  }

  function ActivityDue(w: Watch, files: Files): seq<Due> {
    if NewActivity(w, files) then [Due(files.activity.value.atMs, ToolSeen(files.activity.value))] else []
  }

  /** One poll's records, in the order read. */
  function DueOf(w: Watch, files: Files, parse: Parser): seq<Due> {
    SessionDue(w, files)
    + LinesDue(Parsed(ReadCompleteLines(files.log, w.offset).lines, parse))
    + ActivityDue(w, files)
  }

  predicate NoLater(a: Due, b: Due) {
    a.atMs <= b.atMs
  }

  /** What a stable sort by time gives. */
  function Sorted(due: seq<Due>): seq<Due> {
    StableSorts.Sorted(due, NoLater)
  }

  /** The reports made one after another: a Stop without a session id is of the session reported last. */
  function Report1(session: Option<Session>, d: Due): (Option<Session>, Heard) {
    match d.report
    case SessionSeen(s) => (Some(s), SessionStarted(s.sessionId, s.source))
    case LineSeen(e) =>
      var known := if session.Some? then Some(session.value.sessionId) else None;
      (session, EventHeard(e, if e.Stop? then e.stop.sessionId.OrElse(known) else None))
    case ToolSeen(a) => (session, ActivityHeard(a))
  }

  function Reported(session: Option<Session>, due: seq<Due>): (Option<Session>, seq<Heard>) {
    if due == [] then (session, [])
    else
      var before := Reported(session, due[..|due| - 1]);
      var now := Report1(before.0, due[|due| - 1]);
      (now.0, before.1 + [now.1])
  }

  /** One poll. */
  function Poll(w: Watch, files: Files, parse: Parser): (Watch, seq<Heard>) {
    var r := Reported(w.session, Sorted(DueOf(w, files, parse)));
    var activity := if NewActivity(w, files) then files.activity else w.activity;
    (Watch(r.0, ReadCompleteLines(files.log, w.offset).next, activity), r.1)
  }

  /** The watcher as it runs. */
  class EventWatcher {
    var session: Option<Session>
    var offset: nat
    var activity: Option<TurnActivity>

    ghost function State(): Watch
      reads this
    {
      Watch(session, offset, activity)
    }

    /** Made with the mark: where the log's complete lines ended, and the tool call recorded then. */
    constructor (log: Sight, activity: Option<TurnActivity>)
      ensures State() == Watch(None, ReadCompleteLines(log, 0).next, activity)
    {
      session, this.activity := None, activity;
      offset := ReadCompleteLines(log, 0).next;
    }

    /** The loop over the lines read. */
    static method Collect(due: seq<Due>, lines: seq<Line>, parse: Parser) returns (more: seq<Due>)
      ensures more == due + LinesDue(Parsed(lines, parse))
    {
      more := due;
      for i := 0 to |lines|
        invariant more == due + LinesDue(Parsed(lines[..i], parse))
      {
        assert lines[..i + 1][..i] == lines[..i];
        var event := parse(lines[i]);
        if event.Some? {
          more := more + [Due(AtMs(event.value), LineSeen(event.value))];
        }
      }
      assert lines[..|lines|] == lines;
    }

    /** The loop that makes the reports. */
    method ReportAll(due: seq<Due>) returns (heard: seq<Heard>)
      modifies this`session
      ensures (session, heard) == Reported(old(session), due)
    {
      heard := [];
      for i := 0 to |due|
        invariant (session, heard) == Reported(old(session), due[..i])
      {
        assert due[..i + 1][..i] == due[..i];
        match due[i].report {
          case SessionSeen(s) =>
            session := Some(s);
            heard := heard + [SessionStarted(s.sessionId, s.source)];
          case LineSeen(e) =>
            var known := if session.Some? then Some(session.value.sessionId) else None;
            heard := heard + [EventHeard(e, if e.Stop? then e.stop.sessionId.OrElse(known) else None)];
          case ToolSeen(a) =>
            heard := heard + [ActivityHeard(a)];
        }
      }
      assert due[..|due|] == due;
    }

    /** `pollOnce`. */
    method PollOnce(files: Files, parse: Parser) returns (heard: seq<Heard>)
      modifies this
      ensures (State(), heard) == Poll(old(State()), files, parse)
    {
      hide ReadCompleteLines, Sorted, Reported;
      var due: seq<Due> := [];
      if files.session.Some? && !(session.Some? && files.session.value.atMs == session.value.atMs) {
        due := [Due(files.session.value.atMs, SessionSeen(files.session.value))];
      }
      var r := ReadCompleteLines(files.log, offset);
      offset := r.next;
      due := Collect(due, r.lines, parse);
      if files.activity.Some? && !(activity.Some? && files.activity.value.atMs == activity.value.atMs) {
        activity := files.activity;
        due := due + [Due(files.activity.value.atMs, ToolSeen(files.activity.value))];
      }
      assert due == DueOf(old(State()), files, parse);
      heard := ReportAll(Sorted(due));
    }
  }

  // The order of one poll's reports.

  ghost predicate InTime(due: seq<Due>) {
    forall i, j :: 0 <= i < j < |due| ==> due[i].atMs <= due[j].atMs
  }

  /** One poll's records are reported in the order of their times, each once. */
  lemma SortedInTime(due: seq<Due>)
    ensures InTime(Sorted(due)) && multiset(Sorted(due)) == multiset(due)
  {
    StableSorts.SortedSorts(due, NoLater);
  }

  /** Records of one kind that were read in the order of their times are reported in the order read. */
  lemma SortedKeepsOrder(due: seq<Due>, p: Due -> bool)
    requires InTime(Filter(due, p))
    ensures Filter(Sorted(due), p) == Filter(due, p)
  {
    StableSorts.SortedKeepsOrder(due, NoLater, p);
  }

  // The log over all polls.

  /** What a sight saw of a log: all of it, or, when its open failed, nothing. */
  predicate Sees(sight: Sight, log: seq<byte>) {
    sight.file.Some? ==> sight.file.value == log
  }

  /** `logs`: what the log held at the mark, and at each poll, opened or not. It is only ever appended to. */
  ghost predicate AppendOnly(mark: Sight, polls: seq<Files>, logs: seq<seq<byte>>) {
    && |logs| == |polls| + 1 && Sees(mark, logs[0])
    && (forall i :: 0 <= i < |polls| ==> Sees(polls[i].log, logs[i + 1]))
    && (forall i, j :: 0 <= i < j < |logs| ==> logs[i] <= logs[j])
  }

  /** What was heard, and which lines were read, over all polls since the mark. */
  datatype Watched = Watched(w: Watch, lines: seq<Line>, heard: seq<Heard>)

  function Watching(mark: Sight, activity: Option<TurnActivity>, polls: seq<Files>, parse: Parser): Watched {
    if polls == [] then Watched(Watch(None, ReadCompleteLines(mark, 0).next, activity), [], [])
    else
      var before := Watching(mark, activity, polls[..|polls| - 1], parse);
      var files := polls[|polls| - 1];
      var now := Poll(before.w, files, parse);
      Watched(now.0, before.lines + ReadCompleteLines(files.log, before.w.offset).lines, before.heard + now.1)
  }

  /** The lines before an offset. */
  function LinesBefore(log: seq<byte>, offset: nat): seq<Line> {
    if offset <= |log| then Lines(Span(log, 0, offset)) else []
  }

  /** Some open failed while the watcher's offset was past a non-empty complete line. */
  ghost predicate Rereads(mark: Sight, activity: Option<TurnActivity>, polls: seq<Files>, logs: seq<seq<byte>>,
                          parse: Parser)
    requires |logs| == |polls| + 1
  {
    polls != [] &&
    var init := polls[..|polls| - 1];
    || Rereads(mark, activity, init, logs[..|polls|], parse)
    || (polls[|polls| - 1].log.file.None?
        && LinesBefore(logs[|polls|], Watching(mark, activity, init, parse).w.offset) != [])
  }

  /** The lines before `offset` are those before the mark and, after them, those read. */
  ghost predicate ReadUpTo(log: seq<byte>, mark: nat, offset: nat, lines: seq<Line>) {
    LinesBefore(log, mark) + lines == LinesBefore(log, offset)
  }

  /** More lines were read than there are. */
  predicate ReadTooMany(log: seq<byte>, mark: nat, offset: nat, lines: seq<Line>) {
    |LinesBefore(log, mark)| + |lines| > |LinesBefore(log, offset)|
  }

  /** Mark and offset are 0 or just past a newline, and what was read is all right, or too much. */
  ghost predicate Accounted(log: seq<byte>, mark: nat, offset: nat, lines: seq<Line>, again: bool) {
    && AtLineStart(log, mark) && AtLineStart(log, offset)
    && if again then ReadTooMany(log, mark, offset, lines) else ReadUpTo(log, mark, offset, lines)
  }

  lemma GrownLog(log: seq<byte>, more: seq<byte>, mark: nat, offset: nat, lines: seq<Line>, again: bool)
    requires Accounted(log, mark, offset, lines, again) && log <= more
    ensures Accounted(more, mark, offset, lines, again)
  {
    assert Span(more, 0, mark) == Span(log, 0, mark) && Span(more, 0, offset) == Span(log, 0, offset);
    hide Lines, Span;
  }

  /** A failed open begins the log anew: too much will be read iff a line lay before the offset. */
  lemma FailedOpenReads(log: seq<byte>, mark: nat, offset: nat, lines: seq<Line>, again: bool)
    requires Accounted(log, mark, offset, lines, again)
    ensures Accounted(log, mark, 0, lines, again || LinesBefore(log, offset) != [])
  {
    NoBytes(log, 0);
    hide Lines, Span;
  }

  lemma SightReads(log: seq<byte>, took: Option<nat>, mark: nat, offset: nat, lines: seq<Line>, again: bool)
    requires Accounted(log, mark, offset, lines, again)
    ensures var r := ReadCompleteLines(Sight(Some(log), took), offset);
            Accounted(log, mark, r.next, lines + r.lines, again)
  {
    var r := ReadCompleteLines(Sight(Some(log), took), offset);
    ReadGivesLines(log, took, offset);
    LinesOnward(log, 0, offset, r.next);
    Assoc(LinesBefore(log, mark), lines, r.lines);
    hide Lines, Span, ReadCompleteLines;
  }

  lemma MarkReads(mark: Sight, log: seq<byte>)
    requires Sees(mark, log)
    ensures var m := ReadCompleteLines(mark, 0).next; Accounted(log, m, m, [], false)
  {
    if mark.file.Some? {
      ReadGivesLines(log, mark.took, 0);
    }
    Nothing(LinesBefore(log, ReadCompleteLines(mark, 0).next));
    hide Lines, Span, ReadCompleteLines;
  }

  lemma {:induction false} ReadsOn(mark: Sight, activity: Option<TurnActivity>, polls: seq<Files>, logs: seq<seq<byte>>,
                                   parse: Parser)
    requires AppendOnly(mark, polls, logs)
    ensures var n := Watching(mark, activity, polls, parse);
            Accounted(logs[|polls|], ReadCompleteLines(mark, 0).next, n.w.offset, n.lines,
                      Rereads(mark, activity, polls, logs, parse))
  {
    var m := ReadCompleteLines(mark, 0).next;
    if polls == [] {
      MarkReads(mark, logs[0]);
    } else {
      var init, sight := polls[..|polls| - 1], polls[|polls| - 1].log;
      var log, past := logs[|polls|], logs[..|polls|];
      ReadsOn(mark, activity, init, past, parse);
      var before := Watching(mark, activity, init, parse);
      var again := Rereads(mark, activity, init, past, parse);
      assert past[|init|] <= log && Sees(sight, log);
      hide Accounted, Sorted, Reported, DueOf, LinesBefore;
      GrownLog(past[|init|], log, m, before.w.offset, before.lines, again);
      if sight.file.Some? {
        SightReads(log, sight.took, m, before.w.offset, before.lines, again);
        hide ReadCompleteLines;
      } else {
        FailedOpenReads(log, m, before.w.offset, before.lines, again);
        Nothing(before.lines);
      }
    }
  }

  /**
   Over any polls of an append-only log, whatever part of it each read gave
   and whichever opens failed: the offset is 0 or just past a newline, and
   the lines read are exactly the complete lines after the mark and up to
   the offset, in order, each once, if and only if no open failed while a
   complete line lay before the offset.
   */
  lemma ReadsEachLineOnce(mark: Sight, activity: Option<TurnActivity>, polls: seq<Files>, logs: seq<seq<byte>>,
                          parse: Parser)
    requires AppendOnly(mark, polls, logs)
    ensures var n, log, m := Watching(mark, activity, polls, parse), logs[|polls|], ReadCompleteLines(mark, 0).next;
            && AtLineStart(log, m) && AtLineStart(log, n.w.offset)
            && (ReadUpTo(log, m, n.w.offset, n.lines) <==> !Rereads(mark, activity, polls, logs, parse))
            && (m <= n.w.offset && !Rereads(mark, activity, polls, logs, parse) ==>
                  n.lines == Lines(Span(log, m, n.w.offset)))
  {
    ReadsOn(mark, activity, polls, logs, parse);
    var n, log, m := Watching(mark, activity, polls, parse), logs[|polls|], ReadCompleteLines(mark, 0).next;
    hide Watching, Rereads, AppendOnly, ReadCompleteLines, Lines;
    if m <= n.w.offset {
      LinesOnward(log, 0, m, n.w.offset);
      if ReadUpTo(log, m, n.w.offset, n.lines) {
        SameRest(LinesBefore(log, m), n.lines, Lines(Span(log, m, n.w.offset)));
      }
    }
    hide Span;
  }

  lemma SameRest<T>(a: seq<T>, b: seq<T>, c: seq<T>)
    requires a + b == a + c
    ensures b == c
  {
    assert b == (a + b)[|a|..] && c == (a + c)[|a|..];
  }

  lemma AllRead(log: seq<byte>, took: nat, mark: nat, offset: nat, lines: seq<Line>)
    requires AtLineStart(log, mark) && AtLineStart(log, offset) && |log| <= took
    requires var next := ReadCompleteLines(Sight(Some(log), Some(took)), offset).next;
             AtLineStart(log, next) && ReadUpTo(log, mark, next, lines)
    ensures lines == Lines(Span(log, mark, |log|))
  {
    ReadTakesAll(log, took, offset);
    hide ReadCompleteLines, Lines;
    LinesUpTo(log, 0, ReadCompleteLines(Sight(Some(log), Some(took)), offset).next);
    LinesOnward(log, 0, mark, |log|);
    hide Span;
    SameRest(LinesBefore(log, mark), lines, Lines(Span(log, mark, |log|)));
  }

  /** Once a poll's read takes all there is, every complete line after the mark was read, if none was read again. */
  lemma ReadsAllLines(mark: Sight, activity: Option<TurnActivity>, polls: seq<Files>, logs: seq<seq<byte>>,
                      parse: Parser)
    requires AppendOnly(mark, polls, logs) && polls != [] && !Rereads(mark, activity, polls, logs, parse)
    requires TookAll(polls[|polls| - 1].log)
    ensures var log, m := logs[|polls|], ReadCompleteLines(mark, 0).next;
            m <= |log| && Watching(mark, activity, polls, parse).lines == Lines(Span(log, m, |log|))
  {
    var log, m := logs[|polls|], ReadCompleteLines(mark, 0).next;
    hide ReadCompleteLines, Lines, Span, Watching, LinesBefore;
    ReadsOn(mark, activity, polls, logs, parse);
    LastPoll(mark, activity, polls, logs, parse);
    hide Rereads, AppendOnly;
    AllRead(log, polls[|polls| - 1].log.took.value, m, Watching(mark, activity, polls[..|polls| - 1], parse).w.offset,
            Watching(mark, activity, polls, parse).lines);
  }

  /** The last poll reads on from where the one before it stopped. */
  lemma LastPoll(mark: Sight, activity: Option<TurnActivity>, polls: seq<Files>, logs: seq<seq<byte>>, parse: Parser)
    requires AppendOnly(mark, polls, logs) && polls != [] && polls[|polls| - 1].log.file.Some?
    ensures var log, sight := logs[|polls|], polls[|polls| - 1].log;
            var before, n := Watching(mark, activity, polls[..|polls| - 1], parse),
              Watching(mark, activity, polls, parse);
            && sight.file.value == log && AtLineStart(log, before.w.offset)
            && n.w.offset == ReadCompleteLines(sight, before.w.offset).next
  {
    var init, past := polls[..|polls| - 1], logs[..|polls|];
    assert past[|init|] <= logs[|polls|];
    hide ReadCompleteLines, Rereads, Sorted, Reported, DueOf, LinesBefore;
    ReadsOn(mark, activity, init, past, parse);
  }

  /** The read took all that the log held. */
  predicate TookAll(sight: Sight) {
    sight.file.Some? && sight.took.Some? && |sight.file.value| <= sight.took.value
  }

  /** A failed open between two whole reads gives every complete line twice, if there is any. */
  lemma FailedOpenReadsTwice(log: seq<byte>, activity: Option<TurnActivity>, parse: Parser)
    ensures var all, none := Files(None, Sight(Some(log), Some(|log|)), None), Files(None, Sight(None, None), None);
            Watching(Sight(None, None), activity, [all, none, all], parse).lines == Lines(log) + Lines(log)
  {
    var all, none := Files(None, Sight(Some(log), Some(|log|)), None), Files(None, Sight(None, None), None);
    var mark := Sight(None, None);
    FailedOpenRereads(log, 0);
    FailedOpenRereads(log, Watching(mark, activity, [all], parse).w.offset);
    assert [all, none, all][..2] == [all, none] && [all, none][..1] == [all] && [all][..0] == [];
    assert Watching(mark, activity, [], parse) == Watched(Watch(None, 0, activity), [], []);
    hide ReadCompleteLines, Lines, Sorted, Reported, DueOf;
    Nothing(Lines(log));
  }

  // The log's events over all polls.

  predicate IsLine(d: Due) {
    d.report.LineSeen?
  }

  function EventsIn(due: seq<Due>): seq<SessionEvent> {
    if due == [] then []
    else
      var last := due[|due| - 1];
      EventsIn(due[..|due| - 1]) + if IsLine(last) then [last.report.event] else []
  }

  function EventsHeard(heard: seq<Heard>): seq<SessionEvent> {
    if heard == [] then []
    else
      var last := heard[|heard| - 1];
      EventsHeard(heard[..|heard| - 1]) + if last.EventHeard? then [last.event] else []
  }

  ghost predicate Ordered(events: seq<SessionEvent>) {
    forall i, j :: 0 <= i < j < |events| ==> AtMs(events[i]) <= AtMs(events[j])
  }

  lemma {:induction false} HeardAsReported(session: Option<Session>, due: seq<Due>)
    ensures EventsHeard(Reported(session, due).1) == EventsIn(due)
  {
    if due != [] {
      var init := due[..|due| - 1];
      HeardAsReported(session, init);
      var before := Reported(session, init);
      var now := Report1(before.0, due[|due| - 1]);
      assert (before.1 + [now.1])[..|before.1|] == before.1;
    }
  }

  lemma {:induction false} HeardConcat(a: seq<Heard>, b: seq<Heard>)
    ensures EventsHeard(a + b) == EventsHeard(a) + EventsHeard(b)
  {
    if b == [] {
      assert a + b == a;
    } else {
      HeardConcat(a, b[..|b| - 1]);
      assert (a + b)[..|a + b| - 1] == a + b[..|b| - 1];
    }
  }

  lemma {:induction false} ParsedConcat(a: seq<Line>, b: seq<Line>, parse: Parser)
    ensures Parsed(a + b, parse) == Parsed(a, parse) + Parsed(b, parse)
  {
    if b == [] {
      assert a + b == a;
    } else {
      ParsedConcat(a, b[..|b| - 1], parse);
      assert (a + b)[..|a + b| - 1] == a + b[..|b| - 1];
    }
  }

  lemma {:induction false} EventsInFilter(due: seq<Due>)
    ensures EventsIn(Filter(due, IsLine)) == EventsIn(due)
  {
    if due != [] {
      var init, last := due[..|due| - 1], due[|due| - 1];
      EventsInFilter(init);
      var f := Filter(init, IsLine);
      if IsLine(last) {
        assert (f + [last])[..|f|] == f;
      } else {
        assert f + [] == f;
      }
    }
  }

  lemma {:induction false} LinesAreDue(events: seq<SessionEvent>)
    ensures EventsIn(LinesDue(events)) == events
  {
    if events != [] {
      var init := events[..|events| - 1];
      LinesAreDue(init);
      assert LinesDue(events)[..|events| - 1] == LinesDue(init);
      hide LinesDue;
    }
  }

  lemma NoLine(due: seq<Due>)
    requires |due| <= 1 && (due != [] ==> !IsLine(due[0]))
    ensures Filter(due, IsLine) == []
  {}

  lemma DueLines(w: Watch, files: Files, parse: Parser)
    ensures Filter(DueOf(w, files, parse), IsLine) ==
            LinesDue(Parsed(ReadCompleteLines(files.log, w.offset).lines, parse))
  {
    var a, c := SessionDue(w, files), ActivityDue(w, files);
    var b := LinesDue(Parsed(ReadCompleteLines(files.log, w.offset).lines, parse));
    hide Filter, LinesDue, Parsed, ReadCompleteLines;
    FilterAll(b, IsLine);
    NoLine(a);
    NoLine(c);
    FilterConcat(a, b, IsLine);
    FilterConcat(a + b, c, IsLine);
    Nothing(b);
    hide SessionDue, ActivityDue;
  }

  /** Of what one poll reports, the log's events come in the log's order, if that is the order of their times. */
  lemma PollHearsLines(w: Watch, files: Files, parse: Parser)
    requires Ordered(Parsed(ReadCompleteLines(files.log, w.offset).lines, parse))
    ensures EventsHeard(Poll(w, files, parse).1) == Parsed(ReadCompleteLines(files.log, w.offset).lines, parse)
  {
    hide ReadCompleteLines, Sorted, Reported, Filter, DueOf, Parsed, EventsIn, EventsHeard;
    var events := Parsed(ReadCompleteLines(files.log, w.offset).lines, parse);
    var due := DueOf(w, files, parse);
    DueLines(w, files, parse);
    LinesAreDue(events);
    SortedKeepsOrder(due, IsLine);
    EventsInFilter(due);
    EventsInFilter(Sorted(due));
    HeardAsReported(w.session, Sorted(due));
  }

  lemma OrderedParts(a: seq<SessionEvent>, b: seq<SessionEvent>)
    requires Ordered(a + b)
    ensures Ordered(a) && Ordered(b)
  {
    assert forall i :: 0 <= i < |a| ==> (a + b)[i] == a[i];
    assert forall i :: 0 <= i < |b| ==> (a + b)[|a| + i] == b[i];
  }

  /**
   Over all polls, the log's events are heard each once and in the log's order,
   if that is the order of their times.
   */
  lemma {:induction false} HearsEachEventOnce(mark: Sight, activity: Option<TurnActivity>, polls: seq<Files>,
                                              parse: Parser)
    requires Ordered(Parsed(Watching(mark, activity, polls, parse).lines, parse))
    ensures var n := Watching(mark, activity, polls, parse); EventsHeard(n.heard) == Parsed(n.lines, parse)
  {
    if polls != [] {
      var init, files := polls[..|polls| - 1], polls[|polls| - 1];
      var before := Watching(mark, activity, init, parse);
      var lines := ReadCompleteLines(files.log, before.w.offset).lines;
      ParsedConcat(before.lines, lines, parse);
      OrderedParts(Parsed(before.lines, parse), Parsed(lines, parse));
      HearsEachEventOnce(mark, activity, init, parse);
      PollHearsLines(before.w, files, parse);
      HeardConcat(before.heard, Poll(before.w, files, parse).1);
    }
  }
}
