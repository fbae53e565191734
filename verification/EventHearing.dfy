/**
 What the handlers hear over all polls, said of the files alone: each new tool
 call and each new session once, in time order within a poll, and every Stop
 with the session reported last before it.
 */
module EventHearing {
  import opened Records
  import opened OrderedMaps
  import opened Bytes
  import opened EventLogs
  import opened EventWatching
  import StableSorts

  // Tool calls and sessions.

  /** What the file of the latest tool call held at each poll. */
  function ActivitiesIn(polls: seq<Files>): seq<Option<TurnActivity>> {
    if polls == [] then [] else ActivitiesIn(polls[..|polls| - 1]) + [polls[|polls| - 1].activity]
  }

  function SessionsIn(polls: seq<Files>): seq<Option<Session>> {
    if polls == [] then [] else SessionsIn(polls[..|polls| - 1]) + [polls[|polls| - 1].session]
  }

  /** The last thing seen, `known` before any. */
  function LastSeen<T>(known: Option<T>, seen: seq<Option<T>>): Option<T> {
    if seen == [] then known
    else if seen[|seen| - 1].Some? then seen[|seen| - 1]
    else LastSeen(known, seen[..|seen| - 1])
  }

  /** Of what was seen, poll by poll, each thing whose time is not that of the last one seen before it. */
  function NewOnes<T>(known: Option<T>, seen: seq<Option<T>>, time: T -> nat): seq<T> {
    if seen == [] then []
    else
      var init, now := seen[..|seen| - 1], seen[|seen| - 1];
      var last := LastSeen(known, init);
      NewOnes(known, init, time)
      + if now.Some? && (last.None? || time(last.value) != time(now.value)) then [now.value] else []
  }

  /** The tool calls among what was heard. */
  function CallsHeard(heard: seq<Heard>): seq<TurnActivity> {
    if heard == [] then []
    else
      var last := heard[|heard| - 1];
      CallsHeard(heard[..|heard| - 1]) + if last.ActivityHeard? then [last.activity] else []
  }

  /** The sessions among what was heard, by id and source. */
  function StartsHeard(heard: seq<Heard>): seq<(string, string)> {
    if heard == [] then []
    else
      var last := heard[|heard| - 1];
      StartsHeard(heard[..|heard| - 1]) + if last.SessionStarted? then [(last.started, last.source)] else []
  }

  lemma {:induction false} HeardIn(a: seq<Heard>, b: seq<Heard>)
    ensures CallsHeard(a + b) == CallsHeard(a) + CallsHeard(b)
    ensures StartsHeard(a + b) == StartsHeard(a) + StartsHeard(b)
  {
    if b == [] {
      Nothing(a);
      Nothing(CallsHeard(a));
      Nothing(StartsHeard(a));
    } else {
      var init, last := b[..|b| - 1], b[|b| - 1];
      HeardIn(a, init);
      assert (a + b)[..|a + b| - 1] == a + init;
      Assoc(CallsHeard(a), CallsHeard(init), if last.ActivityHeard? then [last.activity] else []);
      Assoc(StartsHeard(a), StartsHeard(init), if last.SessionStarted? then [(last.started, last.source)] else []);
    }
  }

  // The lines that parse.

  /** The events taken from lines are those of the lines that parse, in their order, one of each. */
  lemma {:induction false} ParsedAre(lines: seq<Line>, parse: Parser)
    ensures var whole := Filter(lines, (line: Line) => parse(line).Some?);
            && |Parsed(lines, parse)| == |whole|
            && forall i :: 0 <= i < |whole| ==> parse(whole[i]) == Some(Parsed(lines, parse)[i])
  {
    if lines != [] {
      ParsedAre(lines[..|lines| - 1], parse);
    }
  }

  // One poll.

  predicate IsTool(d: Due) {
    d.report.ToolSeen?
  }

  predicate IsSession(d: Due) {
    d.report.SessionSeen?
  }

  function ToolsDue(due: seq<Due>): seq<TurnActivity> {
    if due == [] then []
    else
      var last := due[|due| - 1];
      ToolsDue(due[..|due| - 1]) + if IsTool(last) then [last.report.activity] else []
  }

  function SessionsDue(due: seq<Due>): seq<(string, string)> {
    if due == [] then []
    else
      var last := due[|due| - 1];
      SessionsDue(due[..|due| - 1])
      + if IsSession(last) then [(last.report.session.sessionId, last.report.session.source)] else []
  }

  /** The session reported last, `session` before any. */
  function LastSession(session: Option<Session>, due: seq<Due>): Option<Session> {
    if due == [] then session
    else if IsSession(due[|due| - 1]) then Some(due[|due| - 1].report.session)
    else LastSession(session, due[..|due| - 1])
  }

  lemma {:induction false} HeardAsDue(session: Option<Session>, due: seq<Due>)
    ensures var r := Reported(session, due);
            CallsHeard(r.1) == ToolsDue(due) && StartsHeard(r.1) == SessionsDue(due)
            && r.0 == LastSession(session, due)
  {
    if due != [] {
      var init := due[..|due| - 1];
      HeardAsDue(session, init);
      var before := Reported(session, init);
      var now := Report1(before.0, due[|due| - 1]);
      assert (before.1 + [now.1])[..|before.1|] == before.1;
    }
  }

  lemma {:induction false} ToolsFilter(due: seq<Due>)
    ensures ToolsDue(Filter(due, IsTool)) == ToolsDue(due)
  {
    if due != [] {
      var init, last := due[..|due| - 1], due[|due| - 1];
      ToolsFilter(init);
      var f := Filter(init, IsTool);
      if IsTool(last) {
        assert (f + [last])[..|f|] == f;
      } else {
        Nothing(f);
        Nothing(ToolsDue(init));
      }
    }
  }

  lemma {:induction false} SessionsFilter(due: seq<Due>, session: Option<Session>)
    ensures SessionsDue(Filter(due, IsSession)) == SessionsDue(due)
    ensures LastSession(session, Filter(due, IsSession)) == LastSession(session, due)
  {
    if due != [] {
      var init, last := due[..|due| - 1], due[|due| - 1];
      SessionsFilter(init, session);
      var f := Filter(init, IsSession);
      if IsSession(last) {
        assert (f + [last])[..|f|] == f;
      } else {
        Nothing(f);
        Nothing(SessionsDue(init));
      }
    }
  }

  lemma {:induction false} NoneOf(due: seq<Due>, p: Due -> bool)
    requires forall d <- due :: !p(d)
    ensures Filter(due, p) == []
  {
    if due != [] {
      NoneOf(due[..|due| - 1], p);
    }
  }

  lemma OneOrNone(due: seq<Due>, p: Due -> bool)
    requires |due| <= 1
    ensures Filter(due, p) == if due != [] && p(due[0]) then due else []
    ensures InTime(due)
  {
    hide Filter;
    if due != [] && p(due[0]) {
      FilterAll(due, p);
    } else {
      NoneOf(due, p);
    }
  }

  /** Of one poll's records, which are no lines. */
  lemma DueBesidesLines(w: Watch, files: Files, parse: Parser)
    ensures Filter(DueOf(w, files, parse), IsTool) == ActivityDue(w, files)
    ensures Filter(DueOf(w, files, parse), IsSession) == SessionDue(w, files)
  {
    var a, c := SessionDue(w, files), ActivityDue(w, files);
    var b := LinesDue(Parsed(ReadCompleteLines(files.log, w.offset).lines, parse));
    assert forall d <- b :: d.report.LineSeen?;
    hide Filter, LinesDue, Parsed, ReadCompleteLines;
    NoneOf(b, IsTool);
    NoneOf(b, IsSession);
    OneOrNone(a, IsTool);
    OneOrNone(c, IsTool);
    OneOrNone(a, IsSession);
    OneOrNone(c, IsSession);
    FilterConcat(a, b, IsTool);
    FilterConcat(a + b, c, IsTool);
    FilterConcat(a, b, IsSession);
    FilterConcat(a + b, c, IsSession);
    Nothing(a);
    Nothing(c);
  }

  /** One poll: at most one tool call and one session are heard, when their times are not those known. */
  lemma PollHears(w: Watch, files: Files, parse: Parser)
    ensures var (n, heard) := Poll(w, files, parse);
            var newCall := files.activity.Some?
              && !(w.activity.Some? && files.activity.value.atMs == w.activity.value.atMs);
            var newSession := files.session.Some?
              && !(w.session.Some? && files.session.value.atMs == w.session.value.atMs);
            && CallsHeard(heard) == (if newCall then [files.activity.value] else [])
            && StartsHeard(heard) ==
               (if newSession then [(files.session.value.sessionId, files.session.value.source)] else [])
            && n.activity == (if newCall then files.activity else w.activity)
            && n.session == if newSession then files.session else w.session
  {
    hide ReadCompleteLines, Sorted, Reported, DueOf, ToolsDue, SessionsDue, LastSession, CallsHeard, StartsHeard;
    HeardAsDue(w.session, Sorted(DueOf(w, files, parse)));
    SortedHolds(w, files, parse);
    FewDue(w, files);
  }

  lemma SortedHolds(w: Watch, files: Files, parse: Parser)
    ensures var due := Sorted(DueOf(w, files, parse));
            && ToolsDue(due) == ToolsDue(ActivityDue(w, files)) && SessionsDue(due) == SessionsDue(SessionDue(w, files))
            && LastSession(w.session, due) == LastSession(w.session, SessionDue(w, files))
  {
    var due := DueOf(w, files, parse);
    DueBesidesLines(w, files, parse);
    OneOrNone(ActivityDue(w, files), IsTool);
    OneOrNone(SessionDue(w, files), IsSession);
    hide *;
    SortedKeepsOrder(due, IsTool);
    SortedKeepsOrder(due, IsSession);
    ToolsFilter(Sorted(due));
    SessionsFilter(Sorted(due), w.session);
  }

  lemma FewDue(w: Watch, files: Files)
    ensures ToolsDue(ActivityDue(w, files)) == if ActivityDue(w, files) == [] then [] else [files.activity.value]
    ensures SessionsDue(SessionDue(w, files)) ==
            if SessionDue(w, files) == [] then [] else [(files.session.value.sessionId, files.session.value.source)]
    ensures LastSession(w.session, SessionDue(w, files)) ==
            if SessionDue(w, files) == [] then w.session else files.session
  {
    var a, c := ActivityDue(w, files), SessionDue(w, files);
    assert a != [] ==> a[..|a| - 1] == [];
    assert c != [] ==> c[..|c| - 1] == [];
  }

  // All polls.

  predicate SameTime<T>(a: Option<T>, b: Option<T>, time: T -> nat) {
    a.Some? == b.Some? && (a.Some? ==> time(a.value) == time(b.value))
  }

  lemma SeenNext<T>(known: Option<T>, init: seq<Option<T>>, now: Option<T>, time: T -> nat)
    ensures LastSeen(known, init + [now]) == if now.Some? then now else LastSeen(known, init)
    ensures NewOnes(known, init + [now], time) ==
            NewOnes(known, init, time)
            + var last := LastSeen(known, init);
              if now.Some? && (last.None? || time(last.value) != time(now.value)) then [now.value] else []
  {
    assert (init + [now])[..|init|] == init;
  }

  /** The starts a list of sessions is heard as. */
  function AsStarts(sessions: seq<Session>): seq<(string, string)> {
    if sessions == [] then []
    else AsStarts(sessions[..|sessions| - 1])
         + [(sessions[|sessions| - 1].sessionId, sessions[|sessions| - 1].source)]
  }

  lemma AsStartsMore(sessions: seq<Session>, more: seq<Session>)
    requires |more| <= 1
    ensures AsStarts(sessions + more) ==
            AsStarts(sessions) + if more == [] then [] else [(more[0].sessionId, more[0].source)]
  {
    if more == [] {
      Nothing(sessions);
      Nothing(AsStarts(sessions));
    } else {
      assert (sessions + more)[..|sessions|] == sessions;
    }
  }

  /**
   Over any polls: the tool calls heard are, in order and each once, those
   whose time was not that of the one seen before, the mark's first of all;
   the sessions heard are likewise those seen, with none known at the mark.
   */
  lemma {:induction false} HearsEachCallOnce(mark: Sight, activity: Option<TurnActivity>, polls: seq<Files>,
                                             parse: Parser)
    ensures var n := Watching(mark, activity, polls, parse);
            && CallsHeard(n.heard) == NewOnes(activity, ActivitiesIn(polls), (a: TurnActivity) => a.atMs)
            && StartsHeard(n.heard) == AsStarts(NewOnes(None, SessionsIn(polls), (s: Session) => s.atMs))
            && SameTime(n.w.activity, LastSeen(activity, ActivitiesIn(polls)), (a: TurnActivity) => a.atMs)
            && SameTime(n.w.session, LastSeen(None, SessionsIn(polls)), (s: Session) => s.atMs)
  {
    if polls != [] {
      var init, files := polls[..|polls| - 1], polls[|polls| - 1];
      var before := Watching(mark, activity, init, parse);
      HearsEachCallOnce(mark, activity, init, parse);
      PollHears(before.w, files, parse);
      HeardIn(before.heard, Poll(before.w, files, parse).1);
      SeenNext(activity, ActivitiesIn(init), files.activity, (a: TurnActivity) => a.atMs);
      SeenNext(None, SessionsIn(init), files.session, (s: Session) => s.atMs);
      var last := LastSeen(None, SessionsIn(init));
      var begun := if files.session.Some? && (last.None? || last.value.atMs != files.session.value.atMs)
        then [files.session.value] else [];
      AsStartsMore(NewOnes(None, SessionsIn(init), (s: Session) => s.atMs), begun);
      hide Poll, CallsHeard, StartsHeard, NewOnes, LastSeen, AsStarts, ReadCompleteLines;
    }
  }

  // The order within a poll.

  function TimeOf(report: Report): nat {
    match report
    case SessionSeen(s) => s.atMs
    case LineSeen(Submit(submit)) => submit.atMs
    case LineSeen(Stop(stop)) => stop.atMs
    case LineSeen(Failure(failure)) => failure.atMs
    case ToolSeen(a) => a.atMs
  }

  /** A poll reads the session first, then the log, and the tool call last. */
  function Rank(report: Report): nat {
    match report
    case SessionSeen(_) => 0
    case LineSeen(_) => 1
    case ToolSeen(_) => 2
  }

  /** Earlier, or at the same time and read no later. */
  predicate Precedes(a: Report, b: Report) {
    TimeOf(a) < TimeOf(b) || (TimeOf(a) == TimeOf(b) && Rank(a) <= Rank(b))
  }

  /** The call a report is made by. */
  predicate Tells(report: Report, h: Heard) {
    match report
    case SessionSeen(s) => h == SessionStarted(s.sessionId, s.source)
    case LineSeen(e) => h.EventHeard? && h.event == e
    case ToolSeen(a) => h == ActivityHeard(a)
  }

  /** The calls `heard` are those of `reports`, one after another. */
  ghost predicate ToldInTurn(reports: seq<Report>, heard: seq<Heard>) {
    && |reports| == |heard|
    && (forall i :: 0 <= i < |heard| ==> Tells(reports[i], heard[i]))
    && forall i, j :: 0 <= i < j < |reports| ==> Precedes(reports[i], reports[j])
  }

  predicate ReadNoLater(a: Due, b: Due) {
    Rank(a.report) <= Rank(b.report)
  }

  lemma {:induction false} FilterInOrder<T>(s: seq<T>, le: (T, T) -> bool, p: T -> bool)
    requires StableSorts.InOrder(s, le)
    ensures StableSorts.InOrder(Filter(s, p), le)
  {
    if s != [] {
      var init, last := s[..|s| - 1], s[|s| - 1];
      assert s == init + [last];
      StableSorts.LastComesLast(init, last, le, true);
      FilterInOrder(init, le, p);
      if p(last) {
        StableSorts.EndsLast(Filter(init, p), last, le);
      } else {
        Nothing(Filter(init, p));
      }
      hide StableSorts.InOrder;
    }
  }

  lemma {:induction false} PairsInOrder<T>(s: seq<T>, le: (T, T) -> bool, p: T -> bool, i: nat, j: nat)
    requires StableSorts.InOrder(Filter(s, p), le) && i < j < |s| && p(s[i]) && p(s[j])
    ensures le(s[i], s[j])
  {
    var init, last := s[..|s| - 1], s[|s| - 1];
    assert Filter(s, p) == Filter(init, p) + if p(last) then [last] else [];
    StableSorts.LastComesLast(Filter(init, p), last, le, p(last));
    if j < |s| - 1 {
      PairsInOrder(init, le, p, i, j);
    } else {
      assert s[i] in init;
    }
  }

  lemma DueAsRead(w: Watch, files: Files, parse: Parser)
    ensures StableSorts.InOrder(DueOf(w, files, parse), ReadNoLater)
    ensures forall d <- DueOf(w, files, parse) :: d.atMs == TimeOf(d.report)
  {
    hide Parsed, ReadCompleteLines;
  }

  lemma {:induction false} ReportedTell(session: Option<Session>, due: seq<Due>)
    ensures var heard := Reported(session, due).1;
            |heard| == |due| && forall i :: 0 <= i < |due| ==> Tells(due[i].report, heard[i])
  {
    if due != [] {
      ReportedTell(session, due[..|due| - 1]);
    }
  }

  function ReportsOf(due: seq<Due>): (reports: seq<Report>)
    ensures |reports| == |due| && forall i :: 0 <= i < |due| ==> reports[i] == due[i].report
  {
    seq(|due|, i requires 0 <= i < |due| => due[i].report)
  }

  lemma SortedPrecede(due: seq<Due>)
    requires StableSorts.InOrder(due, ReadNoLater) && forall d <- due :: d.atMs == TimeOf(d.report)
    ensures var s := Sorted(due);
            forall i, j :: 0 <= i < j < |s| ==> Precedes(s[i].report, s[j].report)
  {
    var s := Sorted(due);
    SortedInTime(due);
    assert forall d :: d in s ==> d in due by {
      forall d | d in s ensures d in due {
        assert d in multiset(s);
      }
    }
    forall i, j | 0 <= i < j < |s| ensures Precedes(s[i].report, s[j].report) {
      assert s[i].atMs == TimeOf(s[i].report) && s[j].atMs == TimeOf(s[j].report) && s[i].atMs <= s[j].atMs;
      if s[i].atMs == s[j].atMs {
        TiesAsRead(due, i, j);
      }
    }
  }

  lemma TiesAsRead(due: seq<Due>, i: nat, j: nat)
    requires StableSorts.InOrder(due, ReadNoLater)
    requires i < j < |Sorted(due)| && Sorted(due)[i].atMs == Sorted(due)[j].atMs
    ensures ReadNoLater(Sorted(due)[i], Sorted(due)[j])
  {
    var at := Sorted(due)[i].atMs;
    var same := (d: Due) => d.atMs == at;
    FilterInOrder(due, ReadNoLater, same);
    assert InTime(Filter(due, same)) by {
      forall i, j | 0 <= i < j < |Filter(due, same)|
        ensures Filter(due, same)[i].atMs <= Filter(due, same)[j].atMs {
        assert same(Filter(due, same)[i]) && same(Filter(due, same)[j]);
      }
    }
    SortedKeepsOrder(due, same);
    PairsInOrder(Sorted(due), ReadNoLater, same, i, j);
    hide Sorted;
  }

  /**
   What one poll has to tell is told in the order of its times, and at one
   time the session before the log's events, and the tool call after them.
   */
  lemma PollTellsInOrder(w: Watch, files: Files, parse: Parser)
    ensures exists reports :: ToldInTurn(reports, Poll(w, files, parse).1)
  {
    var due := DueOf(w, files, parse);
    DueAsRead(w, files, parse);
    hide DueOf, Sorted, Reported, Precedes, Tells;
    SortedPrecede(due);
    ReportedTell(w.session, Sorted(due));
    assert ToldInTurn(ReportsOf(Sorted(due)), Poll(w, files, parse).1);
  }

  // The session a Stop is of.

  /** The session that the last start heard was of, `before` when none was. */
  function StartedLast(before: Option<string>, heard: seq<Heard>): Option<string> {
    if heard == [] then before
    else if heard[|heard| - 1].SessionStarted? then Some(heard[|heard| - 1].started)
    else StartedLast(before, heard[..|heard| - 1])
  }

  /** Each Stop is told with its own session, or the one started last before it; no other event has one. */
  ghost predicate OfSessions(before: Option<string>, heard: seq<Heard>) {
    forall k :: 0 <= k < |heard| && heard[k].EventHeard? ==>
      heard[k].of ==
      if !heard[k].event.Stop? then None
      else if heard[k].event.stop.sessionId.Some? then heard[k].event.stop.sessionId
      else StartedLast(before, heard[..k])
  }

  function IdOf(session: Option<Session>): Option<string> {
    if session.Some? then Some(session.value.sessionId) else None
  }

  lemma OfSessionsMore(before: Option<string>, heard: seq<Heard>, h: Heard)
    requires OfSessions(before, heard)
    requires h.EventHeard? ==>
               h.of ==
               if !h.event.Stop? then None
               else if h.event.stop.sessionId.Some? then h.event.stop.sessionId
               else StartedLast(before, heard)
    ensures OfSessions(before, heard + [h])
    ensures StartedLast(before, heard + [h]) ==
            if h.SessionStarted? then Some(h.started) else StartedLast(before, heard)
  {
    var more := heard + [h];
    assert more[..|heard|] == heard;
    hide StartedLast;
    forall k | 0 <= k < |more| && more[k].EventHeard?
      ensures more[k].of ==
              if !more[k].event.Stop? then None
              else if more[k].event.stop.sessionId.Some? then more[k].event.stop.sessionId
              else StartedLast(before, more[..k]) {
      if k < |heard| {
        assert more[k] == heard[k] && more[..k] == heard[..k];
      }
    }
  }

  lemma {:induction false} ReportedOfSessions(session: Option<Session>, due: seq<Due>)
    ensures var r := Reported(session, due);
            OfSessions(IdOf(session), r.1) && StartedLast(IdOf(session), r.1) == IdOf(r.0)
  {
    if due != [] {
      var init := due[..|due| - 1];
      ReportedOfSessions(session, init);
      var before := Reported(session, init);
      var now := Report1(before.0, due[|due| - 1]);
      hide OfSessions, StartedLast;
      OfSessionsMore(IdOf(session), before.1, now.1);
    }
  }

  lemma {:induction false} OfSessionsOnward(before: Option<string>, a: seq<Heard>, b: seq<Heard>)
    requires OfSessions(before, a) && OfSessions(StartedLast(before, a), b)
    ensures OfSessions(before, a + b)
    ensures StartedLast(before, a + b) == StartedLast(StartedLast(before, a), b)
  {
    if b == [] {
      Nothing(a);
    } else {
      var init, last := b[..|b| - 1], b[|b| - 1];
      assert OfSessions(StartedLast(before, a), init) by {
        forall k | 0 <= k < |init| ensures init[k] == b[k] && init[..k] == b[..k] {}
      }
      OfSessionsOnward(before, a, init);
      assert b[|b| - 1] == last && b[..|b| - 1] == init;
      OfSessionsMore(before, a + init, last);
      assert a + b == a + init + [last];
    }
  }

  /** Over all polls, every Stop is told with its own session, or else with the one told of last before it. */
  lemma {:induction false} StopsAreOfTheLastSession(mark: Sight, activity: Option<TurnActivity>, polls: seq<Files>,
                                                    parse: Parser)
    ensures var n := Watching(mark, activity, polls, parse);
            OfSessions(None, n.heard) && StartedLast(None, n.heard) == IdOf(n.w.session)
  {
    if polls != [] {
      var init, files := polls[..|polls| - 1], polls[|polls| - 1];
      var before := Watching(mark, activity, init, parse);
      StopsAreOfTheLastSession(mark, activity, init, parse);
      hide OfSessions, StartedLast, ReadCompleteLines, Sorted, Reported, DueOf;
      ReportedOfSessions(before.w.session, Sorted(DueOf(before.w, files, parse)));
      OfSessionsOnward(None, before.heard, Poll(before.w, files, parse).1);
    }
  }
}
