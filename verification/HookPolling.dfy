/**
 From the file to the ledger: a server fed what the polls of the log heard,
 and the hook, which reads the same file, on its own.
 */
module HookPolling {
  import opened Records
  import opened OrderedMaps
  import opened Bytes
  import opened Turns
  import opened TurnHistory
  import opened Courses
  import opened WaitingRequests
  import opened HookAgreement
  import opened Channels
  import opened AgreementRuns
  import opened HookServer
  import EventLogs
  import EventWatching

  /** What a handler of the server's is told: an event of the log, or a tool call. */
  datatype Told = OfLog(event: SessionEvent) | OfTool(activity: TurnActivity)

  function ToldBy(event: Event): seq<Told> {
    match event
    case PromptSubmitted(submit, _, _, _) => [OfLog(Submit(submit))]
    case ToolCalled(activity, _, _, _) => [OfTool(activity)]
    case TurnStopped(stop, _, _, _) => [OfLog(Stop(stop))]
    case TurnFailed(failure, _, _, _) => [OfLog(Failure(failure))]
    case _ => []
  }

  function ToldIn(events: seq<Event>): seq<Told> {
    if events == [] then [] else ToldIn(events[..|events| - 1]) + ToldBy(events[|events| - 1])
  }

  function ToldOfHeard(h: EventWatching.Heard): seq<Told> {
    match h
    case EventHeard(event, _) => [OfLog(event)]
    case ActivityHeard(activity) => [OfTool(activity)]
    case SessionStarted(_, _) => []
  }

  function ToldAs(heard: seq<EventWatching.Heard>): seq<Told> {
    if heard == [] then [] else ToldAs(heard[..|heard| - 1]) + ToldOfHeard(heard[|heard| - 1])
  }

  /** The server's handlers were called for what the polls heard, in that order, whatever else happened in between. */
  predicate Fed(heard: seq<EventWatching.Heard>, events: seq<Event>) {
    ToldIn(events) == ToldAs(heard)
  }

  function LogPart(told: seq<Told>): seq<SessionEvent> {
    if told == [] then []
    else
      var last := told[|told| - 1];
      LogPart(told[..|told| - 1]) + if last.OfLog? then [last.event] else []
  }

  lemma LogPartMore(told: seq<Told>, more: seq<Told>)
    requires |more| <= 1
    ensures LogPart(told + more) == LogPart(told) + LogPart(more)
  {
    if more == [] {
      Nothing(told);
      Nothing(LogPart(told));
    } else {
      assert (told + more)[..|told|] == told && more[..0] == [];
      Nothing(LogPart(more));
    }
  }

  lemma {:induction false} HeardIsLogPart(heard: seq<EventWatching.Heard>)
    ensures EventWatching.EventsHeard(heard) == LogPart(ToldAs(heard))
  {
    if heard != [] {
      var init, last := heard[..|heard| - 1], heard[|heard| - 1];
      HeardIsLogPart(init);
      LogPartMore(ToldAs(init), ToldOfHeard(last));
    }
  }

  lemma LogOfMore(recs: seq<Record>, more: seq<Record>)
    requires |more| <= 1
    ensures LogOf(recs + more) == LogOf(recs) + if more == [] then [] else LineOf(more[0])
  {
    if more == [] {
      Nothing(recs);
      Nothing(LogOf(recs));
    } else {
      assert (recs + more)[..|recs|] == recs;
    }
  }

  lemma TellsAsTold(s: Server, event: Event)
    ensures var told := TellsOf(s, event);
            |told| <= 1 && |ToldBy(event)| <= 1 && LogPart(ToldBy(event)) == if told == [] then [] else LineOf(told[0])
  {}

  lemma NoTrace(binding: bool, lastStopMs: Option<nat>, graceMs: nat)
    ensures LogOf(TraceOf(binding, lastStopMs, [], graceMs)) == LogPart(ToldIn([]))
  {}

  /** The log of a run is what its handlers were told of the log. */
  lemma {:induction false} TraceIsLogPart(binding: bool, lastStopMs: Option<nat>, events: seq<Event>, graceMs: nat)
    ensures LogOf(TraceOf(binding, lastStopMs, events, graceMs)) == LogPart(ToldIn(events))
  {
    hide TraceOf, LogOf, LogPart, TellsOf, ToldBy, Reach;
    if events == [] {
      NoTrace(binding, lastStopMs, graceMs);
    } else {
      var before, event := events[..|events| - 1], events[|events| - 1];
      var s := Reach(binding, lastStopMs, before, graceMs).s;
      TraceIsLogPart(binding, lastStopMs, before, graceMs);
      TraceMore(binding, lastStopMs, events, graceMs);
      TellsAsTold(s, event);
      LogOfMore(TraceOf(binding, lastStopMs, before, graceMs), TellsOf(s, event));
      LogPartMore(ToldIn(before), ToldBy(event));
    }
  }

  /**
   Polls of a log that holds nothing before the mark, none of which read
   anything twice, and the last all there was.
   */
  ghost predicate ReadWhole(mark: EventLogs.Sight, activity: Option<TurnActivity>, polls: seq<EventWatching.Files>,
                            logs: seq<seq<byte>>, parse: EventWatching.Parser)
  {
    && polls != [] && EventWatching.AppendOnly(mark, polls, logs)
    && !EventWatching.Rereads(mark, activity, polls, logs, parse)
    && EventWatching.TookAll(polls[|polls| - 1].log)
    && EventWatching.LinesBefore(logs[|polls|], EventLogs.ReadCompleteLines(mark, 0).next) == []
  }

  /** What the hook makes of the file: the events of its complete lines that parse. */
  function LogIn(file: seq<byte>, parse: EventWatching.Parser): seq<SessionEvent> {
    EventWatching.Parsed(EventLogs.Lines(file), parse)
  }

  lemma WholeIsRead(mark: EventLogs.Sight, activity: Option<TurnActivity>, polls: seq<EventWatching.Files>,
                    logs: seq<seq<byte>>, parse: EventWatching.Parser)
    requires ReadWhole(mark, activity, polls, logs, parse)
    ensures EventWatching.Watching(mark, activity, polls, parse).lines == EventLogs.Lines(logs[|polls|])
  {
    var log, m := logs[|polls|], EventLogs.ReadCompleteLines(mark, 0).next;
    EventWatching.ReadsAllLines(mark, activity, polls, logs, parse);
    EventWatching.ReadsEachLineOnce(mark, activity, polls, logs, parse);
    hide EventWatching.Watching, EventWatching.Rereads, EventWatching.AppendOnly, EventLogs.ReadCompleteLines,
         EventLogs.Lines;
    EventLogs.LinesOnward(log, 0, m, |log|);
    Nothing(EventLogs.Lines(EventLogs.Span(log, m, |log|)));
    assert EventLogs.Span(log, 0, |log|) == log;
  }

  /**
   A server fed by the polls: its log is, event by event, what the hook reads
   from the file, if the events were recorded in the order of their times.
   */
  lemma FileIsTheLog(binding: bool, lastStopMs: Option<nat>, events: seq<Event>, graceMs: nat,
                     mark: EventLogs.Sight, activity: Option<TurnActivity>, polls: seq<EventWatching.Files>,
                     logs: seq<seq<byte>>, parse: EventWatching.Parser)
    requires ReadWhole(mark, activity, polls, logs, parse)
    requires Fed(EventWatching.Watching(mark, activity, polls, parse).heard, events)
    requires EventWatching.Ordered(LogIn(logs[|polls|], parse))
    ensures LogOf(TraceOf(binding, lastStopMs, events, graceMs)) == LogIn(logs[|polls|], parse)
  {
    WholeIsRead(mark, activity, polls, logs, parse);
    hide EventWatching.Watching, EventWatching.Ordered, EventWatching.Parsed, EventWatching.EventsHeard, ReadWhole,
         LogPart;
    TraceIsLogPart(binding, lastStopMs, events, graceMs);
    HeardIsLogPart(EventWatching.Watching(mark, activity, polls, parse).heard);
    EventWatching.HearsEachEventOnce(mark, activity, polls, parse);
  }

  /**
   End to end: for a server fed by the polls of a well-formed log, the hook,
   reading that file and the server's, finds exactly the open requests the
   ledger has bound to the turn, iff no message sets one of them apart.
   */
  lemma HookReadsTheSameFile(binding: bool, lastStopMs: Option<nat>, events: seq<Event>, graceMs: nat,
                             mark: EventLogs.Sight, activity: Option<TurnActivity>, polls: seq<EventWatching.Files>,
                             logs: seq<seq<byte>>, parse: EventWatching.Parser,
                             owning: seq<RequestId>, p: PromptId)
    requires ReadWhole(mark, activity, polls, logs, parse)
    requires Fed(EventWatching.Watching(mark, activity, polls, parse).heard, events)
    requires EventWatching.Ordered(LogIn(logs[|polls|], parse))
    requires WellFormed(binding, lastStopMs, events, graceMs)
    ensures var s, c := Reach(binding, lastStopMs, events, graceMs).s, CourseNow(binding, lastStopMs, events, graceMs);
            var log := LogIn(logs[|polls|], parse);
            && (Found(s, log, owning, p) == Some(BoundBy(s, p)) <==>
                forall r <- FileOf(s, owning).openIds :: !SetApart(log, s.tracker, c, r, p))
            && (p !in c.names ==> Found(s, log, owning, p) == Some(BoundBy(s, p)))
  {
    hide *;
    FileIsTheLog(binding, lastStopMs, events, graceMs, mark, activity, polls, logs, parse);
    HookFindsTheBound(binding, lastStopMs, events, graceMs, owning, p);
    HookFindsItsTurns(binding, lastStopMs, events, graceMs, owning, p);
  }
}
