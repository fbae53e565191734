/**
 The Stop hook's own join of requests to turns, straight from the events log:
 a loop that shares one mutable set of prompt ids between the requests of a
 batch, and what it computes, said without the sharing.
 */
module WaitingRequests {
  import opened Records
  import opened OrderedMaps

  /** The two lists of the server's file: the owners, and all open requests. */
  datatype OpenRequests = OpenRequests(requestIds: seq<RequestId>, openIds: seq<RequestId>)

  predicate IsChannel(e: SessionEvent) {
    e.Submit? && e.submit.requestId.Some?
  }

  /** Some submit of the log carries a prompt id. */
  predicate ReportsIds(log: seq<SessionEvent>) {
    exists e <- log :: e.Submit? && e.submit.promptId.Some?
  }

  /** Line `k` is a channel submit right after another, within the batch bound. */
  predicate Linked(log: seq<SessionEvent>, k: int) {
    && 0 < k < |log| && IsChannel(log[k - 1]) && IsChannel(log[k])
    && log[k].submit.atMs - log[k - 1].submit.atMs <= CHANNEL_BATCH_MS
  }

  /** Lines `i` and `j` are in one run of linked channel submits. */
  ghost predicate Together(log: seq<SessionEvent>, i: int, j: int) {
    && 0 <= i < |log| && 0 <= j < |log| && IsChannel(log[i]) && IsChannel(log[j])
    && (forall k :: i < k <= j ==> Linked(log, k))
    && (forall k :: j < k <= i ==> Linked(log, k))
  }

  predicate Takes(log: seq<SessionEvent>, i: int, r: RequestId) {
    0 <= i < |log| && IsChannel(log[i]) && log[i].submit.requestId == Some(r)
  }

  /** Line `i` is the last one that takes `r` in. */
  ghost predicate LastTaken(log: seq<SessionEvent>, r: RequestId, i: int) {
    Takes(log, i, r) && forall k :: i < k < |log| ==> !Takes(log, k, r)
  }

  /** The run that took `r` in last holds, before or after, a submit under `p`. */
  ghost predicate WaitsFor(log: seq<SessionEvent>, r: RequestId, p: PromptId) {
    exists i, j :: LastTaken(log, r, i) && Together(log, i, j) && log[j].submit.promptId == Some(p)
  }

  /** What the hook answers at a Stop: nothing it can tell, the ledger's word, or its own join. */
  ghost function Waiting(open: Option<OpenRequests>, log: seq<SessionEvent>, promptId: Option<PromptId>)
    : Option<seq<RequestId>>
  {
    if open.None? then None
    else if promptId.None? || !ReportsIds(log) then Some(open.value.requestIds)
    else Some(Filter(open.value.openIds, r => WaitsFor(log, r, promptId.value)))
  }

  /**
   Nothing can be told without the server's file; with it, a Stop that has no
   prompt id, or a log in which none is recorded, leaves it to the ledger's
   owners; and any other is answered with exactly the open requests, in their
   order, whose last run holds the Stop's id.
   */
  lemma WaitingIsWho(open: Option<OpenRequests>, log: seq<SessionEvent>, promptId: Option<PromptId>)
    ensures open.None? ==> Waiting(open, log, promptId).None?
    ensures open.Some? && (promptId.None? || forall e <- log :: e.Submit? ==> e.submit.promptId.None?) ==>
              Waiting(open, log, promptId) == Some(open.value.requestIds)
    ensures open.Some? && promptId.Some? && (exists e <- log :: e.Submit? && e.submit.promptId.Some?) ==>
              && Waiting(open, log, promptId).Some?
              && (forall r :: r in Waiting(open, log, promptId).value <==>
                    r in open.value.openIds && WaitsFor(log, r, promptId.value))
              && ((forall r <- open.value.openIds :: WaitsFor(log, r, promptId.value)) ==>
                    Waiting(open, log, promptId) == Some(open.value.openIds))
  {
    if open.Some? && promptId.Some? && forall r <- open.value.openIds :: WaitsFor(log, r, promptId.value) {
      FilterAll(open.value.openIds, r => WaitsFor(log, r, promptId.value));
    }
    hide WaitsFor;
  }

  /** A set of prompt ids, shared by the requests taken together. */
  class IdSet {
    var ids: set<Option<PromptId>>

    constructor ()
      ensures ids == {}
    {
      ids := {};
    }
  }

  /** The prompt ids of the run of line `i`, as far as the first `n` lines tell. */
  ghost function RunIds(log: seq<SessionEvent>, n: nat, i: int): set<Option<PromptId>>
    requires n <= |log|
  {
    set j | 0 <= j < n && Together(log, i, j) :: log[j].submit.promptId
  }

  /** `r`'s last line among the first `n`, if any takes it in. */
  ghost predicate LastBefore(log: seq<SessionEvent>, n: nat, r: RequestId, i: int) {
    i < n <= |log| && Takes(log, i, r) && forall k :: i < k < n ==> !Takes(log, k, r)
  }

  lemma RunGrows(log: seq<SessionEvent>, n: nat, i: int)
    requires 0 <= i < n < |log|
    ensures Together(log, i, n) <==> Linked(log, n) && Together(log, i, n - 1)
    ensures Together(log, n, i) <==> Together(log, i, n)
    ensures RunIds(log, n + 1, i) == RunIds(log, n, i) + if Together(log, i, n) then {log[n].submit.promptId} else {}
  {
    if Together(log, i, n) {
      assert Linked(log, n);
    }
  }

  lemma RunBegins(log: seq<SessionEvent>, n: nat)
    requires n < |log| && IsChannel(log[n])
    ensures Together(log, n, n)
    ensures !Linked(log, n) ==> RunIds(log, n + 1, n) == {log[n].submit.promptId}
    ensures Linked(log, n) ==> RunIds(log, n + 1, n) == RunIds(log, n, n - 1) + {log[n].submit.promptId}
  {
    forall j | 0 <= j < n ensures Together(log, n, j) <==> Linked(log, n) && Together(log, n - 1, j) {
      RunGrows(log, n, j);
      if Linked(log, n) && j < n - 1 {
        RunGrows(log, n - 1, j);
      }
    }
  }

  /** `last` holds each request taken in by the first `n` lines, with its last line. */
  ghost predicate Indexed(log: seq<SessionEvent>, n: nat, last: map<RequestId, int>) {
    && n <= |log|
    && (forall r <- last :: LastBefore(log, n, r, last[r]))
    && (forall r, k :: 0 <= k < n && Takes(log, k, r) ==> r in last)
  }

  lemma IndexedNext(log: seq<SessionEvent>, n: nat, last: map<RequestId, int>)
    requires Indexed(log, n, last) && n < |log|
    ensures Indexed(log, n + 1, if IsChannel(log[n]) then last[log[n].submit.requestId.value := n] else last)
    ensures forall r <- last :: 0 <= last[r] < n
  {}

  /** What the loop knows after `n` lines: each request's set is its run's, and only its run's requests share it. */
  ghost predicate Joined(log: seq<SessionEvent>, n: nat, takenIn: map<RequestId, IdSet>, last: map<RequestId, int>,
                         batch: Option<IdSet>)
    reads takenIn.Values, if batch.Some? then {batch.value} else {}
  {
    && Indexed(log, n, last) && takenIn.Keys == last.Keys
    && (forall r <- takenIn :: takenIn[r].ids == RunIds(log, n, last[r]))
    && (batch.Some? <==> n > 0 && IsChannel(log[n - 1]))
    && (batch.Some? ==> batch.value.ids == RunIds(log, n, n - 1))
    && (batch.Some? ==> forall r <- takenIn :: takenIn[r] == batch.value <==> Together(log, last[r], n - 1))
  }

  /** The loop over the log: each request ever taken in gets the ids of the run that took it in last. */
  method JoinLog(log: seq<SessionEvent>) returns (takenIn: map<RequestId, IdSet>)
    ensures forall r :: r in takenIn <==> exists i :: LastTaken(log, r, i)
    ensures forall r <- takenIn, i | LastTaken(log, r, i) :: takenIn[r].ids == RunIds(log, |log|, i)
  {
    takenIn := map[];
    ghost var last: map<RequestId, int> := map[];
    var batch: Option<IdSet> := None;
    var batchAtMs := 0;
    for n := 0 to |log|
      invariant forall r <- takenIn :: fresh(takenIn[r])
      invariant batch.Some? ==> fresh(batch.value)
      invariant batch.Some? ==> n > 0 && IsChannel(log[n - 1]) && batchAtMs == log[n - 1].submit.atMs
      invariant Joined(log, n, takenIn, last, batch)
    {
      if !log[n].Submit? || log[n].submit.requestId.None? {
        OtherLine(log, n, takenIn, last, batch);
        batch := None;
      } else {
        takenIn, last, batch := TakeIn(log, n, takenIn, last, batch, batchAtMs);
        batchAtMs := log[n].submit.atMs;
      }
    }
    IndexedAtEnd(log, last);
  }

  lemma IndexedAtEnd(log: seq<SessionEvent>, last: map<RequestId, int>)
    requires Indexed(log, |log|, last)
    ensures forall r :: r in last <==> exists i :: LastTaken(log, r, i)
    ensures forall r <- last, i | LastTaken(log, r, i) :: i == last[r]
  {
    forall r <- last ensures LastTaken(log, r, last[r]) {}
  }

  /** The loop's body for a channel submit: its request shares the batch's set, or gets one of its own. */
  method TakeIn(log: seq<SessionEvent>, n: nat, takenIn: map<RequestId, IdSet>, ghost last: map<RequestId, int>,
                batch: Option<IdSet>, batchAtMs: nat)
    returns (takenNow: map<RequestId, IdSet>, ghost lastNow: map<RequestId, int>, batchNow: Option<IdSet>)
    requires n < |log| && IsChannel(log[n]) && Joined(log, n, takenIn, last, batch)
    requires batch.Some? ==> batchAtMs == log[n - 1].submit.atMs
    modifies if batch.Some? then {batch.value} else {}
    ensures Joined(log, n + 1, takenNow, lastNow, batchNow)
    ensures batchNow.Some? && (batchNow == batch || fresh(batchNow.value))
    ensures forall r <- takenNow :: (r in takenIn && takenNow[r] == takenIn[r]) || takenNow[r] == batchNow.value
  {
    ChannelLine(log, n, takenIn, last, batch);
    hide Together, Indexed, RunIds, Linked, LastBefore;
    var requestId, takenId := log[n].submit.requestId.value, log[n].submit.promptId;
    var promptIds: IdSet;
    if batch.Some? && log[n].submit.atMs - batchAtMs <= CHANNEL_BATCH_MS {
      promptIds := batch.value;
    } else {
      promptIds := new IdSet();
    }
    GrowAll(takenIn, promptIds, takenId);
    takenNow, lastNow := takenIn[requestId := promptIds], last[requestId := n];
    batchNow := Some(promptIds);
    forall r <- takenNow
      ensures takenNow[r].ids == RunIds(log, n + 1, lastNow[r])
              && (takenNow[r] == promptIds <==> Together(log, lastNow[r], n)) {
      if r != requestId {
        assert takenNow[r] == takenIn[r] && lastNow[r] == last[r];
      }
    }
    JoinedNext(log, n, takenNow, lastNow, promptIds);
  }

  /** `promptIds.add`: every request that shares the set sees the id. */
  method GrowAll(takenIn: map<RequestId, IdSet>, promptIds: IdSet, id: Option<PromptId>)
    modifies promptIds
    ensures promptIds.ids == old(promptIds.ids) + {id}
    ensures forall r <- takenIn :: takenIn[r].ids == old(takenIn[r].ids) + if takenIn[r] == promptIds then {id} else {}
  {
    promptIds.ids := promptIds.ids + {id};
  }

  lemma JoinedNext(log: seq<SessionEvent>, n: nat, takenIn: map<RequestId, IdSet>, last: map<RequestId, int>,
                   batch: IdSet)
    requires n < |log| && IsChannel(log[n]) && Indexed(log, n + 1, last) && takenIn.Keys == last.Keys
    requires batch.ids == RunIds(log, n + 1, n)
    requires forall r <- takenIn ::
               takenIn[r].ids == RunIds(log, n + 1, last[r]) && (takenIn[r] == batch <==> Together(log, last[r], n))
    ensures Joined(log, n + 1, takenIn, last, Some(batch))
  {
    hide Together, Indexed, RunIds;
  }

  /** A line that is no channel submit changes no run. */
  lemma OtherLine(log: seq<SessionEvent>, n: nat, takenIn: map<RequestId, IdSet>, last: map<RequestId, int>,
                  batch: Option<IdSet>)
    requires n < |log| && !IsChannel(log[n]) && Joined(log, n, takenIn, last, batch)
    ensures Joined(log, n + 1, takenIn, last, None)
  {
    IndexedNext(log, n, last);
    forall r <- takenIn ensures RunIds(log, n + 1, last[r]) == RunIds(log, n, last[r]) {
      RunGrows(log, n, last[r]);
    }
  }

  /** A channel submit joins the run before it, or begins one of its own. */
  lemma ChannelLine(log: seq<SessionEvent>, n: nat, takenIn: map<RequestId, IdSet>, last: map<RequestId, int>,
                    batch: Option<IdSet>)
    requires n < |log| && IsChannel(log[n]) && Joined(log, n, takenIn, last, batch)
    ensures Indexed(log, n + 1, last[log[n].submit.requestId.value := n]) && Together(log, n, n)
    ensures Linked(log, n) <==> batch.Some? && log[n].submit.atMs - log[n - 1].submit.atMs <= CHANNEL_BATCH_MS
    ensures RunIds(log, n + 1, n) == (if Linked(log, n) then batch.value.ids else {}) + {log[n].submit.promptId}
    ensures forall r <- takenIn ::
              && (Together(log, last[r], n) <==> Linked(log, n) && takenIn[r] == batch.value)
              && RunIds(log, n + 1, last[r]) ==
                 takenIn[r].ids + if Together(log, last[r], n) then {log[n].submit.promptId} else {}
  {
    IndexedNext(log, n, last);
    RunBegins(log, n);
    forall r <- takenIn
      ensures && (Together(log, last[r], n) <==> Linked(log, n) && takenIn[r] == batch.value)
              && RunIds(log, n + 1, last[r]) ==
                 takenIn[r].ids + if Together(log, last[r], n) then {log[n].submit.promptId} else {} {
      RunGrows(log, n, last[r]);
    }
  }

  /** `waitingRequests`, from the records its files hold. */
  method WaitingAt(open: Option<OpenRequests>, log: seq<SessionEvent>, promptId: Option<PromptId>)
    returns (waiting: Option<seq<RequestId>>)
    ensures waiting == Waiting(open, log, promptId)
  {
    if open.None? {
      return None;
    }
    if promptId.None? || !ReportsIds(log) {
      return Some(open.value.requestIds);
    }
    var takenIn := JoinLog(log);
    var p := promptId.value;
    ghost var waits := (r: RequestId) => WaitsFor(log, r, p);
    var openIds := open.value.openIds;
    var ids: seq<RequestId> := [];
    for i := 0 to |openIds|
      invariant ids == Filter(openIds[..i], waits)
      modifies {}
    {
      FilterNext(openIds, i, waits);
      var r := openIds[i];
      if r in takenIn {
        ghost var k :| LastTaken(log, r, k);
        WaitsByRun(log, r, k, p);
        assert waits(r) <==> Some(p) in takenIn[r].ids;
      } else {
        assert !waits(r);
      }
      if r in takenIn && Some(p) in takenIn[r].ids {
        ids := ids + [r];
      }
    }
    assert openIds[..|openIds|] == openIds;
    return Some(ids);
  }

  lemma WaitsByRun(log: seq<SessionEvent>, r: RequestId, i: int, p: PromptId)
    requires LastTaken(log, r, i)
    ensures WaitsFor(log, r, p) <==> Some(p) in RunIds(log, |log|, i)
  {
    if Some(p) in RunIds(log, |log|, i) {
      var j :| 0 <= j < |log| && Together(log, i, j) && log[j].submit.promptId == Some(p);
    }
  }
}
