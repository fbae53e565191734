/**
 The tracker and the ledger, wired by the server, agree on which request
 belongs to which turn, in every state the server can reach.
 */
module Agreement {
  import opened Records
  import opened OrderedMaps
  import opened Turns
  import opened TurnHistory
  import opened Channels
  import Ledgers

  type Delivery = Ledgers.Delivery

  function BoundIn(t: Tracker, r: RequestId): Option<PromptId> {
    if r in t.bound then Some(t.bound[r]) else None
  }

  /** A request taken into the running turn is bound to it and left to it; any other was judged, or never taken. */
  ghost predicate AgreeOn(t: Tracker, d: Delivery, r: RequestId) {
    && d.boundTo == BoundIn(t, r)
    && (r in t.CurrentRequests() ==>
          d.boundTo == Some(t.current.value.turn.promptId) && d.ended.None? && !d.graced)
    && (r !in t.CurrentRequests() && d.boundTo.Some? ==> d.ended.Some? || d.graced)
    && (d.boundTo.None? ==> d.ended.None? && !d.graced)
  }

  /** How a turn's end leaves a request of that turn: judged, or, with background work left, to the grace rule. */
  function Verdict(e: Ended): Option<Ledgers.Ending> {
    Ledgers.EndingOf(BoundEnd(e.end))
  }

  /** The first verdict given, from turn `j`'s end on, by the end of a turn under the id of turn `j`. */
  function VerdictFrom(ends: seq<Ended>, j: nat): Option<Ledgers.Ending>
    requires j < |ends|
  {
    var last := |ends| - 1;
    if last == j then Verdict(ends[j])
    else
      var before := VerdictFrom(ends[..last], j);
      if before.Some? || ends[last].turn.promptId != ends[j].turn.promptId then before else Verdict(ends[last])
  }

  /**
   Turn `j` is the one `r` was taken into, and what the ledger holds of `r`
   is the first verdict from that turn's end on: a request that it left to
   the grace rule gets that of the next turn to end under the same id.
   */
  ghost predicate JudgedBy(d: Delivery, r: RequestId, ends: seq<Ended>, j: nat) {
    && j < |ends| && r in ends[j].turn.requests && d.boundTo == Some(ends[j].turn.promptId)
    && d.ended == VerdictFrom(ends, j)
  }

  ghost predicate Judged(t: Tracker, d: Delivery, r: RequestId, ends: seq<Ended>) {
    d.boundTo.Some? && r !in t.CurrentRequests() ==> exists j: nat :: JudgedBy(d, r, ends, j)
  }

  /** The two sides' books, before any request is looked at. */
  ghost predicate SameBooks(t: Tracker, k: Desk, h: History, issued: set<RequestId>) {
    && k.pending.vals.Keys == k.ledger.deliveries.vals.Keys && k.pending.vals.Keys <= issued
    && t.binding == k.ledger.byPromptId
    && NoDup(h.starts) && (forall r <- h.starts :: r in issued)
    && (forall r <- t.bound :: r in h.starts)
    && (forall r <- k.pending.vals :: r in h.starts ==> r in t.bound)
  }

  ghost predicate AllAgree(t: Tracker, k: Desk, ends: seq<Ended>) {
    forall r <- k.pending.vals :: k.IsOpen(r) && r in k.ledger.deliveries.vals ==>
      AgreeOn(t, k.ledger.deliveries.vals[r], r) && Judged(t, k.ledger.deliveries.vals[r], r, ends)
  }

  ghost predicate Agree(t: Tracker, k: Desk, h: History, issued: set<RequestId>) {
    SameBooks(t, k, h, issued) && AllAgree(t, k, h.ends)
  }

  ghost predicate Joint(t: Tracker, k: Desk, h: History, issued: set<RequestId>) {
    Kept(Followed(t, h)) && Agree(t, k, h, issued)
  }

  lemma {:induction false} OnCallsConcat(k: Desk, a: seq<Call>, b: seq<Call>)
    ensures OnCalls(k, a + b) == OnCalls(OnCalls(k, a), b)
  {
    if b == [] {
      assert a + b == a;
    } else {
      OnCallsConcat(k, a, b[..|b| - 1]);
      assert (a + b)[..|a + b| - 1] == a + b[..|b| - 1];
    }
  }

  lemma OnOneCall(k: Desk, c: Call)
    ensures OnCalls(k, [c]) == OnCall(k, c)
  {
    assert [c][..0] == [];
  }

  lemma OnEndCalls(k: Desk, turn: Turn, end: TurnEnd)
    ensures OnCalls(k, EndCalls(turn, end)) ==
            k.(ledger := Ledgers.TurnEnded(k.ledger, turn.promptId, BoundEnd(end), k.Open()))
  {
    OnOneCall(k, TurnEnded(turn, end));
    if turn.local.Some? {
      var c := LocalTurnEnded(turn.local.value, end.FailureEnd?, end.AtMs());
      OnCallsConcat(k, [TurnEnded(turn, end)], [c]);
      OnOneCall(OnCalls(k, [TurnEnded(turn, end)]), c);
    } else {
      assert EndCalls(turn, end) == [TurnEnded(turn, end)];
    }
  }

  /** What the rebinding calls of a rename do to the deliveries. */
  lemma {:induction false} OnRebound(k: Desk, calls: seq<Call>, requests: seq<RequestId>, id: PromptId)
    requires |calls| == |requests| && forall i :: 0 <= i < |calls| ==> calls[i] == PromptRebound(requests[i], id)
    ensures var n := OnCalls(k, calls);
            && n.pending == k.pending
            && n.ledger == k.ledger.(deliveries := n.ledger.deliveries)
            && n.ledger.deliveries.vals.Keys == k.ledger.deliveries.vals.Keys
            && forall r <- k.ledger.deliveries.vals ::
                 n.ledger.deliveries.vals[r] ==
                 if r in requests then k.ledger.deliveries.vals[r].(boundTo := Some(id))
                   else k.ledger.deliveries.vals[r]
  {
    if calls != [] {
      var last := |calls| - 1;
      OnRebound(k, calls[..last], requests[..last], id);
      assert requests == requests[..last] + [requests[last]];
    }
  }

  // What an end, a rename, a join do to one request.

  /** A delivery after the end of a turn under `id`. */
  function AfterEnd(d: Delivery, r: RequestId, id: PromptId, end: TurnEnd, open: set<RequestId>): Delivery {
    if Ledgers.EndsWith(d, r, id, open) then Ledgers.EndDelivery(d, BoundEnd(end)) else d
  }

  lemma EndLeaves(t: Tracker, d: Delivery, r: RequestId, end: TurnEnd, open: set<RequestId>)
    requires t.current.Some? && r in open && AgreeOn(t, d, r)
    ensures AgreeOn(End(t, end).state, AfterEnd(d, r, t.current.value.turn.promptId, end, open), r)
  {
    hide PutCapped;
  }

  lemma VerdictMore(ends: seq<Ended>, e: Ended, j: nat)
    requires j < |ends|
    ensures VerdictFrom(ends + [e], j) ==
            var before := VerdictFrom(ends, j);
            if before.Some? || e.turn.promptId != ends[j].turn.promptId then before else Verdict(e)
    ensures (ends + [e])[j] == ends[j]
  {
    assert (ends + [e])[..|ends|] == ends;
    hide Verdict;
  }

  lemma VerdictLast(ends: seq<Ended>, e: Ended)
    ensures VerdictFrom(ends + [e], |ends|) == Verdict(e) && (ends + [e])[|ends|] == e
  {
    hide Verdict;
  }

  lemma EndJudges(t: Tracker, d: Delivery, r: RequestId, ends: seq<Ended>, end: TurnEnd, open: set<RequestId>)
    requires t.current.Some? && r in open && AgreeOn(t, d, r) && Judged(t, d, r, ends)
    ensures var turn := t.current.value.turn;
            Judged(End(t, end).state, AfterEnd(d, r, turn.promptId, end, open), r, ends + [Ended(turn, end)])
  {
    var turn := t.current.value.turn;
    var e := Ended(turn, end);
    var n, more := AfterEnd(d, r, turn.promptId, end, open), ends + [e];
    assert Verdict(e) == Ledgers.EndingOf(BoundEnd(end));
    hide VerdictFrom, Verdict, BoundEnd, Ledgers.EndingOf, Turns.End;
    if r in turn.requests {
      VerdictLast(ends, e);
      assert JudgedBy(n, r, more, |ends|);
    } else if d.boundTo.Some? {
      var j: nat :| JudgedBy(d, r, ends, j);
      VerdictMore(ends, e, j);
      assert JudgedBy(n, r, more, j);
    }
  }

  /** A turn whose id the open turn bears again was forgotten. */
  lemma EndedIsRemembered(t: Tracker, h: History, j: nat)
    requires Kept(Followed(t, h)) && t.current.Some? && j < |h.ends|
    requires h.ends[j].turn.promptId == t.current.value.turn.promptId
    ensures j + ENDED_KEPT < |h.ends|
  {
    LastAreRemembered(t, h.ends);
  }

  // What the steps of the tracker do to both sides.

  lemma EndKeepsAgreement(t: Tracker, k: Desk, h: History, end: TurnEnd)
    requires Kept(Followed(t, h)) && AllAgree(t, k, h.ends) && t.current.Some? && !end.ShutdownEnd?
    ensures var id := t.current.value.turn.promptId;
            AllAgree(End(t, end).state, k.(ledger := Ledgers.TurnEnded(k.ledger, id, BoundEnd(end), k.Open())),
                     h.ends + EndedBy(t, end))
  {
    var n := k.(ledger := Ledgers.TurnEnded(k.ledger, t.current.value.turn.promptId, BoundEnd(end), k.Open()));
    hide Kept, AgreeOn, Judged;
    forall r <- n.pending.vals | n.IsOpen(r) && r in n.ledger.deliveries.vals
      ensures AgreeOn(End(t, end).state, n.ledger.deliveries.vals[r], r)
              && Judged(End(t, end).state, n.ledger.deliveries.vals[r], r, h.ends + EndedBy(t, end)) {
      EndLeaves(t, k.ledger.deliveries.vals[r], r, end, k.Open());
      EndJudges(t, k.ledger.deliveries.vals[r], r, h.ends, end, k.Open());
    }
  }

  lemma SameKeys<V>(a: OMap<RequestId, V>, b: OMap<RequestId, V>)
    requires a.keys == b.keys
    ensures a.vals.Keys == b.vals.Keys
  {}

  lemma EndKeepsBooks(t: Tracker, k: Desk, n: Desk, h: History, g: History, issued: set<RequestId>, end: TurnEnd)
    requires SameBooks(t, k, h, issued) && g.starts == h.starts && n.pending == k.pending
    requires n.ledger.byPromptId == k.ledger.byPromptId && n.ledger.deliveries.keys == k.ledger.deliveries.keys
    ensures SameBooks(End(t, end).state, n, g, issued)
  {
    SameKeys(k.ledger.deliveries, n.ledger.deliveries);
    hide PutCapped, NoDup;
  }

  lemma EndAgrees(t: Tracker, k: Desk, h: History, issued: set<RequestId>, end: TurnEnd)
    requires Joint(t, k, h, issued) && !end.ShutdownEnd?
    ensures var e := End(t, end); Joint(e.state, OnCalls(k, e.calls), Noted(h, e.calls), issued)
  {
    EndKeeps(t, h, end);
    if t.current.Some? {
      var e := End(t, end);
      var n, g := OnCalls(k, e.calls), Noted(h, e.calls);
      OnEndCalls(k, t.current.value.turn, end);
      EndNotes(h, t.current.value.turn, end);
      EndKeepsAgreement(t, k, h, end);
      hide Kept, AllAgree, OnCalls, Noted, PutCapped, Ledgers.TurnEnded, SameBooks;
      EndKeepsBooks(t, k, n, h, g, issued, end);
    }
  }

  /** A new turn with no requests yet changes nothing for any request. */
  lemma BeginAgrees(t: Tracker, u: Tracker, k: Desk, h: History, issued: set<RequestId>)
    requires Agree(t, k, h, issued) && t.current.None?
    requires u.current.Some? && u.current.value.turn.requests == [] && u.bound == t.bound && u.binding == t.binding
    ensures Agree(u, k, h, issued)
  {
    forall r <- k.pending.vals | k.IsOpen(r) && r in k.ledger.deliveries.vals
      ensures AgreeOn(u, k.ledger.deliveries.vals[r], r) && Judged(u, k.ledger.deliveries.vals[r], r, h.ends) {
      assert AgreeOn(t, k.ledger.deliveries.vals[r], r) && Judged(t, k.ledger.deliveries.vals[r], r, h.ends);
    }
  }

  lemma BeginLocalAgrees(t: Tracker, k: Desk, h: History, issued: set<RequestId>,
                         id: PromptId, at: nat, session: Option<string>)
    requires Joint(t, k, h, issued) && t.binding && t.current.None? && id !in t.alias.vals && id !in t.ended.vals
    ensures var b := BeginLocal(t, id, at, session); Joint(b.state, OnCalls(k, b.calls), Noted(h, b.calls), issued)
  {
    BeginLocalKeeps(t, h, id, at, session);
    var b := BeginLocal(t, id, at, session);
    OnOneCall(k, b.calls[0]);
    var g := h.(locals := h.locals + b.calls);
    assert Noted(h, b.calls) == g;
    hide Kept, AllAgree, OnCalls, Noted, SameBooks;
    BeginAgrees(t, b.state, k, h, issued);
    LocalsAside(b.state, k, h, g, issued);
  }

  lemma NextLocalAgrees(t: Tracker, k: Desk, h: History, issued: set<RequestId>,
                        id: PromptId, at: nat, session: Option<string>)
    requires Joint(t, k, h, issued) && t.binding && !t.IsCurrent(id) && id !in t.alias.vals && id !in t.ended.vals
    ensures var e := NextLocal(t, id, at, session); Joint(e.state, OnCalls(k, e.calls), Noted(h, e.calls), issued)
  {
    EndKeeps(t, h, NextEnd(at));
    hide Joint, Kept, OnCalls, Noted;
    EndAgrees(t, k, h, issued, NextEnd(at));
    var e := End(t, NextEnd(at));
    var b := BeginLocal(e.state, id, at, session);
    BeginLocalAgrees(e.state, OnCalls(k, e.calls), Noted(h, e.calls), issued, id, at, session);
    NotedConcat(h, e.calls, b.calls);
    OnCallsConcat(k, e.calls, b.calls);
  }

  /** Who agrees does not depend on the local turns' events. */
  lemma LocalsAside(t: Tracker, k: Desk, h: History, g: History, issued: set<RequestId>)
    requires Agree(t, k, h, issued) && g == h.(locals := g.locals)
    ensures Agree(t, k, g, issued)
  {}

  lemma RenameKeepsAgreement(t: Tracker, k: Desk, n: Desk, ends: seq<Ended>, id: PromptId)
    requires AllAgree(t, k, ends) && t.current.Some? && n.pending == k.pending
    requires n.ledger.deliveries.vals.Keys == k.ledger.deliveries.vals.Keys
    requires forall r <- k.ledger.deliveries.vals ::
               n.ledger.deliveries.vals[r] ==
               if r in t.CurrentRequests() then k.ledger.deliveries.vals[r].(boundTo := Some(id))
                 else k.ledger.deliveries.vals[r]
    ensures AllAgree(Rename(t, id).state, n, ends)
  {
    var u := Rename(t, id).state;
    hide Realias;
    forall r <- n.pending.vals | n.IsOpen(r) && r in n.ledger.deliveries.vals
      ensures AgreeOn(u, n.ledger.deliveries.vals[r], r) && Judged(u, n.ledger.deliveries.vals[r], r, ends) {
      assert AgreeOn(t, k.ledger.deliveries.vals[r], r) && Judged(t, k.ledger.deliveries.vals[r], r, ends);
    }
  }

  lemma RenameAgrees(t: Tracker, k: Desk, h: History, issued: set<RequestId>, id: PromptId)
    requires Joint(t, k, h, issued) && t.binding && id !in t.alias.vals && id !in t.ended.vals
    requires t.current.Some? && t.current.value.turn.promptId != id && t.current.value.turn.local.None?
    ensures var e := Rename(t, id); Joint(e.state, OnCalls(k, e.calls), h, issued) && Noted(h, e.calls) == h
  {
    RenameKeeps(t, h, id);
    var e := Rename(t, id);
    OnRebound(k, e.calls, t.current.value.turn.requests, id);
    StartsAreCurrent(t, h);
    RenameKeepsAgreement(t, k, OnCalls(k, e.calls), h.ends, id);
    hide Kept, OnCalls, AllAgree, Noted, Realias;
  }

  lemma StartsAreCurrent(t: Tracker, h: History)
    requires Kept(Followed(t, h))
    ensures forall r <- t.CurrentRequests() :: r in h.starts
  {}

  lemma EnterAgrees(t: Tracker, k: Desk, h: History, issued: set<RequestId>, id: PromptId, at: nat,
                    session: Option<string>)
    requires Joint(t, k, h, issued) && t.binding && id !in t.alias.vals && id !in t.ended.vals
    ensures var e := Enter(t, id, at, session);
            && Joint(e.state, OnCalls(k, e.calls), Noted(h, e.calls), issued)
            && e.state.IsCurrent(id) && e.state.binding
            && Noted(h, e.calls).starts == h.starts && OnCalls(k, e.calls).pending == k.pending
  {
    if !t.IsCurrent(id) {
      if t.current.Some? && t.current.value.batchUntilMs.Some? && at <= t.current.value.batchUntilMs.value {
        assert t.current.value.turn.local.None?;
        RenameAgrees(t, k, h, issued, id);
        OnRebound(k, Rename(t, id).calls, t.current.value.turn.requests, id);
        hide Joint;
      } else {
        EnterKeeps(t, h, id, at, session);
        EndAgrees(t, k, h, issued, NextEnd(at));
        var e := End(t, NextEnd(at));
        if t.current.Some? {
          OnEndCalls(k, t.current.value.turn, NextEnd(at));
          EndNotes(h, t.current.value.turn, NextEnd(at));
        }
        BeginAgrees(e.state, BeginServed(e.state, id, at, session), OnCalls(k, e.calls), Noted(h, e.calls), issued);
        hide Kept, Agree;
      }
    }
  }

  lemma BatchAgrees(t: Tracker, k: Desk, h: History, issued: set<RequestId>, until: Option<nat>)
    requires Joint(t, k, h, issued) && t.current.Some?
    requires t.current.value.turn.local.Some? ==> until.None?
    ensures Joint(t.(current := Some(t.current.value.(batchUntilMs := until))), k, h, issued)
  {
    BatchKeeps(t, h, until);
    hide Kept;
    var u := t.(current := Some(t.current.value.(batchUntilMs := until)));
    forall r <- k.pending.vals | k.IsOpen(r) && r in k.ledger.deliveries.vals
      ensures AgreeOn(u, k.ledger.deliveries.vals[r], r) && Judged(u, k.ledger.deliveries.vals[r], r, h.ends) {
      assert AgreeOn(t, k.ledger.deliveries.vals[r], r) && Judged(t, k.ledger.deliveries.vals[r], r, h.ends);
    }
  }

  lemma JoinKeepsAgreement(t: Tracker, k: Desk, n: Desk, ends: seq<Ended>,
                           r: RequestId, id: PromptId, at: nat, session: Option<string>)
    requires AllAgree(t, k, ends) && t.IsCurrent(id) && r !in t.bound
    requires n == k.(ledger := Ledgers.Bind(k.ledger, r, id))
    ensures AllAgree(Join(t, r, id, at, session).state, n, ends)
  {
    var u := Join(t, r, id, at, session).state;
    forall x <- n.pending.vals | n.IsOpen(x) && x in n.ledger.deliveries.vals
      ensures AgreeOn(u, n.ledger.deliveries.vals[x], x) && Judged(u, n.ledger.deliveries.vals[x], x, ends) {
      assert AgreeOn(t, k.ledger.deliveries.vals[x], x) && Judged(t, k.ledger.deliveries.vals[x], x, ends);
    }
  }

  /** An open request not bound yet is taken into the current turn. */
  lemma JoinAgrees(t: Tracker, k: Desk, h: History, issued: set<RequestId>,
                   r: RequestId, id: PromptId, at: nat, session: Option<string>)
    requires Joint(t, k, h, issued) && t.IsCurrent(id) && t.binding && r !in t.bound && k.IsOpen(r)
    ensures var j := Join(t, r, id, at, session); Joint(j.state, OnCalls(k, j.calls), Noted(h, j.calls), issued)
  {
    JoinKeeps(t, h, r, id, at, session);
    var j := Join(t, r, id, at, session);
    OnOneCall(k, j.calls[0]);
    assert Noted(h, j.calls) == h.(starts := h.starts + [r]);
    JoinKeepsAgreement(t, k, OnCalls(k, j.calls), h.ends, r, id, at, session);
    JoinKeepsBooks(t, k, h, issued, r, id, at, session);
    hide Kept, OnCalls, Noted, AllAgree, SameBooks;
  }

  lemma JoinKeepsBooks(t: Tracker, k: Desk, h: History, issued: set<RequestId>,
                       r: RequestId, id: PromptId, at: nat, session: Option<string>)
    requires SameBooks(t, k, h, issued) && r !in t.bound && k.IsOpen(r) && t.current.Some?
    ensures SameBooks(Join(t, r, id, at, session).state, k.(ledger := Ledgers.Bind(k.ledger, r, id)),
                      h.(starts := h.starts + [r]), issued)
  {}

  lemma TakeChannelAgrees(t: Tracker, k: Desk, h: History, issued: set<RequestId>,
                          r: RequestId, id: PromptId, at: nat, session: Option<string>)
    requires Joint(t, k, h, issued) && t.binding && id !in t.alias.vals && id !in t.ended.vals
    ensures var e := TakeChannel(t, r, id, at, session, k.IsOpen(r));
            Joint(e.state, OnCalls(k, e.calls), Noted(h, e.calls), issued)
  {
    EnterAgrees(t, k, h, issued, id, at, session);
    var e := Enter(t, id, at, session);
    var open := Extended(e.state.current.value, at);
    var k1, h1 := OnCalls(k, e.calls), Noted(h, e.calls);
    assert open.turn.local.Some? ==> open.batchUntilMs.None?;
    BatchAgrees(e.state, k1, h1, issued, open.batchUntilMs);
    var x := e.state.(current := Some(open));
    if r !in t.bound && k.IsOpen(r) {
      assert r !in e.state.bound;
      JoinAgrees(x, k1, h1, issued, r, id, at, session);
      NotedConcat(h, e.calls, Join(x, r, id, at, session).calls);
      OnCallsConcat(k, e.calls, Join(x, r, id, at, session).calls);
    }
    hide Joint;
  }
}
