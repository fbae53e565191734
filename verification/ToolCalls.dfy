/** Which request an agent-tool call runs in, and which one is asked for permission. */
module ToolCalls {
  import opened Records
  import opened OrderedMaps
  import opened Turns
  import opened TurnHistory
  import opened Channels
  import opened Agreement
  import opened AgreementRuns
  import opened Outcomes
  import Ledgers

  datatype RequestChoice =
    | InRequest(requestId: RequestId)
    | InLocal(local: LocalTurn)
    | Outside
    | Inactive(named: RequestId)

  /** The turn a call is for: the one its own prompt id names, or the one running now. */
  function FollowedTurn(t: Tracker, promptId: Option<PromptId>): Option<Turn> {
    (if promptId.Some? then t.TurnOf(promptId.value) else None)
    .OrElse(if t.current.Some? then Some(t.current.value.turn) else None)
  }

  function OpenOf(k: Desk, requests: seq<RequestId>): seq<RequestId> {
    Filter(requests, r => k.IsOpen(r))
  }

  /** `chooseRequest`. `named` is the call's `request_id`; `turns` is there once turns are followed. */
  function ChooseRequest(k: Desk, named: Option<RequestId>, lastActive: Option<RequestId>,
                         promptId: Option<PromptId>, turns: Option<Tracker>): RequestChoice
  {
    if named.Some? && named.value.text != "" then
      if k.IsOpen(named.value) then InRequest(named.value) else Inactive(named.value)
    else
      var turn := if turns.Some? then FollowedTurn(turns.value, promptId) else None;
      if turn.Some? then
        var open := OpenOf(k, turn.value.requests);
        if open != [] then InRequest(open[|open| - 1])
        else if turn.value.local.Some? then InLocal(turn.value.local.value)
        else Outside
      else if lastActive.Some? && k.IsOpen(lastActive.value) then InRequest(lastActive.value)
      else Outside
  }

  /** `turn` is the one running now, or one that ended and is remembered. */
  ghost predicate Knows(t: Tracker, turn: Turn) {
    (t.current.Some? && t.current.value.turn == turn) || exists id <- t.ended.vals :: t.ended.vals[id] == turn
  }

  lemma FollowedIsKnown(t: Tracker, promptId: Option<PromptId>)
    ensures FollowedTurn(t, promptId).Some? ==> Knows(t, FollowedTurn(t, promptId).value)
  {}

  /** A remembered turn is one that ended, so a request of it that is still open is bound to it. */
  lemma BoundToItsTurn(w: World, turn: Turn, r: RequestId)
    requires Agreed(w) && w.s.desk.IsOpen(r) && r in turn.requests
    requires Knows(w.s.tracker, turn)
    ensures BoundIn(w.s.tracker, r) == Some(turn.promptId)
  {
    var t, d := w.s.tracker, w.s.desk.ledger.deliveries.vals[r];
    assert AgreeOn(t, d, r) && Judged(t, d, r, w.h.ends);
    if !(t.current.Some? && t.current.value.turn == turn) {
      var id :| id in t.ended.vals && t.ended.vals[id] == turn;
      var e :| e in w.h.ends && e.turn == turn;
      var j :| 0 <= j < |w.h.ends| && w.h.ends[j] == e;
      StartsOnce(w);
      RequestsOfAt(w.h.ends, j);
      StartsAreAll(w, r);
      hide Kept, NoDup;
      assert r !in t.CurrentRequests() && d.boundTo.Some?;
      var i: nat :| JudgedBy(d, r, w.h.ends, i);
      assert i == j;
    }
  }

  /** `r` is the last one of `requests` that is open. */
  ghost predicate LastOpen(k: Desk, requests: seq<RequestId>, r: RequestId) {
    && r in requests && k.IsOpen(r)
    && exists i :: 0 <= i < |requests| && requests[i] == r && forall j :: i < j < |requests| ==> !k.IsOpen(requests[j])
  }

  lemma IsLastOpen(k: Desk, requests: seq<RequestId>, r: RequestId)
    requires LastOpen(k, requests, r)
    ensures r in requests && k.IsOpen(r)
  {}

  lemma LastOpenBefore(k: Desk, init: seq<RequestId>, last: RequestId, r: RequestId)
    requires LastOpen(k, init, r) && !k.IsOpen(last)
    ensures LastOpen(k, init + [last], r)
  {
    var i :| 0 <= i < |init| && init[i] == r && forall j :: i < j < |init| ==> !k.IsOpen(init[j]);
    assert (init + [last])[i] == r && forall j :: i < j < |init + [last]| ==> !k.IsOpen((init + [last])[j]);
  }

  lemma LastIsOpen(k: Desk, init: seq<RequestId>, last: RequestId)
    requires k.IsOpen(last)
    ensures LastOpen(k, init + [last], last)
  {
    assert (init + [last])[|init|] == last;
  }

  lemma NoneIsOpen(k: Desk, requests: seq<RequestId>)
    ensures OpenOf(k, requests) == [] <==> forall r <- requests :: !k.IsOpen(r)
  {
    var open := OpenOf(k, requests);
    assert open != [] ==> open[0] in open;
  }

  lemma {:induction false} LastOfOpen(k: Desk, requests: seq<RequestId>)
    ensures OpenOf(k, requests) != [] ==> LastOpen(k, requests, OpenOf(k, requests)[|OpenOf(k, requests)| - 1])
  {
    if requests != [] {
      var init, last := requests[..|requests| - 1], requests[|requests| - 1];
      assert requests == init + [last];
      assert OpenOf(k, requests) == OpenOf(k, init) + if k.IsOpen(last) then [last] else [];
      hide OpenOf, LastOpen;
      LastOfOpen(k, init);
      if k.IsOpen(last) {
        LastIsOpen(k, init, last);
      } else {
        Nothing(OpenOf(k, init));
        if OpenOf(k, init) != [] {
          LastOpenBefore(k, init, last, OpenOf(k, init)[|OpenOf(k, init)| - 1]);
        }
      }
    }
  }

  lemma ChoiceOfTurn(k: Desk, lastActive: Option<RequestId>, promptId: Option<PromptId>, t: Tracker)
    requires FollowedTurn(t, promptId).Some?
    ensures var open := OpenOf(k, FollowedTurn(t, promptId).value.requests);
            var choice := ChooseRequest(k, None, lastActive, promptId, Some(t));
            if open == [] then !choice.InRequest? else choice == InRequest(open[|open| - 1])
  {
    hide OpenOf, FollowedTurn;
  }

  /**
   A call without a `request_id` that is resolved through a followed turn
   runs in a request exactly when one of that turn's is open, and then in
   the last open one taken into it, which is bound to that very turn.
   */
  lemma RunsInItsTurn(w: World, lastActive: Option<RequestId>, promptId: Option<PromptId>)
    requires Agreed(w) && FollowedTurn(w.s.tracker, promptId).Some?
    ensures var turn := FollowedTurn(w.s.tracker, promptId).value;
            var choice := ChooseRequest(w.s.desk, None, lastActive, promptId, Some(w.s.tracker));
            && (choice.InRequest? <==> exists r <- turn.requests :: w.s.desk.IsOpen(r))
            && (choice.InRequest? ==>
                  && LastOpen(w.s.desk, turn.requests, choice.requestId)
                  && BoundIn(w.s.tracker, choice.requestId) == Some(turn.promptId))
  {
    var turn := FollowedTurn(w.s.tracker, promptId).value;
    FollowedIsKnown(w.s.tracker, promptId);
    hide Agreed, OpenOf, FollowedTurn, Knows, ChooseRequest, LastOpen;
    NoneIsOpen(w.s.desk, turn.requests);
    LastOfOpen(w.s.desk, turn.requests);
    ChoiceOfTurn(w.s.desk, lastActive, promptId, w.s.tracker);
    var choice := ChooseRequest(w.s.desk, None, lastActive, promptId, Some(w.s.tracker));
    if choice.InRequest? {
      assert choice.requestId in turn.requests && w.s.desk.IsOpen(choice.requestId) by {
        IsLastOpen(w.s.desk, turn.requests, choice.requestId);
      }
      BoundToItsTurn(w, turn, choice.requestId);
    }
  }

  /** A call of `turn` goes to the last open request of it, or, with none open, to the local turn it is, or to none. */
  ghost predicate RunsIn(k: Desk, turn: Turn, choice: RequestChoice) {
    match choice
    case InRequest(r) => LastOpen(k, turn.requests, r)
    case InLocal(local) => turn.local == Some(local) && forall r <- turn.requests :: !k.IsOpen(r)
    case Outside => turn.local.None? && forall r <- turn.requests :: !k.IsOpen(r)
    case Inactive(_) => false
  }

  lemma RunsInTurn(k: Desk, named: Option<RequestId>, lastActive: Option<RequestId>, promptId: Option<PromptId>,
                   t: Tracker)
    requires named == None || named.value.text == ""
    requires FollowedTurn(t, promptId).Some?
    ensures RunsIn(k, FollowedTurn(t, promptId).value, ChooseRequest(k, named, lastActive, promptId, Some(t)))
  {
    var turn := FollowedTurn(t, promptId).value;
    NoneIsOpen(k, turn.requests);
    LastOfOpen(k, turn.requests);
    hide OpenOf, LastOpen, FollowedTurn;
  }

  /**
   Where a call goes: to the request it names, when it names one, and then
   only if that is open; else to the turn its prompt id names, running or
   remembered, or else to the running one; else to the request active last.
   */
  lemma RunsWhere(k: Desk, named: Option<RequestId>, lastActive: Option<RequestId>, promptId: Option<PromptId>,
                  turns: Option<Tracker>)
    ensures var choice := ChooseRequest(k, named, lastActive, promptId, turns);
            if named.Some? && named.value.text != "" then
              choice == if k.IsOpen(named.value) then InRequest(named.value) else Inactive(named.value)
            else if turns.Some? && promptId.Some? && turns.value.TurnOf(promptId.value).Some? then
              RunsIn(k, turns.value.TurnOf(promptId.value).value, choice)
            else if turns.Some? && turns.value.current.Some? then
              RunsIn(k, turns.value.current.value.turn, choice)
            else
              choice == if lastActive.Some? && k.IsOpen(lastActive.value) then InRequest(lastActive.value) else Outside
  {
    if turns.Some? && FollowedTurn(turns.value, promptId).Some? && !(named.Some? && named.value.text != "") {
      RunsInTurn(k, named, lastActive, promptId, turns.value);
      hide ChooseRequest;
    }
    hide RunsIn, OpenOf;
  }

  /** An open request the tracker has bound to the turn `id`. */
  predicate OpenIn(w: World, id: PromptId, r: RequestId) {
    r in w.s.desk.pending.vals && w.s.desk.IsOpen(r) && BoundIn(w.s.tracker, r) == Some(id)
  }

  /** The ledger's list for a turn is the tracker's open requests of it, each once. */
  lemma BoundNowIsOpenIn(w: World, stop: Option<Ledgers.TurnStop>, id: PromptId)
    requires Agreed(w)
    ensures var bound := Ledgers.BoundNow(Ledgers.ObserveStop(w.s.desk.ledger, stop), id, w.s.desk.Open());
            NoDup(bound) && forall s :: s in bound <==> OpenIn(w, id, s)
  {
    var l := Ledgers.ObserveStop(w.s.desk.ledger, stop);
    var bound := Ledgers.BoundNow(l, id, w.s.desk.Open());
    ObservedIsAside(w.s.desk.ledger, stop);
    BooksAreShared(w);
    hide Agreed, Ledgers.ObserveStop;
    FilterOnce(l.deliveries.keys,
               r => r in l.deliveries.vals && l.deliveries.vals[r].boundTo == Some(id) && r in w.s.desk.Open());
    forall s ensures s in bound <==> OpenIn(w, id, s) {
      if s in w.s.desk.pending.vals && w.s.desk.IsOpen(s) {
        BindingsAgree(w, s);
        assert SameVerdict(w.s.desk.ledger.deliveries.vals[s], l.deliveries.vals[s]);
        assert s in l.deliveries.keys;
      }
    }
  }

  /**
   Once turns are followed, a permission question of the turn now running,
   as far as its tool calls and the last Stop tell, goes to the one open
   request bound to that turn, and to none when there is none, or several.
   */
  lemma QuestionGoesToItsTurn(w: World, view: TurnView)
    requires Agreed(w) && w.s.tracker.binding
    requires view.activity.Some? && view.activity.value.promptId.Some?
    requires var l := Ledgers.ObserveStop(w.s.desk.ledger, Ledgers.AsStop(view.stop));
             l.lastStop.Some? ==> l.lastStop.value.stop.atMs < view.activity.value.atMs
    ensures var id := view.activity.value.promptId.value;
            var owner := Ledgers.OwnerOf(w.s.desk.ledger, view, w.s.desk.Open()).1;
            match owner
            case Owner(r) => forall s :: OpenIn(w, id, s) <==> s == r
            case NoOwner(denial) =>
              if denial.NoneStarted? then forall s :: !OpenIn(w, id, s)
              else denial.SeveralShare? && exists r, s :: r != s && OpenIn(w, id, r) && OpenIn(w, id, s)
  {
    hide Agreed, Ledgers.ObserveStop, Ledgers.BoundNow, OpenIn;
    var stop := Ledgers.AsStop(view.stop);
    var l := Ledgers.ObserveStop(w.s.desk.ledger, stop);
    var id := view.activity.value.promptId.value;
    BoundNowIsOpenIn(w, stop, id);
    BooksAreShared(w);
    var bound := Ledgers.BoundNow(l, id, w.s.desk.Open());
    assert |bound| > 1 ==> bound[0] != bound[1] && bound[0] in bound && bound[1] in bound;
    assert |bound| > 0 ==> bound[0] in bound;
  }
}
