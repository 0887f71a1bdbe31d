/** What one accepted action adds to a hand's record: the shape of its events, versions and states. */
module HandEvents {
  import opened BettingInvariant
  import opened BettingSteps
  import opened Board
  import opened DurableLog
  import opened Game
  import opened Gateway
  import opened Invariants
  import opened Pots
  import opened Recovery
  import opened Reducer
  import opened Sealing
  import opened Sequences
  import opened Table
  import opened Wrappers

  predicate NamesOk(ps: seq<Player>) {
    forall i | 0 <= i < |ps| :: |ps[i].id| > 0
  }

  predicate SameIds(ps: seq<Player>, qs: seq<Player>) {
    |ps| == |qs| && forall i | 0 <= i < |ps| :: ps[i].id == qs[i].id
  }

  lemma SamePlayers(ps: seq<Player>, qs: seq<Player>, id: PlayerId)
    requires SameIds(ps, qs)
    ensures IsPlayer(ps, id) <==> IsPlayer(qs, id)
  {
    if IsPlayer(ps, id) {
      var i :| 0 <= i < |ps| && ps[i].id == id;
      assert qs[i].id == id;
    }
    if IsPlayer(qs, id) {
      var i :| 0 <= i < |qs| && qs[i].id == id;
      assert ps[i].id == id;
    }
  }

  predicate EventFine(ps: seq<Player>, e: GameEvent) {
    EventPayloadOk(e) && EventOwnersOk(ps, e)
  }

  predicate MoveFine(ps: seq<Player>, e: Event) { EventFine(ps, Move(e)) }

  // ---- One command ----

  lemma ActionEventFine(s: State, a: nat, action: Action)
    requires a < |s.players| && NamesOk(s.players) && s.players[a].stack > 0
    requires ActionRefusal(s, s.players[a], action).None?
    ensures MoveFine(s.players, EventOf(s, a, action))
  {
    assert IsPlayer(s.players, s.players[a].id);
  }

  lemma ActionKeepsIdentity(s: State, a: nat, action: Action)
    requires a < |s.players|
    ensures var t := AfterAction(s, a, action);
            && SameIds(s.players, t.players) && t.tableId == s.tableId && t.handId == s.handId
            && t.version == s.version && t.phase == s.phase && t.buttonSeat == s.buttonSeat
  {
  }

  /** Passing the turn adds one version and at most the closing of a street. */
  lemma FinishShape(s: State, seat: nat, e: Event)
    requires |s.players| > 0 && s.buttonSeat >= 0 && s.phase != Complete
    ensures var t := FinishOrPass(s, seat, [e]);
            && SameIds(s.players, t.state.players)
            && t.state.tableId == s.tableId && t.state.handId == s.handId
            && t.state.version == s.version + 1
            && (t.events == [e] || (exists p :: p != Preflop && t.events == [e, StreetCompleted(p)]))
  {
    if !HandOver(s) && StreetClosed(s) {
      assert NextPhase(s.phase) != Preflop;
      assert FinishOrPass(s, seat, [e]).events == [e, StreetCompleted(NextPhase(s.phase))];
    }
  }

  predicate Fits(s: State, t: Transition) {
    && SameIds(s.players, t.state.players)
    && t.state.tableId == s.tableId && t.state.handId == s.handId
    && t.state.version == s.version + 1
    && |t.events| >= 1
    && forall i | 0 <= i < |t.events| :: MoveFine(s.players, t.events[i])
  }

  lemma CommandShape(s: State, c: Command)
    requires BettingFacts(s) && Playable(s) && NamesOk(s.players) && Apply(s, c).Accepted?
    ensures Fits(s, Apply(s, c).transition)
  {
    AcceptedSeat(s, c);
    ActedFits(s, ActorSeat(s), c.action);
  }

  lemma ActedFits(s: State, a: nat, action: Action)
    requires Playable(s) && NamesOk(s.players) && a < |s.players| && s.phase != Complete
    requires PlayerOk(s.players[a]) && IsActive(s.players[a]) && ActionRefusal(s, s.players[a], action).None?
    ensures Playable(AfterAction(s, a, action))
    ensures Fits(s, FinishOrPass(AfterAction(s, a, action), a, [EventOf(s, a, action)]))
  {
    ActionKeepsIdentity(s, a, action);
    ActionEventFine(s, a, action);
    ActionKeepsSeats(s, a, action);
    FinishFits(s, AfterAction(s, a, action), a, EventOf(s, a, action));
  }

  lemma FinishFits(s: State, mid: State, a: nat, e: Event)
    requires Playable(mid) && mid.phase != Complete && MoveFine(s.players, e)
    requires SameIds(s.players, mid.players) && mid.tableId == s.tableId && mid.handId == s.handId
    requires mid.version == s.version
    ensures Fits(s, FinishOrPass(mid, a, [e]))
  {
    FinishShape(mid, a, e);
  }

  // ---- The settling event ----

  lemma {:induction false} StackMapFacts(ps: seq<Player>)
    ensures forall id | id in StackMap(ps) ::
              exists i :: 0 <= i < |ps| && ps[i].id == id && ps[i].stack == StackMap(ps)[id]
  {
    if |ps| > 0 {
      var n := |ps| - 1;
      StackMapFacts(ps[..n]);
      forall id | id in StackMap(ps)
        ensures exists i :: 0 <= i < |ps| && ps[i].id == id && ps[i].stack == StackMap(ps)[id]
      {
        if id != ps[n].id {
          assert id in StackMap(ps[..n]);
          var i :| 0 <= i < n && ps[..n][i].id == id && ps[..n][i].stack == StackMap(ps[..n])[id];
          assert ps[i] == ps[..n][i];
        }
      }
    }
  }

  lemma SettlementFine(ps: seq<Player>, qs: seq<Player>, pot: int, awards: map<PlayerId, int>)
    requires SameIds(ps, qs) && forall i | 0 <= i < |qs| :: qs[i].stack >= 0
    ensures EventFine(ps, HandSettled(pot, awards, StackMap(qs)))
  {
    StackMapFacts(qs);
    forall id | id in StackMap(qs) ensures StackMap(qs)[id] >= 0 && IsPlayer(ps, id) {
      var i :| 0 <= i < |qs| && qs[i].id == id && qs[i].stack == StackMap(qs)[id];
      assert ps[i].id == id;
    }
  }

  // ---- One decision ----

  /** What a decision adds: one or two versions, at least one event, and a settlement exactly when the hand is over. */
  predicate DecisionShape(s: State, f: Finalized) {
    && SameIds(s.players, f.state.players)
    && f.state.tableId == s.tableId && f.state.handId == s.handId
    && |f.events| >= 1
    && (forall i | 0 <= i < |f.events| :: EventFine(s.players, f.events[i]))
    && (forall i | 0 <= i < |f.events| - 1 :: f.events[i].Move?)
    && (if f.state.phase == Complete
        then f.state.version == s.version + 2 && |f.events| >= 2 && f.events[|f.events| - 1].HandSettled?
        else f.state.version == s.version + 1 && f.events[|f.events| - 1].Move?)
  }

  lemma OpenShape(s: State, t: Transition)
    requires Fits(s, t) && t.state.phase != Complete
    ensures DecisionShape(s, Finalized(t.state, Moves(t.events)))
  {
    forall i | 0 <= i < |t.events| ensures EventFine(s.players, Moves(t.events)[i]) {
      assert MoveFine(s.players, t.events[i]);
    }
  }

  lemma SettledShape(s: State, t: Transition, u: State, award: GameEvent)
    requires Fits(s, t) && u.phase == Complete && u.version == t.state.version + 1
    requires SameIds(t.state.players, u.players) && u.tableId == t.state.tableId && u.handId == t.state.handId
    requires award.HandSettled? && EventFine(s.players, award)
    ensures DecisionShape(s, Finalized(u, Moves(t.events) + [award]))
  {
    forall i | 0 <= i < |t.events| + 1 ensures EventFine(s.players, (Moves(t.events) + [award])[i]) {
      if i < |t.events| {
        assert MoveFine(s.players, t.events[i]);
      }
    }
  }

  lemma SettleIdentity(s: State)
    requires (forall i | 0 <= i < |s.players| :: s.players[i].seat >= 0) && Settle(s).Ok?
    ensures var u := Settle(s).value;
            && SameIds(s.players, u.players) && u.tableId == s.tableId && u.handId == s.handId
            && u.version == s.version + 1 && u.phase == s.phase == Complete
  {
  }

  lemma StacksSettled(s: State, d: Deal)
    requires InGame(s, d)
    ensures forall i | 0 <= i < |s.players| :: s.players[i].stack >= 0
  {
    InGameFacts(s, d);
    Unfold(s);
    forall i | 0 <= i < |s.players| ensures s.players[i].stack >= 0 {
      assert PlayerOk(s.players[i]);
    }
  }

  lemma FinalizeShape(s: State, t: Transition, d: Deal)
    requires Fits(s, t) && InGame(t.state, d) && Playable(t.state)
    ensures Finalize(t.state, t.events).Ok?
    ensures var f := Finalize(t.state, t.events).value; InGame(f.state, d) && DecisionShape(s, f)
  {
    if t.state.phase != Complete {
      OpenShape(s, t);
    } else {
      SettleKeepsGame(t.state, d);
      var u := Settle(t.state).value;
      InGamePasses(u, d);
      SettleIdentity(t.state);
      StacksSettled(u, d);
      var award := HandSettled(Sum(t.state.players, HandOf), Awards(StackMap(t.state.players), u.players),
                               StackMap(u.players));
      SettlementFine(s.players, u.players, award.pot, award.awards);
      SettledShape(s, t, u, award);
    }
  }

  /** The engine never blocks a decision it has accepted: it is settled if need be, and fits the record. */
  lemma DecideFits(s: State, q: Request, d: Deal)
    requires InGame(s, d) && Playable(s) && NamesOk(s.players)
    ensures Decide(s, q).Err? ==> Decide(s, q).error.ByEngine?
    ensures Decide(s, q).Ok? ==> var f := Decide(s, q).value;
                                 && s.phase != Complete
                                 && InGame(f.state, d) && Playable(f.state) && NamesOk(f.state.players)
                                 && DecisionShape(s, f)
  {
    var c := Command(q.userId, Some(q.expectedVersion), q.action);
    if Apply(s, c).Accepted? {
      var t := Apply(s, c).transition;
      InGameFacts(s, d);
      Unfold(s);
      CommandShape(s, c);
      CommandKeepsBetting(s, c);
      CommandKeepsCards(s, c, d);
      ApplyKeepsSeats(s, c);
      FinalizeShape(s, t, d);
      InGamePlayable(Finalize(t.state, t.events).value.state, d);
    }
  }
}
