/** Every hand ends: accepted commands descend, a live hand always has one, and timeouts alone finish it. */
module Termination {
  import opened BettingInvariant
  import opened BettingSteps
  import opened Reducer
  import opened Sealing
  import opened Sequences
  import opened Table
  import opened Wrappers

  function StreetsLeft(phase: Phase): nat {
    match phase
    case Preflop => 4
    case Flop => 3
    case Turn => 2
    case River => 1
    case Complete => 0
  }

  function Stacks(s: State): int { Sum(s.players, StackOf) }

  /** Active players who have not acted since the last full raise. */
  function Waiting(acted: seq<PlayerId>): Player -> bool {
    (p: Player) => p.status == Active && p.id !in acted
  }

  /** Lexicographic descent in streets left, total stacks, active players, active players yet to act. */
  predicate Descends(t: State, s: State) {
    || StreetsLeft(t.phase) < StreetsLeft(s.phase)
    || (t.phase == s.phase
        && (|| Stacks(t) < Stacks(s)
            || (Stacks(t) == Stacks(s)
                && (|| Count(t.players, IsActive) < Count(s.players, IsActive)
                    || (Count(t.players, IsActive) == Count(s.players, IsActive)
                        && Count(t.players, Waiting(t.acted)) < Count(s.players, Waiting(s.acted)))))))
  }

  lemma OneStackChanges(s: State, t: State, a: nat)
    requires |s.players| == |t.players| && a < |s.players|
    requires forall i | 0 <= i < |s.players| && i != a :: t.players[i] == s.players[i]
    ensures Stacks(t) == Stacks(s) - s.players[a].stack + t.players[a].stack
  {
    SumDiffers(s.players, StackOf, t.players, StackOf, a);
  }

  lemma FoldDescends(s: State, a: nat)
    requires LiveAt(s, a)
    ensures Descends(AfterFold(s, a), s)
  {
    var t := AfterFold(s, a);
    OneStackChanges(s, t, a);
    CountDrops(s.players, IsActive, t.players, IsActive, a);
  }

  lemma CheckDescends(s: State, a: nat)
    requires TableOk(s) && LiveAt(s, a) && ToCall(s, s.players[a]) == 0
    ensures Descends(AfterCheck(s, a), s)
  {
    var t := AfterCheck(s, a);
    assert s.players[a].streetCommitted <= s.currentBet;
    assert s.players[a].id !in s.acted;
    forall i | 0 <= i < |s.players| && i != a
      ensures Waiting(s.acted)(s.players[i]) == Waiting(t.acted)(t.players[i])
    {
      assert s.players[i].id != s.players[a].id;
    }
    CountDrops(s.players, Waiting(s.acted), t.players, Waiting(t.acted), a);
  }

  lemma CallDescends(s: State, a: nat)
    requires TableOk(s) && LiveAt(s, a) && ToCall(s, s.players[a]) != 0
    ensures Descends(AfterCall(s, a), s)
  {
    assert PlayerOk(s.players[a]);
    OneStackChanges(s, AfterCall(s, a), a);
  }

  lemma WagerDescends(s: State, a: nat, action: Action)
    requires TableOk(s) && LiveAt(s, a) && WagerAccepted(s, a, action)
    ensures Descends(AfterWager(s, a, action), s)
  {
    WagerRaisesBet(s, a, action);
    var t := AfterWager(s, a, action);
    assert t.players == s.players[a := Paid(s, a, action)];
    assert s.players[a].streetCommitted <= s.currentBet;
    OneStackChanges(s, t, a);
  }

  lemma FinishDescends(s: State, t: State, seat: nat, events: seq<Event>)
    requires |t.players| > 0 && t.buttonSeat >= 0
    requires s.phase != Complete && t.phase == s.phase && Descends(t, s)
    ensures Descends(FinishOrPass(t, seat, events).state, s)
  {
  }

  /** An accepted command strictly descends. */
  lemma CommandDescends(s: State, c: Command)
    requires Betting(s) && Playable(s) && Apply(s, c).Accepted?
    ensures Descends(Apply(s, c).transition.state, s)
  {
    Unfold(s);
    AcceptedSeat(s, c);
    var a := ActorSeat(s);
    match c.action {
      case Fold => FoldDescends(s, a);
      case Check => CheckDescends(s, a);
      case Call => CallDescends(s, a);
      case _ => WagerDescends(s, a, c.action);
    }
    FinishDescends(s, AfterAction(s, a, c.action), a, [EventOf(s, a, c.action)]);
  }

  // ---- Runs of accepted commands ----

  /** The reducer accepts the command in state s and answers with t. */
  ghost predicate Follows(s: State, c: Command, t: State) {
    forall k {:trigger Open(FollowsCommandSeal, k)} :: Open(FollowsCommandSeal, k) ==>
      Playable(s) && Apply(s, c).Accepted? && t == Apply(s, c).transition.state
  }

  ghost predicate Run(states: seq<State>, commands: seq<Command>) {
    && |states| == |commands| + 1
    && Betting(states[0])
    && forall k {:trigger commands[k]} | 0 <= k < |commands| :: Follows(states[k], commands[k], states[k + 1])
  }

  lemma FollowsKeepsBetting(s: State, c: Command, t: State)
    requires Betting(s) && Follows(s, c, t)
    ensures Betting(t)
  {
    assert Open(FollowsCommandSeal, 0);
    CommandKeepsBetting(s, c);
  }

  /** What one command does to the weight that bounds the run. */
  lemma FollowsDescends(s: State, c: Command, t: State, bank: nat)
    requires Betting(s) && Follows(s, c, t) && Stacks(s) <= bank
    ensures Betting(t) && 0 <= Stacks(t) <= Stacks(s) && Weight(t, bank) < Weight(s, bank)
  {
    assert Open(FollowsCommandSeal, 0);
    FollowsKeepsBetting(s, c, t);
    BettingStacks(s);
    BettingStacks(t);
    CommandDescends(s, c);
    CommandNeverRefills(s, c);
    DescentLowersWeight(s, t, bank);
  }

  /** The four components folded into one number; `bank` bounds the stacks. */
  function Weight(s: State, bank: nat): int {
    ((StreetsLeft(s.phase) * (bank + 1) + Stacks(s)) * 10 + Count(s.players, IsActive)) * 10
    + Count(s.players, Waiting(s.acted))
  }

  lemma {:induction false} StacksNonnegative(ps: seq<Player>)
    requires ChipsOk(ps)
    ensures 0 <= Sum(ps, StackOf)
  {
    if |ps| > 0 {
      assert PlayerOk(ps[|ps| - 1]);
      StacksNonnegative(ps[..|ps| - 1]);
    }
  }

  lemma LexToWeight(bank: nat, l: nat, l': nat, k: int, k': int)
    requires 0 <= k <= bank && 0 <= k' <= bank && l' < l
    ensures l' * (bank + 1) + k' <= l * (bank + 1) + k - 1
  {
    assert l * (bank + 1) >= (l' + 1) * (bank + 1) == l' * (bank + 1) + bank + 1;
  }

  lemma DescentLowersWeight(s: State, t: State, bank: nat)
    requires Descends(t, s)
    requires |s.players| <= 9 && |t.players| <= 9
    requires 0 <= Stacks(s) <= bank && 0 <= Stacks(t) <= bank
    ensures Weight(t, bank) < Weight(s, bank)
  {
    var l, l' := StreetsLeft(s.phase), StreetsLeft(t.phase);
    if l' < l {
      LexToWeight(bank, l, l', Stacks(s), Stacks(t));
    }
  }

  lemma BettingStacks(s: State)
    requires Betting(s)
    ensures 0 <= Stacks(s) && |s.players| <= 9
  {
    Unfold(s);
    StacksNonnegative(s.players);
  }

  lemma WagerPays(s: State, a: nat, action: Action)
    requires TableOk(s) && LiveAt(s, a) && WagerAccepted(s, a, action)
    ensures Stacks(AfterWager(s, a, action)) <= Stacks(s)
  {
    WagerRaisesBet(s, a, action);
    var t := AfterWager(s, a, action);
    assert t.players == s.players[a := Paid(s, a, action)];
    assert s.players[a].streetCommitted <= s.currentBet;
    OneStackChanges(s, t, a);
  }

  lemma ActionPays(s: State, a: nat, action: Action)
    requires TableOk(s) && LiveAt(s, a) && ActionRefusal(s, s.players[a], action).None?
    ensures Stacks(AfterAction(s, a, action)) <= Stacks(s)
  {
    match action {
      case Fold => OneStackChanges(s, AfterFold(s, a), a);
      case Check =>
      case Call =>
        assert PlayerOk(s.players[a]);
        OneStackChanges(s, AfterCall(s, a), a);
      case _ => WagerPays(s, a, action);
    }
  }

  lemma FinishKeepsStacks(s: State, seat: nat, events: seq<Event>)
    requires |s.players| > 0 && s.buttonSeat >= 0
    ensures Stacks(FinishOrPass(s, seat, events).state) == Stacks(s)
    ensures |FinishOrPass(s, seat, events).state.players| == |s.players|
  {
    SumMatches(s.players, StackOf, ResetStreet(s.players), StackOf);
  }

  lemma CommandNeverRefills(s: State, c: Command)
    requires Betting(s) && Playable(s) && Apply(s, c).Accepted?
    ensures Stacks(Apply(s, c).transition.state) <= Stacks(s)
  {
    Unfold(s);
    AcceptedSeat(s, c);
    var a := ActorSeat(s);
    ActionPays(s, a, c.action);
    FinishKeepsStacks(AfterAction(s, a, c.action), a, [EventOf(s, a, c.action)]);
  }

  lemma {:induction false} RunDescends(states: seq<State>, commands: seq<Command>, k: nat, bank: nat)
    requires Run(states, commands) && k < |states| && bank == Stacks(states[0])
    ensures Betting(states[k]) && 0 <= Stacks(states[k]) <= bank
    ensures Weight(states[k], bank) <= Weight(states[0], bank) - k
  {
    BettingStacks(states[0]);
    if k > 0 {
      RunDescends(states, commands, k - 1, bank);
      FollowsDescends(states[k - 1], commands[k - 1], states[k], bank);
    }
  }

  /** No hand accepts more commands than the weight of the state it starts from. */
  lemma RunsAreBounded(states: seq<State>, commands: seq<Command>)
    requires Run(states, commands)
    ensures 0 <= Stacks(states[0])
    ensures |commands| <= Weight(states[0], Stacks(states[0]))
  {
    BettingStacks(states[0]);
    var bank := Stacks(states[0]);
    RunDescends(states, commands, |commands|, bank);
    assert 0 <= Weight(states[|commands|], bank) by {
      assert StreetsLeft(states[|commands|].phase) * (bank + 1) >= 0;
    }
  }

  // ---- Timeouts ----

  datatype TimeoutResult = Resolved(transition: Transition) | ActorNotSeated | CommandThrown(code: ErrorCode)

  /** The automatic decision: check when level with the bet, fold otherwise; a refusal would be thrown. */
  function ResolveTimeout(s: State): TimeoutResult
    requires |s.players| > 0 && s.buttonSeat >= 0
    requires forall i | 0 <= i < |s.players| :: s.players[i].seat >= 0
  {
    var i := SeatOf(s.players, s.actorId);
    if i == |s.players| then ActorNotSeated
    else
      match Apply(s, TimeoutCommand(s, s.players[i]))
      case Accepted(transition) => Resolved(transition)
      case Rejected(code, _) => CommandThrown(code)
  }

  function TimeoutCommand(s: State, p: Player): Command {
    Command(p.id, Some(s.version), if p.streetCommitted == s.currentBet then Check else Fold)
  }

  /** In a live state the automatic decision is always accepted; in a completed one it is always refused. */
  lemma TimeoutAccepted(s: State)
    requires Betting(s) && Playable(s)
    ensures s.phase != Complete <==> ResolveTimeout(s).Resolved?
    ensures s.phase != Complete ==>
              && ActorSeat(s) < |s.players|
              && Apply(s, TimeoutCommand(s, s.players[ActorSeat(s)])).Accepted?
              && ResolveTimeout(s).transition == Apply(s, TimeoutCommand(s, s.players[ActorSeat(s)])).transition
    ensures s.phase == Complete ==> ResolveTimeout(s) == CommandThrown(IllegalAction)
  {
    Unfold(s);
    var i :| 0 <= i < |s.players| && s.players[i].id == s.actorId;
    assert ActorSeat(s) < |s.players|;
    SeatOfUnique(s.players, i);
    if s.phase != Complete {
      assert s.players[i].streetCommitted <= s.currentBet;
    }
  }

  /** Active players who still owe a decision on this street. */
  function Owes(acted: seq<PlayerId>, bet: int): Player -> bool {
    (p: Player) => p.status == Active && !(p.id in acted && p.streetCommitted == bet)
  }

  function Owing(s: State): nat { Count(s.players, Owes(s.acted, s.currentBet)) }

  /** How many timeouts the hand can still take. */
  function TimeoutRank(s: State): int {
    (StreetsLeft(s.phase) - 1) * |s.players| + Owing(s)
  }

  lemma TimeoutSettlesOne(s: State, a: nat)
    requires TableOk(s) && LiveAt(s, a)
    ensures Owing(AfterAction(s, a, TimeoutCommand(s, s.players[a]).action)) == Owing(s) - 1
  {
    var t := AfterAction(s, a, TimeoutCommand(s, s.players[a]).action);
    forall i | 0 <= i < |s.players| && i != a
      ensures Owes(s.acted, s.currentBet)(s.players[i]) == Owes(t.acted, t.currentBet)(t.players[i])
    {
      assert s.players[i].id != s.players[a].id;
    }
    CountDrops(s.players, Owes(s.acted, s.currentBet), t.players, Owes(t.acted, t.currentBet), a);
  }

  lemma RankDrops(n: nat, left: nat, left': nat, owing: nat, owing': nat)
    requires 1 <= left && 1 <= owing && owing' <= n
    requires left' == left - 1 || (left' == left && owing' < owing)
    ensures (left' - 1) * n + owing' < (left - 1) * n + owing
  {
    if left' == left - 1 {
      assert (left - 1) * n == (left' - 1) * n + n;
    }
  }

  lemma TimeoutStep(s: State)
    requires BettingFacts(s) && s.phase != Complete
    requires Apply(s, TimeoutCommand(s, s.players[ActorSeat(s)])).Accepted?
    ensures var t := Apply(s, TimeoutCommand(s, s.players[ActorSeat(s)])).transition.state;
            && |t.players| == |s.players|
            && (t.phase == Complete || TimeoutRank(t) < TimeoutRank(s))
  {
    var a := ActorSeat(s);
    var c := TimeoutCommand(s, s.players[a]);
    AcceptedSeat(s, c);
    TimeoutSettlesOne(s, a);
    AfterTimeout(s, AfterAction(s, a, c.action), a, [EventOf(s, a, c.action)]);
  }

  lemma AfterTimeout(s: State, mid: State, a: nat, events: seq<Event>)
    requires 0 < |s.players| == |mid.players| && mid.buttonSeat >= 0
    requires mid.phase == s.phase != Complete
    requires Owing(mid) == Owing(s) - 1
    ensures var t := FinishOrPass(mid, a, events).state;
            && |t.players| == |s.players|
            && (t.phase == Complete || TimeoutRank(t) < TimeoutRank(s))
  {
    FinishKeepsStacks(mid, a, events);
    var t := FinishOrPass(mid, a, events).state;
    if t.phase != Complete {
      RankDrops(|s.players|, StreetsLeft(s.phase), StreetsLeft(t.phase), Owing(s), Owing(t));
    }
  }

  /** Each timeout either completes the hand or lowers the rank. */
  lemma TimeoutProgress(s: State)
    requires Betting(s) && Playable(s) && s.phase != Complete
    ensures ResolveTimeout(s).Resolved?
    ensures var t := ResolveTimeout(s).transition.state;
            && Betting(t) && Playable(t) && |t.players| == |s.players|
            && (t.phase == Complete || TimeoutRank(t) < TimeoutRank(s))
  {
    TimeoutAccepted(s);
    CommandKeepsBetting(s, TimeoutCommand(s, s.players[ActorSeat(s)]));
    BettingPlayable(ResolveTimeout(s).transition.state);
    Unfold(s);
    TimeoutStep(s);
  }

  ghost function TimeoutRun(s: State, k: nat): (t: State)
    requires Betting(s) && Playable(s)
    ensures Betting(t) && Playable(t) && |t.players| == |s.players|
    decreases k
  {
    if k == 0 || s.phase == Complete then s
    else
      TimeoutProgress(s);
      TimeoutRun(ResolveTimeout(s).transition.state, k - 1)
  }

  /** A timeout uses up one of the steps that are left. */
  lemma TimeoutUsesStep(s: State, k: nat)
    requires Betting(s) && Playable(s) && s.phase != Complete && TimeoutRank(s) <= k
    ensures k > 0 && ResolveTimeout(s).Resolved?
    ensures var t := ResolveTimeout(s).transition.state;
            Betting(t) && Playable(t) && (t.phase == Complete || TimeoutRank(t) <= k - 1)
    ensures TimeoutRun(s, k) == TimeoutRun(ResolveTimeout(s).transition.state, k - 1)
  {
    LiveRank(s);
    TimeoutProgress(s);
  }

  lemma {:induction false} TimeoutsExhaust(s: State, k: nat)
    requires Betting(s) && Playable(s) && (s.phase == Complete || TimeoutRank(s) <= k)
    ensures TimeoutRun(s, k).phase == Complete
    decreases k
  {
    if s.phase != Complete {
      TimeoutUsesStep(s, k);
      TimeoutsExhaust(ResolveTimeout(s).transition.state, k - 1);
    }
  }

  lemma SomeoneOwes(s: State, a: nat)
    requires a < |s.players| && IsActive(s.players[a]) && !Done(s, a)
    ensures Owing(s) >= 1
  {
    CountNone(s.players, Owes(s.acted, s.currentBet));
    assert Owes(s.acted, s.currentBet)(s.players[a]);
  }

  lemma LiveRank(s: State)
    requires Betting(s) && Playable(s) && s.phase != Complete
    ensures 1 <= TimeoutRank(s) <= 4 * |s.players|
  {
    assert 1 <= Owing(s) by {
      Unfold(s);
      SomeoneOwes(s, ActorSeat(s));
    }
    assert 0 <= (StreetsLeft(s.phase) - 1) * |s.players| <= 3 * |s.players|;
  }

  /** With nobody answering, a hand of n seats is complete after at most 4n timeouts. */
  lemma TimeoutsCompleteTheHand(s: State)
    requires Betting(s) && Playable(s)
    ensures TimeoutRun(s, 4 * |s.players|).phase == Complete
  {
    if s.phase != Complete {
      LiveRank(s);
    }
    TimeoutsExhaust(s, 4 * |s.players|);
  }
}
