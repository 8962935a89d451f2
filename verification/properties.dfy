/** What the rules of a turn guarantee: the invariant every turn keeps, and
    the behaviour of guards, Counters, the Combi buff, the action order and
    the simultaneous damage commit. */
module TurnProperties {
  import opened Cards
  import opened Scheduler
  import opened Rules

  // ---------------------------------------------------------------------
  // The invariant between and during turns
  // ---------------------------------------------------------------------

  /** A queue pops in (turn, sequence) order and holds only sequence numbers
      already handed out. */
  ghost predicate QueueOk(q: seq<Entry>, n: int)
  {
    Sorted(q) && OrdersAtMost(q, n)
  }

  /** A player stands on the field, and an armed Counter has not fired yet. */
  ghost predicate PlayerOk(p: PlayerState, n: int)
  {
    OnField(p.x) && QueueOk(p.cc.queue, n) && p.cc.counterOn != On(true)
  }

  ghost predicate MidTurn(g: GameState)
  {
    PlayerOk(g.p1, g.order) && PlayerOk(g.p2, g.order)
  }

  /** Between turns, in addition, no Counter is armed. */
  ghost predicate WellFormed(g: GameState)
  {
    MidTurn(g) && g.p1.cc.counterOn == Off && g.p2.cc.counterOn == Off
  }

  lemma NewGameWellFormed()
    ensures WellFormed(NewGame())
  {
  }

  lemma ScheduleOnKeepsMidTurn(g: GameState, i: PlayerId, at: int, e: Effect)
    requires MidTurn(g)
    ensures MidTurn(ScheduleOn(g, i, at, e))
  {
    var q := g.Pl(i).cc.queue;
    var entry := Entry(at, g.order + 1, e);
    InsertKeepsSorted(q, entry);
    InsertContents(q, entry);
  }

  lemma ScheduleStunKeepsMidTurn(g: GameState, i: PlayerId)
    requires MidTurn(g)
    ensures MidTurn(ScheduleStun(g, i))
  {
    ScheduleOnKeepsMidTurn(g, i, g.turn + 1, SetStun);
    ScheduleOnKeepsMidTurn(ScheduleOn(g, i, g.turn + 1, SetStun), i, g.turn + 2, ClearStun);
  }

  lemma OnCounteredAttackKeepsMidTurn(r: Resolution, owner: PlayerId, attacker: PlayerId)
    requires MidTurn(r.g) && r.g.Pl(owner).cc.counterOn.On?
    ensures MidTurn(OnCounteredAttack(r, owner, attacker).g)
  {
    ScheduleStunKeepsMidTurn(r.g, attacker);
  }

  lemma ActKeepsMidTurn(r: Resolution, a: Action)
    requires MidTurn(r.g)
    ensures MidTurn(Act(r, a).g)
  {
    var p, ti := r.g.Pl(a.player), a.Target();
    var t := r.g.Pl(ti);
    if p.cc.flags.stunned {
    } else if KindOf(a.card) == Attack && t.cc.counterOn.On? {
      OnCounteredAttackKeepsMidTurn(r, ti, a.player);
    } else {
      var dmg := if p.cc.flags.combiBuff && p.x + a.direction == t.x then r.dmg.Add(ti, 1) else r.dmg;
      ResolveKeepsMidTurn(Resolution(r.g, dmg), a);
    }
  }

  lemma ResolveKeepsMidTurn(r: Resolution, a: Action)
    requires MidTurn(r.g)
    ensures MidTurn(Resolve(r, a).g)
  {
    if KindOf(a.card) == Attack {
      StrikeKeepsMidTurn(r, a);
    } else if a.card == Guard {
      GuardKeepsMidTurn(r, a);
    } else if a.card == Pound {
      PoundKeepsMidTurn(r, a);
    } else if a.card == Combi {
      CombiKeepsMidTurn(r, a);
    }
  }

  lemma StrikeKeepsMidTurn(r: Resolution, a: Action)
    requires MidTurn(r.g) && KindOf(a.card) == Attack
    ensures MidTurn(Resolve(r, a).g)
  {
    var g, who, ti := r.g, a.player, a.Target();
    var s := StrikeOf(a.card);
    assert Resolve(r, a) == ApplyAttack(r, who, a.direction, s);
    if g.Pl(who).x + a.direction * s.range == g.Pl(ti).x && !s.ignoreCounter && g.Pl(ti).cc.counterOn.On? {
      OnCounteredAttackKeepsMidTurn(r, ti, who);
    }
  }

  lemma GuardKeepsMidTurn(r: Resolution, a: Action)
    requires MidTurn(r.g) && a.card == Guard
    ensures MidTurn(Resolve(r, a).g)
  {
    var g, who := r.g, a.player;
    var p := g.Pl(who);
    var g1 := g.WithPl(who, p.(cc := p.cc.(flags := p.cc.flags.(guarded := true))));
    ScheduleOnKeepsMidTurn(g1, who, g.turn + 1, ClearGuard);
  }

  lemma PoundKeepsMidTurn(r: Resolution, a: Action)
    requires MidTurn(r.g) && a.card == Pound
    ensures MidTurn(Resolve(r, a).g)
  {
    var g, ti := r.g, a.Target();
    if g.Pl(a.player).x + a.direction == g.Pl(ti).x {
      ScheduleOnKeepsMidTurn(g, ti, g.turn + 1, SetFixed);
      ScheduleOnKeepsMidTurn(ScheduleOn(g, ti, g.turn + 1, SetFixed), ti, g.turn + 2, ClearFixed);
    }
  }

  lemma CombiKeepsMidTurn(r: Resolution, a: Action)
    requires MidTurn(r.g) && a.card == Combi
    ensures MidTurn(Resolve(r, a).g)
  {
    var g, who := r.g, a.player;
    var g1 := ScheduleOn(g, who, g.turn + 1, EnableCombi);
    ScheduleOnKeepsMidTurn(g, who, g.turn + 1, EnableCombi);
    ScheduleOnKeepsMidTurn(g1, who, g.turn + 2, DisableCombi);
  }

  lemma {:induction false} RunActionsKeepsMidTurn(r: Resolution, acts: seq<Action>)
    requires MidTurn(r.g)
    ensures MidTurn(RunActions(r, acts).g)
    decreases |acts|
  {
    if acts != [] {
      RunActionsKeepsMidTurn(r, acts[..|acts| - 1]);
      ActKeepsMidTurn(RunActions(r, acts[..|acts| - 1]), acts[|acts| - 1]);
    }
  }

  /** The end-of-turn check leaves no Counter armed. */
  lemma {:induction false} FailCountersDisarm(g: GameState, n: nat)
    requires n <= 2 && MidTurn(g)
    ensures MidTurn(FailCounters(g, n))
    ensures forall i: PlayerId :: i < n ==> FailCounters(g, n).Pl(i).cc.counterOn == Off
    ensures forall i: PlayerId :: n <= i ==> FailCounters(g, n).Pl(i).cc.counterOn == g.Pl(i).cc.counterOn
  {
    if n > 0 {
      var g1 := FailCounters(g, n - 1);
      FailCountersDisarm(g, n - 1);
      if g1.Pl(n - 1).cc.counterOn.On? {
        ScheduleStunKeepsMidTurn(g1, n - 1);
      }
    }
  }

  /** On a sorted queue, the start of a turn leaves no entry due by it: every
      entry still queued triggers in a later turn. */
  lemma BeginTurnClearsDue(p: PlayerState, now: int)
    requires Sorted(p.cc.queue)
    ensures forall e :: e in BeginTurn(p, now).cc.queue ==> e.turn > now
  {
    UpdatedRunsDue(p.cc, now);
    DueSplitsQueue(p.cc.queue, now);
  }

  lemma BeginTurnKeepsPlayerOk(p: PlayerState, now: int, n: int)
    requires PlayerOk(p, n)
    ensures PlayerOk(BeginTurn(p, now), n)
    ensures BeginTurn(p, now).cc.counterOn == p.cc.counterOn
  {
    UpdatedRunsDue(p.cc, now);
    DueSplitsQueue(p.cc.queue, now);
  }

  /** Every turn keeps the invariant: both players stay on the field, the
      queues stay in (turn, sequence) order with sequence numbers already
      handed out, and no Counter outlives the turn it was armed in. */
  lemma ResolveTurnKeepsWellFormed(g: GameState, a1: Action, a2: Action)
    requires WellFormed(g)
    ensures WellFormed(ResolveTurn(g, a1, a2))
  {
    if !g.gameOver {
      var g1 := StartTurn(g);
      BeginTurnKeepsPlayerOk(g.p1, g.turn + 1, g.order);
      BeginTurnKeepsPlayerOk(g.p2, g.turn + 1, g.order);
      var r := ActionsPhase(g, a1, a2);
      RunActionsKeepsMidTurn(Resolution(g1, Damage(0, 0)), OrderActions(a1, a2));
      FailCountersDisarm(r.g, 2);
      var g2 := FailCounters(r.g, 2);
      assert g2.Pl(0).cc.counterOn == Off && g2.Pl(1).cc.counterOn == Off;
    }
  }

  // ---------------------------------------------------------------------
  // Moves
  // ---------------------------------------------------------------------

  /** A move lands on the field, moves by exactly `delta` when that stays on
      the field, otherwise stops on the nearer edge, changes nothing of the
      mover but its position, and does nothing to a fixed player. */
  lemma MoveLandsOnField(r: Resolution, who: PlayerId, delta: int)
    ensures var p, p' := r.g.Pl(who), MoveBy(r, who, delta).g.Pl(who);
      && (p.cc.flags.fixed ==> p' == p)
      && (!p.cc.flags.fixed ==> p' == p.(x := Clamp(p.x + delta)))
      && (!p.cc.flags.fixed ==> OnField(p'.x))
      && (!p.cc.flags.fixed && OnField(p.x + delta) ==> p'.x == p.x + delta)
      && MoveBy(r, who, delta).g.Pl(Other(who)) == r.g.Pl(Other(who))
  {
  }

  // ---------------------------------------------------------------------
  // The act wrapper
  // ---------------------------------------------------------------------

  /** A stunned player's card is wasted: nothing moves, nothing is scheduled,
      no Counter is armed, no damage is dealt. */
  lemma StunnedPlayerDoesNothing(r: Resolution, a: Action)
    requires r.g.Pl(a.player).cc.flags.stunned
    ensures Act(r, a) == r
  {
  }

  /** Whether an attack reaches the accumulator depends on range, Counter and
      guard, in that order; it adds exactly the card's damage or nothing. */
  lemma AttackOutcome(r: Resolution, who: PlayerId, d: int, s: Strike)
    requires r.g.Pl(Other(who)).cc.counterOn != On(true)
    ensures var t := r.g.Pl(Other(who));
      var inRange := r.g.Pl(who).x + d * s.range == t.x;
      var countered := inRange && !s.ignoreCounter && t.cc.counterOn.On?;
      var lands := inRange && !countered && (s.ignoreGuard || !t.cc.flags.guarded);
      var r' := ApplyAttack(r, who, d, s);
      && r'.dmg.Of(Other(who)) == r.dmg.Of(Other(who)) + (if lands then s.damage else 0)
      && r'.dmg.Of(who) == r.dmg.Of(who) + (if countered then 1 else 0)
      && (!countered ==> r'.g == r.g)
  {
  }

  /** An armed Counter intercepts every Attack card, in range or not and
      Hook included: the attack deals nothing, the attacker takes 1 damage
      and is stunned for the next turn, and the Counter disarms. */
  lemma CounterInterceptsEveryAttack(r: Resolution, a: Action)
    requires !r.g.Pl(a.player).cc.flags.stunned
    requires KindOf(a.card) == Attack
    requires r.g.Pl(a.Target()).cc.counterOn == On(false)
    ensures var r', at, t := Act(r, a), a.player, a.Target();
      var q := r.g.Pl(at).cc.queue;
      && r'.dmg == r.dmg.Add(at, 1)
      && r'.g.Pl(t) == r.g.Pl(t).(cc := r.g.Pl(t).cc.(counterOn := Off))
      && r'.g.Pl(at) == r.g.Pl(at).(cc := r.g.Pl(at).cc.(queue :=
           Insert(Insert(q, Entry(r.g.turn + 1, r.g.order + 1, SetStun)),
                  Entry(r.g.turn + 2, r.g.order + 2, ClearStun))))
      && r'.g.order == r.g.order + 2
  {
  }

  /** A Counter that has fired is inert. */
  lemma FiredCounterIsInert(r: Resolution, owner: PlayerId, attacker: PlayerId)
    requires r.g.Pl(owner).cc.counterOn == On(true)
    ensures OnCounteredAttack(r, owner, attacker) == r
    ensures Fail(r.g, owner) == r.g
  {
  }

  /** Against a target with no armed Counter, an attack card in range that
      the guard does not stop lands its full damage and changes nothing else. */
  lemma AttackLands(r: Resolution, a: Action)
    requires KindOf(a.card) == Attack
    requires var p, t := r.g.Pl(a.player), r.g.Pl(a.Target());
      && !p.cc.flags.stunned && !p.cc.flags.combiBuff
      && t.cc.counterOn == Off
      && p.x + a.direction * StrikeOf(a.card).range == t.x
      && (StrikeOf(a.card).ignoreGuard || !t.cc.flags.guarded)
    ensures Act(r, a) == Resolution(r.g, r.dmg.Add(a.Target(), StrikeOf(a.card).damage))
  {
  }

  /** A Counter fires at most once: after it intercepted one attack, a second
      attack on its owner in the same turn lands normally. */
  lemma CounterFiresAtMostOnce(r: Resolution, a1: Action, a2: Action)
    requires !r.g.Pl(a1.player).cc.flags.stunned
    requires KindOf(a1.card) == Attack && KindOf(a2.card) == Attack
    requires r.g.Pl(a1.Target()).cc.counterOn == On(false)
    requires a2.Target() == a1.Target()
    requires var p, t := r.g.Pl(a2.player), r.g.Pl(a2.Target());
      && !p.cc.flags.stunned && !p.cc.flags.combiBuff
      && p.x + a2.direction * StrikeOf(a2.card).range == t.x
      && (StrikeOf(a2.card).ignoreGuard || !t.cc.flags.guarded)
    ensures var r1 := Act(r, a1);
      && r1.g.Pl(a1.Target()).cc.counterOn == Off
      && Act(r1, a2) == Resolution(r1.g, r1.dmg.Add(a2.Target(), StrikeOf(a2.card).damage))
  {
    CounterInterceptsEveryAttack(r, a1);
    AttackLands(Act(r, a1), a2);
  }

  /** A Counter still armed at the end of the turn stuns its own owner for
      the next turn and disarms; the other player is untouched. */
  lemma UnfiredCounterStunsOwner(g: GameState, i: PlayerId)
    requires g.Pl(i).cc.counterOn == On(false)
    ensures var g', q := FailCounter(g, i), g.Pl(i).cc.queue;
      && g'.Pl(i) == g.Pl(i).(cc := g.Pl(i).cc.(counterOn := Off, queue :=
           Insert(Insert(q, Entry(g.turn + 1, g.order + 1, SetStun)),
                  Entry(g.turn + 2, g.order + 2, ClearStun))))
      && g'.Pl(Other(i)) == g.Pl(Other(i))
      && g'.order == g.order + 2
  {
  }

  /** The Combi buff adds 1 damage when the target stands on the adjacent
      tile ahead, before the card resolves and whatever the target's guard;
      only an intercepted Attack card loses it. */
  lemma CombiBonusBeforeResolve(r: Resolution, a: Action)
    requires var p, t := r.g.Pl(a.player), r.g.Pl(a.Target());
      && !p.cc.flags.stunned && p.cc.flags.combiBuff
      && p.x + a.direction == t.x
      && !(KindOf(a.card) == Attack && t.cc.counterOn.On?)
    ensures Act(r, a) == Resolve(Resolution(r.g, r.dmg.Add(a.Target(), 1)), a)
  {
  }

  /** A buffed Jab into a guarded target on the next tile: the Jab itself is
      blocked, the bonus still lands. */
  lemma CombiBonusPassesGuard(r: Resolution, a: Action)
    requires a.card == Jab
    requires var p, t := r.g.Pl(a.player), r.g.Pl(a.Target());
      && !p.cc.flags.stunned && p.cc.flags.combiBuff
      && p.x + a.direction == t.x
      && t.cc.counterOn == Off && t.cc.flags.guarded
    ensures Act(r, a).dmg == r.dmg.Add(a.Target(), 1)
    ensures Act(r, a).g == r.g
  {
  }

  /** Guard raises the guard at once and queues its removal for the start of
      the next turn under a fresh sequence number; nothing else changes. */
  lemma GuardRaisedUntilNextTurn(r: Resolution, a: Action)
    requires a.card == Guard
    ensures var p, p' := r.g.Pl(a.player), Resolve(r, a).g.Pl(a.player);
      && p'.cc.flags == p.cc.flags.(guarded := true)
      && p'.cc.queue == Insert(p.cc.queue, Entry(r.g.turn + 1, r.g.order + 1, ClearGuard))
      && p'.cc.counterOn == p.cc.counterOn
      && p'.x == p.x && p'.hp == p.hp && p'.basic == p.basic && p'.special == p.special
      && Resolve(r, a).g.Pl(a.Target()) == r.g.Pl(a.Target())
      && Resolve(r, a).dmg == r.dmg
      && Resolve(r, a).g.order == r.g.order + 1
  {
  }

  /** Counter arms its owner's Counter, not yet fired, and changes nothing
      else. */
  lemma CounterArms(r: Resolution, a: Action)
    requires a.card == Counter
    ensures var p, p' := r.g.Pl(a.player), Resolve(r, a).g.Pl(a.player);
      && p' == p.(cc := p.cc.(counterOn := On(false)))
      && Resolve(r, a).g.Pl(a.Target()) == r.g.Pl(a.Target())
      && Resolve(r, a).g.order == r.g.order
      && Resolve(r, a).dmg == r.dmg
  {
  }

  /** Pound on the adjacent tile ahead fixes the target for the next turn and
      frees it the turn after; otherwise it does nothing. It never deals
      damage and never touches its player. */
  lemma PoundFixesTarget(r: Resolution, a: Action)
    requires a.card == Pound
    ensures var g, ti := r.g, a.Target();
      var t, t' := g.Pl(ti), Resolve(r, a).g.Pl(ti);
      && Resolve(r, a).dmg == r.dmg
      && Resolve(r, a).g.Pl(a.player) == g.Pl(a.player)
      && (g.Pl(a.player).x + a.direction != t.x ==> Resolve(r, a) == r)
      && (g.Pl(a.player).x + a.direction == t.x ==>
            && t' == t.(cc := t.cc.(queue :=
                 Insert(Insert(t.cc.queue, Entry(g.turn + 1, g.order + 1, SetFixed)),
                        Entry(g.turn + 2, g.order + 2, ClearFixed))))
            && Resolve(r, a).g.order == g.order + 2)
  {
  }

  /** Combi queues the buff for the next turn and its end for the turn after,
      then moves its player one tile like a Step; it never deals damage and
      never touches the other player. */
  lemma CombiSchedulesBuff(r: Resolution, a: Action)
    requires a.card == Combi
    ensures var g, p, p' := r.g, r.g.Pl(a.player), Resolve(r, a).g.Pl(a.player);
      && p'.cc.queue == Insert(Insert(p.cc.queue, Entry(g.turn + 1, g.order + 1, EnableCombi)),
                               Entry(g.turn + 2, g.order + 2, DisableCombi))
      && p'.cc.flags == p.cc.flags && p'.cc.counterOn == p.cc.counterOn
      && p'.x == (if p.cc.flags.fixed then p.x else Clamp(p.x + a.direction))
      && p' == p.(x := p'.x, cc := p.cc.(queue := p'.cc.queue))
      && Resolve(r, a).g.Pl(a.Target()) == g.Pl(a.Target())
      && Resolve(r, a).g.order == g.order + 2
      && Resolve(r, a).dmg == r.dmg
  {
  }

  // ---------------------------------------------------------------------
  // Start of turn, scheduled effects
  // ---------------------------------------------------------------------

  /** The turn advances by one; each player's due effects fire and the basic
      hand is refilled exactly when it is empty; nothing else changes. */
  lemma StartOfTurn(g: GameState, i: PlayerId)
    ensures var p, p' := g.Pl(i), StartTurn(g).Pl(i);
      && StartTurn(g).turn == g.turn + 1
      && p'.basic == (if p.basic == [] then BasicHand else p.basic)
      && p'.special == p.special && p'.x == p.x && p'.hp == p.hp
      && p'.cc == Updated(p.cc, g.turn + 1)
  {
  }

  /** An effect queued for turn T fires exactly once when updates run turn
      by turn: not at T - 1, at T, and it is gone afterwards. */
  lemma {:induction false} FiresExactlyAtItsTurn(q: seq<Entry>, e: Entry)
    requires Sorted(q) && e in q
    ensures e !in Due(q, e.turn - 1) && e in Pending(q, e.turn - 1)
    ensures var later := Pending(q, e.turn - 1);
      e in Due(later, e.turn) && e !in Pending(later, e.turn)
    ensures multiset(Due(Pending(q, e.turn - 1), e.turn))[e] == 1
  {
    DueSplitsQueue(q, e.turn - 1);
    var later := Pending(q, e.turn - 1);
    DueSplitsQueue(later, e.turn);
    SortedHasNoRepeats(Due(later, e.turn), e);
  }

  /** A guard set in one turn is gone once the next turn's effects fired. */
  lemma GuardEndsNextTurn(g: GameState, i: PlayerId, e: Entry)
    requires Sorted(g.Pl(i).cc.queue)
    requires e in g.Pl(i).cc.queue && e.effect == ClearGuard && e.turn <= g.turn + 1
    ensures !StartTurn(g).Pl(i).cc.flags.guarded
  {
    var c, now := g.Pl(i).cc, g.turn + 1;
    UpdatedRunsDue(c, now);
    DueSplitsQueue(c.queue, now);
    var d := Due(c.queue, now);
    var k :| 0 <= k < |d| && d[k] == e;
    GuardSurvivesUnlessCleared(c.flags, d);
  }

  // ---------------------------------------------------------------------
  // The whole turn
  // ---------------------------------------------------------------------

  /** The damage of the turn is committed to both players at once, and the
      verdict follows from the new health: a double knock-out is a draw. */
  lemma TurnOutcome(g: GameState, a1: Action, a2: Action)
    requires !g.gameOver
    ensures var g', dmg := ResolveTurn(g, a1, a2), ActionsPhase(g, a1, a2).dmg;
      && g'.turn == g.turn + 1
      && g'.p1.hp == g.p1.hp - dmg.d1 && g'.p2.hp == g.p2.hp - dmg.d2
      && (g'.gameOver <==> g'.p1.hp <= 0 || g'.p2.hp <= 0)
      && (g'.p1.hp <= 0 && g'.p2.hp <= 0 ==> g'.winner == Nobody)
      && (g'.p1.hp <= 0 && g'.p2.hp > 0 ==> g'.winner == P2)
      && (g'.p1.hp > 0 && g'.p2.hp <= 0 ==> g'.winner == P1)
      && (!g'.gameOver ==> g'.winner == g.winner)
  {
    var r := ActionsPhase(g, a1, a2);
    assert Untouched(StartTurn(g), r.g);
    assert Untouched(r.g, FailCounters(r.g, 2));
  }

  /** Resolving a turn of a finished game changes nothing. */
  lemma FinishedGameIsFrozen(g: GameState, a1: Action, a2: Action)
    requires g.gameOver
    ensures ResolveTurn(g, a1, a2) == g
  {
  }
}
