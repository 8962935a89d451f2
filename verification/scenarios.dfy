/** Worked rounds from a freshly set-up game, computed by the rules. */
module Scenarios {
  import opened Cards
  import opened Scheduler
  import opened Rules
  import opened TurnProperties

  /** A game about to play its first turn with the players on x1 and x2 at
      health h1 and h2: nothing scheduled, no Counter armed, full basic
      hands, no sequence number drawn yet. */
  predicate Fresh(g: GameState, x1: int, x2: int, h1: int, h2: int)
  {
    && g.turn == 0 && g.order == 0 && !g.gameOver
    && g.p1.x == x1 && g.p2.x == x2 && g.p1.hp == h1 && g.p2.hp == h2
    && g.p1.cc == Idle && g.p2.cc == Idle && g.p1.basic != [] && g.p2.basic != []
  }

  /** A freshly set-up game with the players moved to x1 and x2 and their
      health set to h1 and h2. */
  function Placed(x1: int, x2: int, h1: int, h2: int): (g: GameState)
    ensures WellFormed(g) <==> OnField(x1) && OnField(x2)
    ensures Fresh(g, x1, x2, h1, h2)
  {
    var g := NewGame();
    g.(p1 := SetUp(g.p1, 0, []).(x := x1, hp := h1), p2 := SetUp(g.p2, 1, []).(x := x2, hp := h2))
  }

  /** With nothing scheduled and both hands in use, the start of a turn only
      advances the turn counter. */
  lemma QuietStart(g: GameState)
    requires g.p1.cc == Idle && g.p2.cc == Idle && g.p1.basic != [] && g.p2.basic != []
    ensures StartTurn(g) == g.(turn := g.turn + 1)
  {
    assert Updated(Idle, g.turn + 1) == Idle;
  }

  /** With no Counter armed, the end-of-turn check changes nothing. */
  lemma NothingArmed(g: GameState)
    requires g.p1.cc.counterOn != On(false) && g.p2.cc.counterOn != On(false)
    ensures FailCounters(g, 2) == g
  {
    assert FailCounters(g, 0) == g;
    assert FailCounters(g, 1) == FailCounter(g, 0) == g;
    assert FailCounters(g, 2) == FailCounter(g, 1) == g;
  }

  /** Two actions run one after the other. */
  lemma TwoActions(r: Resolution, a: Action, b: Action)
    ensures RunActions(r, [a, b]) == Act(Act(r, a), b)
  {
    assert [a, b][..1] == [a];
    assert RunActions(r, [a]) == Act(r, a) by {
      assert [a][..0] == [];
    }
  }

  /** P1 jabs forward from 0 while P2 steps back from 1 onto 0. The Step is a
      Move and resolves first, so the Jab finds nobody on tile 1 and misses. */
  lemma JabMeetsStep(g: GameState)
    requires Fresh(g, 0, 1, 3, 3)
    ensures var g' := ResolveTurn(g, Action(0, Jab, 1), Action(1, Step, -1));
      g'.p1.x == 0 && g'.p2.x == 0 && g'.p1.hp == 3 && g'.p2.hp == 3 && !g'.gameOver
  {
    var a1, a2 := Action(0, Jab, 1), Action(1, Step, -1);
    QuietStart(g);
    var g1 := g.(turn := 1);
    var r0 := Resolution(g1, Damage(0, 0));
    var r1 := Resolution(g1.(p2 := g1.p2.(x := 0)), Damage(0, 0));
    assert Act(r0, a2) == r1 by {
      assert Act(r0, a2) == Resolve(r0, a2) == MoveBy(r0, 1, -1);
    }
    assert Act(r1, a1) == r1 by {
      assert Act(r1, a1) == Resolve(r1, a1) == ApplyAttack(r1, 0, 1, StrikeOf(Jab));
    }
    assert ActionsPhase(g, a1, a2) == r1 by {
      assert OrderActions(a1, a2) == [a2, a1];
      TwoActions(r0, a2, a1);
    }
    NothingArmed(r1.g);
  }

  /** P2 arms a Counter and P1 jabs into it: P1 takes 1, P2 nothing, the
      Counter is spent and P1's stun is queued for the next two turns. */
  lemma CounterPunishesJab(g: GameState)
    requires Fresh(g, 0, 1, 3, 3)
    ensures var g' := ResolveTurn(g, Action(0, Jab, 1), Action(1, Counter, -1));
      && g'.p1.hp == 2 && g'.p2.hp == 3 && !g'.gameOver && g'.turn == 1
      && g'.p2.cc.counterOn == Off
      && g'.p1.cc.flags == Idle.flags
      && g'.p1.cc.queue == [Entry(2, 1, SetStun), Entry(3, 2, ClearStun)]
  {
    var a1, a2 := Action(0, Jab, 1), Action(1, Counter, -1);
    QuietStart(g);
    var g1 := g.(turn := 1);
    var r0 := Resolution(g1, Damage(0, 0));
    var r1 := Resolution(g1.(p2 := g1.p2.(cc := Idle.(counterOn := On(false)))), Damage(0, 0));
    assert Act(r0, a2) == r1 by {
      assert Act(r0, a2) == Resolve(r0, a2);
      CounterArms(r0, a2);
    }
    var r2 := Act(r1, a1);
    var stuns := [Entry(2, 1, SetStun), Entry(3, 2, ClearStun)];
    assert r2.dmg == Damage(1, 0) && r2.g.p2 == g1.p2 && r2.g.p1 == g1.p1.(cc := Idle.(queue := stuns)) by {
      CounterInterceptsEveryAttack(r1, a1);
      assert Insert(Insert([], stuns[0]), stuns[1]) == stuns;
    }
    assert ActionsPhase(g, a1, a2) == r2 by {
      assert OrderActions(a1, a2) == [a2, a1];
      TwoActions(r0, a2, a1);
    }
    NothingArmed(r2.g);
  }

  /** The stun the Counter scheduled holds for exactly the next turn. */
  lemma CounterStunsForOneTurn(g: GameState)
    requires g.turn == 1 && g.p1.cc.flags == Idle.flags
    requires g.p1.cc.queue == [Entry(2, 1, SetStun), Entry(3, 2, ClearStun)]
    ensures StartTurn(g).p1.cc.flags.stunned
    ensures !StartTurn(StartTurn(g)).p1.cc.flags.stunned
  {
    var c := g.p1.cc;
    var later := [Entry(3, 2, ClearStun)];
    assert c.queue[1..] == later;
    var c2 := c.(flags := c.flags.(stunned := true), queue := later);
    assert Updated(c, 2) == Updated(c2, 2) == c2;
    assert StartTurn(g).p1.cc == c2;
    var c3 := c2.(flags := c.flags, queue := []);
    assert Updated(c2, 3) == Updated(c3, 3) == c3;
  }

  /** Both players on tile 0 at 1 health land an Uppercut each: both reach 0
      at once and the round is a draw. */
  lemma DoubleKnockOutIsADraw(g: GameState)
    requires Fresh(g, 0, 0, 1, 1)
    ensures var g' := ResolveTurn(g, Action(0, Uppercut, 1), Action(1, Uppercut, -1));
      g'.p1.hp == 0 && g'.p2.hp == 0 && g'.gameOver && g'.winner == Nobody
  {
    var a1, a2 := Action(0, Uppercut, 1), Action(1, Uppercut, -1);
    QuietStart(g);
    var g1 := g.(turn := 1);
    var r0 := Resolution(g1, Damage(0, 0));
    assert ActionsPhase(g, a1, a2) == Resolution(g1, Damage(1, 1)) by {
      assert OrderActions(a1, a2) == [a1, a2];
      TwoActions(r0, a1, a2);
      AttackLands(r0, a1);
      AttackLands(Resolution(g1, Damage(0, 1)), a2);
    }
    NothingArmed(g1);
  }

  /** The first turn of P2's Guard against P1's Jab, once both have acted. */
  function GuardedFirstTurn(g: GameState): Resolution
  {
    var guarded := Control(Idle.flags.(guarded := true), Off, [Entry(g.turn + 2, g.order + 1, ClearGuard)]);
    Resolution(g.(turn := g.turn + 1, p2 := g.p2.(cc := guarded), order := g.order + 1), Damage(0, 0))
  }

  /** The Guard, a Util, is ordered before the Jab although submitted second,
      and raises the guard. */
  lemma GuardGoesFirst(g: GameState)
    requires Fresh(g, 0, 1, 3, 3)
    ensures OrderActions(Action(0, Jab, 1), Action(1, Guard, -1)) == [Action(1, Guard, -1), Action(0, Jab, 1)]
    ensures Act(Resolution(StartTurn(g), Damage(0, 0)), Action(1, Guard, -1)) == GuardedFirstTurn(g)
  {
    var r0 := Resolution(StartTurn(g), Damage(0, 0));
    QuietStart(g);
    assert Act(r0, Action(1, Guard, -1)) == Resolve(r0, Action(1, Guard, -1));
    GuardRaisedUntilNextTurn(r0, Action(1, Guard, -1));
  }

  /** The Jab then meets the raised guard and deals nothing. */
  lemma JabMeetsGuard(g: GameState)
    requires Fresh(g, 0, 1, 3, 3)
    ensures Act(GuardedFirstTurn(g), Action(0, Jab, 1)) == GuardedFirstTurn(g)
  {
    var r1 := GuardedFirstTurn(g);
    assert Act(r1, Action(0, Jab, 1)) == Resolve(r1, Action(0, Jab, 1));
    assert ApplyAttack(r1, 0, 1, StrikeOf(Jab)) == r1;
  }

  lemma GuardedTurnActions(g: GameState)
    requires Fresh(g, 0, 1, 3, 3)
    ensures ActionsPhase(g, Action(0, Jab, 1), Action(1, Guard, -1)) == GuardedFirstTurn(g)
  {
    var a1, a2 := Action(0, Jab, 1), Action(1, Guard, -1);
    GuardGoesFirst(g);
    JabMeetsGuard(g);
    TwoActions(Resolution(StartTurn(g), Damage(0, 0)), a2, a1);
  }

  /** A Guard blocks the Jab of the turn it is played in. */
  lemma GuardBlocksJab(g: GameState)
    requires Fresh(g, 0, 1, 3, 3)
    ensures var g' := ResolveTurn(g, Action(0, Jab, 1), Action(1, Guard, -1));
      && g'.p1.hp == 3 && g'.p2.hp == 3 && !g'.gameOver && g'.turn == 1 && g'.p2.x == 1 && g'.p1.x == 0
      && g'.p1.cc == Idle
      && g'.p2.cc == Control(Idle.flags.(guarded := true), Off, [Entry(2, 1, ClearGuard)])
  {
    GuardedTurnActions(g);
    var r := GuardedFirstTurn(g);
    NothingArmed(r.g);
  }

  /** The next turn the guard is gone and the same Jab lands. */
  lemma JabLandsAfterGuard(g: GameState)
    requires g.turn == 1 && !g.gameOver && g.p1.hp == 3 && g.p2.hp == 3 && g.p1.x == 0 && g.p2.x == 1
    requires g.p1.cc == Idle
    requires g.p2.cc == Control(Idle.flags.(guarded := true), Off, [Entry(2, 1, ClearGuard)])
    ensures var g' := ResolveTurn(g, Action(0, Jab, 1), Action(1, Uppercut, -1));
      g'.p1.hp == 3 && g'.p2.hp == 2
  {
    var a1, a2 := Action(0, Jab, 1), Action(1, Uppercut, -1);
    assert Updated(g.p2.cc, 2) == Updated(Idle, 2) == Idle;
    var g1 := StartTurn(g);
    assert g1.p1.cc == Idle && g1.p2.cc == Idle && g1.p1.x == 0 && g1.p2.x == 1;
    var r0 := Resolution(g1, Damage(0, 0));
    assert OrderActions(a1, a2) == [a1, a2];
    TwoActions(r0, a1, a2);
    var r1 := Act(r0, a1);
    assert r1 == Resolution(g1, Damage(0, 1));
    assert ApplyAttack(r1, 1, -1, StrikeOf(Uppercut)) == r1;
    assert Act(r1, a2) == r1;
    NothingArmed(g1);
  }

  /** After P1's Combi forward from 0 and P2's Guard on 2 in the first turn:
      P1 stands on 1 with the buff queued for turn 2 and its end for turn 3,
      and P2's guard is up until turn 2. */
  function AfterCombi(g: GameState): GameState
  {
    g.(turn := 1,
       p1 := g.p1.(x := 1, cc := Control(Idle.flags, Off, [Entry(2, 1, EnableCombi), Entry(3, 2, DisableCombi)])),
       p2 := g.p2.(cc := Control(Idle.flags.(guarded := true), Off, [Entry(2, 3, ClearGuard)])),
       order := 3)
  }

  /** The Combi, a Move, goes first: it queues the buff and steps forward. */
  lemma CombiMovesFirst(g: GameState)
    requires Fresh(g, 0, 2, 3, 3)
    ensures OrderActions(Action(0, Combi, 1), Action(1, Guard, -1)) == [Action(0, Combi, 1), Action(1, Guard, -1)]
    ensures Act(Resolution(StartTurn(g), Damage(0, 0)), Action(0, Combi, 1))
         == Resolution(AfterCombi(g).(p2 := g.p2, order := 2), Damage(0, 0))
  {
    var r0 := Resolution(StartTurn(g), Damage(0, 0));
    QuietStart(g);
    assert Act(r0, Action(0, Combi, 1)) == Resolve(r0, Action(0, Combi, 1));
    CombiSchedulesBuff(r0, Action(0, Combi, 1));
  }

  /** The Combi turn: no damage, and the state of AfterCombi. */
  lemma CombiTurn(g: GameState)
    requires Fresh(g, 0, 2, 3, 3)
    ensures ResolveTurn(g, Action(0, Combi, 1), Action(1, Guard, -1)) == AfterCombi(g)
  {
    var a1, a2 := Action(0, Combi, 1), Action(1, Guard, -1);
    var r0 := Resolution(StartTurn(g), Damage(0, 0));
    var r1 := Resolution(AfterCombi(g).(p2 := g.p2, order := 2), Damage(0, 0));
    CombiMovesFirst(g);
    assert Act(r1, a2) == Resolution(AfterCombi(g), Damage(0, 0)) by {
      assert Act(r1, a2) == Resolve(r1, a2);
      GuardRaisedUntilNextTurn(r1, a2);
    }
    TwoActions(r0, a1, a2);
    NothingArmed(AfterCombi(g));
  }

  /** The next turn the buff is on and P2's old guard is down. */
  lemma BuffOnNextTurn(g: GameState)
    requires Fresh(g, 0, 2, 3, 3)
    ensures StartTurn(AfterCombi(g))
         == AfterCombi(g).(turn := 2,
              p1 := AfterCombi(g).p1.(cc := Control(Idle.flags.(combiBuff := true), Off, [Entry(3, 2, DisableCombi)])),
              p2 := AfterCombi(g).p2.(cc := Idle))
  {
    var c1, c2 := AfterCombi(g).p1.cc, AfterCombi(g).p2.cc;
    assert c1.queue[1..] == [Entry(3, 2, DisableCombi)];
    assert Updated(c1, 2) == Updated(c1.(flags := Idle.flags.(combiBuff := true), queue := [Entry(3, 2, DisableCombi)]), 2);
    assert Updated(c2, 2) == Updated(Idle, 2);
  }

  /** P2 raises a fresh guard and P1 jabs from the adjacent tile: the Jab is
      blocked, but the Combi bonus still takes P2 from 3 to 2. */
  lemma CombiBonusThroughGuard(g: GameState)
    requires Fresh(g, 0, 2, 3, 3)
    ensures var g' := ResolveTurn(AfterCombi(g), Action(0, Jab, 1), Action(1, Guard, -1));
      g'.p1.hp == 3 && g'.p2.hp == 2 && !g'.gameOver
  {
    var a1, a2 := Action(0, Jab, 1), Action(1, Guard, -1);
    BuffOnNextTurn(g);
    var g1 := StartTurn(AfterCombi(g));
    var r0 := Resolution(g1, Damage(0, 0));
    assert OrderActions(a1, a2) == [a2, a1];
    TwoActions(r0, a2, a1);
    var r1 := Act(r0, a2);
    assert r1 == Resolve(r0, a2);
    GuardRaisedUntilNextTurn(r0, a2);
    CombiBonusPassesGuard(r1, a1);
    var r2 := Act(r1, a1);
    assert r2.dmg == Damage(0, 1);
    NothingArmed(r2.g);
  }
}
