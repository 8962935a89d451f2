/** The combat engine as the program runs it: players and the game are
    objects whose fields change in place. Each method is proved to leave the
    objects in the state the matching function of Rules describes. */
module Engine {
  import opened Cards
  import opened Scheduler
  import Rules

  class Player {
    const num: Rules.PlayerId
    var x: int
    var hp: int
    var basicCards: seq<Card>
    var specialCards: seq<Card>
    const cc: ControlM

    function View(): Rules.PlayerState
      reads this, cc
    {
      Rules.PlayerState(x, hp, basicCards, specialCards, cc.View())
    }

    constructor(num: Rules.PlayerId)
      ensures this.num == num && fresh(cc)
      ensures View() == Rules.NewPlayer(num)
    {
      this.num := num;
      x := StartX(num);
      hp := PlayerBasicHealth;
      basicCards, specialCards := [], [];
      cc := new ControlM();
    }

    /** `setup`, with the sampled special hand passed in. */
    method Setup(special: seq<Card>)
      modifies this
      ensures View() == Rules.SetUp(old(View()), num, special)
    {
      x := StartX(num);
      basicCards := BasicHand;
      specialCards := special;
    }

    method Refill()
      modifies this
      ensures View() == Rules.Refill(old(View()))
    {
      if basicCards == [] {
        basicCards := BasicHand;
      }
    }

    /** `clamp_pos`: pull the player back onto the field. */
    method ClampPos()
      modifies this
      ensures View() == old(View()).(x := Clamp(old(x)))
    {
      if x < FieldMinX {
        x := FieldMinX;
      } else if x > FieldMaxX {
        x := FieldMaxX;
      }
    }
  }

  class BoxingGame {
    const p1: Player
    const p2: Player
    var turn: int
    var gameOver: bool
    var winner: Rules.Winner
    /** The last sequence number handed to a scheduler: the program's
        process-wide counter, kept here per game. */
    var ccOrder: int

    ghost predicate Valid()
    {
      p1 != p2 && p1.cc != p2.cc && p1.num == 0 && p2.num == 1
    }

    function P(i: Rules.PlayerId): Player
    {
      if i == 0 then p1 else p2
    }

    function View(): Rules.GameState
      reads this, p1, p2, p1.cc, p2.cc
    {
      Rules.GameState(turn, p1.View(), p2.View(), gameOver, winner, ccOrder)
    }

    constructor()
      ensures Valid() && fresh(p1) && fresh(p2) && fresh(p1.cc) && fresh(p2.cc)
      ensures View() == Rules.NewGame()
    {
      p1 := new Player(0);
      p2 := new Player(1);
      turn := 0;
      gameOver := false;
      winner := Rules.Nobody;
      ccOrder := 0;
    }

    method Setup(special1: seq<Card>, special2: seq<Card>)
      requires Valid()
      modifies p1, p2
      ensures View() == old(View()).(p1 := Rules.SetUp(old(View()).p1, 0, special1),
                                     p2 := Rules.SetUp(old(View()).p2, 1, special2))
    {
      p1.Setup(special1);
      p2.Setup(special2);
    }

    /** `schedule` on player i's controller. */
    method ScheduleOn(i: Rules.PlayerId, at: int, e: Effect)
      requires Valid()
      modifies this, p1.cc, p2.cc
      ensures View() == Rules.ScheduleOn(old(View()), i, at, e)
    {
      ccOrder := ccOrder + 1;
      P(i).cc.Schedule(at, e, ccOrder);
    }

    method ScheduleStun(i: Rules.PlayerId)
      requires Valid()
      modifies this, p1.cc, p2.cc
      ensures View() == Rules.ScheduleStun(old(View()), i)
    {
      ScheduleOn(i, turn + 1, SetStun);
      ScheduleOn(i, turn + 2, ClearStun);
    }

    /** `Counter.on_countered_attack` for the Counter armed by `owner`. */
    method OnCounteredAttack(owner: Rules.PlayerId, attacker: Rules.PlayerId, dmg: Rules.Damage)
      returns (dmg': Rules.Damage)
      requires Valid() && P(owner).cc.counterOn.On?
      modifies this, p1.cc, p2.cc
      ensures Rules.Resolution(View(), dmg') == Rules.OnCounteredAttack(Rules.Resolution(old(View()), dmg), owner, attacker)
    {
      dmg' := dmg;
      if P(owner).cc.counterOn.triggered {
        return;
      }
      dmg' := dmg.Add(attacker, 1);
      ScheduleStun(attacker);
      P(owner).cc.counterOn := Off;
    }

    /** `Counter.fail` for the Counter armed by `owner`. */
    method Fail(owner: Rules.PlayerId)
      requires Valid() && P(owner).cc.counterOn.On?
      modifies this, p1.cc, p2.cc
      ensures View() == Rules.Fail(old(View()), owner)
    {
      if P(owner).cc.counterOn.triggered {
        return;
      }
      ScheduleStun(owner);
      P(owner).cc.counterOn := Off;
    }

    /** `apply_attack`. */
    method ApplyAttack(who: Rules.PlayerId, d: int, s: Strike, dmg: Rules.Damage)
      returns (dmg': Rules.Damage)
      requires Valid()
      modifies this, p1.cc, p2.cc
      ensures Rules.Resolution(View(), dmg') == Rules.ApplyAttack(Rules.Resolution(old(View()), dmg), who, d, s)
    {
      var p, t := P(who), P(Rules.Other(who));
      dmg' := dmg;
      if p.x + d * s.range != t.x {
        return;
      }
      if !s.ignoreCounter && t.cc.counterOn.On? {
        dmg' := OnCounteredAttack(Rules.Other(who), who, dmg);
        return;
      }
      if !s.ignoreGuard && t.cc.guarded {
        return;
      }
      dmg' := dmg.Add(Rules.Other(who), s.damage);
    }

    /** The movement part of Step, Footwork and Combi. */
    method MoveBy(who: Rules.PlayerId, delta: int)
      requires Valid()
      modifies p1, p2
      ensures View() == Rules.MoveBy(Rules.Resolution(old(View()), Rules.Damage(0, 0)), who, delta).g
    {
      var p := P(who);
      if !p.cc.fixed {
        p.x := p.x + delta;
        p.ClampPos();
      }
    }

    /** Each card's `resolve`. */
    method Resolve(a: Rules.Action, dmg: Rules.Damage) returns (dmg': Rules.Damage)
      requires Valid()
      modifies this, p1, p2, p1.cc, p2.cc
      ensures Rules.Resolution(View(), dmg') == Rules.Resolve(Rules.Resolution(old(View()), dmg), a)
    {
      dmg' := dmg;
      match a.card
      case Jab | Straight | Hook | Uppercut | Kick =>
        dmg' := ApplyAttack(a.player, a.direction, StrikeOf(a.card), dmg);
      case Step =>
        MoveBy(a.player, a.direction);
      case Footwork =>
        MoveBy(a.player, a.direction * 2);
      case Guard =>
        ResolveGuard(a);
      case Counter =>
        P(a.player).cc.counterOn := On(false);
      case Pound =>
        ResolvePound(a);
      case Combi =>
        ResolveCombi(a);
    }

    /** `Guard.resolve`: guarded now, cleared when the next turn starts. */
    method ResolveGuard(a: Rules.Action)
      requires Valid() && a.card == Guard
      modifies this, p1.cc, p2.cc
      ensures forall dmg :: Rules.Resolution(View(), dmg) == Rules.Resolve(Rules.Resolution(old(View()), dmg), a)
    {
      P(a.player).cc.guarded := true;
      ScheduleOn(a.player, turn + 1, ClearGuard);
    }

    /** `Pound.resolve`: on a hit the target is fixed next turn. */
    method ResolvePound(a: Rules.Action)
      requires Valid() && a.card == Pound
      modifies this, p1.cc, p2.cc
      ensures forall dmg :: Rules.Resolution(View(), dmg) == Rules.Resolve(Rules.Resolution(old(View()), dmg), a)
    {
      var ti := a.Target();
      if P(a.player).x + a.direction == P(ti).x {
        ScheduleOn(ti, turn + 1, SetFixed);
        ScheduleOn(ti, turn + 2, ClearFixed);
      }
    }

    /** `Combi.resolve`: the buff next turn, then a one-tile move. */
    method ResolveCombi(a: Rules.Action)
      requires Valid() && a.card == Combi
      modifies this, p1, p2, p1.cc, p2.cc
      ensures forall dmg :: Rules.Resolution(View(), dmg) == Rules.Resolve(Rules.Resolution(old(View()), dmg), a)
    {
      ScheduleOn(a.player, turn + 1, EnableCombi);
      ScheduleOn(a.player, turn + 2, DisableCombi);
      MoveBy(a.player, a.direction);
    }

    /** The shared `act` wrapper around a card's `resolve`. */
    method Act(a: Rules.Action, dmg: Rules.Damage) returns (dmg': Rules.Damage)
      requires Valid()
      modifies this, p1, p2, p1.cc, p2.cc
      ensures Rules.Resolution(View(), dmg') == Rules.Act(Rules.Resolution(old(View()), dmg), a)
    {
      var p, t := P(a.player), P(a.Target());
      dmg' := dmg;
      if p.cc.stunned {
        return;
      }
      if KindOf(a.card) == Attack && t.cc.counterOn.On? {
        dmg' := OnCounteredAttack(a.Target(), a.player, dmg);
        return;
      }
      if p.cc.combiBuff && p.x + a.direction == t.x {
        dmg' := dmg'.Add(a.Target(), 1);
      }
      dmg' := Resolve(a, dmg');
    }

    /** Start of turn: due effects fire and the basic hand is refilled,
        player 1 first. */
    method StartTurn()
      requires Valid()
      modifies this, p1, p2, p1.cc, p2.cc
      ensures View() == Rules.StartTurn(old(View()))
    {
      ghost var g0 := View();
      turn := turn + 1;
      for i := 0 to 2
        invariant turn == g0.turn + 1
        invariant View() == g0.(turn := turn,
                                p1 := if i > 0 then Rules.BeginTurn(g0.p1, turn) else g0.p1,
                                p2 := if i > 1 then Rules.BeginTurn(g0.p2, turn) else g0.p2)
      {
        P(i).cc.Update(turn);
        P(i).Refill();
      }
    }

    /** Acts out the ordered actions against one accumulator. */
    method RunActions(actions: seq<Rules.Action>, dmg: Rules.Damage) returns (dmg': Rules.Damage)
      requires Valid()
      modifies this, p1, p2, p1.cc, p2.cc
      ensures Rules.Resolution(View(), dmg') == Rules.RunActions(Rules.Resolution(old(View()), dmg), actions)
    {
      ghost var g0 := View();
      dmg' := dmg;
      for k := 0 to |actions|
        invariant Rules.Resolution(View(), dmg') == Rules.RunActions(Rules.Resolution(g0, dmg), actions[..k])
      {
        assert actions[..k + 1][..k] == actions[..k];
        dmg' := Act(actions[k], dmg');
      }
      assert actions[..|actions|] == actions;
    }

    /** Every Counter armed this turn that never fired fails, player 1 first. */
    method FailCounters()
      requires Valid()
      modifies this, p1.cc, p2.cc
      ensures View() == Rules.FailCounters(old(View()), 2)
    {
      ghost var g0 := View();
      for i := 0 to 2
        invariant View() == Rules.FailCounters(g0, i)
      {
        var c := P(i).cc.counterOn;
        if c.On? && !c.triggered {
          Fail(i);
        }
      }
    }

    /** Both players take their damage at once; then the verdict. */
    method Commit(damage: Rules.Damage)
      requires Valid()
      modifies this, p1, p2
      ensures View() == Rules.Commit(old(View()), damage)
    {
      p1.hp := p1.hp - damage.d1;
      p2.hp := p2.hp - damage.d2;
      if p1.hp <= 0 && p2.hp <= 0 {
        gameOver := true;
        winner := Rules.Nobody;
      } else if p1.hp <= 0 {
        gameOver := true;
        winner := Rules.P2;
      } else if p2.hp <= 0 {
        gameOver := true;
        winner := Rules.P1;
      }
    }

    /** `resolve_turn(act1, act2)`. A finished game is left as it is. */
    method ResolveTurn(act1: Rules.Action, act2: Rules.Action)
      requires Valid()
      modifies this, p1, p2, p1.cc, p2.cc
      ensures View() == Rules.ResolveTurn(old(View()), act1, act2)
    {
      if gameOver {
        return;
      }
      StartTurn();
      var damage := RunActions(Rules.OrderActions(act1, act2), Rules.Damage(0, 0));
      FailCounters();
      Commit(damage);
    }
  }
}
