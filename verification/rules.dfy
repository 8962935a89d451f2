/** One turn of the boxing round as a function of values: what the engine's
    methods compute, stated without the heap. */
module Rules {
  import opened Cards
  import opened Scheduler

  /** Player 1 is 0, player 2 is 1. */
  type PlayerId = i: int | 0 <= i < 2

  function Other(i: PlayerId): PlayerId
  {
    1 - i
  }

  datatype PlayerState = PlayerState(x: int, hp: int, basic: seq<Card>, special: seq<Card>, cc: Control)

  /** `winner` of a finished game; Nobody with `gameOver` set is a draw. */
  datatype Winner = Nobody | P1 | P2

  /** `order` is the last sequence number the scheduler handed out. */
  datatype GameState = GameState(
    turn: int,
    p1: PlayerState,
    p2: PlayerState,
    gameOver: bool,
    winner: Winner,
    order: int)
  {
    function Pl(i: PlayerId): PlayerState
    {
      if i == 0 then p1 else p2
    }

    function WithPl(i: PlayerId, p: PlayerState): GameState
    {
      if i == 0 then this.(p1 := p) else this.(p2 := p)
    }
  }

  /** The turn's damage accumulator, one entry per player. */
  datatype Damage = Damage(d1: int, d2: int)
  {
    function Of(i: PlayerId): int
    {
      if i == 0 then d1 else d2
    }

    function Add(i: PlayerId, n: int): Damage
    {
      if i == 0 then this.(d1 := d1 + n) else this.(d2 := d2 + n)
    }
  }

  /** A submitted action; the target is always the other player. */
  datatype Action = Action(player: PlayerId, card: Card, direction: int)
  {
    function Target(): PlayerId
    {
      Other(player)
    }
  }

  /** The game while a turn resolves, with the damage accumulated so far. */
  datatype Resolution = Resolution(g: GameState, dmg: Damage)

  /** What resolving cards never touches: the clock, the verdict, health,
      and sequence numbers already handed out. */
  predicate Untouched(g: GameState, g': GameState)
  {
    && g'.turn == g.turn && g'.gameOver == g.gameOver && g'.winner == g.winner
    && g'.p1.hp == g.p1.hp && g'.p2.hp == g.p2.hp
    && g'.order >= g.order
  }

  /** Damage only accumulates: neither player's entry ever goes down. */
  predicate Grows(d: Damage, d': Damage)
  {
    d'.d1 >= d.d1 && d'.d2 >= d.d2
  }

  /** A new player: on its start tile, full health, empty hands. */
  function NewPlayer(num: PlayerId): PlayerState
  {
    PlayerState(StartX(num), PlayerBasicHealth, [], [], Idle)
  }

  /** A new game: both players on their start tiles with full health. */
  function NewGame(): GameState
  {
    GameState(0, NewPlayer(0), NewPlayer(1), false, Nobody, 0)
  }

  /** `Player.setup`: back to the start tile with a full basic hand and the
      given special hand. */
  function SetUp(p: PlayerState, num: PlayerId, special: seq<Card>): PlayerState
  {
    p.(x := StartX(num), basic := BasicHand, special := special)
  }

  // ---------------------------------------------------------------------
  // Scheduling through the game's sequence counter
  // ---------------------------------------------------------------------

  /** `schedule` on player i: draw the next sequence number and queue `e`. */
  function ScheduleOn(g: GameState, i: PlayerId, at: int, e: Effect): (g': GameState)
    ensures Untouched(g, g') && g'.order == g.order + 1
    ensures g'.Pl(Other(i)) == g.Pl(Other(i))
    ensures g'.Pl(i).x == g.Pl(i).x && g'.Pl(i).cc.counterOn == g.Pl(i).cc.counterOn
    ensures var p, p' := g.Pl(i), g'.Pl(i);
      && p'.cc.flags == p.cc.flags && p'.basic == p.basic && p'.special == p.special
      && p'.cc.queue == Insert(p.cc.queue, Entry(at, g.order + 1, e))
  {
    var n := g.order + 1;
    var p := g.Pl(i);
    g.WithPl(i, p.(cc := Scheduled(p.cc, at, e, n))).(order := n)
  }

  /** Stun player i for the next turn: stunned at turn+1, cleared at turn+2. */
  function ScheduleStun(g: GameState, i: PlayerId): (g': GameState)
    ensures Untouched(g, g') && g'.order == g.order + 2
    ensures g'.Pl(Other(i)) == g.Pl(Other(i))
    ensures g'.Pl(i).x == g.Pl(i).x && g'.Pl(i).cc.counterOn == g.Pl(i).cc.counterOn
    ensures var p, p' := g.Pl(i), g'.Pl(i);
      && p'.cc.flags == p.cc.flags && p'.basic == p.basic && p'.special == p.special
      && p'.cc.queue == Insert(Insert(p.cc.queue, Entry(g.turn + 1, g.order + 1, SetStun)),
                               Entry(g.turn + 2, g.order + 2, ClearStun))
  {
    ScheduleOn(ScheduleOn(g, i, g.turn + 1, SetStun), i, g.turn + 2, ClearStun)
  }

  // ---------------------------------------------------------------------
  // Counter
  // ---------------------------------------------------------------------

  /** `Counter.on_countered_attack` for the Counter armed by `owner`: unless
      it already fired, reflect 1 damage onto the attacker, stun the attacker
      for the next turn and disarm. */
  function OnCounteredAttack(r: Resolution, owner: PlayerId, attacker: PlayerId): (r': Resolution)
    requires r.g.Pl(owner).cc.counterOn.On?
    ensures Untouched(r.g, r'.g) && Grows(r.dmg, r'.dmg)
  {
    if r.g.Pl(owner).cc.counterOn.triggered then r
    else
      var g1 := ScheduleStun(r.g, attacker);
      var o := g1.Pl(owner);
      Resolution(g1.WithPl(owner, o.(cc := o.cc.(counterOn := Off))), r.dmg.Add(attacker, 1))
  }

  /** `Counter.fail` for the Counter armed by `owner`: it never fired, so its
      owner is stunned for the next turn, and it disarms. */
  function Fail(g: GameState, owner: PlayerId): (g': GameState)
    requires g.Pl(owner).cc.counterOn.On?
    ensures Untouched(g, g')
  {
    if g.Pl(owner).cc.counterOn.triggered then g
    else
      var g1 := ScheduleStun(g, owner);
      var o := g1.Pl(owner);
      g1.WithPl(owner, o.(cc := o.cc.(counterOn := Off)))
  }

  // ---------------------------------------------------------------------
  // Card resolution
  // ---------------------------------------------------------------------

  /** `apply_attack`: range, then an armed Counter, then the guard; only then
      does the damage reach the accumulator. */
  function ApplyAttack(r: Resolution, who: PlayerId, d: int, s: Strike): (r': Resolution)
    ensures Untouched(r.g, r'.g)
    ensures s.damage >= 0 ==> Grows(r.dmg, r'.dmg)
  {
    var p, ti := r.g.Pl(who), Other(who);
    var t := r.g.Pl(ti);
    if p.x + d * s.range != t.x then r
    else if !s.ignoreCounter && t.cc.counterOn.On? then OnCounteredAttack(r, ti, who)
    else if !s.ignoreGuard && t.cc.flags.guarded then r
    else Resolution(r.g, r.dmg.Add(ti, s.damage))
  }

  /** A move of `delta` tiles, clamped to the field, unless the mover is fixed. */
  function MoveBy(r: Resolution, who: PlayerId, delta: int): (r': Resolution)
    ensures Untouched(r.g, r'.g) && r'.dmg == r.dmg
  {
    var p := r.g.Pl(who);
    if p.cc.flags.fixed then r
    else Resolution(r.g.WithPl(who, p.(x := Clamp(p.x + delta))), r.dmg)
  }

  /** Each card's own `resolve`. */
  function Resolve(r: Resolution, a: Action): (r': Resolution)
    ensures Untouched(r.g, r'.g) && Grows(r.dmg, r'.dmg)
  {
    var g, who, d := r.g, a.player, a.direction;
    var p, ti := g.Pl(who), a.Target();
    match a.card
    case Jab | Straight | Hook | Uppercut | Kick =>
      ApplyAttack(r, who, d, StrikeOf(a.card))
    case Step =>
      MoveBy(r, who, d)
    case Footwork =>
      MoveBy(r, who, d * 2)
    case Guard =>
      var g1 := g.WithPl(who, p.(cc := p.cc.(flags := p.cc.flags.(guarded := true))));
      Resolution(ScheduleOn(g1, who, g.turn + 1, ClearGuard), r.dmg)
    case Counter =>
      Resolution(g.WithPl(who, p.(cc := p.cc.(counterOn := On(false)))), r.dmg)
    case Pound =>
      if p.x + d != g.Pl(ti).x then r
      else
        var g1 := ScheduleOn(g, ti, g.turn + 1, SetFixed);
        Resolution(ScheduleOn(g1, ti, g.turn + 2, ClearFixed), r.dmg)
    case Combi =>
      var g1 := ScheduleOn(g, who, g.turn + 1, EnableCombi);
      MoveBy(Resolution(ScheduleOn(g1, who, g.turn + 2, DisableCombi), r.dmg), who, d)
  }

  /** The shared `act` wrapper: a stunned player does nothing; an Attack into
      an armed Counter is intercepted; a Combi buff adds 1 when the target is
      the adjacent tile ahead; then the card resolves. */
  function Act(r: Resolution, a: Action): (r': Resolution)
    ensures Untouched(r.g, r'.g) && Grows(r.dmg, r'.dmg)
  {
    var p, ti := r.g.Pl(a.player), a.Target();
    var t := r.g.Pl(ti);
    if p.cc.flags.stunned then r
    else if KindOf(a.card) == Attack && t.cc.counterOn.On? then OnCounteredAttack(r, ti, a.player)
    else
      var dmg := if p.cc.flags.combiBuff && p.x + a.direction == t.x then r.dmg.Add(ti, 1) else r.dmg;
      Resolve(Resolution(r.g, dmg), a)
  }

  // ---------------------------------------------------------------------
  // The turn
  // ---------------------------------------------------------------------

  /** `Player.refill`: a fresh basic hand only once the old one is used up. */
  function Refill(p: PlayerState): (p': PlayerState)
    ensures p'.basic != []
    ensures p.basic != [] ==> p' == p
    ensures p.basic == [] ==> p' == p.(basic := BasicHand)
  {
    if p.basic == [] then p.(basic := BasicHand) else p
  }

  /** Start of turn `now` for one player: due effects fire, then the refill. */
  function BeginTurn(p: PlayerState, now: int): (p': PlayerState)
    ensures p'.basic != [] && p'.x == p.x && p'.hp == p.hp && p'.special == p.special
    ensures p'.cc.counterOn == p.cc.counterOn
    ensures p'.cc.queue == [] || p'.cc.queue[0].turn > now
  {
    var c := Updated(p.cc, now);
    assert c.counterOn == p.cc.counterOn && (c.queue == [] || c.queue[0].turn > now) by {
      UpdatedLeavesNothingDue(p.cc, now);
    }
    Refill(p.(cc := c))
  }

  function StartTurn(g: GameState): (g': GameState)
    ensures g'.turn == g.turn + 1 && g'.order == g.order
    ensures g'.gameOver == g.gameOver && g'.winner == g.winner
    ensures g'.p1.hp == g.p1.hp && g'.p2.hp == g.p2.hp
    ensures g'.p1.basic != [] && g'.p2.basic != []
  {
    var now := g.turn + 1;
    g.(turn := now, p1 := BeginTurn(g.p1, now), p2 := BeginTurn(g.p2, now))
  }

  /** The stable sort of the two actions by category: Move, Util, Attack,
      and on a tie the order they were submitted in. */
  function OrderActions(a1: Action, a2: Action): (acts: seq<Action>)
    ensures acts == [a1, a2] || acts == [a2, a1]
    ensures Priority(KindOf(acts[0].card)) <= Priority(KindOf(acts[1].card))
    ensures Priority(KindOf(a1.card)) == Priority(KindOf(a2.card)) ==> acts == [a1, a2]
  {
    if Priority(KindOf(a2.card)) < Priority(KindOf(a1.card)) then [a2, a1] else [a1, a2]
  }

  /** The actions acted out one after the other against one accumulator. */
  function RunActions(r: Resolution, acts: seq<Action>): (r': Resolution)
    ensures Untouched(r.g, r'.g) && Grows(r.dmg, r'.dmg)
    decreases |acts|
  {
    if acts == [] then r else Act(RunActions(r, acts[..|acts| - 1]), acts[|acts| - 1])
  }

  /** The end-of-turn check for player i: a Counter still armed and never
      fired fails. */
  function FailCounter(g: GameState, i: PlayerId): (g': GameState)
    ensures Untouched(g, g')
    ensures g'.Pl(i).cc.counterOn != On(false)
    ensures g'.Pl(Other(i)) == g.Pl(Other(i))
  {
    var c := g.Pl(i).cc.counterOn;
    if c.On? && !c.triggered then Fail(g, i) else g
  }

  /** The end-of-turn check for the first n players, player 1 first. */
  function FailCounters(g: GameState, n: nat): (g': GameState)
    requires n <= 2
    ensures Untouched(g, g')
  {
    if n == 0 then g else FailCounter(FailCounters(g, n - 1), n - 1)
  }

  /** All accumulated damage at once, then the verdict. */
  function Commit(g: GameState, dmg: Damage): (g': GameState)
    ensures g'.p1.hp == g.p1.hp - dmg.d1 && g'.p2.hp == g.p2.hp - dmg.d2
    ensures g' == g.(p1 := g'.p1, p2 := g'.p2, gameOver := g'.gameOver, winner := g'.winner)
    ensures g'.p1 == g.p1.(hp := g'.p1.hp) && g'.p2 == g.p2.(hp := g'.p2.hp)
    ensures g'.gameOver <==> g.gameOver || g'.p1.hp <= 0 || g'.p2.hp <= 0
    ensures g'.p1.hp <= 0 && g'.p2.hp <= 0 ==> g'.winner == Nobody
    ensures g'.p1.hp <= 0 && g'.p2.hp > 0 ==> g'.winner == P2
    ensures g'.p1.hp > 0 && g'.p2.hp <= 0 ==> g'.winner == P1
    ensures g'.p1.hp > 0 && g'.p2.hp > 0 ==> g'.winner == g.winner
  {
    var h1, h2 := g.p1.hp - dmg.d1, g.p2.hp - dmg.d2;
    var g1 := g.(p1 := g.p1.(hp := h1), p2 := g.p2.(hp := h2));
    if h1 <= 0 && h2 <= 0 then g1.(gameOver := true, winner := Nobody)
    else if h1 <= 0 then g1.(gameOver := true, winner := P2)
    else if h2 <= 0 then g1.(gameOver := true, winner := P1)
    else g1
  }

  /** The game and the accumulator once both actions have been acted out. */
  function ActionsPhase(g: GameState, a1: Action, a2: Action): Resolution
  {
    RunActions(Resolution(StartTurn(g), Damage(0, 0)), OrderActions(a1, a2))
  }

  /** `resolve_turn(act1, act2)`. */
  function ResolveTurn(g: GameState, a1: Action, a2: Action): (g': GameState)
    ensures g.gameOver ==> g' == g
    ensures !g.gameOver ==> g'.turn == g.turn + 1 && g'.order >= g.order
    ensures !g.gameOver ==> (g'.gameOver <==> g'.p1.hp <= 0 || g'.p2.hp <= 0)
    ensures !g.gameOver ==> g'.p1.hp <= g.p1.hp && g'.p2.hp <= g.p2.hp
  {
    if g.gameOver then g
    else
      var r := ActionsPhase(g, a1, a2);
      Commit(FailCounters(r.g, 2), r.dmg)
  }
}
