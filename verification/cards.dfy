/** The card catalogue of the boxing round: the field, the card categories,
    the eleven cards and the parameters of the attacking ones. */
module Cards {

  /** The field runs from FieldMinX to FieldMaxX inclusive. */
  const FieldMinX: int := -5
  const FieldMaxX: int := 5
  /** Health every player starts a round with. */
  const PlayerBasicHealth: int := 3

  /** Card categories; actions resolve in the order Move, Util, Attack. */
  datatype Kind = Move | Util | Attack

  /** The sort key of a category (the enum values 1, 2, 3). */
  function Priority(k: Kind): int
  {
    match k
    case Move => 1
    case Util => 2
    case Attack => 3
  }

  datatype Card =
    | Jab | Step | Guard
    | Straight | Counter | Hook | Pound | Footwork | Combi | Uppercut | Kick

  function KindOf(c: Card): (k: Kind)
    ensures k == Attack <==> c == Jab || c == Straight || c == Hook || c == Uppercut || c == Kick
    ensures k == Move <==> c == Step || c == Footwork || c == Combi
  {
    match c
    case Jab | Straight | Hook | Uppercut | Kick => Attack
    case Step | Footwork | Combi => Move
    case Guard | Counter | Pound => Util
  }

  /** The canonical basic hand, dealt at setup and whenever it runs out. */
  const BasicHand: seq<Card> := [Jab, Step, Guard]

  /** What an Attack card hands to the shared attack routine. */
  datatype Strike = Strike(range: int, damage: int, ignoreGuard: bool, ignoreCounter: bool)

  function StrikeOf(c: Card): (s: Strike)
    requires KindOf(c) == Attack
    ensures s.damage >= 1 && 0 <= s.range <= 2
    ensures s.ignoreGuard <==> c == Hook
    ensures s.ignoreCounter <==> c == Hook
  {
    match c
    case Jab => Strike(1, 1, false, false)
    case Straight => Strike(1, 2, false, false)
    case Hook => Strike(1, 1, true, true)
    case Uppercut => Strike(0, 1, false, false)
    case Kick => Strike(2, 1, false, false)
  }

  /** Starting position of player 0 and player 1. */
  function StartX(num: int): int
  {
    if num == 0 then -1 else 1
  }

  predicate OnField(x: int)
  {
    FieldMinX <= x <= FieldMaxX
  }

  /** The position a move ends on: pulled back onto the field if it left it. */
  function Clamp(x: int): (r: int)
    ensures OnField(r)
    ensures OnField(x) ==> r == x
    ensures x < FieldMinX ==> r == FieldMinX
    ensures x > FieldMaxX ==> r == FieldMaxX
  {
    if x < FieldMinX then FieldMinX
    else if x > FieldMaxX then FieldMaxX
    else x
  }
}
