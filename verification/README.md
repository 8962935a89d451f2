# Boxing round combat engine, in Dafny

This project models the combat engine of a two-player, turn-based boxing
game (`box2.py`, class `BoxingGame`) and proves what a turn does.

Each turn both players submit one card and a direction. `resolve_turn`
then runs these steps:

1. It advances the turn counter.
2. It fires each player's status effects that are due and refills an empty
   basic hand.
3. It orders the two actions Move, Util, Attack, keeping submission order
   on a tie.
4. It acts them out against one shared damage accumulator.
5. It punishes Counters that never fired.
6. It takes the accumulated damage off both players at once.
7. It decides the verdict.

Status effects are guard, stun, fixed, the Combi buff and an armed Counter.
Each player's status controller (`ControlM`) holds a priority queue of
effects scheduled for later turns.

The project has two layers and a set of proofs:

- **Values** (`cards.dfy`, `scheduler.dfy`, `rules.dfy`). These hold the
  card catalogue, the controller's state and the whole turn as functions of
  plain values.
  - The heap of `(turn, sequence, closure)` triples is a sequence kept in
    `(turn, sequence)` order.
  - Each closure is an `Effect` tag. It acts on the controller whose queue
    holds it, because in the program every scheduled closure mutates the
    player that owns that queue.
  - The Counter instance a controller points at is `CounterOn`: `Off`, or
    `On(triggered)`.
- **Objects** (`scheduler.dfy`, `engine.dfy`). `ControlM`, `Player` and
  `BoxingGame` are classes whose methods update their fields in place, in
  the same order as the program. Each method is proved to leave its objects
  in exactly the state the matching function of `Rules` computes.
  - The loops of `update`, the start of the turn, the action loop and the
    Counter check each carry that correspondence as their loop invariant.
  - The process-wide sequence counter and the current-game reference become
    fields of the game.
- **Properties** (`properties.dfy`, `scenarios.dfy`). These cover the
  invariant every turn keeps and the rules of each card and effect, plus a
  few complete turns. Each scenario holds for every game that is `Fresh`
  for its first turn: nothing scheduled, no Counter armed, non-empty basic
  hands, and the positions and health the scenario names. A set-up game
  moved into place (`Placed`) is one such game.

Three points where the code behaves other than a plain reading of the
rules suggests. The model follows the code in each case:

- **An armed Counter intercepts every Attack card, out of range or not.**
  The check in `act` (box2.py:87-93) comes before any range check, so it
  applies to Hook too. Hook's own "ignore counter" flag is only consulted
  inside `apply_attack`, where an armed Counter can no longer be found.
  `TurnProperties.CounterInterceptsEveryAttack` states this.
- **A Jab against a Step misses.** Take P1 on 0 jabbing forward while P2
  steps back from 1 onto 0. The Move resolves before the Attack, so the Jab
  finds nobody on tile 1 and P2 keeps its health. `Scenarios.JabMeetsStep`
  states this.
- **`setup` deals five special cards**, not two: the sample size is
  `SPECIAL_CARD_NUM`.

## Model

| member | source | states |
|---|---|---|
| Cards.KindOf | box2.py:132-316 | the category each card passes to `Card.__init__`: Jab, Straight, Hook, Uppercut and Kick are exactly the Attack cards; Step, Footwork and Combi exactly the Move cards; the rest (Guard, Counter, Pound) Util |
| Cards.Clamp | box2.py:16-21 | the position ends on the field [-5, 5]; an on-field position is unchanged; below -5 it becomes -5, above 5 it becomes 5 |
| Cards.StrikeOf | box2.py:132-316 | every attack card deals at least 1 damage within range 0 to 2; only Hook ignores guard and Counter |
| Scheduler.Due | box2.py:45-49 | what `update(now)` pops is the longest queue prefix whose trigger turns are all at most `now` |
| Scheduler.Insert | box2.py:40-43 | a push makes the queue one longer |
| Scheduler.InsertContents | box2.py:40-43 | a push adds exactly the new entry, as a multiset and by membership, and loses nothing |
| Scheduler.InsertSplits | box2.py:40-43 | with a fresh sequence number, a push lands right after the entries due by its turn |
| Scheduler.InsertKeepsSorted | box2.py:40-43 | with a fresh sequence number, a push keeps the queue in (turn, sequence) order |
| Scheduler.DueSplitsQueue | box2.py:45-49 | on a sorted queue, `update(now)` pops exactly the entries with turn at most `now`, in queue order, and keeps exactly the later ones, in order |
| Scheduler.ApplyEffect | box2.py:155-302 | running a scheduled closure (ClearGuard, SetStun/ClearStun of both stun paths, SetFixed/ClearFixed, EnableCombi/DisableCombi) sets or clears exactly its own flag and keeps the other three |
| Scheduler.UpdatedRunsDue | box2.py:45-49 | `update(now)` applies the due effects front first and leaves the pending ones queued |
| Scheduler.UpdatedLeavesNothingDue | box2.py:45-49 | after `update(now)` no entry due by `now` is left at the front, what remains is a suffix of the queue, and the Counter is untouched |
| Scheduler.SortedHasNoRepeats | box2.py:45-49 | entries of a sorted queue are pairwise distinct, so no effect runs twice |
| Scheduler.GuardSurvivesUnlessCleared | box2.py:162-165 | after a batch of effects, the guard is up exactly when it was up before and no ClearGuard ran |
| Scheduler.ControlM.constructor | box2.py:32-38 | a new controller has no status, no Counter and an empty queue |
| Scheduler.ControlM.Schedule | box2.py:40-43 | the heap push: the queue becomes the ordered insert of the new entry, all flags unchanged |
| Scheduler.ControlM.RunEffect | box2.py:46-49 | running a popped effect sets or clears exactly its flag |
| Scheduler.ControlM.Update | box2.py:45-49 | the pop-while-due loop leaves the controller in the `Updated` state: due effects run, the rest queued |
| Rules.ScheduleOn | box2.py:40-43 | `schedule` takes the next sequence number and pushes the entry (turn, that number, effect) into that player's queue; the player's flags, Counter, position and hands, the other player, the clock, verdict and health are unchanged |
| Rules.ScheduleStun | box2.py:206-207 | stunning takes two sequence numbers and pushes SetStun at turn+1 and ClearStun at turn+2 into the stunned player's queue; its flags, Counter, position and hands and the other player are unchanged |
| Rules.OnCounteredAttack | box2.py:188-211 | the Counter's reaction never changes the clock, verdict or health during resolution |
| Rules.Fail | box2.py:213-234 | a failing Counter never changes the clock, verdict or health |
| Rules.ApplyAttack | box2.py:108-127 | an attack changes the accumulator, never health, clock or verdict |
| Rules.MoveBy | box2.py:143-148 | a move never changes health, clock, verdict or the accumulator |
| Rules.Resolve | box2.py:132-316 | no card's `resolve` changes health, the clock or the verdict |
| Rules.Act | box2.py:70-101 | `act` never changes health, the clock or the verdict, and neither player's accumulated damage ever goes down |
| Rules.OrderActions | box2.py:401-403 | the stable sort: a permutation of the two actions, in nondecreasing category, in submission order on a tie |
| Rules.RunActions | box2.py:406-414 | the action loop never changes health, the clock or the verdict |
| Rules.FailCounter | box2.py:417-420 | checking one player's Counter leaves it not armed-and-unfired and the other player untouched, and never changes health, the clock or the verdict |
| Rules.FailCounters | box2.py:416-420 | the end-of-turn Counter check never changes health, the clock or the verdict |
| Rules.Refill | box2.py:362-369 | the basic hand is never empty afterwards; a non-empty hand is kept; an empty one becomes Jab, Step, Guard and nothing else changes |
| Rules.BeginTurn | box2.py:394-396 | update then refill: the hand is non-empty, position, health, special hand and Counter are kept, and the front entry of the queue is not due by the new turn |
| TurnProperties.BeginTurnClearsDue | box2.py:394-396 | on a sorted queue, no entry due by the new turn is left after the start of the turn: every entry still queued triggers later |
| Rules.StartTurn | box2.py:390-396 | the turn goes up by one; sequence counter, verdict and both healths are kept; both basic hands are non-empty |
| Rules.Commit | box2.py:422-435 | each player loses exactly its accumulated damage and nothing else changes but the verdict; the game ends iff a health is at or below 0; both down is a draw, otherwise the one down loses; with both up the verdict is kept |
| Rules.ResolveTurn | box2.py:386-435 | a finished game is unchanged; otherwise the turn goes up by one, health never rises, and the game is over afterwards iff some health is at or below 0 |
| Engine.Player.constructor | box2.py:342-350 | a new player stands on its start tile with full health, empty hands and a fresh controller |
| Engine.Player.Setup | box2.py:352-360 | back to the start tile, with the basic hand Jab, Step, Guard and the given special hand |
| Engine.Player.Refill | box2.py:362-369 | the basic hand is reset to Jab, Step, Guard exactly when it is empty |
| Engine.Player.ClampPos | box2.py:16-21 | only `x` changes, to its clamped value |
| Engine.BoxingGame.constructor | box2.py:374-380 | two distinct fresh players 0 and 1, turn 0, no verdict |
| Engine.BoxingGame.Setup | box2.py:382-384 | both players are set up with their special hands |
| Engine.BoxingGame.ScheduleOn | box2.py:40-43 | bumping the game's sequence counter and pushing reaches the `Rules.ScheduleOn` state |
| Engine.BoxingGame.ScheduleStun | box2.py:206-207 | the two pushes reach the `Rules.ScheduleStun` state |
| Engine.BoxingGame.OnCounteredAttack | box2.py:188-211 | the in-place reaction reaches the state and accumulator of `Rules.OnCounteredAttack` |
| Engine.BoxingGame.Fail | box2.py:213-234 | the in-place failure reaches the `Rules.Fail` state |
| Engine.BoxingGame.ApplyAttack | box2.py:108-127 | the in-place attack reaches the state and accumulator of `Rules.ApplyAttack` |
| Engine.BoxingGame.MoveBy | box2.py:143-148 | the in-place move and clamp reach the `Rules.MoveBy` state |
| Engine.BoxingGame.Resolve | box2.py:132-316 | each card's in-place `resolve` reaches the `Rules.Resolve` state and accumulator |
| Engine.BoxingGame.ResolveGuard | box2.py:155-165 | Guard in place matches `Rules.Resolve` for every accumulator |
| Engine.BoxingGame.ResolvePound | box2.py:248-265 | Pound in place matches `Rules.Resolve` for every accumulator |
| Engine.BoxingGame.ResolveCombi | box2.py:283-302 | Combi in place matches `Rules.Resolve` for every accumulator |
| Engine.BoxingGame.Act | box2.py:70-101 | the in-place `act` reaches the state and accumulator of `Rules.Act` |
| Engine.BoxingGame.StartTurn | box2.py:390-396 | the turn increment and the per-player update-and-refill loop reach `Rules.StartTurn` |
| Engine.BoxingGame.RunActions | box2.py:406-414 | the action loop reaches `Rules.RunActions` |
| Engine.BoxingGame.FailCounters | box2.py:416-420 | the Counter-check loop reaches `Rules.FailCounters` |
| Engine.BoxingGame.Commit | box2.py:422-435 | the health subtraction and verdict reach `Rules.Commit` |
| Engine.BoxingGame.ResolveTurn | box2.py:386-435 | the whole in-place turn reaches `Rules.ResolveTurn` |
| TurnProperties.NewGameWellFormed | box2.py:374-380 | a new game satisfies the turn invariant |
| TurnProperties.ScheduleOnKeepsMidTurn | box2.py:40-43 | a push keeps every queue sorted, with only sequence numbers already handed out |
| TurnProperties.ScheduleStunKeepsMidTurn | box2.py:206-207 | scheduling a stun keeps the invariant |
| TurnProperties.OnCounteredAttackKeepsMidTurn | box2.py:188-211 | a Counter reaction keeps the invariant |
| TurnProperties.ActKeepsMidTurn | box2.py:70-101 | `act` keeps both players on the field and the queues sorted |
| TurnProperties.ResolveKeepsMidTurn | box2.py:132-316 | every card's `resolve` keeps the invariant |
| TurnProperties.RunActionsKeepsMidTurn | box2.py:406-414 | the action loop keeps the invariant |
| TurnProperties.FailCountersDisarm | box2.py:416-420 | after the end-of-turn check, no Counter is armed, and the invariant holds |
| TurnProperties.BeginTurnKeepsPlayerOk | box2.py:394-396 | update and refill keep a player's invariant and its Counter |
| TurnProperties.ResolveTurnKeepsWellFormed | box2.py:386-435 | every turn keeps players on the field and queues sorted, and no Counter outlives its turn |
| TurnProperties.MoveLandsOnField | box2.py:143-148 | a move of a player who is not fixed changes only its position, to the clamped `x + delta`: exactly `x + delta` when that is on the field, otherwise the nearer edge; a fixed player stays put; the other player is untouched |
| TurnProperties.StunnedPlayerDoesNothing | box2.py:82-84 | a stunned player's action changes nothing at all |
| TurnProperties.AttackOutcome | box2.py:108-127 | the target gains exactly the card's damage iff in range, not countered and not guard-blocked; the attacker gains 1 iff countered |
| TurnProperties.CounterInterceptsEveryAttack | box2.py:87-93 | any attack card into an armed Counter, in range or not and Hook included: the target takes nothing, the attacker takes 1 and is stunned at turn+1 and cleared at turn+2 under two fresh sequence numbers, the Counter disarms, and nothing else of either player changes |
| TurnProperties.FiredCounterIsInert | box2.py:190-192 | a Counter that has fired neither reacts nor fails |
| TurnProperties.AttackLands | box2.py:108-127 | an in-range attack card the guard does not stop, with no Counter armed, adds exactly its damage and changes nothing else |
| TurnProperties.CounterFiresAtMostOnce | box2.py:188-211 | after a Counter intercepts one attack, a second attack that turn lands normally |
| TurnProperties.UnfiredCounterStunsOwner | box2.py:213-234 | a Counter never fired stuns its own owner at turn+1, clears it at turn+2, and disarms; the other player is untouched |
| TurnProperties.CombiBonusBeforeResolve | box2.py:95-101 | the Combi buff adds 1 to an adjacent target before the card resolves |
| TurnProperties.CombiBonusPassesGuard | box2.py:95-98 | a buffed Jab into a guarded adjacent target still deals the bonus 1 |
| TurnProperties.CounterArms | box2.py:183-186 | Counter arms its owner's Counter, not yet fired, and changes nothing else: the rest of the owner, the other player, the sequence counter and the accumulator are kept |
| TurnProperties.PoundFixesTarget | box2.py:248-265 | out of range Pound changes nothing; on the adjacent tile ahead it queues SetFixed at turn+1 and ClearFixed at turn+2 on the target only, with two fresh sequence numbers; it never deals damage and never touches its player |
| TurnProperties.CombiSchedulesBuff | box2.py:283-302 | Combi queues EnableCombi at turn+1 and DisableCombi at turn+2 on its player before moving one tile, clamped, unless fixed; nothing else of the player changes (flags, Counter, both hands, health), and the other player and the accumulator are kept |
| TurnProperties.GuardRaisedUntilNextTurn | box2.py:155-165 | Guard sets the guard now and queues exactly its ClearGuard for turn+1; nothing else changes |
| TurnProperties.StartOfTurn | box2.py:390-396 | the turn goes up by 1; due effects fire; the basic hand is refilled only when empty; position and health are kept |
| TurnProperties.FiresExactlyAtItsTurn | box2.py:45-49 | a queued effect is not popped before its turn, is popped at its turn, exactly once, and is gone afterwards |
| TurnProperties.GuardEndsNextTurn | box2.py:155-165 | once its ClearGuard is due, the guard is down after the start of the next turn |
| TurnProperties.TurnOutcome | box2.py:422-435 | both players lose their accumulated damage at once; both at or below 0 is a draw; otherwise the one at or below 0 loses |
| TurnProperties.FinishedGameIsFrozen | box2.py:386-388 | a turn of a finished game changes nothing |
| Scenarios.JabMeetsStep | box2.py:401-414 | from any fresh first turn (as `Placed(0, 1, 3, 3)`), Jab from 0 against a Step from 1 to 0: the Step goes first and the Jab misses |
| Scenarios.CounterPunishesJab | box2.py:188-211 | a Jab into a Counter costs the attacker 1 health and queues its stun for turns 2 and 3; the defender keeps 3, the Counter is spent, the attacker's flags stay clear this turn and the game goes on |
| Scenarios.CounterStunsForOneTurn | box2.py:45-49 | the queued stun is on for the next turn and off the turn after |
| Scenarios.DoubleKnockOutIsADraw | box2.py:426-429 | two Uppercuts at 1 health each: both fall to 0 and the game is a draw |
| Scenarios.GuardGoesFirst | box2.py:401-403 | Guard, a Util card submitted second, is ordered before a Jab, and acting it raises the guard with its ClearGuard queued for turn 2 |
| Scenarios.JabMeetsGuard | box2.py:123-124 | the Jab then hits the raised guard and deals nothing |
| Scenarios.GuardedTurnActions | box2.py:406-414 | the action loop of that turn ends with the guard raised and no damage |
| Scenarios.GuardBlocksJab | box2.py:155-165 | a Guard turn leaves both players at full health and in place, the game running, and the defender guarded with the ClearGuard queued |
| Scenarios.JabLandsAfterGuard | box2.py:162-165 | the next turn the guard is down and the same Jab lands for 1 |
| Scenarios.CombiMovesFirst | box2.py:283-302 | Combi, a Move, is ordered before a Guard, queues the buff for turns 2 and 3 and steps from 0 to 1 |
| Scenarios.CombiTurn | box2.py:386-435 | the whole Combi-against-Guard turn: no damage, P1 on 1 with the buff queued, P2 guarded until turn 2 |
| Scenarios.BuffOnNextTurn | box2.py:45-49 | at the start of turn 2 the Combi buff switches on, its switch-off stays queued for turn 3, and P2's guard is cleared |
| Scenarios.CombiBonusThroughGuard | box2.py:95-98 | in turn 2 a buffed Jab into a fresh guard is blocked, but the bonus still takes P2 from 3 to 2 |

## Left out

- The random draw of the special hand in `setup` (box2.py:360), `SPECIAL_CARD_NUM` cards sampled from `SPECIAL_CARD_LIST`: the hand is an input of `Setup`, so neither constant is part of the model.
- The class-level `PLAYER_NUM` counter (box2.py:340, 347-349) is never reset, while every round builds a new `BoxingGame` (main.py:110 opens a `BoxingGUI`, whose constructor does so at box_GAME.py:22). The second game's first player therefore gets number 2, and box2.py:348 raises `IndexError` on `PLAYER_LOC`. The model numbers players 0 and 1 in every game, so it does not capture that crash.
- The process-wide sequence counter `_cc_order` and the current-game reference `NOW_GAME` (box2.py:8-9): both are fields of the game object, `ccOrder` and the game itself. Sequence numbers therefore restart with each game; their order within a game is the same.
- The binary heap: the queue is a sequence kept in `(turn, sequence)` order. It pops entries in the same order as the heap, but its internal layout is not modelled.
- Python closures and object identity: an effect is a tag that acts on its queue's owner. A Counter instance is its `CounterOn` state in its owner's controller. The `owner is None` and `counter_on is self` checks in `fail` and `on_countered_attack` always pass in the program and are not modelled.
- `ActionContext` and the `Action` target lookup: an action's target is always the other player.
- The directions are not checked to be -1 or 1, because the program does not check them either. Any integer is accepted.
- Removing the played card from the hand happens in the GUI before `resolve_turn` runs, and is not part of this model. Neither are the pygame front ends, the random AI choice, the round orchestration or the chess game (`box_GAME.py`, `main.py`, `ChessGame.py`).
