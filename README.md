# wizards-thread — a Dafny model of the spell engine

wizards-thread is a deck-building duel. The player drafts cards from the hand
into the slots of a spell, then casts it. While the spell is cast, one
interpreter pops actions off a queue, one per frame: it plays the card at the
cursor, pays its mana, advances the cursor, and applies the card's effects to
the player, the monster and the queue. This project models that engine and
proves properties of it. It covers:

- `Game`, `Creature`, `Player` and `Monster` (src/game.ts);
- every `Action` subclass (src/actions.ts);
- the card catalog (src/cards.ts);
- the Scrabbler (src/monsters.ts);
- the drafting rules in src/ui/CombatScreen.tsx and src/ui/Encounter.tsx;
- the card-text tokenizer (src/utils/card-text-parser.ts).

The model has two layers.

- **Values.**
  - `GameWorld.World` is a snapshot of everything a step reads or writes.
  - `Interpreter.Step` is `Game.update` as a function on it, with
    `Interpreter.Execute` giving each action's `update`.
  - `CardPlay.Pushes` lists the actions each card's `play` pushes.
  - The lemmas of `InterpreterFacts` (one step) and `Scenarios` (several
    steps) are stated on these functions.
- **Objects.**
  - `Engine.Game`, `Engine.Player`, `Engine.Monster` and `Engine.Creature` are
    classes with the source's fields, and their methods update them in place.
  - Each method's postcondition ties the new `Game.Snapshot()` to the
    value-level function applied to the old one. For example, `Game.Step`
    ensures `Snapshot() == Interpreter.Step(old(Snapshot()), draws)` and keeps
    the health invariant `Valid()`.
  - The tokenizer is the loop `CardText.ParseCardText`. It is proved to
    compute `CardText.Tokenize`, which the content lemmas are about.

Randomness is a parameter, `draws: seq<nat>`. Wormhole jumps to
`draws[0] % |spell|`. Shuffling is Fisher–Yates, with swap partner `k`
taken from `draws[k]`. A missing draw counts as 0. A run of several steps
(`Interpreter.Run`, `Engine.Game.RunSteps`) takes one draw list per step,
`rounds[k]` for step k, so separate Wormholes and shuffles in one run draw
independently. Card uids are supplied by the caller.

Modules and files:

| module | file | what it models |
|---|---|---|
| Optional | optional.dfy | `Option`: an absent value, such as a hole of the spell |
| Catalog | catalog.dfy | card kinds, costs, ids and export names |
| Actions | actions.dfy | the `Action` datatype, the phase and the `allowedStates` gate |
| Resources | resources.dfy | creature health and its clamp |
| Slots | slots.dfy | spell and hand operations with JavaScript array semantics |
| GameWorld | world.dfy | the snapshot and the pure reads of `Game` |
| CardPlay | cardplay.dfy | each card's `play` |
| Interpreter | interpreter.dfy | `update` of every action, and the step |
| InterpreterFacts | interpreter_facts.dfy | one-step properties |
| Scenarios | scenarios.dfy | multi-step runs |
| Engine | engine.dfy | the classes and their in-place methods |
| CombatScreen | combat_screen.dfy | drop rules and handlers, drag conditions |
| Encounter | encounter.dfy | `EncounterReducer`, `initState`, `toggleSpellSlot` |
| CardText | card_text.dfy | `parseCardText` |

## Where the model follows the code rather than the intended design

- `EndTurnAction` never changes the phase (src/actions.ts:69-76).
  `StartTurnAction` is allowed only in Initializing (src/actions.ts:60).
  - So after the first cast, the StartTurn that EndTurn queues is dropped
    while the phase is still Casting.
  - A later CastSpell is dropped as well, because it needs Drafting.
  - The game never leaves Casting: `Scenarios.FirstCastStrandsGame`.
- Nothing transitions to Reacting. In Reacting only the unrestricted actions
  would run (`Actions.ReactingRunsOnlyUnrestricted`).
- The death check only empties the queue. Actions queued later still run
  (`InterpreterFacts.DeathDoesNotBlockLaterActions`).
- `canDropInSpell` rejects every anchored card, whatever its anchor slot.
- Propel jumps to the value of might, not to an offset from the cursor.
- Justify, Mystify, Purify and Amplify act unconditionally, although their
  descriptions say "If might is even".
- No catalog card has the id "loop", so `LoopAction` never fires
  (`InterpreterFacts.LoopNeverFires`).
- The cursor is a plain integer. Propel with negative might makes it
  negative; the model then reads no slot there (see `GameWorld.CurrentCard`
  under "## Left out"). Might never goes below 0 in the shipped catalog.
- Array quirks are modelled as the code behaves, not excluded by
  preconditions:
  - `removeFromHand` of an absent card runs `splice(-1, 1)` and removes the
    last card;
  - `removeFromSpell` of an absent card writes index -1, which changes no
    slot;
  - `addToSpell` at a negative index changes no slot;
  - `addToSpell` past the end extends the spell with holes;
  - INSERT_CARD and REMOVE_CARD in the reducer write past the end in the
    same way.
- Members the code calls but nothing defines. Under JavaScript each call
  below would throw a `TypeError`, or for Jump produce `NaN`; the model gives
  each one a meaning instead:

  | called | modelled as |
  |---|---|
  | `monster.onTurnStart` / `onTurnEnd` | the monster's `turnStart` / `turnEnd` action lists, appended to the back of the queue; the Scrabbler's are empty |
  | `game.addToEther` | a `ether` sequence of banished cards |
  | `game.spell.cursor` (Jump) | `game.cursor` |
  | `game.spell.cards` (Wormhole) | the spell itself |
  | the `State` import in Encounter.tsx | `GameState` |

- `new Game()` leaves `monster` unset until src/index.ts assigns a
  Scrabbler. `Engine.Game`'s constructor takes the deck and creates the
  Scrabbler at once. `Engine.NewMatch` then queues the one StartTurn, as
  src/index.ts does.

## Model

| member | source | states |
|---|---|---|
| Catalog.NewCard | src/game.ts:146-193 | a catalog card has the given kind and uid and is neither forced nor anchored |
| Catalog.StarterDeck | src/index.ts:11-15 | the deck holds one new card of every exported card class, in the order `Object.values` lists the module namespace (`AllKinds`) |
| Catalog.AllKindsSorted | src/index.ts:2 | `AllKinds` is in strictly ascending order of export name, the order of an ECMAScript module namespace object, so each kind appears once |
| Catalog.CostRange | src/cards.ts:14-264 | Obstacle's 99 is the only cost above 3, and Confusion is the only free card |
| Catalog.CatalogIsComplete | src/cards.ts:14-264 | every kind is listed, and no card's id is "loop" |
| Resources.Clamp | src/game.ts:221-223 | the result lies in [0, maxHealth], is the input when that is in range, and is 0 or maxHealth at the ends |
| Resources.SetHealth | src/game.ts:221-223 | `setHealth` keeps the maximum, leaves health in [0, maxHealth] for any input, and stores an in-range input unchanged |
| Resources.CallsKeepHealthInRange | src/game.ts:217-227 | any sequence of `modifyHealth`/`damage`/`setHealth` calls keeps health in range and keeps the maximum |
| Resources.DamageLowersHealth | src/game.ts:225-227 | `damage(n)` is `modifyHealth(-n)`, and lowers health by n down to 0 |
| Slots.Holes | src/game.ts:128-133 | `Array.from({length: n})`: n empty slots |
| Slots.SlotAt | src/game.ts:124-126 | reading a slot gives the slot inside the array and `undefined` outside it |
| Slots.IndexOf | src/game.ts:107-114 | `indexOf`: -1 exactly when absent, otherwise the first position holding the element |
| Slots.RemoveAt | src/game.ts:107-109 | `splice(i, 1)`: the element at i is gone and the rest keep their order |
| Slots.AddToSpell | src/game.ts:97-101 | writes only into an empty slot and never overwrites; a negative index changes no slot; past the end the spell is extended with holes |
| Slots.RemoveFromHand | src/game.ts:107-109 | removes the first copy of a held card (one fewer in the multiset); an absent card removes the last card |
| Slots.RemoveFromSpell | src/game.ts:111-114 | empties the card's first slot, keeps the length and every other slot; an absent card changes nothing |
| Actions.GateByKind | src/actions.ts:15-134 | Heal, Damage, PlayNextCard, PlayCard and JumpToCard run only in Casting; CastSpell only in Drafting; StartTurn only in Initializing; every other action in every phase |
| Actions.ReactingRunsOnlyUnrestricted | src/game.ts:64-67 | in Reacting exactly the actions without a list of allowed states run |
| GameWorld.CurrentCard | src/game.ts:120-126 | `getCurrentCard` is the slot at the cursor while the spell is unfinished, and `undefined` once it is finished; below 0 the model reads no slot |
| GameWorld.SpellReads | src/game.ts:258-260 | `hasMana(n)` holds exactly when mana >= n, with n = 1 by default; Obstacle is unaffordable below 99 mana; Confusion is affordable at any non-negative mana |
| GameWorld.ResetSpell | src/game.ts:128-133 | six empty slots, hand equal to deck, cursor 0, nothing else changed |
| GameWorld.CastSpell | src/game.ts:135-138 | cursor 0 and mana equal to base mana, nothing else changed |
| CardPlay.RandomSlot | src/cards.ts:261-262 | Wormhole's index is a slot of a nonempty spell, and 0 for an empty one |
| CardPlay.PushAllTopIsReversal | src/game.ts:27-29 | a run of `addActionTop` calls leaves the pushed actions in reverse order ahead of the old queue |
| CardPlay.PlayOnlyPushesFront | src/cards.ts:14-264 | every `play` only puts at most two plain effects at the front of the queue and changes nothing else |
| CardPlay.SingleEffectCards | src/cards.ts:14-45 | Remedy pushes Heal(player, 1), Bolt pushes Damage(monster, 1), Augment pushes ModifyMight(1) |
| CardPlay.MightCaptureCards | src/cards.ts:47-57 | Burst, Siphon, Salvation and Awaken leave ResetMight to run first, then their effect with the might read at play time |
| CardPlay.ParityCards | src/cards.ts:81-118 | Hypothesis, Antithesis and Synthesis push their one action exactly when mana is even: mana +2, 2 damage to the monster, 2 healing for the player |
| CardPlay.UnconditionalCards | src/cards.ts:120-162 | Justify, Mystify, Purify and Amplify push the same single action whatever the state: might +2, mana +2, 2 healing for the player, might ×2 |
| CardPlay.InertCards | src/cards.ts:177-252 | Obstacle, Fatigue and Again change nothing; Confusion pushes only a shuffle |
| CardPlay.JumpCards | src/cards.ts:59-79 | Jump and Propel push one jump each; Jump targets the slot after the cursor; Propel targets might whatever the cursor |
| Interpreter.LoopFrom | src/actions.ts:228-239 | the loop search finds the greatest index from the cursor down to 0 holding a "loop" card, or reports that there is none |
| Interpreter.Swap | src/actions.ts:222-226 | a swap of two slots permutes the spell and exchanges exactly those two |
| Interpreter.ShuffleDown | src/actions.ts:222-226 | the Fisher–Yates passes keep the length and the multiset of slots |
| Interpreter.Shuffled | src/actions.ts:222-226 | the shuffle is a permutation of the spell |
| InterpreterFacts.EmptyQueueStep | src/game.ts:57-60 | a step on an empty queue changes nothing |
| InterpreterFacts.DroppedActionOnlyLeavesQueue | src/game.ts:62-67 | a dequeued action the phase forbids is removed, and nothing runs, notifies or checks for death |
| InterpreterFacts.ExecutedActionStep | src/game.ts:57-88 | an allowed head is removed before it runs, the subscribers are notified once, and a death leaves the queue empty |
| InterpreterFacts.ExecuteKeepsCount | src/game.ts:73-75 | no action notifies the subscribers or changes the deck itself |
| InterpreterFacts.ExecuteKeepsWellFormed | src/actions.ts:14-194 | every action keeps both creatures' health in [0, maxHealth] and keeps the maxima |
| InterpreterFacts.RunKeepsWellFormed | src/game.ts:57-88 | health stays in range over any number of steps |
| InterpreterFacts.QueueDiscipline | src/actions.ts:38-254 | every action other than EndTurn keeps the pending queue and only adds in front (a play, a loop) or at the back (cast, turn start, next card) |
| InterpreterFacts.PlayNextAppends | src/actions.ts:78-115 | PlayNextCard changes only the queue's back. It appends exactly EndTurn when the spell is finished or the card is unaffordable. Otherwise it appends ModifyMana(-cost), JumpToCard(cursor+1), PlayCard, Wait(800), PlayNextCard, and an empty slot costs no mana |
| InterpreterFacts.CastSpellSchedules | src/actions.ts:38-47 | CastSpell resets cursor and mana, keeps the phase, and appends Transition(Casting), Wait(500), PlayNextCard |
| InterpreterFacts.EndTurnRestarts | src/actions.ts:69-76 | EndTurn empties the queue before the turn-end hook, Wait(800) and StartTurn, and keeps the phase |
| InterpreterFacts.StartTurnResets | src/actions.ts:59-67 | StartTurn appends Transition(Drafting) and the turn-start hook, and resets spell, hand and cursor; nothing else changes (player, monster, deck, previous card, ether, phase, notification count) |
| InterpreterFacts.PlayCardFrontRunsFirst | src/actions.ts:117-131 | PlayCard leaves the card's effects ahead of everything pending and records the card as the previous one |
| InterpreterFacts.LoopJumpsBack | src/actions.ts:228-239 | LoopAction pushes JumpToCard(i) for the greatest loop slot i at or below the cursor, and changes nothing when there is none |
| InterpreterFacts.LoopNeverFires | src/actions.ts:228-239 | with the catalog's cards LoopAction never changes anything |
| InterpreterFacts.ShufflePermutes | src/actions.ts:222-226 | a shuffle only permutes the spell's slots |
| InterpreterFacts.BanishMovesToEther | src/actions.ts:241-254 | banishing empties the card's slot and appends the card to the ether; an empty slot is a no-op |
| InterpreterFacts.DeathDoesNotBlockLaterActions | src/game.ts:77-87 | with the monster dead, a queued cast still runs before the queue is emptied |
| Scenarios.RunAdd | src/game.ts:90-95 | a steps then b steps is a+b steps |
| Scenarios.StepRuns | src/game.ts:57-88 | a step whose allowed head kills no one is that action on the rest of the queue, notified once |
| Scenarios.StepDrops | src/game.ts:64-67 | a step whose head is forbidden only removes it |
| Scenarios.StopStrandsTurn | src/actions.ts:69-115 | when PlayNextCard stops, four steps end the turn and drop the new StartTurn: the queue runs dry with mana, cursor and spell as they were |
| Scenarios.EmptySlotAdvances | src/actions.ts:97-113 | an empty slot is skipped in three steps at no cost |
| Scenarios.EmptyTailRunsOut | src/actions.ts:78-115 | empty slots up to the end take three steps each, then the turn strands |
| Scenarios.PayAndAdvance | src/actions.ts:97-113 | an affordable card is paid for and the cursor advanced in three steps, with PlayCard next |
| Scenarios.AffordableCardPlays | src/actions.ts:78-131 | an affordable card is paid for, the cursor advanced and the card played; its effects sit ahead of Wait(800) and the next PlayNextCard, with amounts read after the payment |
| Scenarios.ParityReadAfterPayment | src/cards.ts:88-90 | Hypothesis tests the parity of the mana left after its own cost is paid |
| Scenarios.AugmentRaisesMight | src/cards.ts:43 | Augment raises might by one in two steps and leaves the rest of the queue |
| Scenarios.BurstResolves | src/cards.ts:51-55 | Burst damages the monster by the might read at play time and leaves might at 0 |
| Scenarios.CaptureCards | src/cards.ts:54-219 | Burst, Siphon, Salvation and Awaken apply the captured might even though ResetMight runs first |
| Scenarios.AugmentThenBurst | src/cards.ts:43-55 | Augment then Burst lowers monster health by the accumulated might (clamped at 0) and leaves might at 0 |
| Scenarios.ScrabblerAttack | src/monsters.ts:10-12 | the Scrabbler's attack lands as Damage(player, 5) only when dequeued in Casting, and is dropped otherwise |
| Scenarios.Opening | src/index.ts:7-19 | the opening world: Initializing, with exactly one StartTurn queued |
| Scenarios.OpeningDrafts | src/actions.ts:59-67 | the opening StartTurn reaches Drafting with six empty slots and the hand equal to the deck |
| Scenarios.CastBegins | src/actions.ts:38-57 | a cast in Drafting resets cursor and mana, enters Casting and reaches PlayNextCard in three steps |
| Scenarios.FirstCastStrandsGame | src/actions.ts:59-76 | the first turn drafts; casting its empty spell ends in Casting with an empty queue, and every later cast is dropped |
| Engine.Creature.constructor | src/game.ts:213-216 | a creature with the given health and maximum |
| Engine.Creature.SetHealth | src/game.ts:221-223 | the fields become `Resources.SetHealth` of the old ones; health is in range |
| Engine.Creature.ModifyHealth | src/game.ts:217-219 | the fields become `Resources.ModifyHealth` of the old ones |
| Engine.Creature.Damage | src/game.ts:225-227 | the fields become `Resources.Damage` of the old ones |
| Engine.Player.constructor | src/game.ts:230-236 | a new player: 10 of 10 health, base mana 10, mana 10, might 0 |
| Engine.Player.ModifyMana | src/game.ts:238-240 | mana grows by the amount; nothing else changes |
| Engine.Player.ResetMana | src/game.ts:242-244 | mana becomes the base mana; nothing else changes |
| Engine.Player.SetMana | src/game.ts:246-248 | mana becomes the value; nothing else changes |
| Engine.Player.ModifyMight | src/game.ts:250-252 | might grows by the amount; nothing else changes |
| Engine.Player.SetMight | src/game.ts:254-256 | might becomes the value; nothing else changes |
| Engine.Player.HasMana | src/game.ts:258-260 | agrees with `GameWorld.HasMana` on the player's state |
| Engine.Monster.Scrabbler | src/monsters.ts:4-8 | a Scrabbler: 20 of 20 health, attack damage 5, no turn hooks |
| Engine.Monster.Update | src/monsters.ts:10-12 | exactly one Damage(player, attackDamage) is appended to the back of the queue, and nothing else changes |
| Engine.Monster.OnTurnStart | src/actions.ts:65 | the turn-start hook only appends its actions |
| Engine.Monster.OnTurnEnd | src/actions.ts:72 | the turn-end hook only appends its actions |
| Engine.Game.constructor | src/game.ts:8-20 | a new game in Initializing with empty queue, spell and hand and a fresh player and Scrabbler, health in range |
| Engine.Game.Transition | src/game.ts:22-25 | only the phase changes |
| Engine.Game.AddActionTop | src/game.ts:27-29 | the action becomes the new head and the rest of the queue is unchanged |
| Engine.Game.AddActionBottom | src/game.ts:31-33 | the action becomes the new last element and the rest is unchanged |
| Engine.Game.AddActionsBottom | src/actions.ts:65 | appending a list one by one appends the whole list |
| Engine.Game.ClearActions | src/game.ts:35-37 | the queue becomes empty and nothing else changes |
| Engine.Game.AddToSpell | src/game.ts:97-101 | the spell becomes `Slots.AddToSpell` of the old spell |
| Engine.Game.AddToHand | src/game.ts:103-105 | the card is appended to the hand |
| Engine.Game.RemoveFromHand | src/game.ts:107-109 | the hand becomes `Slots.RemoveFromHand` of the old hand |
| Engine.Game.RemoveFromSpell | src/game.ts:111-114 | the spell becomes `Slots.RemoveFromSpell` of the old spell |
| Engine.Game.SetCastingIndex | src/game.ts:116-118 | only the cursor changes |
| Engine.Game.ResetSpell | src/game.ts:128-133 | the state becomes `GameWorld.ResetSpell` of the old one |
| Engine.Game.CastSpell | src/game.ts:135-138 | the state becomes `GameWorld.CastSpell` of the old one |
| Engine.Game.AddToEther | src/actions.ts:251 | the card is appended to the ether |
| Engine.Game.Step | src/game.ts:57-88 | `update()` computes `Interpreter.Step` of the old state and keeps health in range |
| Engine.Game.RunSteps | src/game.ts:90-95 | n updates compute `Interpreter.Run` of the old state and keep health in range |
| Engine.Game.Execute | src/actions.ts:4-254 | an action's `update` computes `Interpreter.Execute` and keeps health in range |
| Engine.Game.RunCastSpell | src/actions.ts:38-47 | CastSpell's `update` on the object matches the value-level action |
| Engine.Game.RunStartTurn | src/actions.ts:59-67 | StartTurn's `update` on the object matches the value-level action |
| Engine.Game.RunEndTurn | src/actions.ts:69-76 | EndTurn's `update` on the object matches the value-level action |
| Engine.Game.RunPlayNextCard | src/actions.ts:78-115 | PlayNextCard's `update` computes `Interpreter.PlayNext` |
| Engine.Game.Play | src/cards.ts:14-264 | every card's `play` on the object computes `CardPlay.Play` |
| Engine.Game.RunShuffle | src/actions.ts:222-226 | the spell becomes its shuffle under the draws, nothing else changes |
| Engine.Game.RunLoop | src/actions.ts:228-239 | the descending search loop computes the value-level LoopAction |
| Engine.Game.RunBanish | src/actions.ts:241-254 | BanishCard's `update` matches the value-level action |
| Engine.Shuffle | src/actions.ts:222-226 | the Fisher–Yates loop, run on a sequence value that `RunShuffle` assigns back to `spell`, computes `Interpreter.Shuffled` |
| Engine.NewMatch | src/index.ts:7-19 | a new game with a Scrabbler and exactly one StartTurn queued |
| CombatScreen.DropRules | src/ui/CombatScreen.tsx:30-48 | a drop on the hand is accepted exactly for an unforced card from the spell; a drop on the spell never for an anchored card, otherwise exactly onto an empty slot |
| CombatScreen.DropInHandMoves | src/ui/CombatScreen.tsx:34-38 | the card's spell slot is emptied, the card is appended to the hand, and nothing else changes |
| CombatScreen.DropFromHandPlaces | src/ui/CombatScreen.tsx:50-59 | an accepted drop from the hand puts the card in the slot and takes one copy out of the hand |
| CombatScreen.DropFromSpellMoves | src/ui/CombatScreen.tsx:50-59 | an accepted drop from the spell moves the card: old slot empty, new slot filled, length and hand unchanged |
| CombatScreen.DropOnOccupiedSlotLosesCard | src/ui/CombatScreen.tsx:50-59 | the handler alone, on an occupied slot, takes the card out of the hand and places it nowhere |
| CombatScreen.OnDropInHand | src/ui/CombatScreen.tsx:34-38 | the game object's state becomes `DropInHand` of the old one |
| CombatScreen.OnDropInSpell | src/ui/CombatScreen.tsx:50-59 | the game object's state becomes `DropInSpell` of the old one |
| CombatScreen.DraggingRules | src/ui/CombatScreen.tsx:145-165 | spell cards drag only in Drafting and never when forced and anchored; hand cards only in Drafting |
| Encounter.Undefineds | src/ui/Encounter.tsx:51 | `Array.from({ length: n })`: n holes, each `undefined` |
| Encounter.EntryAt | src/ui/Encounter.tsx:38 | reading an array: the element in range, `undefined` outside it |
| Encounter.Assign | src/ui/Encounter.tsx:30-31 | an assignment into a copied array: negative index no change, in range one slot, past the end extended with `undefined` holes |
| Encounter.Without | src/ui/Encounter.tsx:32 | `filter(c => c !== x)`: the multiset of the hand with every copy of x taken out, and nothing else |
| Encounter.WithoutConcat | src/ui/Encounter.tsx:32 | the filter works piecewise on a concatenation, so it keeps the order of what it keeps |
| Encounter.InitState | src/ui/Encounter.tsx:48-54 | the hand is the deck, five `undefined` slots, and the active card `null` |
| Encounter.SetActiveToggles | src/ui/Encounter.tsx:21-27 | selecting the active card sets it to `null`, any other card becomes active; hand and spell untouched |
| Encounter.InsertEffects | src/ui/Encounter.tsx:29-34 | for every index and every active entry: the active entry (card, `null` or `undefined`) is written into the slot, every copy of it leaves the hand and every other entry stays as often as it was there, and the active card becomes `null` |
| Encounter.RemoveEffects | src/ui/Encounter.tsx:36-44 | for every index: the slot (`undefined` when outside the array) is set to `undefined`, what it held is appended to the hand and made active, and no other slot changes |
| Encounter.WithoutAppended | src/ui/Encounter.tsx:32-41 | filtering out an entry appended to a hand that lacked it gives the hand back |
| Encounter.RemoveThenInsertRestores | src/ui/Encounter.tsx:29-44 | REMOVE_CARD then INSERT_CARD at the same slot restores spell and hand when the card was not in the hand, leaving the active card `null` |
| Encounter.ToggleRules | src/ui/Encounter.tsx:67-75 | only in Drafting: a slot holding a card dispatches REMOVE, otherwise an active card dispatches INSERT, and a `null` or `undefined` one nothing |
| Encounter.ToggleKeepsHandCards | src/ui/Encounter.tsx:21-75 | driven by `toggleSpellSlot` and SET_ACTIVE_CARD, a hand of cards never takes in `null` or `undefined` |
| Encounter.ToggleTwiceRestores | src/ui/Encounter.tsx:67-75 | toggling an occupied slot twice puts its card back |
| CardText.Slice | src/utils/card-text-parser.ts:15 | `slice(start, end)` clamped to the string, empty when start is past it |
| CardText.Chomp | src/utils/card-text-parser.ts:13-18 | a nonempty pending slice becomes a token and start moves to end; an empty one emits nothing |
| CardText.ParseCardText | src/utils/card-text-parser.ts:7-60 | the loop computes `Tokenize` |
| CardText.TokenizeGood | src/utils/card-text-parser.ts:20-57 | the invariant every token and the erased characters satisfy at the end of the scan |
| CardText.VarTokensAreLowercase | src/utils/card-text-parser.ts:23-32 | every var token is a nonempty run of a–z |
| CardText.NumTokensAreNumerals | src/utils/card-text-parser.ts:34-42 | every num token starts with '-' or a digit and is digits after that |
| CardText.EmTokensHaveNoStar | src/utils/card-text-parser.ts:44-54 | no em token contains '*' |
| CardText.UnterminatedEmphasis | src/utils/card-text-parser.ts:44-57 | "*ab" gives [em "ab"]: an unclosed emphasis runs to the end |
| CardText.ConcatenationErasesSwitches | src/utils/card-text-parser.ts:23-54 | the token values joined in order are the input without the skipped characters, each a '$' or '*' that switched state |
| CardText.EmptyTokenOnlyAfterClosingStar | src/utils/card-text-parser.ts:13-18 | an empty token is only ever the last one, a text token, and then the input ends in a '*' that closed an emphasis (skipped, leaving the scanner in text) |
| CardText.ClosingStarLeavesEmptyText | src/utils/card-text-parser.ts:48-57 | conversely, a closing '*' as the last character always leaves a final empty text token |
| CardText.UnclosedEmphasisRunsToEnd | src/utils/card-text-parser.ts:44-57 | an emphasis open at the end starts right after the last skipped '*', holds no '*', and is the final token `src[p+1..]`; when that '*' is the last character it adds nothing |
| CardText.ClosingStarAtEnd | src/utils/card-text-parser.ts:50-57 | "*hi*" gives [em "hi", text ""] |
| CardText.AfterClosingStarUnexamined | src/utils/card-text-parser.ts:52 | "*a*$b" gives [em "a", text "$b"] |
| CardText.EndOfVarUnexamined | src/utils/card-text-parser.ts:29-32 | "$a$b" gives [var "a", text "$b"] |

## Left out

- `start()` is the host loop: an endless `async` loop that awaits one
  animation frame per `update()`. It is replaced by `Interpreter.Run` and
  `Engine.Game.RunSteps` with a step count. WaitAction's `setTimeout` is
  timing only, so a wait is a step that changes nothing.
- The update subscribers (`onUpdate` and the callbacks) are opaque
  closures. They are reduced to the counter `notified`, raised once per
  executed action.
- Console logging is left out.
- The `Math.random` card uid is a caller-supplied integer. It also
  stands for object identity in `indexOf`, `===` and `!==`.
- `RNG.shuffle` comes from a library that is not part of this model. It is
  replaced by Fisher–Yates driven by the supplied draws. The proved property
  is the one any shuffle has: the slots are permuted.
- Wormhole's `Math.random()`: the draw is an arbitrary natural number
  reduced modulo the spell's length.
- The DOM setup of src/index.ts is left out except its order: deck,
  Scrabbler, one StartTurn.
- All rendering is left out: the JSX of CombatScreen.tsx and Encounter.tsx,
  and the components of src/ui.
- `classNames` in src/ui/utils.ts is styling only.
- Encounter's `cast()` and `setActiveCard` are left out. `cast()` assigns
  `game.spell.cards`, a member that does not exist.
- The Card fields `type`, `anchorIndex`, `anchorPriority` and `dispel` are
  left out, because no code in the modelled files reads them. The same holds
  for the card names and descriptions.
- Termination of casting is not proved. Propel and LoopAction can send the
  cursor backwards, so runs are bounded by a step count instead.
- JavaScript numbers are unbounded integers here. Every amount in the code
  is an integer, so no floating-point rounding is modelled.
- In src/game.ts a hole is always `undefined` (`Array.from`, the writes of
  `removeFromSpell`, the test of `addToSpell`), so `None` stands for it there
  exactly. The encounter screen stores both `null` and `undefined` and
  compares them with `!==`, so `Encounter.Entry` keeps the two apart.
- Slots.AddToSpell: a write at a negative index (`this.spell[index] = card`)
  creates an own property of the array, not an element, and
  `removeFromSpell` of an absent card overwrites property "-1" with
  `undefined`. The model keeps no such properties; slots, length and the
  cards in them are modelled exactly. The screens only pass indexes from 0
  to 5.
- GameWorld.CurrentCard: at a negative cursor `spell[cursor]` would return
  a card stored at that negative property by such a write; the model reads
  no slot there. Might never becomes negative in the catalog, so Propel
  never moves the cursor below 0.
- Encounter.Assign: a write at a negative index creates a property, not an
  element, and a later read at that index would see it. The model drops
  such a write, and `EntryAt` reads `undefined` there. The screen only
  passes slot indexes from 0 to 4.
- Strings are sequences of Unicode scalar values, while JavaScript indexes
  UTF-16 code units. Only text containing characters outside the Basic
  Multilingual Plane would tokenize differently.
