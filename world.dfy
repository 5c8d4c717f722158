/**
 * The state of a `Game` (src/game.ts) as one value: the phase, the action
 * queue, the spell and hand, the cursor, the player and the monster.  The
 * imperative `Engine.Game` class is proved against functions on this value.
 */
module GameWorld {
  import opened Optional
  import opened Catalog
  import opened Actions
  import opened Resources
  import opened Slots

  /** The fields of a `Player`: its creature part, and mana and might. */
  datatype PlayerState = PlayerState(body: Vitals, baseMana: int, mana: int, might: int)

  /**
   * The fields of a `Monster`.  `turnStart` and `turnEnd` stand for the
   * `onTurnStart`/`onTurnEnd` hooks the actions call: the actions the hook
   * appends to the back of the queue.
   */
  datatype MonsterState = MonsterState(body: Vitals, attackDamage: int, turnStart: seq<Action>, turnEnd: seq<Action>)

  /**
   * Everything a step can read or change.  `ether` is where banished cards go;
   * `notified` counts how often the update subscribers were called.
   */
  datatype World = World(
    phase: GameState,
    queue: seq<Action>,
    spell: seq<Option<Card>>,
    hand: seq<Card>,
    deck: seq<Card>,
    cursor: int,
    previous: Option<Card>,
    ether: seq<Card>,
    player: PlayerState,
    monster: MonsterState,
    notified: nat)

  /** A new `Player`: 10 of 10 health, base mana 10, mana 10, might 0. */
  const NewPlayer: PlayerState := PlayerState(Vitals(10, 10), 10, 10, 0)

  /** A `Scrabbler`: 20 of 20 health, attack damage 5; it defines neither turn hook. */
  const Scrabbler: MonsterState := MonsterState(Vitals(20, 20), 5, [], [])

  /** A new `Game` with its deck and monster assigned: Initializing, nothing queued or drafted. */
  function Initial(deck: seq<Card>, monster: MonsterState): World
  {
    World(Initializing, [], [], [], deck, 0, None, [], NewPlayer, monster, 0)
  }

  /** Both creatures keep health within [0, maxHealth]. */
  ghost predicate WellFormed(w: World)
  {
    InRange(w.player.body) && InRange(w.monster.body)
  }

  /** `isSpellFinished`. */
  predicate IsSpellFinished(w: World)
  {
    w.cursor >= |w.spell|
  }

  /** `getCurrentCard`: the slot at the cursor, undefined outside the spell. */
  function CurrentCard(w: World): (r: Option<Card>)
    ensures !IsSpellFinished(w) && w.cursor >= 0 ==> r == w.spell[w.cursor]
    ensures IsSpellFinished(w) || w.cursor < 0 ==> r == None
  {
    SlotAt(w.spell, w.cursor)
  }

  /** `hasMana(amount = 1)`. */
  predicate HasMana(p: PlayerState, amount: int := 1)
  {
    p.mana >= amount
  }

  /** What `getCurrentCard` and `hasMana` mean together for the spell loop. */
  lemma SpellReads(w: World, k: CardKind)
    ensures HasMana(w.player) <==> w.player.mana >= 1
    ensures HasMana(w.player, Cost(k)) <==> Cost(k) <= w.player.mana
    ensures w.player.mana >= 0 ==> HasMana(w.player, Cost(Confusion))
    ensures !HasMana(w.player, Cost(Obstacle)) <==> w.player.mana < 99
    ensures CurrentCard(w).Some? ==> !IsSpellFinished(w) && 0 <= w.cursor
  {
  }

  /** `resetSpell`: six empty slots, the hand a copy of the deck, cursor 0. */
  function ResetSpell(w: World): (r: World)
    ensures r.spell == Holes(6) && r.hand == r.deck == w.deck && r.cursor == 0
    ensures r == w.(spell := r.spell, hand := r.hand, cursor := 0)
  {
    w.(spell := Holes(6), hand := w.deck, cursor := 0)
  }

  /** `castSpell`: cursor back to 0 and mana back to the base allotment. */
  function CastSpell(w: World): (r: World)
    ensures r.cursor == 0 && r.player.mana == w.player.baseMana
    ensures r == w.(cursor := 0, player := w.player.(mana := r.player.mana))
  {
    w.(cursor := 0, player := w.player.(mana := w.player.baseMana))
  }
}
