/**
 * What each card's `play` in src/cards.ts does: it reads the game state and
 * passes actions to `addActionTop`, and does nothing else.
 */
module CardPlay {
  import opened Optional
  import opened Catalog
  import opened Actions
  import opened GameWorld

  /** The k-th random draw supplied to a step; 0 once the supply runs out. */
  function Draw(draws: seq<nat>, k: nat): nat
  {
    if k < |draws| then draws[k] else 0
  }

  /** Wormhole's `Math.floor(Math.random() * length)` over the spell's slots. */
  function RandomSlot(w: World, draws: seq<nat>): (i: int)
    ensures |w.spell| > 0 ==> 0 <= i < |w.spell|
    ensures |w.spell| == 0 ==> i == 0
  {
    if |w.spell| == 0 then 0 else Draw(draws, 0) % |w.spell|
  }

  /** Hypothesis, Antithesis and Synthesis test `mana % 2 === 0`, which for a JavaScript integer means even. */
  predicate ManaIsEven(w: World)
  {
    w.player.mana % 2 == 0
  }

  /**
   * The actions a card's `play` passes to `addActionTop`, in the order of the
   * calls.  Amounts are read from the state at play time.
   */
  function Pushes(card: Card, w: World, draws: seq<nat>): seq<Action>
  {
    var might := w.player.might;
    match card.kind
    case Remedy => [HealAction(TargetPlayer, 1)]
    case Bolt => [DamageAction(TargetMonster, 1)]
    case Augment => [ModifyMightAction(1)]
    case Burst => [DamageAction(TargetMonster, might), ResetMightAction]
    case Jump => [JumpToCardAction(w.cursor + 1)]
    case Propel => [JumpToCardAction(might)]
    case Hypothesis => if ManaIsEven(w) then [ModifyManaAction(2)] else []
    case Antithesis => if ManaIsEven(w) then [DamageAction(TargetMonster, 2)] else []
    case Synthesis => if ManaIsEven(w) then [HealAction(TargetPlayer, 2)] else []
    case Justify => [ModifyMightAction(2)]
    case Mystify => [ModifyManaAction(2)]
    case Purify => [HealAction(TargetPlayer, 2)]
    case Amplify => [MultiplyMightAction(2)]
    case Siphon => [HealAction(TargetPlayer, might), ResetMightAction]
    case Again => []
    case Supernova => [DamageAction(TargetMonster, might)]
    case Salvation => [HealAction(TargetPlayer, might), ResetMightAction]
    case Awaken => [ModifyManaAction(might), ResetMightAction]
    case Obstacle => []
    case Fatigue => []
    case Confusion => [ShuffleSpellAction]
    case Wormhole => [JumpToCardAction(RandomSlot(w, draws))]
  }

  /** A run of `addActionTop` calls: each pushed action becomes the new head in turn. */
  function PushAllTop(q: seq<Action>, pushes: seq<Action>): seq<Action>
    decreases |pushes|
  {
    if pushes == [] then q else PushAllTop([pushes[0]] + q, pushes[1..])
  }

  function Reverse<T>(s: seq<T>): (r: seq<T>)
    ensures |r| == |s|
    ensures forall i :: 0 <= i < |s| ==> r[i] == s[|s| - 1 - i]
    decreases |s|
  {
    if s == [] then [] else Reverse(s[1..]) + [s[0]]
  }

  /** After a run of front pushes, the queue starts with the pushes in reverse order, then the old queue. */
  lemma {:induction false} PushAllTopIsReversal(q: seq<Action>, pushes: seq<Action>)
    ensures PushAllTop(q, pushes) == Reverse(pushes) + q
    decreases |pushes|
  {
    if pushes != [] {
      PushAllTopIsReversal([pushes[0]] + q, pushes[1..]);
      assert Reverse(pushes) == Reverse(pushes[1..]) + [pushes[0]];
    }
  }

  /** The effect of `card.play(game)`: the pushes go on top of the queue; nothing else changes. */
  function Play(card: Card, w: World, draws: seq<nat>): World
  {
    w.(queue := PushAllTop(w.queue, Pushes(card, w, draws)))
  }

  /** The actions a play leaves at the front of the queue, in the order they will run. */
  function Front(card: Card, w: World, draws: seq<nat>): seq<Action>
  {
    Reverse(Pushes(card, w, draws))
  }

  /**
   * An action that no card's effect can use to schedule, stop or reorder
   * work: it is none of the control actions that touch the queue or the phase.
   */
  predicate Effect(a: Action)
  {
    !(a.CastSpellAction? || a.TransitionAction? || a.StartTurnAction? || a.EndTurnAction?
      || a.PlayNextCardAction? || a.PlayCardAction? || a.LoopAction?)
  }

  /**
   * A play only puts actions on the front of the queue: it changes neither
   * health, mana, might, spell, hand nor cursor, and every action it puts
   * there is a plain effect that schedules nothing itself.
   */
  lemma {:induction false} PlayOnlyPushesFront(card: Card, w: World, draws: seq<nat>)
    ensures Play(card, w, draws) == w.(queue := Front(card, w, draws) + w.queue)
    ensures |Front(card, w, draws)| <= 2
    ensures forall a :: a in Front(card, w, draws) ==> Effect(a)
  {
    PushAllTopIsReversal(w.queue, Pushes(card, w, draws));
  }

  /** Remedy, Bolt and Augment each push exactly one fixed action. */
  lemma SingleEffectCards(c: Card, w: World, draws: seq<nat>)
    ensures c.kind == Remedy ==> Front(c, w, draws) == [HealAction(TargetPlayer, 1)]
    ensures c.kind == Bolt ==> Front(c, w, draws) == [DamageAction(TargetMonster, 1)]
    ensures c.kind == Augment ==> Front(c, w, draws) == [ModifyMightAction(1)]
  {
  }

  /**
   * Burst, Siphon, Salvation and Awaken read might when played and push
   * ResetMight last, so ResetMight runs first; the amount they apply is the
   * might read at play time.
   */
  lemma MightCaptureCards(c: Card, w: World, draws: seq<nat>)
    requires c.kind in {Burst, Siphon, Salvation, Awaken}
    ensures |Front(c, w, draws)| == 2 && Front(c, w, draws)[0] == ResetMightAction
    ensures c.kind == Burst ==> Front(c, w, draws)[1] == DamageAction(TargetMonster, w.player.might)
    ensures c.kind in {Siphon, Salvation} ==> Front(c, w, draws)[1] == HealAction(TargetPlayer, w.player.might)
    ensures c.kind == Awaken ==> Front(c, w, draws)[1] == ModifyManaAction(w.player.might)
  {
  }

  /** Hypothesis, Antithesis and Synthesis push their one action exactly when mana is even at play time. */
  lemma ParityCards(c: Card, w: World, draws: seq<nat>)
    requires c.kind in {Hypothesis, Antithesis, Synthesis}
    ensures Front(c, w, draws) != [] <==> w.player.mana % 2 == 0
    ensures |Front(c, w, draws)| <= 1
    ensures c.kind == Hypothesis ==>
      Front(c, w, draws) == (if w.player.mana % 2 == 0 then [ModifyManaAction(2)] else [])
    ensures c.kind == Antithesis ==>
      Front(c, w, draws) == (if w.player.mana % 2 == 0 then [DamageAction(TargetMonster, 2)] else [])
    ensures c.kind == Synthesis ==>
      Front(c, w, draws) == (if w.player.mana % 2 == 0 then [HealAction(TargetPlayer, 2)] else [])
  {
  }

  /**
   * Justify, Mystify, Purify and Amplify push the same action whatever the
   * state, although their descriptions say "If might is even".
   */
  lemma UnconditionalCards(c: Card, w: World, w': World, draws: seq<nat>, draws': seq<nat>)
    requires c.kind in {Justify, Mystify, Purify, Amplify}
    ensures Front(c, w, draws) == Front(c, w', draws')
    ensures |Front(c, w, draws)| == 1
    ensures c.kind == Justify ==> Front(c, w, draws) == [ModifyMightAction(2)]
    ensures c.kind == Mystify ==> Front(c, w, draws) == [ModifyManaAction(2)]
    ensures c.kind == Purify ==> Front(c, w, draws) == [HealAction(TargetPlayer, 2)]
    ensures c.kind == Amplify ==> Front(c, w, draws) == [MultiplyMightAction(2)]
  {
  }

  /** Obstacle, Fatigue and Again do nothing when played; Confusion only pushes a shuffle. */
  lemma InertCards(c: Card, w: World, draws: seq<nat>)
    ensures c.kind in {Obstacle, Fatigue, Again} ==> Play(c, w, draws) == w
    ensures c.kind == Confusion ==> Front(c, w, draws) == [ShuffleSpellAction]
  {
  }

  /**
   * Jump, Propel and Wormhole each push one jump.  Jump's target is the slot
   * after the cursor; Propel's is the value of might, whatever the cursor;
   * Wormhole's is a slot of the spell.
   */
  lemma JumpCards(c: Card, w: World, draws: seq<nat>, cursor': int)
    requires c.kind in {Jump, Propel, Wormhole}
    ensures |Front(c, w, draws)| == 1 && Front(c, w, draws)[0].JumpToCardAction?
    ensures c.kind == Jump ==> Front(c, w, draws)[0].index == w.cursor + 1
    ensures c.kind == Propel ==> Front(c, w, draws) == Front(c, w.(cursor := cursor'), draws)
    ensures c.kind == Propel ==> Front(c, w, draws)[0].index == w.player.might
    ensures c.kind == Wormhole && |w.spell| > 0 ==> 0 <= Front(c, w, draws)[0].index < |w.spell|
  {
  }
}
