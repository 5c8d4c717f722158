/**
 * Several interpreter steps in a row: how a spell is cast card by card,
 * where a turn stops, and how the captured-might cards resolve.
 */
module Scenarios {
  import opened Optional
  import opened Catalog
  import opened Actions
  import opened Resources
  import opened Slots
  import opened GameWorld
  import opened CardPlay
  import opened Interpreter
  import opened InterpreterFacts

  /** Neither creature is at 0 health, so no step empties the queue. */
  predicate Alive(w: World)
  {
    w.player.body.health > 0 && w.monster.body.health > 0
  }

  /** Running `a` steps and then `b` more from step number `i + a` is running `a + b` steps. */
  lemma {:induction false} RunAdd(w: World, a: nat, b: nat, rounds: seq<seq<nat>>, i: nat)
    ensures Run(w, a + b, rounds, i) == Run(Run(w, a, rounds, i), b, rounds, i + a)
    decreases a
  {
    if a > 0 {
      RunAdd(Step(w, DrawsAt(rounds, i)), a - 1, b, rounds, i + 1);
    }
  }

  /** `a` steps reaching `mid`, then `b` steps from `mid` from step number `i + a` on, reach `goal`. */
  lemma RunThen(w: World, a: nat, b: nat, n: nat, rounds: seq<seq<nat>>, i: nat, mid: World, goal: World)
    requires n == a + b
    requires Run(w, a, rounds, i) == mid && Run(mid, b, rounds, i + a) == goal
    ensures Run(w, n, rounds, i) == goal
  {
    RunAdd(w, a, b, rounds, i);
  }

  /** A step whose head is allowed and kills no one: the head runs on the rest, notified once. */
  lemma StepRuns(w: World, a: Action, rest: seq<Action>, draws: seq<nat>)
    requires w.queue == [a] + rest && Permitted(a, w.phase)
    requires !SomeoneDied(Execute(w.(queue := rest), a, draws))
    ensures Step(w, draws) == Execute(w.(queue := rest), a, draws).(notified := w.notified + 1)
  {
    assert w.queue[0] == a && w.queue[1..] == rest;
    ExecuteKeepsCount(w.(queue := rest), a, draws);
  }

  /** A step whose head is not allowed in the phase: it is only removed. */
  lemma StepDrops(w: World, a: Action, rest: seq<Action>, draws: seq<nat>)
    requires w.queue == [a] + rest && !Permitted(a, w.phase)
    ensures Step(w, draws) == w.(queue := rest)
  {
    assert w.queue[0] == a && w.queue[1..] == rest;
  }

  /**
   * When PlayNextCard stops (the spell is finished, or the current card
   * costs more than the mana left), the next four steps end the turn and
   * drop the StartTurn that EndTurn schedules, since the phase is still
   * Casting: the queue runs dry with mana, cursor, spell and phase as they
   * were.
   */
  lemma StopStrandsTurn(w: World, rounds: seq<seq<nat>>, i: nat)
    requires w.phase == Casting && w.queue == [PlayNextCardAction]
    requires IsSpellFinished(w) || (CurrentCard(w).Some? && w.player.mana < Cost(CurrentCard(w).value.kind))
    requires Alive(w) && w.monster.turnEnd == []
    ensures Run(w, 4, rounds, i) == w.(queue := [], notified := w.notified + 3)
  {
    var w0 := w.(queue := []);
    assert Execute(w0, PlayNextCardAction, DrawsAt(rounds, i)) == w.(queue := [EndTurnAction]);
    StepRuns(w, PlayNextCardAction, [], DrawsAt(rounds, i));
    var w1 := w.(queue := [EndTurnAction], notified := w.notified + 1);
    assert Step(w, DrawsAt(rounds, i)) == w1;
    assert Execute(w1.(queue := []), EndTurnAction, DrawsAt(rounds, i + 1)) == w1.(queue := [WaitAction(800), StartTurnAction]);
    StepRuns(w1, EndTurnAction, [], DrawsAt(rounds, i + 1));
    var w2 := w1.(queue := [WaitAction(800), StartTurnAction], notified := w.notified + 2);
    assert Step(w1, DrawsAt(rounds, i + 1)) == w2;
    StepRuns(w2, WaitAction(800), [StartTurnAction], DrawsAt(rounds, i + 2));
    var w3 := w2.(queue := [StartTurnAction], notified := w.notified + 3);
    assert Step(w2, DrawsAt(rounds, i + 2)) == w3;
    StepDrops(w3, StartTurnAction, [], DrawsAt(rounds, i + 3));
    assert Run(w, 4, rounds, i) == Run(w3, 1, rounds, i + 3);
  }

  /**
   * An empty slot costs nothing: of any `n >= 3` steps, the first three
   * advance the cursor and reschedule PlayNextCard.
   */
  lemma EmptySlotAdvances(w: World, rounds: seq<seq<nat>>, i: nat, n: nat)
    requires w.phase == Casting && w.queue == [PlayNextCardAction]
    requires 0 <= w.cursor < |w.spell| && w.spell[w.cursor].None?
    requires Alive(w) && n >= 3
    ensures Run(w, n, rounds, i) ==
      Run(w.(queue := [PlayNextCardAction], cursor := w.cursor + 1, notified := w.notified + 3), n - 3, rounds, i + 3)
  {
    var rest := [WaitAction(800), PlayNextCardAction];
    assert Execute(w.(queue := []), PlayNextCardAction, DrawsAt(rounds, i)) == w.(queue := [JumpToCardAction(w.cursor + 1)] + rest);
    StepRuns(w, PlayNextCardAction, [], DrawsAt(rounds, i));
    var w1 := w.(queue := [JumpToCardAction(w.cursor + 1)] + rest, notified := w.notified + 1);
    assert Run(w, n, rounds, i) == Run(w1, n - 1, rounds, i + 1);
    StepRuns(w1, JumpToCardAction(w.cursor + 1), rest, DrawsAt(rounds, i + 1));
    var w2 := w1.(queue := rest, cursor := w.cursor + 1, notified := w.notified + 2);
    assert Run(w1, n - 1, rounds, i + 1) == Run(w2, n - 2, rounds, i + 2);
    StepRuns(w2, WaitAction(800), [PlayNextCardAction], DrawsAt(rounds, i + 2));
  }

  /**
   * A run of empty slots up to the end of the spell: three steps per slot,
   * then four in which the turn ends and strands as in `StopStrandsTurn`.
   */
  lemma {:induction false} EmptyTailRunsOut(w: World, rounds: seq<seq<nat>>, i: nat, n: nat)
    requires w.phase == Casting && w.queue == [PlayNextCardAction]
    requires 0 <= w.cursor <= |w.spell|
    requires forall j :: w.cursor <= j < |w.spell| ==> w.spell[j].None?
    requires Alive(w) && w.monster.turnEnd == []
    requires n == 3 * (|w.spell| - w.cursor) + 4
    ensures Run(w, n, rounds, i) == w.(queue := [], cursor := |w.spell|, notified := w.notified + n - 1)
    decreases |w.spell| - w.cursor
  {
    if w.cursor == |w.spell| {
      StopStrandsTurn(w, rounds, i);
    } else {
      var w3 := w.(queue := [PlayNextCardAction], cursor := w.cursor + 1, notified := w.notified + 3);
      EmptyTailRunsOut(w3, rounds, i + 3, n - 3);
      EmptySlotThen(w, w3, rounds, i, n);
    }
  }

  /** The first empty slot's three steps, followed by the run from the next slot. */
  lemma EmptySlotThen(w: World, w3: World, rounds: seq<seq<nat>>, i: nat, n: nat)
    requires w.phase == Casting && w.queue == [PlayNextCardAction]
    requires 0 <= w.cursor < |w.spell| && w.spell[w.cursor].None?
    requires Alive(w) && n >= 3
    requires w3 == w.(queue := [PlayNextCardAction], cursor := w.cursor + 1, notified := w.notified + 3)
    requires Run(w3, n - 3, rounds, i + 3) == w3.(queue := [], cursor := |w.spell|, notified := w3.notified + n - 4)
    ensures Run(w, n, rounds, i) == w.(queue := [], cursor := |w.spell|, notified := w.notified + n - 1)
  {
    EmptySlotAdvances(w, rounds, i, n);
  }

  /** The world after PlayNextCard's payment and cursor advance for a card of kind `k`. */
  function Paid(w: World, k: CardKind): World
  {
    w.(player := w.player.(mana := w.player.mana - Cost(k)), cursor := w.cursor + 1)
  }

  /**
   * A card the player can afford: pay its cost, advance the cursor, then
   * play it.  Its pushes sit in front of the Wait and the next PlayNextCard,
   * with amounts read after the payment and the advance, and with the
   * draws of the fourth step, the one that plays it.
   */
  lemma AffordableCardPlays(w: World, c: Card, rounds: seq<seq<nat>>, i: nat)
    requires w.phase == Casting && w.queue == [PlayNextCardAction]
    requires 0 <= w.cursor < |w.spell| && w.spell[w.cursor] == Some(c)
    requires Cost(c.kind) <= w.player.mana
    requires Alive(w)
    ensures var paid := Paid(w, c.kind);
      var draws := DrawsAt(rounds, i + 3);
      Run(w, 4, rounds, i) == paid.(queue := Front(c, paid, draws) + [WaitAction(800), PlayNextCardAction],
                                 previous := Some(c), notified := w.notified + 4)
  {
    var paid := Paid(w, c.kind);
    var rest := [WaitAction(800), PlayNextCardAction];
    PayAndAdvance(w, c, rounds, i);
    PaidCardPlays(w, c, rounds, i + 3);
    RunThen(w, 3, 1, 4, rounds, i, paid.(queue := [PlayCardAction(c)] + rest, notified := w.notified + 3),
            paid.(queue := Front(c, paid, DrawsAt(rounds, i + 3)) + rest, previous := Some(c), notified := w.notified + 4));
  }

  /** The fourth step of an affordable card: PlayCard, on the world after payment and advance. */
  lemma PaidCardPlays(w: World, c: Card, rounds: seq<seq<nat>>, i: nat)
    requires w.phase == Casting && Alive(w) && Cost(c.kind) <= w.player.mana
    ensures var paid := Paid(w, c.kind);
      var rest := [WaitAction(800), PlayNextCardAction];
      Run(paid.(queue := [PlayCardAction(c)] + rest, notified := w.notified + 3), 1, rounds, i) ==
        paid.(queue := Front(c, paid, DrawsAt(rounds, i)) + rest, previous := Some(c), notified := w.notified + 4)
  {
    var rest := [WaitAction(800), PlayNextCardAction];
    var draws := DrawsAt(rounds, i);
    var w3 := Paid(w, c.kind).(queue := [PlayCardAction(c)] + rest, notified := w.notified + 3);
    PlayCardFrontRunsFirst(w3.(queue := rest), c, draws);
    assert Front(c, w3.(queue := rest), draws) == Front(c, Paid(w, c.kind), draws);
    StepRuns(w3, PlayCardAction(c), rest, draws);
  }

  /** The first three steps of an affordable card: the payment, the advance, and PlayCard next. */
  lemma PayAndAdvance(w: World, c: Card, rounds: seq<seq<nat>>, i: nat)
    requires w.phase == Casting && w.queue == [PlayNextCardAction]
    requires 0 <= w.cursor < |w.spell| && w.spell[w.cursor] == Some(c)
    requires Cost(c.kind) <= w.player.mana
    requires Alive(w)
    ensures Run(w, 3, rounds, i) ==
      Paid(w, c.kind).(queue := [PlayCardAction(c), WaitAction(800), PlayNextCardAction], notified := w.notified + 3)
  {
    var cost := -(Cost(c.kind) as int);
    var paid := Paid(w, c.kind);
    var rest := [PlayCardAction(c), WaitAction(800), PlayNextCardAction];
    var q1 := [ModifyManaAction(cost), JumpToCardAction(w.cursor + 1)] + rest;
    assert Execute(w.(queue := []), PlayNextCardAction, DrawsAt(rounds, i)) == w.(queue := q1);
    StepRuns(w, PlayNextCardAction, [], DrawsAt(rounds, i));
    var w1 := w.(queue := q1, notified := w.notified + 1);
    assert Step(w, DrawsAt(rounds, i)) == w1;
    var q2 := [JumpToCardAction(w.cursor + 1)] + rest;
    StepRuns(w1, ModifyManaAction(cost), q2, DrawsAt(rounds, i + 1));
    var w2 := w1.(queue := q2, player := paid.player, notified := w.notified + 2);
    assert Step(w1, DrawsAt(rounds, i + 1)) == w2;
    StepRuns(w2, JumpToCardAction(w.cursor + 1), rest, DrawsAt(rounds, i + 2));
    assert Run(w, 3, rounds, i) == Run(Step(w2, DrawsAt(rounds, i + 2)), 0, rounds, i + 3);
  }

  /**
   * Hypothesis reads the parity of the mana left after its own cost has
   * been paid (`AffordableCardPlays`): with `m` mana before PlayNextCard,
   * it adds 2 mana exactly when `m - 1` is even.
   */
  lemma ParityReadAfterPayment(w: World, c: Card, draws: seq<nat>)
    requires c.kind == Hypothesis
    ensures Front(c, Paid(w, c.kind), draws) ==
      if (w.player.mana - 1) % 2 == 0 then [ModifyManaAction(2)] else []
  {
    var paid := Paid(w, c.kind);
    assert paid.player.mana == w.player.mana - 1;
    ParityCards(c, paid, draws);
  }

  /**
   * Augment then Burst: the monster takes the might accumulated so far plus
   * one, through `damage` (so clamped at 0), and might ends at 0.
   */
  lemma AugmentThenBurst(w: World, a: Card, b: Card, rounds: seq<seq<nat>>, i: nat)
    requires w.phase == Casting && a.kind == Augment && b.kind == Burst
    requires w.queue == [PlayCardAction(a), PlayCardAction(b)]
    requires Alive(w)
    ensures var m := w.player.might + 1;
      Run(w, 5, rounds, i) == w.(queue := [], player := w.player.(might := 0),
                             monster := w.monster.(body := Damage(w.monster.body, m)),
                             previous := Some(b), notified := w.notified + 5)
    ensures InRange(w.monster.body) && 0 <= w.player.might ==>
      Run(w, 5, rounds, i).monster.body.health ==
        if w.monster.body.health > w.player.might + 1 then w.monster.body.health - (w.player.might + 1) else 0
  {
    AugmentRaisesMight(w, a, [PlayCardAction(b)], rounds, i);
    var w2 := w.(queue := [PlayCardAction(b)], player := w.player.(might := w.player.might + 1),
                 previous := Some(a), notified := w.notified + 2);
    CaptureCards(w2, b, rounds, i + 2);
    BurstResolves(w2, b, rounds, i + 2);
    RunAdd(w, 2, 3, rounds, i);
  }

  /** Augment played: two steps raise might by one and leave the rest of the queue as it was. */
  lemma AugmentRaisesMight(w: World, a: Card, rest: seq<Action>, rounds: seq<seq<nat>>, i: nat)
    requires w.phase == Casting && a.kind == Augment
    requires w.queue == [PlayCardAction(a)] + rest
    requires Alive(w)
    ensures Run(w, 2, rounds, i) == w.(queue := rest, player := w.player.(might := w.player.might + 1),
                                    previous := Some(a), notified := w.notified + 2)
  {
    var d0 := DrawsAt(rounds, i);
    SingleEffectCards(a, w.(queue := rest), d0);
    PlayCardFrontRunsFirst(w.(queue := rest), a, d0);
    StepRuns(w, PlayCardAction(a), rest, d0);
    var w1 := w.(queue := [ModifyMightAction(1)] + rest, previous := Some(a), notified := w.notified + 1);
    assert Step(w, d0) == w1;
    StepRuns(w1, ModifyMightAction(1), rest, DrawsAt(rounds, i + 1));
    assert Run(w, 2, rounds, i) == Run(Step(w1, DrawsAt(rounds, i + 1)), 0, rounds, i + 2);
  }

  /** Burst played alone: what `CaptureCards` leaves, written out as one world. */
  lemma BurstResolves(w: World, b: Card, rounds: seq<seq<nat>>, i: nat)
    requires w.phase == Casting && w.queue == [PlayCardAction(b)] && b.kind == Burst
    requires Alive(w)
    ensures Run(w, 3, rounds, i) == w.(queue := [], player := w.player.(might := 0),
                                    monster := w.monster.(body := Damage(w.monster.body, w.player.might)),
                                    previous := Some(b), notified := w.notified + 3)
  {
    MightCardPlays(w, b, rounds, i);
    MightCaptureCards(b, w.(queue := []), DrawsAt(rounds, i));
  }

  /**
   * Burst, Siphon, Salvation and Awaken push ResetMight last, so it runs
   * first; the might they captured at play time is applied all the same.
   */
  lemma CaptureCards(w: World, c: Card, rounds: seq<seq<nat>>, i: nat)
    requires w.phase == Casting && w.queue == [PlayCardAction(c)]
    requires Alive(w)
    requires c.kind in {Burst, Siphon, Salvation, Awaken}
    ensures var m := w.player.might;
      var r := Run(w, 3, rounds, i);
      && r.player.might == 0 && r.queue == [] && r.previous == Some(c)
      && (c.kind == Burst ==> r.monster.body == Damage(w.monster.body, m) && r.player.body == w.player.body)
      && (c.kind in {Siphon, Salvation} ==> r.player.body == ModifyHealth(w.player.body, m) && r.monster == w.monster)
      && (c.kind == Awaken ==> r.player.mana == w.player.mana + m && r.player.body == w.player.body && r.monster == w.monster)
  {
    MightCardPlays(w, c, rounds, i);
    var d0 := DrawsAt(rounds, i);
    MightCaptureCards(c, w.(queue := []), d0);
    var effect := Front(c, w.(queue := []), d0)[1];
    var w2 := w.(queue := [effect], player := w.player.(might := 0), previous := Some(c), notified := w.notified + 2);
    EffectStep(w2, effect, DrawsAt(rounds, i + 2));
  }

  /** The last step of a might-capturing card: its one effect, on the player or the monster. */
  lemma EffectStep(w: World, effect: Action, draws: seq<nat>)
    requires w.phase == Casting && w.queue == [effect]
    requires || (effect.DamageAction? && effect.target == TargetMonster)
             || (effect.HealAction? && effect.target == TargetPlayer)
             || effect.ModifyManaAction?
    ensures var r := Step(w, draws);
      && r.player.might == w.player.might && r.queue == [] && r.previous == w.previous
      && (effect.DamageAction? && effect.target == TargetMonster ==>
            r.monster.body == Damage(w.monster.body, effect.amount) && r.player.body == w.player.body)
      && (effect.HealAction? && effect.target == TargetPlayer ==>
            r.player.body == ModifyHealth(w.player.body, effect.amount) && r.monster == w.monster)
      && (effect.ModifyManaAction? ==>
            r.player.mana == w.player.mana + effect.amount && r.player.body == w.player.body && r.monster == w.monster)
  {
  }

  /**
   * The first two of the three steps of a might-capturing card: play it,
   * then ResetMight; left is one step running the captured effect.
   */
  lemma MightCardPlays(w: World, c: Card, rounds: seq<seq<nat>>, i: nat)
    requires w.phase == Casting && w.queue == [PlayCardAction(c)]
    requires Alive(w)
    requires c.kind in {Burst, Siphon, Salvation, Awaken}
    ensures var effect := Front(c, w.(queue := []), DrawsAt(rounds, i))[1];
      Run(w, 3, rounds, i) ==
        Step(w.(queue := [effect], player := w.player.(might := 0), previous := Some(c), notified := w.notified + 2),
             DrawsAt(rounds, i + 2))
  {
    var d0 := DrawsAt(rounds, i);
    var w0 := w.(queue := []);
    MightCaptureCards(c, w0, d0);
    PlayCardFrontRunsFirst(w0, c, d0);
    var effect := Front(c, w0, d0)[1];
    var front := [ResetMightAction, effect];
    assert Front(c, w0, d0) == front;
    StepRuns(w, PlayCardAction(c), [], d0);
    var w1 := w.(queue := front, previous := Some(c), notified := w.notified + 1);
    assert Step(w, d0) == w1;
    StepRuns(w1, ResetMightAction, [effect], DrawsAt(rounds, i + 1));
    var w2 := w1.(queue := [effect], player := w.player.(might := 0), notified := w.notified + 2);
    assert Step(w1, DrawsAt(rounds, i + 1)) == w2;
    assert Run(w, 3, rounds, i) == Run(w2, 1, rounds, i + 2);
  }

  /**
   * The Scrabbler's attack, Damage(player, 5), lands only when it is
   * dequeued in Casting; in any other phase it is dropped and nothing else
   * changes.
   */
  lemma ScrabblerAttack(w: World, draws: seq<nat>)
    requires w.queue == [DamageAction(TargetPlayer, Scrabbler.attackDamage)]
    requires w.monster.body.health > 0
    ensures w.phase == Casting ==>
      Step(w, draws) == w.(queue := [], player := w.player.(body := Damage(w.player.body, 5)), notified := w.notified + 1)
    ensures w.phase != Casting ==> Step(w, draws) == w.(queue := [])
  {
  }

  /** The setup of src/index.ts: a fresh game, a Scrabbler and one StartTurn. */
  function Opening(deck: seq<Card>): (w: World)
    ensures w.phase == Initializing && w.queue == [StartTurnAction] && w.deck == deck
  {
    Initial(deck, Scrabbler).(queue := [StartTurnAction])
  }

  /**
   * The first turn: StartTurn (allowed in Initializing) resets the spell
   * and queues the move to Drafting.  Casting the six-hole spell that the
   * turn starts with walks all six slots, ends the turn and drops the new
   * StartTurn while still in Casting; from then on a CastSpell is dropped
   * too, so the game cannot leave Casting.
   */
  lemma FirstCastStrandsGame(deck: seq<Card>, rounds: seq<seq<nat>>, later: nat, draws: seq<nat>)
    ensures var drafting := Run(Opening(deck), 2, rounds, 0);
      && drafting == Opening(deck).(phase := Drafting, queue := [], spell := Holes(6), hand := deck, notified := 2)
      && var cast := Run(drafting.(queue := [CastSpellAction]), 3 + 3 * 6 + 4, rounds, later);
      && cast == drafting.(phase := Casting, queue := [], cursor := 6, notified := 2 + 3 + 3 * 6 + 3)
      && Step(cast.(queue := [CastSpellAction]), draws) == cast
  {
    OpeningDrafts(deck, rounds, 0);
    var drafting := Opening(deck).(phase := Drafting, queue := [], spell := Holes(6), hand := deck, notified := 2);
    var start := drafting.(queue := [CastSpellAction]);
    var s3 := start.(phase := Casting, queue := [PlayNextCardAction], notified := 5);
    EmptyTailRunsOut(s3, rounds, later + 3, 3 * 6 + 4);
    var cast := s3.(queue := [], cursor := 6, notified := 5 + 3 * 6 + 3);
    CastThen(start, s3, cast, rounds, later, 3 + 3 * 6 + 4);
    StepDrops(cast.(queue := [CastSpellAction]), CastSpellAction, [], draws);
  }


  /** The opening StartTurn runs in Initializing and moves the game to Drafting with six holes. */
  lemma OpeningDrafts(deck: seq<Card>, rounds: seq<seq<nat>>, i: nat)
    ensures Run(Opening(deck), 2, rounds, i) ==
      Opening(deck).(phase := Drafting, queue := [], spell := Holes(6), hand := deck, notified := 2)
  {
    var w0 := Opening(deck);
    StepRuns(w0, StartTurnAction, [], DrawsAt(rounds, i));
    var w1 := w0.(queue := [TransitionAction(Drafting)], spell := Holes(6), hand := deck, notified := 1);
    assert Step(w0, DrawsAt(rounds, i)) == w1;
    StepRuns(w1, TransitionAction(Drafting), [], DrawsAt(rounds, i + 1));
    assert Run(w0, 2, rounds, i) == Run(Step(w1, DrawsAt(rounds, i + 1)), 0, rounds, i + 2);
  }

  /** CastSpell's three steps, followed by the run from the first PlayNextCard. */
  lemma CastThen(w: World, s3: World, goal: World, rounds: seq<seq<nat>>, i: nat, n: nat)
    requires w.phase == Drafting && w.queue == [CastSpellAction] && Alive(w) && n >= 3
    requires s3 == w.(phase := Casting, queue := [PlayNextCardAction], cursor := 0,
                      player := w.player.(mana := w.player.baseMana), notified := w.notified + 3)
    requires Run(s3, n - 3, rounds, i + 3) == goal
    ensures Run(w, n, rounds, i) == goal
  {
    CastBegins(w, rounds, i);
    RunThen(w, 3, n - 3, n, rounds, i, s3, goal);
  }

  /** CastSpell in Drafting: three steps reset cursor and mana, enter Casting and reach PlayNextCard. */
  lemma CastBegins(w: World, rounds: seq<seq<nat>>, i: nat)
    requires w.phase == Drafting && w.queue == [CastSpellAction] && Alive(w)
    ensures Run(w, 3, rounds, i) == w.(phase := Casting, queue := [PlayNextCardAction], cursor := 0,
                                    player := w.player.(mana := w.player.baseMana), notified := w.notified + 3)
  {
    var rest := [WaitAction(500), PlayNextCardAction];
    var cast := CastSpell(w);
    StepRuns(w, CastSpellAction, [], DrawsAt(rounds, i));
    var s1 := cast.(queue := [TransitionAction(Casting)] + rest, notified := w.notified + 1);
    assert Step(w, DrawsAt(rounds, i)) == s1;
    StepRuns(s1, TransitionAction(Casting), rest, DrawsAt(rounds, i + 1));
    var s2 := s1.(phase := Casting, queue := rest, notified := w.notified + 2);
    assert Step(s1, DrawsAt(rounds, i + 1)) == s2;
    StepRuns(s2, WaitAction(500), [PlayNextCardAction], DrawsAt(rounds, i + 2));
    assert Run(w, 3, rounds, i) == Run(Step(s2, DrawsAt(rounds, i + 2)), 0, rounds, i + 3);
  }
}
