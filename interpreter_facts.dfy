/** Properties of one interpreter step and of each action's `update`. */
module InterpreterFacts {
  import opened Optional
  import opened Catalog
  import opened Actions
  import opened Resources
  import opened Slots
  import opened GameWorld
  import opened CardPlay
  import opened Interpreter

  /** A step on an empty queue changes nothing. */
  lemma EmptyQueueStep(w: World, draws: seq<nat>)
    requires w.queue == []
    ensures Step(w, draws) == w
  {
  }

  /**
   * A dequeued action whose allowed-state list excludes the phase is removed
   * and nothing else happens: no effect, no notification, no death check.
   */
  lemma DroppedActionOnlyLeavesQueue(w: World, draws: seq<nat>)
    requires w.queue != [] && !Permitted(w.queue[0], w.phase)
    ensures Step(w, draws) == w.(queue := w.queue[1..])
    ensures Step(w, draws).notified == w.notified
  {
  }

  /**
   * An executed action is removed from the queue before it runs, notifies the
   * subscribers exactly once, and if it leaves either creature at 0 health
   * the queue is empty afterwards.
   */
  lemma ExecutedActionStep(w: World, draws: seq<nat>)
    requires w.queue != [] && Permitted(w.queue[0], w.phase)
    ensures var r := Execute(w.(queue := w.queue[1..]), w.queue[0], draws);
      Step(w, draws) == (if SomeoneDied(r) then r.(queue := [], notified := r.notified + 1) else r.(notified := r.notified + 1))
    ensures Step(w, draws).notified == Execute(w.(queue := w.queue[1..]), w.queue[0], draws).notified + 1
    ensures SomeoneDied(Step(w, draws)) ==> Step(w, draws).queue == []
  {
  }

  /** Actions never change the notification count themselves. */
  lemma ExecuteKeepsCount(w: World, a: Action, draws: seq<nat>)
    ensures Execute(w, a, draws).notified == w.notified
    ensures Execute(w, a, draws).deck == w.deck
  {
  }

  /** Only the health actions touch health, and each goes through the clamp. */
  lemma {:induction false} ExecuteKeepsWellFormed(w: World, a: Action, draws: seq<nat>)
    requires WellFormed(w)
    ensures WellFormed(Execute(w, a, draws))
    ensures Execute(w, a, draws).player.body.maxHealth == w.player.body.maxHealth
    ensures Execute(w, a, draws).monster.body.maxHealth == w.monster.body.maxHealth
  {
    match a
    case HealAction(t, n) => assert InRange(ModifyHealth(VitalsOf(w, t), n));
    case DamageAction(t, n) => assert InRange(Damage(VitalsOf(w, t), n));
    case ModifyHealthAction(t, n) => assert InRange(ModifyHealth(VitalsOf(w, t), n));
    case SetHealthAction(t, n) => assert InRange(SetHealth(VitalsOf(w, t), n));
    case _ =>
  }

  /** Health stays within [0, maxHealth] across any number of steps. */
  lemma {:induction false} RunKeepsWellFormed(w: World, n: nat, rounds: seq<seq<nat>>, k: nat)
    requires WellFormed(w)
    ensures WellFormed(Run(w, n, rounds, k))
    decreases n
  {
    if n > 0 {
      if w.queue != [] && Permitted(w.queue[0], w.phase) {
        ExecuteKeepsWellFormed(w.(queue := w.queue[1..]), w.queue[0], DrawsAt(rounds, k));
      }
      RunKeepsWellFormed(Step(w, DrawsAt(rounds, k)), n - 1, rounds, k + 1);
    }
  }

  /** What an action puts at the front of the queue. */
  function FrontOf(a: Action, w: World, draws: seq<nat>): seq<Action>
  {
    match a
    case PlayCardAction(c) => Front(c, w, draws)
    case LoopAction => if LoopFrom(w.spell, w.cursor).Some? then [JumpToCardAction(LoopFrom(w.spell, w.cursor).value)] else []
    case _ => []
  }

  /** What an action appends to the back of the queue. */
  function BackOf(a: Action, w: World): seq<Action>
  {
    match a
    case CastSpellAction => [TransitionAction(Casting), WaitAction(500), PlayNextCardAction]
    case StartTurnAction => [TransitionAction(Drafting)] + w.monster.turnStart
    case PlayNextCardAction => PlayNext(w).queue[|w.queue|..]
    case _ => []
  }

  /**
   * Every action except EndTurn keeps the pending queue intact in the
   * middle: it only adds in front (a play, a loop) or at the back (cast,
   * start of turn, next card).  EndTurn discards what is pending.
   */
  lemma {:induction false} QueueDiscipline(w: World, a: Action, draws: seq<nat>)
    requires !a.EndTurnAction?
    ensures Execute(w, a, draws).queue == FrontOf(a, w, draws) + w.queue + BackOf(a, w)
  {
    match a
    case PlayCardAction(c) => PlayOnlyPushesFront(c, w, draws);
    case PlayNextCardAction =>
      var q := PlayNext(w).queue;
      assert q == w.queue + q[|w.queue|..];
    case _ =>
  }

  /**
   * PlayNextCard changes nothing but the back of the queue.  It appends
   * exactly one EndTurn when the spell is finished or the current card costs
   * more than the mana; otherwise it appends the continuation, which pays only
   * for a present card.
   */
  lemma PlayNextAppends(w: World)
    ensures PlayNext(w) == w.(queue := PlayNext(w).queue)
    ensures |PlayNext(w).queue| > |w.queue| && PlayNext(w).queue[..|w.queue|] == w.queue
    ensures var stop := IsSpellFinished(w) || (CurrentCard(w).Some? && w.player.mana < Cost(CurrentCard(w).value.kind));
      (PlayNext(w).queue[|w.queue|..] == [EndTurnAction]) <==> stop
    ensures !IsSpellFinished(w) && CurrentCard(w).Some? && w.player.mana >= Cost(CurrentCard(w).value.kind) ==>
      PlayNext(w).queue[|w.queue|..] ==
        [ModifyManaAction(-(Cost(CurrentCard(w).value.kind) as int)), JumpToCardAction(w.cursor + 1),
         PlayCardAction(CurrentCard(w).value), WaitAction(800), PlayNextCardAction]
    ensures !IsSpellFinished(w) && CurrentCard(w).None? ==>
      PlayNext(w).queue[|w.queue|..] == [JumpToCardAction(w.cursor + 1), WaitAction(800), PlayNextCardAction]
  {
    var q := PlayNext(w).queue;
    assert q == w.queue + q[|w.queue|..];
  }

  /** CastSpell resets cursor and mana, leaves the phase, and appends Transition(Casting), Wait(500), PlayNextCard. */
  lemma CastSpellSchedules(w: World, draws: seq<nat>)
    ensures var r := Execute(w, CastSpellAction, draws);
      && r.cursor == 0 && r.player.mana == w.player.baseMana && r.phase == w.phase
      && r.queue == w.queue + [TransitionAction(Casting), WaitAction(500), PlayNextCardAction]
      && r == w.(cursor := 0, player := w.player.(mana := w.player.baseMana), queue := r.queue)
  {
  }

  /**
   * EndTurn discards the whole queue before the monster's turn-end hook and
   * then Wait(800) and StartTurn; it does not change the phase.
   */
  lemma EndTurnRestarts(w: World, draws: seq<nat>)
    ensures var r := Execute(w, EndTurnAction, draws);
      && r == w.(queue := w.monster.turnEnd + [WaitAction(800), StartTurnAction])
      && r.phase == w.phase
    ensures w.monster.turnEnd == [] ==> Execute(w, EndTurnAction, draws).queue == [WaitAction(800), StartTurnAction]
  {
  }

  /** StartTurn appends Transition(Drafting) and resets the spell: six empty slots, hand = deck, cursor 0; nothing else changes. */
  lemma StartTurnResets(w: World, draws: seq<nat>)
    ensures var r := Execute(w, StartTurnAction, draws);
      && r.queue == w.queue + [TransitionAction(Drafting)] + w.monster.turnStart
      && r.spell == Holes(6) && r.hand == w.deck && r.cursor == 0 && r.phase == w.phase
    ensures Execute(w, StartTurnAction, draws) ==
      w.(queue := w.queue + [TransitionAction(Drafting)] + w.monster.turnStart,
         spell := Holes(6), hand := w.deck, cursor := 0)
  {
  }

  /**
   * PlayCard leaves the card's effects at the front of the queue, ahead of
   * everything that was pending, and records the card as the previous one.
   */
  lemma PlayCardFrontRunsFirst(w: World, c: Card, draws: seq<nat>)
    ensures Execute(w, PlayCardAction(c), draws) ==
      w.(queue := Front(c, w, draws) + w.queue, previous := Some(c))
  {
    PlayOnlyPushesFront(c, w, draws);
  }

  /**
   * LoopAction pushes a jump to the greatest index at or below the cursor
   * that holds a loop card, and changes nothing when there is none.
   */
  lemma LoopJumpsBack(w: World, draws: seq<nat>, i: int)
    ensures (forall j :: 0 <= j <= w.cursor ==> !IsLoopSlot(w.spell, j)) ==> Execute(w, LoopAction, draws) == w
    ensures 0 <= i <= w.cursor && IsLoopSlot(w.spell, i) && (forall j :: i < j <= w.cursor ==> !IsLoopSlot(w.spell, j)) ==>
      Execute(w, LoopAction, draws) == w.(queue := [JumpToCardAction(i)] + w.queue)
  {
  }

  /** No catalog card has the id "loop", so LoopAction never does anything to a game built from the catalog. */
  lemma LoopNeverFires(w: World, draws: seq<nat>)
    ensures Execute(w, LoopAction, draws) == w
  {
    var r := LoopFrom(w.spell, w.cursor);
    if r.Some? {
      CatalogIsComplete(SlotAt(w.spell, r.value).value.kind);
      assert false;
    }
  }

  /** A shuffle only permutes the slots; nothing else changes. */
  lemma ShufflePermutes(w: World, draws: seq<nat>)
    ensures var r := Execute(w, ShuffleSpellAction, draws);
      && r == w.(spell := r.spell)
      && |r.spell| == |w.spell| && multiset(r.spell) == multiset(w.spell)
  {
  }

  /** Banishing an occupied slot empties the card's slot and appends the card to the ether; an empty slot is a no-op. */
  lemma BanishMovesToEther(w: World, i: int, draws: seq<nat>)
    ensures SlotAt(w.spell, i).None? ==> Execute(w, BanishCardAction(i), draws) == w
    ensures SlotAt(w.spell, i).Some? ==>
      var c := SlotAt(w.spell, i).value;
      var r := Execute(w, BanishCardAction(i), draws);
      && r == w.(spell := r.spell, ether := w.ether + [c])
      && |r.spell| == |w.spell|
      && multiset(r.spell) == multiset(w.spell) - multiset{Some(c)} + multiset{None}
  {
  }

  /**
   * The death check only empties the queue; it does not stop later actions.
   * With the monster dead, a cast queued afterwards still runs (mana and
   * cursor are reset, subscribers notified), and then everything it scheduled
   * is discarded again.
   */
  lemma DeathDoesNotBlockLaterActions(w: World, draws: seq<nat>)
    requires w.monster.body.health == 0 && w.phase == Drafting
    requires w.queue == [CastSpellAction]
    ensures Step(w, draws) == w.(queue := [], cursor := 0, player := w.player.(mana := w.player.baseMana), notified := w.notified + 1)
  {
  }
}
