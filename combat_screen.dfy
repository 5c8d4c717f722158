/**
 * The drafting rules of the combat screen (src/ui/CombatScreen.tsx): which
 * drops the drag-and-drop targets accept, what a drop does to the spell and
 * the hand, and when a card can be picked up at all.
 */
module CombatScreen {
  import opened Optional
  import opened Catalog
  import opened Actions
  import opened Slots
  import opened GameWorld
  import Engine

  /** Where a dragged card comes from. */
  datatype CardSource = FromHand | FromSpell

  /** `canDropInHand`: only cards leaving the spell, and never a forced one. */
  predicate CanDropInHand(card: Card, source: CardSource)
  {
    source == FromSpell && !card.forced
  }

  /** `canDropInSpell`: anchored cards never; otherwise only onto an empty slot. */
  predicate CanDropInSpell(spell: seq<Option<Card>>, card: Card, source: CardSource, index: int)
  {
    if card.anchored then false else SlotAt(spell, index).None?
  }

  /** The drop rules as the screen states them. */
  lemma DropRules(spell: seq<Option<Card>>, card: Card, source: CardSource, index: int)
    ensures CanDropInHand(card, source) <==> source == FromSpell && !card.forced
    ensures card.anchored ==> !CanDropInSpell(spell, card, source, index)
    ensures !card.anchored ==>
      (CanDropInSpell(spell, card, source, index) <==> !(0 <= index < |spell|) || spell[index].None?)
  {
  }

  /** `onDropInHand`: the card's spell slot is emptied and the card goes to the end of the hand. */
  function DropInHand(w: World, card: Card): World
  {
    w.(spell := RemoveFromSpell(w.spell, card), hand := w.hand + [card])
  }

  /** `onDropInSpell`: the card leaves its source, then goes into the slot if that is empty. */
  function DropInSpell(w: World, card: Card, source: CardSource, index: int): World
  {
    var w1 := if source == FromSpell then w.(spell := RemoveFromSpell(w.spell, card))
              else w.(hand := RemoveFromHand(w.hand, card));
    w1.(spell := AddToSpell(w1.spell, card, index))
  }

  /**
   * A card dropped on the hand: its first slot in the spell is emptied, the
   * spell keeps its length and every other slot, and the hand gains the card
   * at the end.  Nothing outside spell and hand changes.
   */
  lemma DropInHandMoves(w: World, card: Card)
    requires Some(card) in w.spell
    ensures var r := DropInHand(w, card);
      var i := IndexOf(w.spell, Some(card));
      && 0 <= i < |w.spell|
      && r.spell == w.spell[i := None]
      && r.hand == w.hand + [card]
      && r == w.(spell := r.spell, hand := r.hand)
  {
  }

  /**
   * A drop the screen accepts, of a card from the hand onto slot `index`:
   * the card is in that slot, it has left the hand, and the rest of the
   * spell is as it was.
   */
  lemma DropFromHandPlaces(w: World, card: Card, index: int)
    requires 0 <= index < |w.spell| && CanDropInSpell(w.spell, card, FromHand, index)
    requires card in w.hand
    ensures var r := DropInSpell(w, card, FromHand, index);
      && r.spell == w.spell[index := Some(card)]
      && multiset(r.hand) == multiset(w.hand) - multiset{card}
      && r == w.(spell := r.spell, hand := r.hand)
  {
  }

  /**
   * A drop the screen accepts, of a spell card onto another slot: the card
   * moves, its old slot is empty, the hand and the spell's length are
   * unchanged.
   */
  lemma DropFromSpellMoves(w: World, card: Card, index: int)
    requires 0 <= index < |w.spell| && CanDropInSpell(w.spell, card, FromSpell, index)
    requires Some(card) in w.spell
    ensures var r := DropInSpell(w, card, FromSpell, index);
      var i := IndexOf(w.spell, Some(card));
      && i != index
      && r.spell == w.spell[i := None][index := Some(card)]
      && r == w.(spell := r.spell)
  {
  }

  /**
   * A drop onto an occupied slot is never offered, but the handler alone
   * would still take the card out of its source and then fail to place it:
   * the card is lost from both spell and hand.
   */
  lemma DropOnOccupiedSlotLosesCard(w: World, card: Card, index: int)
    requires 0 <= index < |w.spell| && w.spell[index].Some? && w.spell[index] != Some(card)
    requires card in w.hand
    ensures var r := DropInSpell(w, card, FromHand, index);
      r.spell == w.spell && multiset(r.hand) == multiset(w.hand) - multiset{card}
  {
  }

  /** `onDropInHand` on the game object. */
  method OnDropInHand(game: Engine.Game, card: Card, source: CardSource)
    modifies game
    ensures game.Snapshot() == DropInHand(old(game.Snapshot()), card)
  {
    game.RemoveFromSpell(card);
    game.AddToHand(card);
  }

  /** `onDropInSpell` on the game object. */
  method OnDropInSpell(game: Engine.Game, card: Card, source: CardSource, index: int)
    modifies game
    ensures game.Snapshot() == DropInSpell(old(game.Snapshot()), card, source, index)
  {
    if source == FromSpell {
      game.RemoveFromSpell(card);
    } else {
      game.RemoveFromHand(card);
    }
    game.AddToSpell(card, index);
  }

  /** Whether a card in the spell can be dragged (the `disabled` flag negated). */
  predicate SpellCardDraggable(phase: GameState, card: Card)
  {
    !((card.forced && card.anchored) || phase != Drafting)
  }

  /** Whether a card in the hand can be dragged. */
  predicate HandCardDraggable(phase: GameState)
  {
    !(phase != Drafting)
  }

  /**
   * Cards move only while drafting; a spell card that is both forced and
   * anchored never moves, while one that is only forced can still be
   * dragged, though no drop on the hand accepts it.
   */
  lemma DraggingRules(phase: GameState, card: Card)
    ensures SpellCardDraggable(phase, card) <==> phase == Drafting && !(card.forced && card.anchored)
    ensures HandCardDraggable(phase) <==> phase == Drafting
    ensures card.forced && !card.anchored && phase == Drafting ==>
      SpellCardDraggable(phase, card) && !CanDropInHand(card, FromSpell)
  {
  }
}
