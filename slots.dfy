/**
 * The spell and hand operations of `Game` in src/game.ts, on values.  JavaScript
 * array semantics are written out: reading outside an array yields undefined
 * (`None`), `indexOf` yields -1 for an absent element, `splice(-1, 1)` removes
 * the last element, writing at index -1 sets a property and changes no element,
 * and writing past the end extends the array with holes.
 */
module Slots {
  import opened Optional
  import opened Catalog

  /** `n` empty slots, as `Array.from({ length: n })` produces. */
  function Holes(n: nat): (r: seq<Option<Card>>)
    ensures |r| == n
    ensures forall i :: 0 <= i < n ==> r[i] == None
  {
    seq(n, _ => None)
  }

  /** `spell[i]`: the slot, or undefined outside the array. */
  function SlotAt(spell: seq<Option<Card>>, i: int): (r: Option<Card>)
    ensures (0 <= i < |spell|) ==> r == spell[i]
    ensures !(0 <= i < |spell|) ==> r == None
  {
    if 0 <= i < |spell| then spell[i] else None
  }

  /** `Array.prototype.indexOf`: the first position of `x`, or -1. */
  function IndexOf<T(==)>(s: seq<T>, x: T): (i: int)
    ensures -1 <= i < |s|
    ensures i == -1 <==> x !in s
    ensures 0 <= i ==> s[i] == x && x !in s[..i]
    decreases |s|
  {
    if |s| == 0 then -1
    else if s[0] == x then 0
    else
      var j := IndexOf(s[1..], x);
      if j == -1 then -1
      else
        assert s[..j + 1] == [s[0]] + s[1..][..j];
        j + 1
  }

  /** `s` without the element at `i`. */
  function RemoveAt<T>(s: seq<T>, i: nat): (r: seq<T>)
    requires i < |s|
    ensures |r| == |s| - 1
    ensures forall j :: 0 <= j < i ==> r[j] == s[j]
    ensures forall j :: i <= j < |r| ==> r[j] == s[j + 1]
  {
    s[..i] + s[i + 1..]
  }

  /**
   * `addToSpell`: the card goes into the slot only when that slot is
   * undefined.  A negative index changes no element; an index past the end
   * extends the spell with holes up to it.
   */
  function AddToSpell(spell: seq<Option<Card>>, card: Card, index: int): (r: seq<Option<Card>>)
    ensures |r| >= |spell|
    ensures forall i :: 0 <= i < |spell| && spell[i].Some? ==> r[i] == spell[i]
    ensures SlotAt(spell, index).Some? || index < 0 ==> r == spell
    ensures index >= 0 && SlotAt(spell, index).None? ==>
      && |r| == (if index < |spell| then |spell| else index + 1)
      && r[index] == Some(card)
      && forall i :: 0 <= i < |r| && i != index ==> r[i] == SlotAt(spell, i)
  {
    if index < 0 then spell
    else if index < |spell| then
      (if spell[index].None? then spell[index := Some(card)] else spell)
    else spell + Holes(index - |spell|) + [Some(card)]
  }

  /**
   * `removeFromHand`: removes the first occurrence of the card; when the card
   * is absent, `indexOf` gives -1 and `splice(-1, 1)` removes the last card.
   */
  function RemoveFromHand(hand: seq<Card>, card: Card): (r: seq<Card>)
    ensures card in hand ==> |r| == |hand| - 1 && multiset(r) == multiset(hand) - multiset{card}
    ensures card in hand ==> r == RemoveAt(hand, IndexOf(hand, card))
    ensures card !in hand ==> r == (if hand == [] then [] else hand[..|hand| - 1])
  {
    var i := IndexOf(hand, card);
    if i == -1 then (if hand == [] then [] else hand[..|hand| - 1])
    else
      assert hand == hand[..i] + [hand[i]] + hand[i + 1..];
      RemoveAt(hand, i)
  }

  /**
   * `removeFromSpell`: empties the first slot holding the card; an absent card
   * writes index -1, which changes no slot.  The length never changes.
   */
  function RemoveFromSpell(spell: seq<Option<Card>>, card: Card): (r: seq<Option<Card>>)
    ensures |r| == |spell|
    ensures Some(card) !in spell ==> r == spell
    ensures Some(card) in spell ==>
      var i := IndexOf(spell, Some(card));
      && r[i] == None
      && (forall j :: 0 <= j < |spell| && j != i ==> r[j] == spell[j])
      && multiset(r) == multiset(spell) - multiset{Some(card)} + multiset{None}
  {
    var i := IndexOf(spell, Some(card));
    if i == -1 then spell
    else
      assert spell == spell[..i] + [spell[i]] + spell[i + 1..];
      assert spell[i := None] == spell[..i] + [None] + spell[i + 1..];
      spell[i := None]
  }
}
