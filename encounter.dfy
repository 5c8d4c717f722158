/**
 * The drafting reducer of the encounter screen (src/ui/Encounter.tsx): a
 * pure state transition over a hand and a spell with one "active" card.
 * Writes follow JavaScript's array assignment: a write past the end extends
 * the array with holes, a write at a negative index changes no element.
 */
module Encounter {
  import opened Optional
  import opened Catalog
  import opened Actions

  /**
   * An array element or field of the screen's state.  The reducer stores
   * both `null` (the cleared active card, an insert with none active) and
   * `undefined` (holes, a removed slot), and `!==` tells them apart.
   */
  datatype Entry = Present(card: Card) | Null | Undefined

  datatype EncounterState = EncounterState(hand: seq<Entry>, spell: seq<Entry>, active: Entry)

  datatype EncounterAction = SetActiveCard(card: Card) | InsertCard(index: int) | RemoveCard(index: int)

  /** `n` holes, as `Array.from({ length: n })` leaves them. */
  function Undefineds(n: nat): (r: seq<Entry>)
    ensures |r| == n && forall i :: 0 <= i < n ==> r[i] == Undefined
  {
    seq(n, _ => Undefined)
  }

  /** `array[index]`: `undefined` outside the array. */
  function EntryAt(s: seq<Entry>, index: int): (r: Entry)
    ensures 0 <= index < |s| ==> r == s[index]
    ensures index < 0 || index >= |s| ==> r == Undefined
  {
    if 0 <= index < |s| then s[index] else Undefined
  }

  /** `array[index] = x` on a copy of the array. */
  function Assign(s: seq<Entry>, index: int, x: Entry): (r: seq<Entry>)
    ensures index < 0 ==> r == s
    ensures 0 <= index < |s| ==> r == s[index := x]
    ensures index >= |s| ==> |r| == index + 1 && r[..|s|] == s && r[index] == x
    ensures index >= |s| ==> forall j :: |s| <= j < index ==> r[j] == Undefined
  {
    if index < 0 then s
    else if index < |s| then s[index := x]
    else s + Undefineds(index - |s|) + [x]
  }

  /** `hand.filter(c => c !== x)`: every occurrence of `x` removed. */
  function Without(hand: seq<Entry>, x: Entry): (r: seq<Entry>)
    ensures multiset(r) == multiset(hand)[x := 0]
    ensures forall e :: e in r <==> e in hand && e != x
    ensures x !in hand ==> r == hand
    decreases |hand|
  {
    if hand == [] then []
    else
      assert hand == [hand[0]] + hand[1..];
      if hand[0] == x then Without(hand[1..], x)
      else [hand[0]] + Without(hand[1..], x)
  }

  /** The filter keeps the order of what it keeps: it works piecewise on a concatenation. */
  lemma {:induction false} WithoutConcat(a: seq<Entry>, b: seq<Entry>, x: Entry)
    ensures Without(a + b, x) == Without(a, x) + Without(b, x)
    decreases |a|
  {
    if a == [] {
      assert a + b == b;
    } else {
      assert (a + b)[0] == a[0];
      assert (a + b)[1..] == a[1..] + b;
      WithoutConcat(a[1..], b, x);
    }
  }

  /** `EncounterReducer`. */
  function Reduce(s: EncounterState, a: EncounterAction): EncounterState
  {
    match a
    case SetActiveCard(c) =>
      if s.active == Present(c) then s.(active := Null) else s.(active := Present(c))
    case InsertCard(i) =>
      s.(spell := Assign(s.spell, i, s.active), hand := Without(s.hand, s.active), active := Null)
    case RemoveCard(i) =>
      var card := EntryAt(s.spell, i);
      s.(spell := Assign(s.spell, i, Undefined), hand := s.hand + [card], active := card)
  }

  /** `initState`: the deck as the hand, five empty slots, no active card. */
  function InitState(deck: seq<Card>): (r: EncounterState)
    ensures |r.hand| == |deck| && forall i :: 0 <= i < |deck| ==> r.hand[i] == Present(deck[i])
    ensures |r.spell| == 5 && forall i :: 0 <= i < 5 ==> r.spell[i] == Undefined
    ensures r.active == Null
  {
    EncounterState(seq(|deck|, i requires 0 <= i < |deck| => Present(deck[i])), Undefineds(5), Null)
  }

  /** `toggleSpellSlot`: the action it dispatches, if any.  A card is truthy; `null` and `undefined` are not. */
  function ToggleSpellSlot(phase: GameState, s: EncounterState, index: int): Option<EncounterAction>
  {
    if phase == Drafting then
      if EntryAt(s.spell, index).Present? then Some(RemoveCard(index))
      else if s.active.Present? then Some(InsertCard(index))
      else None
    else None
  }

  /** The state after a dispatch, or the same state when nothing is dispatched. */
  function Dispatch(s: EncounterState, a: Option<EncounterAction>): EncounterState
  {
    if a.Some? then Reduce(s, a.value) else s
  }

  /**
   * SET_ACTIVE_CARD clears the active card (to `null`) when it is the one
   * given and sets it otherwise; hand and spell are untouched.  So selecting
   * the same card twice leaves no card active unless it was active to begin with.
   */
  lemma SetActiveToggles(s: EncounterState, c: Card)
    ensures Reduce(s, SetActiveCard(c)).active == if s.active == Present(c) then Null else Present(c)
    ensures Reduce(s, SetActiveCard(c)) == s.(active := Reduce(s, SetActiveCard(c)).active)
    ensures Reduce(Reduce(s, SetActiveCard(c)), SetActiveCard(c)).active ==
      if s.active == Present(c) then Present(c) else Null
  {
  }

  /**
   * INSERT_CARD writes the active entry into the slot, whatever it is,
   * removes every copy of it from the hand (so with none active, every
   * `null` but no `undefined`), keeps every other hand entry as often as it
   * was there, and sets the active card to `null`.
   */
  lemma InsertEffects(s: EncounterState, i: int)
    ensures var r := Reduce(s, InsertCard(i));
      && (0 <= i < |s.spell| ==> r.spell == s.spell[i := s.active])
      && (i >= |s.spell| ==> |r.spell| == i + 1 && r.spell[..|s.spell|] == s.spell && r.spell[i] == s.active)
      && (i < 0 ==> r.spell == s.spell)
      && multiset(r.hand) == multiset(s.hand)[s.active := 0]
      && s.active !in r.hand
      && r.active == Null
  {
  }

  /**
   * REMOVE_CARD reads the slot (`undefined` outside the array or at a hole),
   * sets it to `undefined`, appends what it read to the hand and makes it
   * the active entry.
   */
  lemma RemoveEffects(s: EncounterState, i: int)
    ensures var r := Reduce(s, RemoveCard(i));
      && (0 <= i < |s.spell| ==> r.spell == s.spell[i := Undefined] && r.active == s.spell[i])
      && (i >= |s.spell| ==> |r.spell| == i + 1 && r.spell[..|s.spell|] == s.spell && r.active == Undefined)
      && (i < 0 ==> r.spell == s.spell && r.active == Undefined)
      && r.hand == s.hand + [r.active]
      && (forall j :: 0 <= j < |r.spell| && j != i ==> r.spell[j] == EntryAt(s.spell, j))
  {
    var r := Reduce(s, RemoveCard(i));
    forall j | 0 <= j < |r.spell| && j != i
      ensures r.spell[j] == EntryAt(s.spell, j)
    {
      if i >= |s.spell| && j < |s.spell| {
        assert r.spell[j] == r.spell[..|s.spell|][j];
      }
    }
  }

  /** Filtering out an entry appended to a hand that lacked it gives the hand back. */
  lemma WithoutAppended(hand: seq<Entry>, x: Entry)
    requires x !in hand
    ensures Without(hand + [x], x) == hand
  {
    WithoutConcat(hand, [x], x);
    assert Without([x], x) == [];
  }

  /**
   * REMOVE_CARD at a slot holding `c` and then INSERT_CARD at the same slot
   * restores spell and hand, provided `c` was not in the hand already; the
   * active card ends as `null`.
   */
  lemma RemoveThenInsertRestores(s: EncounterState, i: int, c: Card)
    requires 0 <= i < |s.spell| && s.spell[i] == Present(c) && Present(c) !in s.hand
    ensures Reduce(Reduce(s, RemoveCard(i)), InsertCard(i)) == s.(active := Null)
  {
    WithoutAppended(s.hand, Present(c));
    assert s.spell[i := Undefined][i := Present(c)] == s.spell;
  }

  /**
   * `toggleSpellSlot` acts only while drafting: a slot holding a card
   * dispatches REMOVE_CARD; otherwise a card active dispatches INSERT_CARD,
   * and `null` or `undefined` active dispatches nothing.
   */
  lemma ToggleRules(phase: GameState, s: EncounterState, i: int)
    ensures phase != Drafting ==> ToggleSpellSlot(phase, s, i) == None
    ensures phase == Drafting && 0 <= i < |s.spell| && s.spell[i].Present? ==>
      ToggleSpellSlot(phase, s, i) == Some(RemoveCard(i))
    ensures phase == Drafting && !EntryAt(s.spell, i).Present? ==>
      ToggleSpellSlot(phase, s, i) == if s.active.Present? then Some(InsertCard(i)) else None
  {
  }

  /** The hand holds cards only: no `null` and no `undefined`. */
  predicate HandHoldsCards(s: EncounterState)
  {
    forall e :: e in s.hand ==> e.Present?
  }

  /**
   * Driven through `toggleSpellSlot` and SET_ACTIVE_CARD, the hand never
   * takes in a `null` or `undefined`: REMOVE_CARD is dispatched only for a
   * slot holding a card, INSERT_CARD only with a card active.
   */
  lemma ToggleKeepsHandCards(phase: GameState, s: EncounterState, i: int, c: Card)
    requires HandHoldsCards(s)
    ensures HandHoldsCards(Dispatch(s, ToggleSpellSlot(phase, s, i)))
    ensures HandHoldsCards(Reduce(s, SetActiveCard(c)))
  {
  }

  /**
   * Toggling an occupied slot twice while drafting puts its card back:
   * the second toggle finds the slot empty and the removed card active.
   */
  lemma ToggleTwiceRestores(s: EncounterState, i: int, c: Card)
    requires 0 <= i < |s.spell| && s.spell[i] == Present(c) && Present(c) !in s.hand
    ensures var s1 := Dispatch(s, ToggleSpellSlot(Drafting, s, i));
      Dispatch(s1, ToggleSpellSlot(Drafting, s1, i)) == s.(active := Null)
  {
    RemoveThenInsertRestores(s, i, c);
  }
}
