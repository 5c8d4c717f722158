/**
 * The card catalog of src/cards.ts, as data: every card class becomes a kind,
 * with its mana cost and its identifier.  What a card does when played is in
 * module CardPlay, because it reads the game state.
 */
module Catalog {

  /** One kind per card class, in the order in which src/cards.ts exports them. */
  datatype CardKind =
    | Remedy | Bolt | Augment | Burst | Jump | Propel
    | Hypothesis | Antithesis | Synthesis
    | Justify | Mystify | Purify | Amplify
    | Siphon | Again | Supernova | Salvation | Awaken
    | Obstacle | Fatigue | Confusion | Wormhole

  /**
   * A card instance.  Copies of one kind are told apart by `uid`, which stands
   * for both the random uid and the object identity the source compares with
   * `indexOf`, `===` and `!==`.  `forced` and `anchored` are the drafting flags
   * of the abstract Card class; every catalog card leaves them false.
   */
  datatype Card = Card(uid: int, kind: CardKind, forced: bool, anchored: bool)

  /** A card as the catalog constructs it: neither forced nor anchored. */
  function NewCard(uid: int, kind: CardKind): (c: Card)
    ensures c.kind == kind && c.uid == uid && !c.forced && !c.anchored
  {
    Card(uid, kind, false, false)
  }

  /** The `cost` field of each card class. */
  function Cost(k: CardKind): nat
  {
    match k
    case Remedy => 1
    case Bolt => 1
    case Augment => 1
    case Burst => 2
    case Jump => 1
    case Propel => 1
    case Hypothesis => 1
    case Antithesis => 1
    case Synthesis => 1
    case Justify => 1
    case Mystify => 1
    case Purify => 2
    case Amplify => 3
    case Siphon => 3
    case Again => 1
    case Supernova => 3
    case Salvation => 3
    case Awaken => 3
    case Obstacle => 99
    case Fatigue => 1
    case Confusion => 0
    case Wormhole => 1
  }

  /** The `id` field of each card class. */
  function Id(k: CardKind): string
  {
    match k
    case Remedy => "remedy"
    case Bolt => "bolt"
    case Augment => "augment"
    case Burst => "burst"
    case Jump => "jump"
    case Propel => "propel"
    case Hypothesis => "hypothesis"
    case Antithesis => "antithesis"
    case Synthesis => "synthesis"
    case Justify => "justify"
    case Mystify => "mystify"
    case Purify => "purify"
    case Amplify => "amplify"
    case Siphon => "siphon"
    case Again => "again"
    case Supernova => "supernova"
    case Salvation => "salvation"
    case Awaken => "awaken"
    case Obstacle => "obstacle"
    case Fatigue => "fatigue"
    case Confusion => "confusion"
    case Wormhole => "wormhole"
  }

  /** The name under which src/cards.ts exports each card class. */
  function Name(k: CardKind): string
  {
    match k
    case Remedy => "Remedy"
    case Bolt => "Bolt"
    case Augment => "Augment"
    case Burst => "Burst"
    case Jump => "Jump"
    case Propel => "Propel"
    case Hypothesis => "Hypothesis"
    case Antithesis => "Antithesis"
    case Synthesis => "Synthesis"
    case Justify => "Justify"
    case Mystify => "Mystify"
    case Purify => "Purify"
    case Amplify => "Amplify"
    case Siphon => "Siphon"
    case Again => "Again"
    case Supernova => "Supernova"
    case Salvation => "Salvation"
    case Awaken => "Awaken"
    case Obstacle => "Obstacle"
    case Fatigue => "Fatigue"
    case Confusion => "Confusion"
    case Wormhole => "Wormhole"
  }

  /** Whether `a` comes strictly before `b` in UTF-16 code-unit order, the order of `Array.prototype.sort`. */
  predicate NameBefore(a: string, b: string)
  {
    if a == [] then b != []
    else if b == [] then false
    else a[0] < b[0] || (a[0] == b[0] && NameBefore(a[1..], b[1..]))
  }

  /**
   * Every card kind, in the order `Object.values` lists the module namespace
   * object of `import * as Cards`: an ECMAScript module namespace orders its
   * exports by name, not by declaration.
   */
  const AllKinds: seq<CardKind> :=
    [Again, Amplify, Antithesis, Augment, Awaken, Bolt, Burst, Confusion, Fatigue,
     Hypothesis, Jump, Justify, Mystify, Obstacle, Propel, Purify, Remedy, Salvation,
     Siphon, Supernova, Synthesis, Wormhole]

  /**
   * The deck of src/index.ts: one new card of every exported class, in the
   * namespace's name order, with uids supplied by the caller in place of
   * `Math.random`.
   */
  function StarterDeck(uids: seq<int>): (deck: seq<Card>)
    requires |uids| == |AllKinds|
    ensures |deck| == |AllKinds|
    ensures forall i :: 0 <= i < |deck| ==> deck[i] == NewCard(uids[i], AllKinds[i])
  {
    seq(|uids|, i requires 0 <= i < |uids| => NewCard(uids[i], AllKinds[i]))
  }

  /** Obstacle's 99 is the only cost above 3, and Confusion is the only free card. */
  lemma CostRange(k: CardKind)
    ensures Cost(k) <= 3 || k == Obstacle
    ensures Cost(k) == 99 <==> k == Obstacle
    ensures Cost(k) == 0 <==> k == Confusion
  {
  }

  /** The catalog lists every kind, and no card of the catalog has the id "loop". */
  lemma CatalogIsComplete(k: CardKind)
    ensures k in AllKinds
    ensures Id(k) != "loop"
  {
  }

  lemma {:induction false} NameBeforeTransitive(a: string, b: string, c: string)
    requires NameBefore(a, b) && NameBefore(b, c)
    ensures NameBefore(a, c)
  {
    if a != [] && a[0] == b[0] && b[0] == c[0] {
      NameBeforeTransitive(a[1..], b[1..], c[1..]);
    }
  }

  lemma {:induction false} NameBeforeIrreflexive(a: string)
    ensures !NameBefore(a, a)
  {
    if a != [] {
      NameBeforeIrreflexive(a[1..]);
    }
  }

  /** Each export name comes before the next one. */
  lemma AdjacentNamesAscend(i: nat)
    requires i < |AllKinds| - 1
    ensures NameBefore(Name(AllKinds[i]), Name(AllKinds[i + 1]))
  {
  }

  /** The starter deck's order: the kinds in strictly ascending name order, hence each kind once. */
  lemma {:induction false} AllKindsSorted(i: nat, j: nat)
    requires i < j < |AllKinds|
    ensures NameBefore(Name(AllKinds[i]), Name(AllKinds[j]))
    ensures AllKinds[i] != AllKinds[j]
    decreases j - i
  {
    AdjacentNamesAscend(i);
    if i + 1 < j {
      AllKindsSorted(i + 1, j);
      NameBeforeTransitive(Name(AllKinds[i]), Name(AllKinds[i + 1]), Name(AllKinds[j]));
    }
    NameBeforeIrreflexive(Name(AllKinds[i]));
  }
}
