/**
 * One step of the interpreter (`Game.update` in src/game.ts) and the `update`
 * of every action class in src/actions.ts, as functions on a World.  A wait
 * is a no-op: its timer is the host's business.
 */
module Interpreter {
  import opened Optional
  import opened Catalog
  import opened Actions
  import opened Resources
  import opened Slots
  import opened GameWorld
  import opened CardPlay

  /** The creature an action targets. */
  function VitalsOf(w: World, t: Target): Vitals
  {
    match t
    case TargetPlayer => w.player.body
    case TargetMonster => w.monster.body
  }

  /** The world with the targeted creature's health fields replaced. */
  function WithVitals(w: World, t: Target, v: Vitals): World
  {
    match t
    case TargetPlayer => w.(player := w.player.(body := v))
    case TargetMonster => w.(monster := w.monster.(body := v))
  }

  /** A spell slot that holds a card whose id is "loop". */
  predicate IsLoopSlot(spell: seq<Option<Card>>, i: int)
  {
    SlotAt(spell, i).Some? && Id(SlotAt(spell, i).value.kind) == "loop"
  }

  /** LoopAction's search: the greatest index from `i` down to 0 holding a loop card. */
  function LoopFrom(spell: seq<Option<Card>>, i: int): (r: Option<int>)
    ensures r.Some? ==> 0 <= r.value <= i && IsLoopSlot(spell, r.value)
    ensures r.Some? ==> forall j :: r.value < j <= i ==> !IsLoopSlot(spell, j)
    ensures r.None? ==> forall j :: 0 <= j <= i ==> !IsLoopSlot(spell, j)
    decreases if i < 0 then 0 else i + 1
  {
    if i < 0 then None
    else if IsLoopSlot(spell, i) then Some(i)
    else LoopFrom(spell, i - 1)
  }

  function Swap<T>(s: seq<T>, i: nat, j: nat): (r: seq<T>)
    requires i < |s| && j < |s|
    ensures |r| == |s| && multiset(r) == multiset(s)
    ensures r[i] == s[j] && r[j] == s[i]
    ensures forall k :: 0 <= k < |s| && k != i && k != j ==> r[k] == s[k]
  {
    s[i := s[j]][j := s[i]]
  }

  /**
   * The Fisher-Yates passes from position `i` down to 1: position `i` swaps
   * with the one the next draw picks among 0..i.
   */
  function ShuffleDown<T>(s: seq<T>, i: nat, draws: seq<nat>): (r: seq<T>)
    requires i < |s|
    ensures |r| == |s| && multiset(r) == multiset(s)
    decreases i
  {
    if i == 0 then s
    else ShuffleDown(Swap(s, i, Draw(draws, |s| - 1 - i) % (i + 1)), i - 1, draws)
  }

  /** `RNG.shuffle`, driven by the supplied draws: a permutation of the slots. */
  function Shuffled<T>(s: seq<T>, draws: seq<nat>): (r: seq<T>)
    ensures |r| == |s| && multiset(r) == multiset(s)
  {
    if |s| == 0 then s else ShuffleDown(s, |s| - 1, draws)
  }

  /** What PlayNextCardAction appends when it goes on: pay, advance, play, pause, next. */
  function Continuation(card: Option<Card>, cursor: int): seq<Action>
  {
    (if card.Some? then [ModifyManaAction(-(Cost(card.value.kind) as int))] else [])
    + [JumpToCardAction(cursor + 1)]
    + (if card.Some? then [PlayCardAction(card.value)] else [])
    + [WaitAction(800), PlayNextCardAction]
  }

  /** PlayNextCardAction's `update`. */
  function PlayNext(w: World): World
  {
    if IsSpellFinished(w) then w.(queue := w.queue + [EndTurnAction])
    else
      var card := CurrentCard(w);
      if card.Some? && !HasMana(w.player, Cost(card.value.kind)) then w.(queue := w.queue + [EndTurnAction])
      else w.(queue := w.queue + Continuation(card, w.cursor))
  }

  /** The `update` of each action class. */
  function Execute(w: World, a: Action, draws: seq<nat>): World
  {
    match a
    case WaitAction(_) => w
    case HealAction(t, n) => WithVitals(w, t, ModifyHealth(VitalsOf(w, t), n))
    case DamageAction(t, n) => WithVitals(w, t, Damage(VitalsOf(w, t), n))
    case CastSpellAction =>
      var w1 := CastSpell(w);
      w1.(queue := w1.queue + [TransitionAction(Casting), WaitAction(500), PlayNextCardAction])
    case TransitionAction(s) => w.(phase := s)
    case StartTurnAction =>
      var w1 := ResetSpell(w.(queue := w.queue + [TransitionAction(Drafting)]));
      w1.(queue := w1.queue + w.monster.turnStart)
    case EndTurnAction => w.(queue := w.monster.turnEnd + [WaitAction(800), StartTurnAction])
    case PlayNextCardAction => PlayNext(w)
    case PlayCardAction(c) => Play(c, w, draws).(previous := Some(c))
    case JumpToCardAction(i) => w.(cursor := i)
    case ModifyHealthAction(t, n) => WithVitals(w, t, ModifyHealth(VitalsOf(w, t), n))
    case ModifyManaAction(n) => w.(player := w.player.(mana := w.player.mana + n))
    case ModifyMightAction(n) => w.(player := w.player.(might := w.player.might + n))
    case MultiplyMightAction(f) => w.(player := w.player.(might := w.player.might * f))
    case SetHealthAction(t, n) => WithVitals(w, t, SetHealth(VitalsOf(w, t), n))
    case SetManaAction(n) => w.(player := w.player.(mana := n))
    case SetMightAction(n) => w.(player := w.player.(might := n))
    case ResetMightAction => w.(player := w.player.(might := 0))
    case ShuffleSpellAction => w.(spell := Shuffled(w.spell, draws))
    case LoopAction =>
      (match LoopFrom(w.spell, w.cursor)
       case None => w
       case Some(i) => w.(queue := [JumpToCardAction(i)] + w.queue))
    case BanishCardAction(i) =>
      (match SlotAt(w.spell, i)
       case None => w
       case Some(c) => w.(spell := RemoveFromSpell(w.spell, c), ether := w.ether + [c]))
  }

  /** Either creature at 0 health: the condition on which `update` empties the queue. */
  predicate SomeoneDied(w: World)
  {
    w.player.body.health == 0 || w.monster.body.health == 0
  }

  /**
   * `Game.update`: nothing on an empty queue; otherwise the head is removed,
   * dropped if its phase gate fails, and else executed, the subscribers are
   * notified once, and the queue is emptied if a creature is at 0 health.
   */
  function Step(w: World, draws: seq<nat>): World
  {
    if w.queue == [] then w
    else
      var a := w.queue[0];
      var w1 := w.(queue := w.queue[1..]);
      if !Permitted(a, w1.phase) then w1
      else
        var w2 := Execute(w1, a, draws);
        var w3 := w2.(notified := w2.notified + 1);
        if SomeoneDied(w3) then w3.(queue := []) else w3
  }

  /** The draws of step number `k`: its round, or none once the rounds run out. */
  function DrawsAt(rounds: seq<seq<nat>>, k: nat): seq<nat>
  {
    if k < |rounds| then rounds[k] else []
  }

  /**
   * `n` steps of the host loop from step number `k` on, step number `j`
   * given its own round of draws `rounds[j]`.
   */
  function Run(w: World, n: nat, rounds: seq<seq<nat>>, k: nat): World
    decreases n
  {
    if n == 0 then w else Run(Step(w, DrawsAt(rounds, k)), n - 1, rounds, k + 1)
  }
}
