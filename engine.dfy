/**
 * The stateful engine of src/game.ts, src/actions.ts, src/cards.ts and
 * src/monsters.ts: the classes whose fields the source updates in place.
 * Every method is proved against the functions of modules GameWorld,
 * CardPlay and Interpreter, through `Game.Snapshot()`.
 */
module Engine {
  import opened Optional
  import opened Catalog
  import opened Actions
  import opened Resources
  import opened Slots
  import opened GameWorld
  import CardPlay
  import Interpreter
  import Facts = InterpreterFacts

  /** `Creature`: health clamped into [0, maxHealth] by `setHealth`. */
  class Creature {
    var health: int
    var maxHealth: int

    function State(): Vitals
      reads this
    {
      Vitals(health, maxHealth)
    }

    constructor (health: int, maxHealth: int)
      ensures State() == Vitals(health, maxHealth)
    {
      this.health := health;
      this.maxHealth := maxHealth;
    }

    method SetHealth(h: int)
      modifies this
      ensures State() == Resources.SetHealth(old(State()), h)
      ensures maxHealth >= 0 ==> 0 <= health <= maxHealth
    {
      health := Clamp(h, maxHealth);
    }

    method ModifyHealth(amount: int)
      modifies this
      ensures State() == Resources.ModifyHealth(old(State()), amount)
    {
      SetHealth(health + amount);
    }

    method Damage(amount: int)
      modifies this
      ensures State() == Resources.Damage(old(State()), amount)
    {
      ModifyHealth(-amount);
    }
  }

  /** `Player extends Creature`: the creature part is `body`. */
  class Player {
    const body: Creature
    var baseMana: int
    var mana: int
    var might: int

    function State(): PlayerState
      reads this, body
    {
      PlayerState(body.State(), baseMana, mana, might)
    }

    constructor ()
      ensures State() == NewPlayer && fresh(body)
    {
      body := new Creature(10, 10);
      baseMana := 10;
      mana := 10;
      might := 0;
    }

    method ModifyMana(amount: int)
      modifies this
      ensures State() == old(State()).(mana := old(mana) + amount)
    {
      mana := mana + amount;
    }

    method ResetMana()
      modifies this
      ensures State() == old(State()).(mana := baseMana)
    {
      mana := baseMana;
    }

    method SetMana(m: int)
      modifies this
      ensures State() == old(State()).(mana := m)
    {
      mana := m;
    }

    method ModifyMight(amount: int)
      modifies this
      ensures State() == old(State()).(might := old(might) + amount)
    {
      might := might + amount;
    }

    method SetMight(m: int)
      modifies this
      ensures State() == old(State()).(might := m)
    {
      might := m;
    }

    /** `hasMana(amount = 1)`. */
    predicate HasMana(amount: int := 1)
      reads this, body
      ensures HasMana(amount) == GameWorld.HasMana(State(), amount)
    {
      mana >= amount
    }
  }

  /**
   * `Monster`, with the one subclass `Scrabbler` as its constructor.  The
   * turn hooks the actions call are the action lists `turnStart`/`turnEnd`,
   * which the hooks append to the back of the queue.
   */
  class Monster {
    const body: Creature
    const attackDamage: int
    const turnStart: seq<Action>
    const turnEnd: seq<Action>

    function State(): MonsterState
      reads this, body
    {
      MonsterState(body.State(), attackDamage, turnStart, turnEnd)
    }

    constructor Scrabbler()
      ensures State() == GameWorld.Scrabbler && fresh(body)
    {
      body := new Creature(20, 20);
      attackDamage := 5;
      turnStart := [];
      turnEnd := [];
    }

    /** The Scrabbler's `update`: one attack on the player, at the back of the queue. */
    method Update(game: Game)
      modifies game
      ensures game.Snapshot() == old(game.Snapshot()).(queue := old(game.actions) + [DamageAction(TargetPlayer, attackDamage)])
    {
      game.AddActionBottom(DamageAction(TargetPlayer, attackDamage));
    }

    method OnTurnStart(game: Game)
      modifies game
      ensures game.Snapshot() == old(game.Snapshot()).(queue := old(game.actions) + turnStart)
    {
      game.AddActionsBottom(turnStart);
    }

    method OnTurnEnd(game: Game)
      modifies game
      ensures game.Snapshot() == old(game.Snapshot()).(queue := old(game.actions) + turnEnd)
    {
      game.AddActionsBottom(turnEnd);
    }
  }

  /** `Game`: the phase, the action queue, the spell, hand and cursor, the player and the monster. */
  class Game {
    var state: GameState
    const player: Player
    const monster: Monster
    var deck: seq<Card>
    var spell: seq<Option<Card>>
    var hand: seq<Card>
    var cursor: int
    var previousCardPlayed: Option<Card>
    /** Where banished cards go. */
    var ether: seq<Card>
    /** The pending actions, head first. */
    var actions: seq<Action>
    /** How many times the update subscribers have been called. */
    var notified: nat

    function Snapshot(): World
      reads this, player, player.body, monster, monster.body
    {
      World(state, actions, spell, hand, deck, cursor, previousCardPlayed, ether,
            player.State(), monster.State(), notified)
    }

    /** The two creatures are distinct objects and both keep health in range. */
    ghost predicate Valid()
      reads this, player, player.body, monster, monster.body
    {
      player.body != monster.body && WellFormed(Snapshot())
    }

    /** `new Game()` with the deck and a Scrabbler assigned, as src/index.ts does. */
    constructor (deck: seq<Card>)
      ensures Valid() && Snapshot() == Initial(deck, GameWorld.Scrabbler)
      ensures fresh(player) && fresh(player.body) && fresh(monster) && fresh(monster.body)
    {
      state := Initializing;
      player := new Player();
      monster := new Monster.Scrabbler();
      this.deck := deck;
      spell := [];
      hand := [];
      cursor := 0;
      previousCardPlayed := None;
      ether := [];
      actions := [];
      notified := 0;
    }

    method Transition(s: GameState)
      modifies this
      ensures Snapshot() == old(Snapshot()).(phase := s)
    {
      state := s;
    }

    method AddActionTop(a: Action)
      modifies this
      ensures Snapshot() == old(Snapshot()).(queue := [a] + old(actions))
    {
      actions := [a] + actions;
    }

    method AddActionBottom(a: Action)
      modifies this
      ensures Snapshot() == old(Snapshot()).(queue := old(actions) + [a])
    {
      actions := actions + [a];
    }

    /** Appends each action in turn, as a monster hook does. */
    method AddActionsBottom(more: seq<Action>)
      modifies this
      ensures Snapshot() == old(Snapshot()).(queue := old(actions) + more)
    {
      for i := 0 to |more|
        invariant Snapshot() == old(Snapshot()).(queue := old(actions) + more[..i])
      {
        assert more[..i + 1] == more[..i] + [more[i]];
        AddActionBottom(more[i]);
      }
      assert more[..|more|] == more;
    }

    method ClearActions()
      modifies this
      ensures Snapshot() == old(Snapshot()).(queue := [])
    {
      actions := [];
    }

    method AddToSpell(card: Card, index: int)
      modifies this
      ensures Snapshot() == old(Snapshot()).(spell := Slots.AddToSpell(old(spell), card, index))
    {
      if index >= 0 {
        if index < |spell| {
          if spell[index].None? {
            spell := spell[index := Some(card)];
          }
        } else {
          spell := spell + Holes(index - |spell|) + [Some(card)];
        }
      }
    }

    method AddToHand(card: Card)
      modifies this
      ensures Snapshot() == old(Snapshot()).(hand := old(hand) + [card])
    {
      hand := hand + [card];
    }

    method RemoveFromHand(card: Card)
      modifies this
      ensures Snapshot() == old(Snapshot()).(hand := Slots.RemoveFromHand(old(hand), card))
    {
      var i := IndexOf(hand, card);
      if i == -1 {
        if |hand| > 0 {
          hand := hand[..|hand| - 1];
        }
      } else {
        hand := hand[..i] + hand[i + 1..];
      }
    }

    method RemoveFromSpell(card: Card)
      modifies this
      ensures Snapshot() == old(Snapshot()).(spell := Slots.RemoveFromSpell(old(spell), card))
    {
      var i := IndexOf(spell, Some(card));
      if i != -1 {
        spell := spell[i := None];
      }
    }

    method SetCastingIndex(index: int)
      modifies this
      ensures Snapshot() == old(Snapshot()).(cursor := index)
    {
      cursor := index;
    }

    predicate IsSpellFinished()
      reads this
    {
      cursor >= |spell|
    }

    function GetCurrentCard(): (r: Option<Card>)
      reads this
    {
      if 0 <= cursor < |spell| then spell[cursor] else None
    }

    method ResetSpell()
      modifies this
      ensures Snapshot() == GameWorld.ResetSpell(old(Snapshot()))
    {
      spell := Holes(6);
      hand := deck;
      cursor := 0;
    }

    method CastSpell()
      modifies this, player
      ensures Snapshot() == GameWorld.CastSpell(old(Snapshot()))
    {
      cursor := 0;
      player.ResetMana();
    }

    method AddToEther(card: Card)
      modifies this
      ensures Snapshot() == old(Snapshot()).(ether := old(ether) + [card])
    {
      ether := ether + [card];
    }

    /** The creature an action's target names. */
    function TargetOf(t: Target): Creature
      reads this, player, monster
    {
      match t
      case TargetPlayer => player.body
      case TargetMonster => monster.body
    }

    /** `update()`: one interpreter step. */
    method Step(draws: seq<nat>)
      requires Valid()
      modifies this, player, player.body, monster.body
      ensures Valid()
      ensures Snapshot() == Interpreter.Step(old(Snapshot()), draws)
    {
      if |actions| == 0 {
        return;
      }
      var action := actions[0];
      actions := actions[1..];
      if AllowedStates(action).Some? && state !in AllowedStates(action).value {
        return;
      }
      Execute(action, draws);
      // the subscriber callbacks
      notified := notified + 1;
      if player.body.health == 0 {
        ClearActions();
        return;
      }
      if monster.body.health == 0 {
        ClearActions();
        return;
      }
    }

    /** `n` turns of the host loop, each with its own round of draws. */
    method RunSteps(n: nat, rounds: seq<seq<nat>>)
      requires Valid()
      modifies this, player, player.body, monster.body
      ensures Valid()
      ensures Snapshot() == Interpreter.Run(old(Snapshot()), n, rounds, 0)
    {
      var k := 0;
      while k < n
        invariant 0 <= k <= n
        invariant Valid()
        invariant Interpreter.Run(Snapshot(), n - k, rounds, k) == Interpreter.Run(old(Snapshot()), n, rounds, 0)
      {
        Step(Interpreter.DrawsAt(rounds, k));
        k := k + 1;
      }
    }

    /** An action's `update`. */
    method Execute(a: Action, draws: seq<nat>)
      requires Valid()
      modifies this, player, player.body, monster.body
      ensures Valid()
      ensures Snapshot() == Interpreter.Execute(old(Snapshot()), a, draws)
    {
      Facts.ExecuteKeepsWellFormed(Snapshot(), a, draws);
      match a
      case WaitAction(_) =>
      case HealAction(t, n) => TargetOf(t).ModifyHealth(n);
      case DamageAction(t, n) => TargetOf(t).Damage(n);
      case CastSpellAction => RunCastSpell();
      case TransitionAction(s) => Transition(s);
      case StartTurnAction => RunStartTurn();
      case EndTurnAction => RunEndTurn();
      case PlayNextCardAction => RunPlayNextCard();
      case PlayCardAction(c) =>
        Play(c, draws);
        previousCardPlayed := Some(c);
      case JumpToCardAction(i) => SetCastingIndex(i);
      case ModifyHealthAction(t, n) => TargetOf(t).ModifyHealth(n);
      case ModifyManaAction(n) => player.ModifyMana(n);
      case ModifyMightAction(n) => player.ModifyMight(n);
      case MultiplyMightAction(f) => player.SetMight(player.might * f);
      case SetHealthAction(t, n) => TargetOf(t).SetHealth(n);
      case SetManaAction(n) => player.SetMana(n);
      case SetMightAction(n) => player.SetMight(n);
      case ResetMightAction => player.SetMight(0);
      case ShuffleSpellAction => RunShuffle(draws);
      case LoopAction => RunLoop();
      case BanishCardAction(i) => RunBanish(i);
    }

    /** CastSpellAction's `update`. */
    method RunCastSpell()
      modifies this, player
      ensures Snapshot() == Interpreter.Execute(old(Snapshot()), CastSpellAction, [])
    {
      CastSpell();
      AddActionBottom(TransitionAction(Casting));
      AddActionBottom(WaitAction(500));
      AddActionBottom(PlayNextCardAction);
    }

    /** StartTurnAction's `update`. */
    method RunStartTurn()
      modifies this
      ensures Snapshot() == Interpreter.Execute(old(Snapshot()), StartTurnAction, [])
    {
      AddActionBottom(TransitionAction(Drafting));
      ResetSpell();
      monster.OnTurnStart(this);
    }

    /** EndTurnAction's `update`. */
    method RunEndTurn()
      modifies this
      ensures Snapshot() == Interpreter.Execute(old(Snapshot()), EndTurnAction, [])
    {
      ClearActions();
      monster.OnTurnEnd(this);
      AddActionBottom(WaitAction(800));
      AddActionBottom(StartTurnAction);
    }

    /** PlayNextCardAction's `update`. */
    method RunPlayNextCard()
      modifies this
      ensures Snapshot() == Interpreter.PlayNext(old(Snapshot()))
    {
      if IsSpellFinished() {
        AddActionBottom(EndTurnAction);
        return;
      }
      var card := GetCurrentCard();
      if card.Some? {
        // check whether the player can afford the card
        if !player.HasMana(Cost(card.value.kind)) {
          AddActionBottom(EndTurnAction);
          return;
        }
        // pay for it
        AddActionBottom(ModifyManaAction(-(Cost(card.value.kind) as int)));
      }
      // advance the cursor
      AddActionBottom(JumpToCardAction(cursor + 1));
      if card.Some? {
        AddActionBottom(PlayCardAction(card.value));
      }
      // pause, then play the next card
      AddActionBottom(WaitAction(800));
      AddActionBottom(PlayNextCardAction);
    }

    /** A card's `play`: only `addActionTop` calls, with amounts read now. */
    method Play(card: Card, draws: seq<nat>)
      modifies this
      ensures Snapshot() == CardPlay.Play(card, old(Snapshot()), draws)
    {
      ghost var w := Snapshot();
      match card.kind {
      case Remedy => AddActionTop(HealAction(TargetPlayer, 1));
      case Bolt => AddActionTop(DamageAction(TargetMonster, 1));
      case Augment => AddActionTop(ModifyMightAction(1));
      case Burst =>
        AddActionTop(DamageAction(TargetMonster, player.might));
        AddActionTop(ResetMightAction);
      case Jump => AddActionTop(JumpToCardAction(cursor + 1));
      case Propel => AddActionTop(JumpToCardAction(player.might));
      case Hypothesis =>
        if player.mana % 2 == 0 {
          AddActionTop(ModifyManaAction(2));
        }
      case Antithesis =>
        if player.mana % 2 == 0 {
          AddActionTop(DamageAction(TargetMonster, 2));
        }
      case Synthesis =>
        if player.mana % 2 == 0 {
          AddActionTop(HealAction(TargetPlayer, 2));
        }
      case Justify => AddActionTop(ModifyMightAction(2));
      case Mystify => AddActionTop(ModifyManaAction(2));
      case Purify => AddActionTop(HealAction(TargetPlayer, 2));
      case Amplify => AddActionTop(MultiplyMightAction(2));
      case Siphon =>
        var amount := player.might;
        AddActionTop(HealAction(TargetPlayer, amount));
        AddActionTop(ResetMightAction);
      case Again =>
      case Supernova => AddActionTop(DamageAction(TargetMonster, player.might));
      case Salvation =>
        AddActionTop(HealAction(TargetPlayer, player.might));
        AddActionTop(ResetMightAction);
      case Awaken =>
        AddActionTop(ModifyManaAction(player.might));
        AddActionTop(ResetMightAction);
      case Obstacle =>
      case Fatigue =>
      case Confusion => AddActionTop(ShuffleSpellAction);
      case Wormhole =>
        var slot := if |spell| == 0 then 0 else CardPlay.Draw(draws, 0) % |spell|;
        AddActionTop(JumpToCardAction(slot));
      }
      CardPlay.PushAllTopIsReversal(w.queue, CardPlay.Pushes(card, w, draws));
    }

    /** ShuffleSpellAction's `update`: Fisher-Yates over the slots, driven by the draws. */
    method RunShuffle(draws: seq<nat>)
      modifies this
      ensures Snapshot() == old(Snapshot()).(spell := Interpreter.Shuffled(old(spell), draws))
    {
      spell := Shuffle(spell, draws);
    }

    /** LoopAction's `update`: search down from the cursor for a loop card, then jump to it. */
    method RunLoop()
      modifies this
      ensures Snapshot() == Interpreter.Execute(old(Snapshot()), LoopAction, [])
    {
      var i := cursor;
      while i >= 0 && !Interpreter.IsLoopSlot(spell, i)
        invariant i <= cursor
        invariant forall j :: i < j <= cursor ==> !Interpreter.IsLoopSlot(spell, j)
        decreases i + 1
      {
        i := i - 1;
      }
      // the search stopped on a loop card, or ran past slot 0
      actions := if i >= 0 then [JumpToCardAction(i)] + actions else actions;
    }

    /** BanishCardAction's `update`. */
    method RunBanish(index: int)
      modifies this
      ensures Snapshot() == Interpreter.Execute(old(Snapshot()), BanishCardAction(index), [])
    {
      var card := if 0 <= index < |spell| then spell[index] else None;
      if card.Some? {
        RemoveFromSpell(card.value);
        AddToEther(card.value);
      }
    }
  }

  /**
   * `RNG.shuffle`: Fisher-Yates from the last position down, each swap
   * partner picked by the next draw.
   */
  method Shuffle<T>(s: seq<T>, draws: seq<nat>) returns (r: seq<T>)
    ensures r == Interpreter.Shuffled(s, draws)
  {
    r := s;
    if |r| == 0 {
      return;
    }
    var i := |r| - 1;
    while i > 0
      invariant 0 <= i < |r| == |s|
      invariant Interpreter.ShuffleDown(r, i, draws) == Interpreter.Shuffled(s, draws)
    {
      var j := CardPlay.Draw(draws, |r| - 1 - i) % (i + 1);
      assert Interpreter.ShuffleDown(r, i, draws)
          == Interpreter.ShuffleDown(Interpreter.Swap(r, i, j), i - 1, draws);
      r := r[i := r[j]][j := r[i]];
      i := i - 1;
    }
  }

  /** The setup of src/index.ts: a game over the deck, a Scrabbler, and one StartTurn queued. */
  method NewMatch(deck: seq<Card>) returns (game: Game)
    ensures fresh(game) && game.Valid()
    ensures game.Snapshot() == Initial(deck, GameWorld.Scrabbler).(queue := [StartTurnAction])
  {
    game := new Game(deck);
    game.AddActionBottom(StartTurnAction);
  }
}
