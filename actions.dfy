/**
 * The action variants of src/actions.ts as one closed datatype, with the
 * phase of src/game.ts and the static `allowedStates` of each class.
 * Executing an action is module Interpreter's business (and Engine's, for the
 * stateful version).
 */
module Actions {
  import opened Optional
  import opened Catalog

  /** The `GameState` enum. */
  datatype GameState = Initializing | Drafting | Casting | Reacting

  /** The creature an action's `target` refers to: `game.player` or `game.monster`. */
  datatype Target = TargetPlayer | TargetMonster

  /** One constructor per Action subclass, with its constructor parameters. */
  datatype Action =
    | WaitAction(duration: int)
    | HealAction(target: Target, amount: int)
    | DamageAction(target: Target, amount: int)
    | CastSpellAction
    | TransitionAction(state: GameState)
    | StartTurnAction
    | EndTurnAction
    | PlayNextCardAction
    | PlayCardAction(card: Card)
    | JumpToCardAction(index: int)
    | ModifyHealthAction(target: Target, amount: int)
    | ModifyManaAction(amount: int)
    | ModifyMightAction(amount: int)
    | MultiplyMightAction(factor: int)
    | SetHealthAction(target: Target, amount: int)
    | SetManaAction(amount: int)
    | SetMightAction(amount: int)
    | ResetMightAction
    | ShuffleSpellAction
    | LoopAction
    | BanishCardAction(index: int)

  /** The class-static `allowedStates`; `None` where a class declares none. */
  function AllowedStates(a: Action): Option<set<GameState>>
  {
    match a
    case HealAction(_, _) => Some({Casting})
    case DamageAction(_, _) => Some({Casting})
    case CastSpellAction => Some({Drafting})
    case StartTurnAction => Some({Initializing})
    case PlayNextCardAction => Some({Casting})
    case PlayCardAction(_) => Some({Casting})
    case JumpToCardAction(_) => Some({Casting})
    case _ => None
  }

  /** The gate of `Game.update`: an action runs unless its list exists and excludes the phase. */
  predicate Permitted(a: Action, phase: GameState)
  {
    AllowedStates(a).None? || phase in AllowedStates(a).value
  }

  /** The five action kinds that only run while a spell is being cast. */
  predicate CastingOnly(a: Action)
  {
    a.HealAction? || a.DamageAction? || a.PlayNextCardAction? || a.PlayCardAction? || a.JumpToCardAction?
  }

  /**
   * The gate, stated per kind: casting-only actions need Casting, CastSpell
   * needs Drafting, StartTurn needs Initializing, and every other action
   * (including Transition, EndTurn and Wait) runs in every phase.
   */
  lemma GateByKind(a: Action, phase: GameState)
    ensures CastingOnly(a) ==> (Permitted(a, phase) <==> phase == Casting)
    ensures a.CastSpellAction? ==> (Permitted(a, phase) <==> phase == Drafting)
    ensures a.StartTurnAction? ==> (Permitted(a, phase) <==> phase == Initializing)
    ensures !CastingOnly(a) && !a.CastSpellAction? && !a.StartTurnAction? ==> Permitted(a, phase)
  {
  }

  /** No action is allowed in Reacting unless it is unrestricted. */
  lemma ReactingRunsOnlyUnrestricted(a: Action)
    ensures Permitted(a, Reacting) <==> AllowedStates(a).None?
  {
  }
}
