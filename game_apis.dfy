/** The typed front ends of the command bus: the token tables of the player
    and input managers, the PlayerAPI and InputAPI hubs that pack their
    arguments into a single Act/Ask call. */
module GameApis {
  import opened Wrappers
  import GameTokens
  import opened CommandBus

  const BoolType := GameTokens.TypeTag("System.Boolean")
  const IntType := GameTokens.TypeTag("System.Int32")
  const Vector2Type := GameTokens.TypeTag("UnityEngine.Vector2")
  const TransformType := GameTokens.TypeTag("UnityEngine.Transform")
  const ManaArgsType := GameTokens.TypeTag("PlayerManager+PlayerTokens+ManaArgs")
  const ManaArgsFloatType := GameTokens.TypeTag("PlayerManager+PlayerTokens+ManaArgsFloat")
  const DashArgsType := GameTokens.TypeTag("PlayerManager+PlayerTokens+DashArgs")

  /** PlayerManager.PlayerTokens: one token object per query and command. */
  class PlayerTokens {
    const SprintState: GameTokens.Ask
    const TimerTicking: GameTokens.Ask
    const PlayerTransform: GameTokens.Ask
    const CurrentManaUnits: GameTokens.Ask
    const Dash: GameTokens.Act
    const DefaultDash: GameTokens.Act
    const ChangeMana: GameTokens.Act
    const ChangeManaByTickUnit: GameTokens.Act

    constructor ()
      ensures SprintState.Name == Some("Player.SprintState") && SprintState.valueType == BoolType
      ensures TimerTicking.Name == Some("Player.TimerTicking") && TimerTicking.valueType == BoolType
      ensures PlayerTransform.Name == Some("Player.Transform") && PlayerTransform.valueType == TransformType
      ensures CurrentManaUnits.Name == Some("Player.CurrentManaUnits") && CurrentManaUnits.valueType == IntType
      ensures Dash.Name == Some("Player.Dash") && Dash.argType == DashArgsType
      ensures DefaultDash.Name == Some("Player.DefaultDash") && DefaultDash.argType == Vector2Type
      ensures ChangeMana.Name == Some("Player.ChangeMana") && ChangeMana.argType == ManaArgsType
      ensures ChangeManaByTickUnit.Name == Some("Player.ChangeManaByTickUnit") && ChangeManaByTickUnit.argType == ManaArgsFloatType
    {
      SprintState := new GameTokens.Ask(Some("Player.SprintState"), BoolType);
      TimerTicking := new GameTokens.Ask(Some("Player.TimerTicking"), BoolType);
      PlayerTransform := new GameTokens.Ask(Some("Player.Transform"), TransformType);
      CurrentManaUnits := new GameTokens.Ask(Some("Player.CurrentManaUnits"), IntType);
      Dash := new GameTokens.Act(Some("Player.Dash"), DashArgsType);
      DefaultDash := new GameTokens.Act(Some("Player.DefaultDash"), Vector2Type);
      ChangeMana := new GameTokens.Act(Some("Player.ChangeMana"), ManaArgsType);
      ChangeManaByTickUnit := new GameTokens.Act(Some("Player.ChangeManaByTickUnit"), ManaArgsFloatType);
    }
  }

  /** InputManager.InputTokens. */
  class InputTokens {
    const PlayerInputsActive: GameTokens.Ask
    const CardInputsActive: GameTokens.Ask
    const UIInputsActive: GameTokens.Ask
    const SetPlayerInputs: GameTokens.Act
    const SetCardInputs: GameTokens.Act
    const SetUIInputs: GameTokens.Act

    constructor ()
      ensures PlayerInputsActive.Name == Some("Input.PlayerInputsActive") && PlayerInputsActive.valueType == BoolType
      ensures CardInputsActive.Name == Some("Input.CardInputsActive") && CardInputsActive.valueType == BoolType
      ensures UIInputsActive.Name == Some("Input.UIInputsActive") && UIInputsActive.valueType == BoolType
      ensures SetPlayerInputs.Name == Some("Input.SetPlayerInputs") && SetPlayerInputs.argType == BoolType
      ensures SetCardInputs.Name == Some("Input.SetCardInputs") && SetCardInputs.argType == BoolType
      ensures SetUIInputs.Name == Some("Input.SetUIInputs") && SetUIInputs.argType == BoolType
    {
      PlayerInputsActive := new GameTokens.Ask(Some("Input.PlayerInputsActive"), BoolType);
      CardInputsActive := new GameTokens.Ask(Some("Input.CardInputsActive"), BoolType);
      UIInputsActive := new GameTokens.Ask(Some("Input.UIInputsActive"), BoolType);
      SetPlayerInputs := new GameTokens.Act(Some("Input.SetPlayerInputs"), BoolType);
      SetCardInputs := new GameTokens.Act(Some("Input.SetCardInputs"), BoolType);
      SetUIInputs := new GameTokens.Act(Some("Input.SetUIInputs"), BoolType);
    }
  }

  /** GameContext.PlayerAPI: each call is one Act or Ask on the player's
      token with its arguments packed into the token's argument struct. */
  class PlayerAPI {
    const ctx: GameContext
    const tokens: PlayerTokens

    constructor (ctx: GameContext, tokens: PlayerTokens)
      ensures this.ctx == ctx && this.tokens == tokens
    {
      this.ctx := ctx;
      this.tokens := tokens;
    }

    method ChangeMana(amount: int, includeRedSlider: bool := true) returns (outcome: Outcome<Exception>)
      modifies ctx`invocations
      ensures ActOutcome(outcome, ctx.invocations) ==
              ActSpec(ctx.handlers, old(ctx.invocations), tokens.ChangeMana, ManaArgs(amount, includeRedSlider))
    {
      outcome := ctx.Act(tokens.ChangeMana, ManaArgs(amount, includeRedSlider));
    }

    method ChangeManaByTickUnit(amount: real, includeRedSlider: bool := true) returns (outcome: Outcome<Exception>)
      modifies ctx`invocations
      ensures ActOutcome(outcome, ctx.invocations) ==
              ActSpec(ctx.handlers, old(ctx.invocations), tokens.ChangeManaByTickUnit, ManaArgsFloat(amount, includeRedSlider))
    {
      outcome := ctx.Act(tokens.ChangeManaByTickUnit, ManaArgsFloat(amount, includeRedSlider));
    }

    method Dash(inputX: real, inputY: real, distance: real, duration: real) returns (outcome: Outcome<Exception>)
      modifies ctx`invocations
      ensures ActOutcome(outcome, ctx.invocations) ==
              ActSpec(ctx.handlers, old(ctx.invocations), tokens.Dash, DashArgs(inputX, inputY, distance, duration))
    {
      outcome := ctx.Act(tokens.Dash, DashArgs(inputX, inputY, distance, duration));
    }

    method DefaultDash(inputX: real, inputY: real) returns (outcome: Outcome<Exception>)
      modifies ctx`invocations
      ensures ActOutcome(outcome, ctx.invocations) ==
              ActSpec(ctx.handlers, old(ctx.invocations), tokens.DefaultDash, Vector2(inputX, inputY))
    {
      outcome := ctx.Act(tokens.DefaultDash, Vector2(inputX, inputY));
    }

    method IsSprinting(answer: Value) returns (r: Result<Value, Exception>)
      modifies ctx`invocations
      ensures AskOutcome(r, ctx.invocations) == AskSpec(ctx.handlers, old(ctx.invocations), tokens.SprintState, answer)
    {
      r := ctx.Ask(tokens.SprintState, answer);
    }

    method IsTimerTicking(answer: Value) returns (r: Result<Value, Exception>)
      modifies ctx`invocations
      ensures AskOutcome(r, ctx.invocations) == AskSpec(ctx.handlers, old(ctx.invocations), tokens.TimerTicking, answer)
    {
      r := ctx.Ask(tokens.TimerTicking, answer);
    }
  }

  /** GameContext.InputAPI. */
  class InputAPI {
    const ctx: GameContext
    const tokens: InputTokens

    constructor (ctx: GameContext, tokens: InputTokens)
      ensures this.ctx == ctx && this.tokens == tokens
    {
      this.ctx := ctx;
      this.tokens := tokens;
    }

    method SetPlayerInputs(active: bool) returns (outcome: Outcome<Exception>)
      modifies ctx`invocations
      ensures ActOutcome(outcome, ctx.invocations) == ActSpec(ctx.handlers, old(ctx.invocations), tokens.SetPlayerInputs, Bool(active))
    {
      outcome := ctx.Act(tokens.SetPlayerInputs, Bool(active));
    }

    method SetCardInputs(active: bool) returns (outcome: Outcome<Exception>)
      modifies ctx`invocations
      ensures ActOutcome(outcome, ctx.invocations) == ActSpec(ctx.handlers, old(ctx.invocations), tokens.SetCardInputs, Bool(active))
    {
      outcome := ctx.Act(tokens.SetCardInputs, Bool(active));
    }

    method SetUIInputs(active: bool) returns (outcome: Outcome<Exception>)
      modifies ctx`invocations
      ensures ActOutcome(outcome, ctx.invocations) == ActSpec(ctx.handlers, old(ctx.invocations), tokens.SetUIInputs, Bool(active))
    {
      outcome := ctx.Act(tokens.SetUIInputs, Bool(active));
    }

    method IsPlayerInputsActive(answer: Value) returns (r: Result<Value, Exception>)
      modifies ctx`invocations
      ensures AskOutcome(r, ctx.invocations) == AskSpec(ctx.handlers, old(ctx.invocations), tokens.PlayerInputsActive, answer)
    {
      r := ctx.Ask(tokens.PlayerInputsActive, answer);
    }

    method IsCardInputsActive(answer: Value) returns (r: Result<Value, Exception>)
      modifies ctx`invocations
      ensures AskOutcome(r, ctx.invocations) == AskSpec(ctx.handlers, old(ctx.invocations), tokens.CardInputsActive, answer)
    {
      r := ctx.Ask(tokens.CardInputsActive, answer);
    }

    method IsUIInputsActive(answer: Value) returns (r: Result<Value, Exception>)
      modifies ctx`invocations
      ensures AskOutcome(r, ctx.invocations) == AskSpec(ctx.handlers, old(ctx.invocations), tokens.UIInputsActive, answer)
    {
      r := ctx.Ask(tokens.UIInputsActive, answer);
    }
  }

  /** With the player's ChangeMana handler registered, PlayerAPI.ChangeMana
      calls it exactly once with exactly the amount and flag given; with none
      registered it throws KeyNotFoundException naming the token. */
  lemma ChangeManaDispatch(h: Handlers, log: seq<Invocation>, token: GameTokens.Act, amount: int, includeRedSlider: bool)
    requires WellTyped(h)
    ensures token in h ==>
              ActSpec(h, log, token, ManaArgs(amount, includeRedSlider)) ==
              ActOutcome(Pass, log + [Invoked(h[token].id, Some(ManaArgs(amount, includeRedSlider)))])
    ensures token !in h ==>
              ActSpec(h, log, token, ManaArgs(amount, includeRedSlider)) ==
              ActOutcome(Fail(KeyNotFoundException("Act handler not found for " + token.ToString())), log)
  {
    ActNeverMismatches(h, token);
  }

  /** Two tokens built with the same name are two registry keys: a handler
      registered under one is not found through the other. */
  method SameNameIsNotSameToken(name: string, handler: nat, answer: Value)
    returns (registered: Outcome<Exception>, viaOther: Result<Value, Exception>, viaSame: Result<Value, Exception>)
    ensures registered == Pass
    ensures viaOther == Failure(KeyNotFoundException("Query handler not found for " + name))
    ensures viaSame == Success(answer)
  {
    var ctx := new GameContext();
    var first := new GameTokens.Ask(Some(name), BoolType);
    var second := new GameTokens.Ask(Some(name), BoolType);
    registered := ctx.AddAsk(first, Some(handler));
    viaOther := ctx.Ask(second, answer);
    viaSame := ctx.Ask(first, answer);
  }
}
