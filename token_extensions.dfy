/** TokenExtensions: the bus calls written on the token, forwarding to the
    context unchanged.  The global GameContext.Instance is the explicit
    parameter ctx. */
module TokenExtensions {
  import opened Wrappers
  import GameTokens
  import opened CommandBus

  method Invoke(ctx: GameContext, token: GameTokens.Act, arg: Value) returns (outcome: Outcome<Exception>)
    modifies ctx`invocations
    ensures ActOutcome(outcome, ctx.invocations) == ActSpec(ctx.handlers, old(ctx.invocations), token, arg)
  {
    outcome := ctx.Act(token, arg);
  }

  method TryInvoke(ctx: GameContext, token: GameTokens.Act, arg: Value) returns (found: bool)
    modifies ctx`invocations
    ensures ActReply(found, ctx.invocations) == TryActSpec(ctx.handlers, old(ctx.invocations), token, arg)
  {
    found := ctx.TryAct(token, arg);
  }

  method RegisterAct(ctx: GameContext, token: GameTokens.Act?, handler: Option<nat>) returns (outcome: Outcome<Exception>)
    modifies ctx`handlers
    ensures token == null ==> outcome == Fail(ArgumentNullException("token")) && ctx.handlers == old(ctx.handlers)
    ensures token != null && handler.None? ==> outcome == Fail(ArgumentNullException("handler")) && ctx.handlers == old(ctx.handlers)
    ensures token != null && handler.Some? ==> outcome == Pass && ctx.handlers == WithAct(old(ctx.handlers), token, handler.value)
  {
    outcome := ctx.AddAct(token, handler);
  }

  method Ask(ctx: GameContext, token: GameTokens.Ask, answer: Value) returns (r: Result<Value, Exception>)
    modifies ctx`invocations
    ensures AskOutcome(r, ctx.invocations) == AskSpec(ctx.handlers, old(ctx.invocations), token, answer)
  {
    r := ctx.Ask(token, answer);
  }

  method TryAsk(ctx: GameContext, token: GameTokens.Ask, answer: Value) returns (found: bool, result: Value)
    modifies ctx`invocations
    ensures AskReply(found, result, ctx.invocations) == TryAskSpec(ctx.handlers, old(ctx.invocations), token, answer)
  {
    found, result := ctx.TryAsk(token, answer);
  }

  method RegisterAsk(ctx: GameContext, token: GameTokens.Ask?, handler: Option<nat>) returns (outcome: Outcome<Exception>)
    modifies ctx`handlers
    ensures token == null ==> outcome == Fail(ArgumentNullException("token")) && ctx.handlers == old(ctx.handlers)
    ensures token != null && handler.None? ==> outcome == Fail(ArgumentNullException("handler")) && ctx.handlers == old(ctx.handlers)
    ensures token != null && handler.Some? ==> outcome == Pass && ctx.handlers == WithAsk(old(ctx.handlers), token, handler.value)
  {
    outcome := ctx.AddAsk(token, handler);
  }
}
