/** GameContext: a registry of services keyed by type, and the Ask/Act
    command bus, a single dictionary from token objects to handler delegates.
    A handler is code this model cannot see: it is known by an identity and
    its delegate type; invoking one is recorded, and the value a query
    handler returns is a parameter. */
module CommandBus {
  import opened Wrappers
  import GameTokens

  type TypeTag = GameTokens.TypeTag

  /** A delegate as stored in the dictionary: Func<T> or Action<TArg>, with
      the identity of the code behind it. */
  datatype Delegate = Func(resultType: TypeTag, id: nat) | Action(argType: TypeTag, id: nat)

  /** The values that cross the bus in this game. */
  datatype Value =
    | Default(ofType: TypeTag)        // default(T), for a result no handler produced
    | Bool(b: bool)
    | Int(i: int)
    | Vector2(x: real, y: real)
    | ManaArgs(amount: int, includeRedSlider: bool)
    | ManaArgsFloat(amountInTicks: real, includeRed: bool)
    | DashArgs(inputX: real, inputY: real, distance: real, duration: real)

  datatype Exception = ArgumentNullException(paramName: string) | KeyNotFoundException(message: string)

  /** One call of a handler, with its argument for an Action. */
  datatype Invocation = Invoked(handler: nat, arg: Option<Value>)

  /** How the dictionary answers for a token: nothing stored, a delegate of
      another type (logged as an error in the source), or a matching one. */
  datatype Resolution = NotRegistered | WrongDelegateType | Resolved(id: nat)

  type Handlers = map<object, Delegate>

  function AskResolution(h: Handlers, token: GameTokens.Ask): Resolution
  {
    if token !in h then NotRegistered
    else match h[token]
      case Func(t, id) => if t == token.valueType then Resolved(id) else WrongDelegateType
      case Action(_, _) => WrongDelegateType
  }

  function ActResolution(h: Handlers, token: GameTokens.Act): Resolution
  {
    if token !in h then NotRegistered
    else match h[token]
      case Action(t, id) => if t == token.argType then Resolved(id) else WrongDelegateType
      case Func(_, _) => WrongDelegateType
  }

  /** AddAsk / AddAct once the null checks pass: the entry is overwritten. */
  function WithAsk(h: Handlers, token: GameTokens.Ask, handler: nat): Handlers
  {
    h[token := Func(token.valueType, handler)]
  }

  function WithAct(h: Handlers, token: GameTokens.Act, handler: nat): Handlers
  {
    h[token := Action(token.argType, handler)]
  }

  /** What the typed registration methods can build: query tokens hold a
      Func of their own type, command tokens an Action of their own type. */
  ghost predicate WellTyped(h: Handlers)
  {
    forall k :: k in h ==>
      (k is GameTokens.Ask && h[k].Func? && h[k].resultType == (k as GameTokens.Ask).valueType) ||
      (k is GameTokens.Act && h[k].Action? && h[k].argType == (k as GameTokens.Act).argType)
  }

  datatype AskReply = AskReply(found: bool, result: Value, invocations: seq<Invocation>)
  datatype AskOutcome = AskOutcome(result: Result<Value, Exception>, invocations: seq<Invocation>)
  datatype ActReply = ActReply(found: bool, invocations: seq<Invocation>)
  datatype ActOutcome = ActOutcome(outcome: Outcome<Exception>, invocations: seq<Invocation>)

  /** TryAsk: the result starts at default(T); a matching Func is called
      once and its value returned. */
  function TryAskSpec(h: Handlers, log: seq<Invocation>, token: GameTokens.Ask, answer: Value): AskReply
  {
    match AskResolution(h, token)
    case Resolved(id) => AskReply(true, answer, log + [Invoked(id, None)])
    case _ => AskReply(false, Default(token.valueType), log)
  }

  /** Ask: TryAsk, throwing when it fails. */
  function AskSpec(h: Handlers, log: seq<Invocation>, token: GameTokens.Ask, answer: Value): AskOutcome
  {
    var r := TryAskSpec(h, log, token, answer);
    if r.found then AskOutcome(Success(r.result), r.invocations)
    else AskOutcome(Failure(KeyNotFoundException("Query handler not found for " + token.ToString())), r.invocations)
  }

  function TryActSpec(h: Handlers, log: seq<Invocation>, token: GameTokens.Act, arg: Value): ActReply
  {
    match ActResolution(h, token)
    case Resolved(id) => ActReply(true, log + [Invoked(id, Some(arg))])
    case _ => ActReply(false, log)
  }

  function ActSpec(h: Handlers, log: seq<Invocation>, token: GameTokens.Act, arg: Value): ActOutcome
  {
    var r := TryActSpec(h, log, token, arg);
    if r.found then ActOutcome(Pass, r.invocations)
    else ActOutcome(Fail(KeyNotFoundException("Act handler not found for " + token.ToString())), r.invocations)
  }

  /** Registering keeps the dictionary well typed. */
  lemma WithAskKeepsWellTyped(h: Handlers, token: GameTokens.Ask, handler: nat)
    requires WellTyped(h)
    ensures WellTyped(WithAsk(h, token, handler))
  {
  }

  lemma WithActKeepsWellTyped(h: Handlers, token: GameTokens.Act, handler: nat)
    requires WellTyped(h)
    ensures WellTyped(WithAct(h, token, handler))
  {
  }

  /** Through the typed registration methods a stored delegate never has the
      wrong type: the try-forms fail only for a token never registered. */
  lemma AskNeverMismatches(h: Handlers, q: GameTokens.Ask)
    requires WellTyped(h)
    ensures AskResolution(h, q) != WrongDelegateType
    ensures AskResolution(h, q) == NotRegistered <==> q !in h
    ensures q in h ==> AskResolution(h, q) == Resolved(h[q].id)
  {
    if q in h {
      assert (q as object) is GameTokens.Ask;
    }
  }

  lemma ActNeverMismatches(h: Handlers, c: GameTokens.Act)
    requires WellTyped(h)
    ensures ActResolution(h, c) != WrongDelegateType
    ensures ActResolution(h, c) == NotRegistered <==> c !in h
    ensures c in h ==> ActResolution(h, c) == Resolved(h[c].id)
  {
    if c in h {
      assert (c as object) is GameTokens.Act;
    }
  }

  /** No reply token ever gets into a dictionary built by the registration
      methods. */
  lemma ReplyTokensNeverRegistered(h: Handlers, r: GameTokens.Reply)
    requires WellTyped(h)
    ensures r !in h
  {
  }

  /** The last registration for a token wins, and it resolves to exactly that
      handler; a query and a command token never share an entry. */
  lemma LastRegistrationWins(h: Handlers, q: GameTokens.Ask, c: GameTokens.Act, first: nat, second: nat)
    ensures WithAsk(WithAsk(h, q, first), q, second) == WithAsk(h, q, second)
    ensures WithAct(WithAct(h, c, first), c, second) == WithAct(h, c, second)
    ensures AskResolution(WithAsk(h, q, second), q) == Resolved(second)
    ensures ActResolution(WithAct(h, c, second), c) == Resolved(second)
    ensures AskResolution(WithAct(h, c, second), q) == AskResolution(h, q)
    ensures ActResolution(WithAsk(h, q, second), c) == ActResolution(h, c)
  {
    var qo: object := q;
    var co: object := c;
    assert qo != co by {
      assert qo is GameTokens.Ask && !(co is GameTokens.Ask);
    }
  }

  /** Registering one token leaves every other token's handler as it was,
      even a token of the same name. */
  lemma RegistrationIsPerToken(h: Handlers, token: GameTokens.Ask, other: GameTokens.Ask, handler: nat)
    requires token != other
    ensures AskResolution(WithAsk(h, token, handler), other) == AskResolution(h, other)
  {
  }

  /** TryAsk on a token with no handler returns false with default(T) and
      calls nothing; with a matching handler it calls that handler once and
      returns its value. */
  lemma TryAskContract(h: Handlers, log: seq<Invocation>, token: GameTokens.Ask, answer: Value)
    ensures token !in h ==> TryAskSpec(h, log, token, answer) == AskReply(false, Default(token.valueType), log)
    ensures TryAskSpec(h, log, token, answer).found <==> AskResolution(h, token).Resolved?
    ensures TryAskSpec(h, log, token, answer).found ==>
              TryAskSpec(h, log, token, answer) == AskReply(true, answer, log + [Invoked(AskResolution(h, token).id, None)])
    ensures !TryAskSpec(h, log, token, answer).found ==> TryAskSpec(h, log, token, answer).invocations == log
  {
  }

  /** Ask succeeds exactly when TryAsk would, with the same value and the
      same calls; otherwise it throws KeyNotFoundException naming the
      token. */
  lemma AskAgreesWithTryAsk(h: Handlers, log: seq<Invocation>, token: GameTokens.Ask, answer: Value)
    ensures AskSpec(h, log, token, answer).result.Success? <==> TryAskSpec(h, log, token, answer).found
    ensures AskSpec(h, log, token, answer).invocations == TryAskSpec(h, log, token, answer).invocations
    ensures AskSpec(h, log, token, answer).result.Success? ==>
              AskSpec(h, log, token, answer).result.value == TryAskSpec(h, log, token, answer).result
    ensures AskSpec(h, log, token, answer).result.Failure? ==>
              AskSpec(h, log, token, answer).result.error == KeyNotFoundException("Query handler not found for " + token.ToString())
  {
  }

  lemma ActAgreesWithTryAct(h: Handlers, log: seq<Invocation>, token: GameTokens.Act, arg: Value)
    ensures ActSpec(h, log, token, arg).outcome.Pass? <==> TryActSpec(h, log, token, arg).found
    ensures ActSpec(h, log, token, arg).invocations == TryActSpec(h, log, token, arg).invocations
    ensures ActSpec(h, log, token, arg).outcome.Fail? ==>
              ActSpec(h, log, token, arg).outcome.error == KeyNotFoundException("Act handler not found for " + token.ToString())
    ensures TryActSpec(h, log, token, arg).found <==> ActResolution(h, token).Resolved?
    ensures TryActSpec(h, log, token, arg).found ==>
              TryActSpec(h, log, token, arg).invocations == log + [Invoked(ActResolution(h, token).id, Some(arg))]
  {
  }

  /** A Unity Component as a service.  A destroyed component compares equal
      to null under UnityEngine.Object's overloaded == and !=, although the
      reference itself stays. */
  class Component {
    var destroyed: bool

    constructor ()
      ensures !destroyed
    {
      destroyed := false;
    }
  }

  class GameContext {
    var services: map<TypeTag, Component>
    var handlers: Handlers
    /** Every handler call made through the bus, oldest first. */
    var invocations: seq<Invocation>

    constructor ()
      ensures services == map[] && handlers == map[] && invocations == []
      ensures WellTyped(handlers)
    {
      services := map[];
      handlers := map[];
      invocations := [];
    }

    /** RegisterService: a null (or destroyed) service throws and nothing
        changes; otherwise the entry for the type is overwritten. */
    method RegisterService(serviceType: TypeTag, service: Component?) returns (outcome: Outcome<Exception>)
      modifies this`services
      ensures (service == null || service.destroyed) ==>
                outcome == Fail(ArgumentNullException("service")) && services == old(services)
      ensures !(service == null || service.destroyed) ==>
                outcome == Pass && services == old(services)[serviceType := service]
    {
      if service == null || service.destroyed {
        return Fail(ArgumentNullException("service"));
      }
      services := services[serviceType := service];
      outcome := Pass;
    }

    /** TryGetService: the stored reference comes out whenever the type is
        registered, but the answer is true only while that service is alive. */
    method TryGetService(serviceType: TypeTag) returns (found: bool, service: Component?)
      ensures found <==> serviceType in services && !services[serviceType].destroyed
      ensures serviceType in services ==> service == services[serviceType]
      ensures serviceType !in services ==> service == null
    {
      if serviceType in services {
        service := services[serviceType];
        found := !service.destroyed;
      } else {
        service := null;
        found := false;
      }
    }

    method AddAsk(token: GameTokens.Ask?, handler: Option<nat>) returns (outcome: Outcome<Exception>)
      modifies this`handlers
      ensures token == null ==> outcome == Fail(ArgumentNullException("token")) && handlers == old(handlers)
      ensures token != null && handler.None? ==> outcome == Fail(ArgumentNullException("handler")) && handlers == old(handlers)
      ensures token != null && handler.Some? ==> outcome == Pass && handlers == WithAsk(old(handlers), token, handler.value)
      ensures WellTyped(old(handlers)) ==> WellTyped(handlers)
    {
      if token == null {
        return Fail(ArgumentNullException("token"));
      }
      if handler.None? {
        return Fail(ArgumentNullException("handler"));
      }
      handlers := handlers[token := Func(token.valueType, handler.value)];
      outcome := Pass;
    }

    method TryAsk(token: GameTokens.Ask, answer: Value) returns (found: bool, result: Value)
      modifies this`invocations
      ensures AskReply(found, result, invocations) == TryAskSpec(handlers, old(invocations), token, answer)
    {
      result := Default(token.valueType);
      if token !in handlers {
        return false, result;
      }
      var d := handlers[token];
      if d.Func? && d.resultType == token.valueType {
        invocations := invocations + [Invoked(d.id, None)];
        return true, answer;
      }
      found := false;
    }

    method Ask(token: GameTokens.Ask, answer: Value) returns (r: Result<Value, Exception>)
      modifies this`invocations
      ensures AskOutcome(r, invocations) == AskSpec(handlers, old(invocations), token, answer)
    {
      var found, value := TryAsk(token, answer);
      if found {
        return Success(value);
      }
      r := Failure(KeyNotFoundException("Query handler not found for " + token.ToString()));
    }

    method AddAct(token: GameTokens.Act?, handler: Option<nat>) returns (outcome: Outcome<Exception>)
      modifies this`handlers
      ensures token == null ==> outcome == Fail(ArgumentNullException("token")) && handlers == old(handlers)
      ensures token != null && handler.None? ==> outcome == Fail(ArgumentNullException("handler")) && handlers == old(handlers)
      ensures token != null && handler.Some? ==> outcome == Pass && handlers == WithAct(old(handlers), token, handler.value)
      ensures WellTyped(old(handlers)) ==> WellTyped(handlers)
    {
      if token == null {
        return Fail(ArgumentNullException("token"));
      }
      if handler.None? {
        return Fail(ArgumentNullException("handler"));
      }
      handlers := handlers[token := Action(token.argType, handler.value)];
      handlers := handlers[token := Action(token.argType, handler.value)];
      outcome := Pass;
    }

    method TryAct(token: GameTokens.Act, arg: Value) returns (found: bool)
      modifies this`invocations
      ensures ActReply(found, invocations) == TryActSpec(handlers, old(invocations), token, arg)
    {
      if token !in handlers {
        return false;
      }
      var d := handlers[token];
      if d.Action? && d.argType == token.argType {
        invocations := invocations + [Invoked(d.id, Some(arg))];
        return true;
      }
      found := false;
    }

    method Act(token: GameTokens.Act, arg: Value) returns (outcome: Outcome<Exception>)
      modifies this`invocations
      ensures ActOutcome(outcome, invocations) == ActSpec(handlers, old(invocations), token, arg)
    {
      var found := TryAct(token, arg);
      if !found {
        return Fail(KeyNotFoundException("Act handler not found for " + token.ToString()));
      }
      outcome := Pass;
    }
  }

  /** A service destroyed after registration stays in the dictionary, but
      TryGetService reports it missing while still handing out the stale
      reference. */
  method DestroyedServiceScenario(serviceType: TypeTag) returns (foundBefore: bool, foundAfter: bool, staleReference: bool)
    ensures foundBefore && !foundAfter && staleReference
  {
    var ctx := new GameContext();
    var manager := new Component();
    var registered := ctx.RegisterService(serviceType, manager);
    var service: Component?;
    foundBefore, service := ctx.TryGetService(serviceType);
    manager.destroyed := true;
    foundAfter, service := ctx.TryGetService(serviceType);
    staleReference := service == manager;
  }
}
