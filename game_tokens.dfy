/** The tokens of the command bus.  A token is an object compared by
    reference (none of the three classes overrides equality) that carries an
    optional display name and the C# type arguments it is generic over. */
module GameTokens {
  import opened Wrappers

  /** A C# type, by the name Type.ToString prints for it. */
  datatype TypeTag = TypeTag(fullName: string)

  /** What object.ToString prints for a generic instance: its runtime type,
      `Ask`1[System.Boolean]` and the like. */
  function GenericTypeString(className: string, arity: string, args: string): string
  {
    className + "`" + arity + "[" + args + "]"
  }

  /** Ask<T>: a query token for values of type T. */
  class Ask {
    const Name: Option<string>
    const valueType: TypeTag

    /** The name is stored as given, including a missing (null) one. */
    constructor (name: Option<string>, valueType: TypeTag)
      ensures Name == name && this.valueType == valueType
    {
      Name := name;
      this.valueType := valueType;
    }

    function ToString(): (s: string)
      ensures Name.Some? ==> s == Name.value
      ensures Name.None? ==> s == GenericTypeString("Ask", "1", valueType.fullName)
    {
      if Name.Some? then Name.value else GenericTypeString("Ask", "1", valueType.fullName)
    }
  }

  /** Act<TArg>: a command token taking an argument of type TArg. */
  class Act {
    const Name: Option<string>
    const argType: TypeTag

    constructor (name: Option<string>, argType: TypeTag)
      ensures Name == name && this.argType == argType
    {
      Name := name;
      this.argType := argType;
    }

    function ToString(): (s: string)
      ensures Name.Some? ==> s == Name.value
      ensures Name.None? ==> s == GenericTypeString("Act", "1", argType.fullName)
    {
      if Name.Some? then Name.value else GenericTypeString("Act", "1", argType.fullName)
    }
  }

  /** Act<TArg, TResult>: a command token with a reply.  The registry offers
      no way to register or invoke one. */
  class Reply {
    const Name: Option<string>
    const argType: TypeTag
    const resultType: TypeTag

    constructor (name: Option<string>, argType: TypeTag, resultType: TypeTag)
      ensures Name == name && this.argType == argType && this.resultType == resultType
    {
      Name := name;
      this.argType := argType;
      this.resultType := resultType;
    }

    function ToString(): (s: string)
      ensures Name.Some? ==> s == Name.value
      ensures Name.None? ==> s == GenericTypeString("Act", "2", argType.fullName + "," + resultType.fullName)
    {
      if Name.Some? then Name.value else GenericTypeString("Act", "2", argType.fullName + "," + resultType.fullName)
    }
  }

  /** An unnamed token prints its kind: an unnamed query and an unnamed
      command never print alike, whatever their type arguments. */
  lemma UnnamedTokensPrintTheirKind(q: Ask, c: Act)
    requires q.Name.None? && c.Name.None?
    ensures q.ToString() != c.ToString()
    ensures q.ToString()[..4] == "Ask`" && c.ToString()[..4] == "Act`"
  {
    var s := q.ToString();
    var t := c.ToString();
    assert s[..4] == "Ask`";
    assert t[..4] == "Act`";
    assert s[2] != t[2];
  }

  /** A named token prints exactly its name, so two tokens built with the
      same name print alike even though they are different objects. */
  method SameNameTokens(name: string, valueType: TypeTag) returns (first: Ask, second: Ask)
    ensures first.ToString() == second.ToString() == name
    ensures first != second
  {
    first := new Ask(Some(name), valueType);
    second := new Ask(Some(name), valueType);
  }
}
