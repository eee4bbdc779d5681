/**
  The `math` tool the service registers: it checks that both arguments are
  integers (a JSON `true`/`false` passes the check, as Python's `bool` is an
  `int`), adds them with the business-logic `add_two_numbers`, and returns the
  sum, which `tools/call` renders with `str()`.
 */
module MathToolExample {
  import opened Wrappers
  import opened Strings
  import opened Values
  import opened ToolSchema
  import opened Responses
  import opened Models
  import Dispatch
  import DispatchProperties
  import Registry
  import Session
  import LogicMath
  import Arguments

  /** The message of the `ValueError` for an argument that is not an integer. */
  const InvalidInput: string := "Invalid input: a and b must be integers"

  /** The message of the `TypeError` for a call whose keyword arguments are not exactly `a` and `b`. */
  const ArgumentMismatch: string := "math() takes exactly the arguments a and b"

  /** The integer `isinstance(v, int)` accepts: a JSON integer, or a boolean as 0 or 1. */
  function IntArg(v: ArgValue): (n: Option<int>)
    ensures v.Raw? && v.value.JInt? ==> n == Some(v.value.i)
    ensures n.Some? <==> v.Raw? && (v.value.JInt? || v.value.JBool?)
  {
    match v
    case Raw(JInt(i)) => Some(i)
    case Raw(JBool(b)) => Some(if b then 1 else 0)
    case _ => None
  }

  /** Calling `math(**kwargs)`. */
  function RunMath(kwargs: map<string, ArgValue>): ToolOutcome {
    if kwargs.Keys != {"a", "b"} then Raised(ArgumentMismatch)
    else
      match (IntArg(kwargs["a"]), IntArg(kwargs["b"]))
      case (Some(x), Some(y)) => Returned(IntToString(LogicMath.AddTwoNumbers(x, y)))
      case _ => Raised(InvalidInput)
  }

  /** `math(a: int, b: int) -> int` with its one-line docstring. */
  const MathTool: Callable := Callable("math", "Add two numbers together", [("a", HInt), ("b", HInt), ("return", HInt)], RunMath)

  /** Two integers give the decimal text of their sum. */
  lemma MathToolAdds(x: int, y: int)
    ensures MathTool.run(map["a" := Raw(JInt(x)), "b" := Raw(JInt(y))]) == Returned(IntToString(x + y))
  {
    var kwargs := map["a" := Raw(JInt(x)), "b" := Raw(JInt(y))];
    assert kwargs.Keys == {"a", "b"};
  }

  /** Anything but an integer or a boolean for `a` or `b` raises the tool's own error. */
  lemma MathToolRejectsNonIntegers(kwargs: map<string, ArgValue>)
    requires kwargs.Keys == {"a", "b"}
    requires IntArg(kwargs["a"]).None? || IntArg(kwargs["b"]).None?
    ensures MathTool.run(kwargs) == Raised(InvalidInput)
  {
  }

  /** The docstring is one line: all of it is the description, and it describes no argument. */
  lemma MathDocstring()
    ensures FirstParagraph(MathTool.doc) == MathTool.doc
    ensures ArgDescriptions(MathTool.doc) == map[]
  {
    MathDocOneLine();
    MathDocNotHeader();
    OneLineDocstring(MathTool.doc);
  }

  /** The docstring has no line break. */
  lemma MathDocOneLine()
    ensures '\n' !in MathTool.doc
  {
    var doc := MathTool.doc;
    forall i | 0 <= i < |doc|
      ensures doc[i] != '\n'
    {
    }
  }

  /** The docstring is not an `Args:` header: it is its own `strip()`, and its second letter is not 'r'. */
  lemma MathDocNotHeader()
    ensures !IsArgsHeader(MathTool.doc)
  {
    var doc := MathTool.doc;
    StripUnchanged(doc);
    assert doc[1] != "Args:"[1];
  }

  /** The input schema: `a` and `b`, both integers and both required; the return hint is dropped. */
  lemma MathInputSchema()
    ensures InputSchemaOf(ToolSchema.Params(MathTool.hints), map[])
            == InputSchema([Property("a", SInteger, None), Property("b", SInteger, None)], ["a", "b"])
  {
    assert ToolSchema.Params(MathTool.hints) == [("a", HInt), ("b", HInt)];
  }

  /** The descriptor: name `math`, the docstring as description, and `a` and `b` as required integers. */
  lemma MathDescriptor()
    ensures Descriptor(MathTool) == ToolDescriptor("math", "Add two numbers together",
              InputSchema([Property("a", SInteger, None), Property("b", SInteger, None)], ["a", "b"]))
  {
    ToolNameWithoutUnderscore("math");
    MathDocstring();
    MathInputSchema();
  }

  /** `tools/call` of `math` with 3 and 4 answers with the single text "7". */
  lemma SevenThroughToolsCall(id: Option<RequestId>, sessionId: Option<string>)
    ensures Dispatch.RunTool(MathTool, JObject([("a", JInt(3)), ("b", JInt(4))]), id, sessionId)
            == CreateSuccessResponse(ContentResult(["7"]), id, sessionId)
  {
    var args := [("a", JInt(3)), ("b", JInt(4))];
    assert args[..1] == [("a", JInt(3))] && args[..1][..0] == [];
    var kwargs := map["a" := Raw(JInt(3)), "b" := Raw(JInt(4))];
    assert Arguments.ConvertArgs(args, MathTool.hints) == Success(kwargs);
    MathToolAdds(3, 4);
    assert IntToString(7) == "7";
  }

  /** The service's registry: `math` alone. */
  const MathTools: Registry.Tools := (Registry.EmptyValid(); Registry.Register(Registry.Empty, MathTool))

  /**
    End to end: on the session an `initialize` created, a later `tools/call` of
    `math` with 3 and 4, made before the session expires, answers with the single
    text "7" and leaves the session table as `initialize` left it.
   */
  lemma SevenAfterInitialize(info: Dispatch.ServerInfo, t: Session.Table, e: Event, env: Dispatch.Env, e2: Event, env2: Dispatch.Env)
    requires DispatchProperties.ValidPost(e) && Dispatch.FreshFor(env, t) && env.putOk && env.now >= 0.0
    requires IsContentTypeJson(ParsePost(e).value.headers) && ParsePost(e).value.body.mcpMethod == Initialize
    requires DispatchProperties.ReachesToolsCall(e2) && ParsePost(e2).value.headers.sessionId == Some(env.freshId)
    requires env2.readOk && env.now <= env2.now <= (Session.Trunc(env.now) + Session.SessionLifetime) as real
    requires var params := ParsePost(e2).value.body.params;
             params.Some? && params.value.PObject?
             && Lookup(params.value.members, "name") == Some(JStr("math"))
             && LookupOr(params.value.members, "arguments", JObject([])) == JObject([("a", JInt(3)), ("b", JInt(4))])
    ensures var t1 := Dispatch.HandleRequest(info, MathTools, t, e, env).table;
            var o := Dispatch.HandleRequest(info, MathTools, t1, e2, env2);
            o.response == CreateSuccessResponse(ContentResult(["7"]), ParsePost(e2).value.body.id, Some(env.freshId))
            && o.table == t1
  {
    MathToolsRegistered();
    SevenFromArguments();
    var t1 := Dispatch.HandleRequest(info, MathTools, t, e, env).table;
    DispatchProperties.InitializedSessionStored(info, MathTools, t, e, env, env2.now);
    DispatchProperties.ToolsCallReturns(info, MathTools, t1, e2, env2, "math", map["a" := Raw(JInt(3)), "b" := Raw(JInt(4))], "7");
  }

  /** The registry holds `math` under its own name. */
  lemma MathToolsRegistered()
    ensures MathTools.Valid() && "math" in MathTools.descriptors && MathTools.implementations["math"] == MathTool
  {
    Registry.EmptyValid();
    ToolNameWithoutUnderscore("math");
  }

  /** The arguments `{"a": 3, "b": 4}` convert to integers and the call returns "7". */
  lemma SevenFromArguments()
    ensures var kwargs := map["a" := Raw(JInt(3)), "b" := Raw(JInt(4))];
            Arguments.ConvertArgs([("a", JInt(3)), ("b", JInt(4))], MathTool.hints) == Success(kwargs)
            && MathTool.run(kwargs) == Returned("7")
  {
    var args := [("a", JInt(3)), ("b", JInt(4))];
    assert args[..1] == [("a", JInt(3))] && args[..1][..0] == [];
    MathToolAdds(3, 4);
    assert IntToString(7) == "7";
  }
}
