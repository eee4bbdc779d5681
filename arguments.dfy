/**
  Argument conversion before a tool is called: an argument whose parameter is
  hinted with an Enum class becomes the member with that value, and every other
  argument (including one the function does not declare) is passed through as
  decoded.
 */
module Arguments {
  import opened Wrappers
  import opened Values
  import opened ToolSchema

  /**
    Python `==` on decoded values: `True == 1` and `False == 0`, lists equal
    element by element, dicts equal when they have as many members and every
    key of the first is bound in the second to an equal value (so key order
    does not matter); anything else is equal only to itself.
   */
  predicate PyEquals(a: Json, b: Json)
    decreases a
  {
    match a
    case JBool(x) => b == a || (b.JInt? && b.i == (if x then 1 else 0))
    case JInt(n) => b == a || (b.JBool? && n == (if b.b then 1 else 0))
    case JArray(xs) =>
      b.JArray? && |xs| == |b.items|
      && forall i :: 0 <= i < |xs| ==> PyEquals(xs[i], b.items[i])
    case JObject(ms) =>
      b.JObject? && |ms| == |b.members|
      && forall i :: 0 <= i < |ms| ==>
           var v := Lookup(b.members, ms[i].0); v.Some? && PyEquals(ms[i].1, v.value)
    case _ => b == a
  }

  /** Every value (a Python value, so its dicts have distinct keys) is equal to itself. */
  lemma {:induction false} PyEqualsReflexive(a: Json)
    requires DistinctKeys(a)
    ensures PyEquals(a, a)
    decreases a
  {
    match a
    case JArray(xs) =>
      forall i | 0 <= i < |xs|
        ensures PyEquals(xs[i], xs[i])
      {
        PyEqualsReflexive(xs[i]);
      }
    case JObject(ms) =>
      forall i | 0 <= i < |ms|
        ensures var v := Lookup(ms, ms[i].0); v.Some? && PyEquals(ms[i].1, v.value)
      {
        LookupDistinct(ms, i);
        PyEqualsReflexive(ms[i].1);
      }
    case _ =>
  }

  /** Equality looks inside lists and dicts: `[True] == [1]`, and key order does not matter. */
  lemma NestedEquality()
    ensures PyEquals(JArray([JBool(true)]), JArray([JInt(1)]))
    ensures PyEquals(JObject([("a", JInt(1)), ("b", JInt(2))]), JObject([("b", JInt(2)), ("a", JInt(1))]))
    ensures !PyEquals(JArray([JInt(1)]), JArray([JInt(1), JInt(1)]))
    ensures !PyEquals(JStr("1"), JInt(1))
  {
    var y := [("b", JInt(2)), ("a", JInt(1))];
    assert Lookup(y, "a") == Some(JInt(1));
    assert Lookup(y, "b") == Some(JInt(2));
  }

  /** The position of the first member value equal to `v`: the member `EnumClass(v)` returns. */
  function FindValue(values: seq<Json>, v: Json): (i: Option<nat>)
    ensures i.Some? ==> i.value < |values| && PyEquals(values[i.value], v)
    ensures i.Some? ==> forall j :: 0 <= j < i.value ==> !PyEquals(values[j], v)
    ensures i.None? ==> forall j :: 0 <= j < |values| ==> !PyEquals(values[j], v)
  {
    if values == [] then None
    else if PyEquals(values[0], v) then Some(0)
    else match FindValue(values[1..], v)
      case None => None
      case Some(k) => Some(k + 1)
  }

  /** `hints.get(name)`. */
  function HintFor(hints: seq<(string, Hint)>, name: string): (h: Option<Hint>)
    ensures h.Some? ==> (name, h.value) in hints
    ensures h.None? ==> forall i :: 0 <= i < |hints| ==> hints[i].0 != name
  {
    if hints == [] then None
    else if hints[0].0 == name then Some(hints[0].1)
    else HintFor(hints[1..], name)
  }

  /** The message of the `ValueError` an Enum class raises for a value none of its members has. */
  function NotAValidMember(enumName: string, v: Json): string {
    Repr(v) + " is not a valid " + enumName
  }

  /** The conversion of one argument under its parameter's hint. */
  function ConvertValue(hint: Option<Hint>, v: Json): (r: Result<ArgValue, string>)
    ensures (hint.None? || !hint.value.HEnum?) ==> r == Success(Raw(v))
    ensures hint.Some? && hint.value.HEnum? ==>
              (r.Success? <==> exists j :: 0 <= j < |hint.value.values| && PyEquals(hint.value.values[j], v))
    ensures hint.Some? && hint.value.HEnum? && r.Success? ==>
              r.value.Member? && r.value.enumName == hint.value.enumName && PyEquals(r.value.memberValue, v)
    ensures r.Failure? ==> r.error == NotAValidMember(hint.value.enumName, v)
  {
    match hint
    case Some(HEnum(name, values)) =>
      (match FindValue(values, v)
       case Some(j) => Success(Member(name, values[j]))
       case None => Failure(NotAValidMember(name, v)))
    case _ => Success(Raw(v))
  }

  /** Passing a member's own value converts to a member of that Enum (the first one whose value is equal). */
  lemma MemberValueConverts(enumName: string, values: seq<Json>, k: nat)
    requires k < |values|
    requires DistinctKeys(values[k])
    ensures var r := ConvertValue(Some(HEnum(enumName, values)), values[k]);
            r.Success? && r.value == Member(enumName, values[FindValue(values, values[k]).value])
            && FindValue(values, values[k]).value <= k
  {
    PyEqualsReflexive(values[k]);
  }

  /**
    The converted keyword arguments, built in argument order; the first
    conversion that fails ends it with that failure.
   */
  function ConvertArgs(args: seq<(string, Json)>, hints: seq<(string, Hint)>): Result<map<string, ArgValue>, string>
    decreases |args|
  {
    if args == [] then Success(map[])
    else
      var last := args[|args| - 1];
      match ConvertArgs(args[..|args| - 1], hints)
      case Failure(e) => Failure(e)
      case Success(converted) =>
        match ConvertValue(HintFor(hints, last.0), last.1)
        case Failure(e) => Failure(e)
        case Success(a) => Success(converted[last.0 := a])
  }

  /** Once a prefix of the arguments fails to convert, the whole conversion fails the same way. */
  lemma {:induction false} ConvertFailureSticks(args: seq<(string, Json)>, hints: seq<(string, Hint)>, n: nat)
    requires n <= |args|
    requires ConvertArgs(args[..n], hints).Failure?
    ensures ConvertArgs(args, hints) == ConvertArgs(args[..n], hints)
    decreases |args|
  {
    if n < |args| {
      var prefix := args[..|args| - 1];
      assert prefix[..n] == args[..n];
      ConvertFailureSticks(prefix, hints, n);
    } else {
      assert args[..n] == args;
    }
  }

  /** Conversion succeeds exactly when every Enum-hinted argument names a member by value. */
  lemma {:induction false} ConvertArgsSucceeds(args: seq<(string, Json)>, hints: seq<(string, Hint)>)
    ensures ConvertArgs(args, hints).Success? <==>
              forall i :: 0 <= i < |args| ==> ConvertValue(HintFor(hints, args[i].0), args[i].1).Success?
    decreases |args|
  {
    if args != [] {
      var prefix := args[..|args| - 1];
      ConvertArgsSucceeds(prefix, hints);
      assert forall i :: 0 <= i < |prefix| ==> prefix[i] == args[i];
    }
  }

  /** The converted arguments are keyed exactly by the argument names, each holding its own converted value. */
  lemma {:induction false} ConvertArgsContents(args: seq<(string, Json)>, hints: seq<(string, Hint)>)
    requires forall i, j :: 0 <= i < j < |args| ==> args[i].0 != args[j].0
    requires ConvertArgs(args, hints).Success?
    ensures var m := ConvertArgs(args, hints).value;
            (forall k :: k in m <==> exists i :: 0 <= i < |args| && args[i].0 == k)
            && forall i :: 0 <= i < |args| ==> args[i].0 in m && ConvertValue(HintFor(hints, args[i].0), args[i].1) == Success(m[args[i].0])
    decreases |args|
  {
    if args != [] {
      var prefix := args[..|args| - 1];
      var last := args[|args| - 1];
      ConvertArgsLast(args, hints);
      ConvertArgsContents(prefix, hints);
      var m := ConvertArgs(args, hints).value;
      var pm := ConvertArgs(prefix, hints).value;
      assert m == pm[last.0 := m[last.0]];
      forall k | k in m
        ensures exists i :: 0 <= i < |args| && args[i].0 == k
      {
        if k != last.0 {
          var i :| 0 <= i < |prefix| && prefix[i].0 == k;
          assert args[i].0 == k;
        }
      }
      forall i | 0 <= i < |args|
        ensures args[i].0 in m && ConvertValue(HintFor(hints, args[i].0), args[i].1) == Success(m[args[i].0])
      {
        if i < |prefix| {
          assert args[i] == prefix[i];
          assert args[i].0 != last.0;
        }
      }
    }
  }

  /** A successful conversion of a non-empty list: the prefix converted, then the last argument added. */
  lemma ConvertArgsLast(args: seq<(string, Json)>, hints: seq<(string, Hint)>)
    requires args != [] && ConvertArgs(args, hints).Success?
    ensures var last := args[|args| - 1];
            var c := ConvertValue(HintFor(hints, last.0), last.1);
            ConvertArgs(args[..|args| - 1], hints).Success? && c.Success?
            && ConvertArgs(args, hints).value == ConvertArgs(args[..|args| - 1], hints).value[last.0 := c.value]
  {
  }

  /** An argument whose parameter is not Enum-hinted (or that no parameter declares) reaches the tool as decoded. */
  lemma PassThroughArguments(args: seq<(string, Json)>, hints: seq<(string, Hint)>, i: nat)
    requires forall i, j :: 0 <= i < j < |args| ==> args[i].0 != args[j].0
    requires ConvertArgs(args, hints).Success?
    requires i < |args|
    requires HintFor(hints, args[i].0).None? || !HintFor(hints, args[i].0).value.HEnum?
    ensures var m := ConvertArgs(args, hints).value;
            args[i].0 in m && m[args[i].0] == Raw(args[i].1)
  {
    ConvertArgsContents(args, hints);
  }

  /** The conversion loop of `tools/call`. */
  method ConvertArguments(args: seq<(string, Json)>, hints: seq<(string, Hint)>) returns (r: Result<map<string, ArgValue>, string>)
    ensures r == ConvertArgs(args, hints)
  {
    var converted: map<string, ArgValue> := map[];
    var i := 0;
    while i < |args|
      invariant 0 <= i <= |args|
      invariant ConvertArgs(args[..i], hints) == Success(converted)
    {
      var (name, value) := args[i];
      assert args[..i + 1][..i] == args[..i];
      var c := ConvertValue(HintFor(hints, name), value);
      if c.Failure? {
        ConvertFailureSticks(args, hints, i + 1);
        return Failure(c.error);
      }
      converted := converted[name := c.value];
      i := i + 1;
    }
    assert args[..i] == args;
    r := Success(converted);
  }
}
