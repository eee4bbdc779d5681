/**
  Tool registration: the descriptor the handler derives from a tool function's
  name, docstring and type hints.  Reflection is replaced by explicit inputs:
  a tool function is its name, its (already cleaned) docstring, its type hints
  in declaration order, and the behaviour it has when called.
 */
module ToolSchema {
  import opened Wrappers
  import opened Strings
  import opened Values

  /** A Python type hint, as far as the schema builder distinguishes them. */
  datatype Hint =
    | HInt
    | HFloat
    | HBool
    | HStr
    | HEnum(enumName: string, values: seq<Json>)   // an Enum class: its member values in declaration order
    | HDict(valueHint: Option<Hint>)                 // `Dict[K, V]`, or a bare `Dict` when `None`
    | HList(itemHint: Option<Hint>)                  // `List[T]`, or a bare `List` when `None`
    | HOther                                         // any other hint: `Optional[...]`, `Union[...]`, `Any`, classes

  /** A JSON-Schema fragment. */
  datatype Schema =
    | SInteger
    | SNumber
    | SBoolean
    | SString
    | SEnum(values: seq<Json>)                 // `{"type": "string", "enum": values}`
    | SObject(additional: Option<Schema>)      // `additionalProperties`: a schema, or `true` when `None`
    | SArray(items: Option<Schema>)            // `items`: a schema, or `{}` when `None`

  /** `get_type_schema`, by recursion on the hint. */
  function GetTypeSchema(h: Hint): Schema {
    match h
    case HInt => SInteger
    case HFloat => SNumber
    case HBool => SBoolean
    case HStr => SString
    case HEnum(_, values) => SEnum(values)
    case HDict(None) => SObject(None)
    case HDict(Some(v)) => SObject(Some(GetTypeSchema(v)))
    case HList(None) => SArray(None)
    case HList(Some(t)) => SArray(Some(GetTypeSchema(t)))
    case HOther => SString
  }

  /** What a schema forgets of a hint: the Enum class name, and the difference between `str` and an unrecognised hint. */
  function Normalize(h: Hint): Hint {
    match h
    case HEnum(_, values) => HEnum("", values)
    case HDict(None) => HDict(None)
    case HDict(Some(v)) => HDict(Some(Normalize(v)))
    case HList(None) => HList(None)
    case HList(Some(t)) => HList(Some(Normalize(t)))
    case HOther => HStr
    case _ => h
  }

  /** The normalised hint each schema comes from. */
  function HintOf(s: Schema): Hint {
    match s
    case SInteger => HInt
    case SNumber => HFloat
    case SBoolean => HBool
    case SString => HStr
    case SEnum(values) => HEnum("", values)
    case SObject(None) => HDict(None)
    case SObject(Some(v)) => HDict(Some(HintOf(v)))
    case SArray(None) => HList(None)
    case SArray(Some(t)) => HList(Some(HintOf(t)))
  }

  /** Every schema is produced by some hint: the one `HintOf` gives. */
  lemma {:induction false} SchemaOfHintOf(s: Schema)
    ensures GetTypeSchema(HintOf(s)) == s
  {
    match s
    case SObject(Some(v)) => SchemaOfHintOf(v);
    case SArray(Some(t)) => SchemaOfHintOf(t);
    case _ =>
  }

  /** The schema determines the hint up to normalisation. */
  lemma {:induction false} HintOfSchema(h: Hint)
    ensures HintOf(GetTypeSchema(h)) == Normalize(h)
  {
    match h
    case HDict(Some(v)) => HintOfSchema(v);
    case HList(Some(t)) => HintOfSchema(t);
    case _ =>
  }

  /** Two hints get the same schema exactly when they agree up to the Enum name and `str` versus an unrecognised hint. */
  lemma SameSchemaIff(h1: Hint, h2: Hint)
    ensures GetTypeSchema(h1) == GetTypeSchema(h2) <==> Normalize(h1) == Normalize(h2)
  {
    HintOfSchema(h1);
    HintOfSchema(h2);
    if Normalize(h1) == Normalize(h2) {
      SchemaOfHintOf(GetTypeSchema(h1));
      SchemaOfHintOf(GetTypeSchema(h2));
    }
  }

  /** The concatenation of the capitalised words. */
  function CapitalizeAll(words: seq<string>): string {
    if words == [] then "" else Capitalize(words[0]) + CapitalizeAll(words[1..])
  }

  /** The tool name: the first `_`-separated word as is, the later ones capitalised, all concatenated. */
  function ToolName(funcName: string): string {
    var words := Split(funcName, '_');
    words[0] + CapitalizeAll(words[1..])
  }

  /** The number of occurrences of `c` in `s`. */
  function Count(s: string, c: char): nat {
    if s == [] then 0 else (if s[0] == c then 1 else 0) + Count(s[1..], c)
  }

  function SumLengths(words: seq<string>): nat {
    if words == [] then 0 else |words[0]| + SumLengths(words[1..])
  }

  /** Splitting on `sep` gives one more piece than there are separators, and keeps every other character. */
  lemma {:induction false} SplitCounts(s: string, sep: char)
    ensures |Split(s, sep)| == Count(s, sep) + 1
    ensures SumLengths(Split(s, sep)) == |s| - Count(s, sep)
  {
    if s != [] {
      SplitCounts(s[1..], sep);
      var rest := Split(s[1..], sep);
      if s[0] == sep {
        assert Split(s, sep) == [""] + rest;
        assert ([""] + rest)[1..] == rest;
      } else {
        var pieces := [[s[0]] + rest[0]] + rest[1..];
        assert Split(s, sep) == pieces;
        assert pieces[1..] == rest[1..];
        assert SumLengths(rest) == |rest[0]| + SumLengths(rest[1..]);
      }
    }
  }

  /** Capitalising keeps every length and never produces `c` from a character other than `c`, for a non-letter `c`. */
  lemma {:induction false} CapitalizeAllShape(words: seq<string>, c: char)
    requires !('a' <= c <= 'z') && !('A' <= c <= 'Z')
    requires forall i :: 0 <= i < |words| ==> c !in words[i]
    ensures |CapitalizeAll(words)| == SumLengths(words)
    ensures c !in CapitalizeAll(words)
  {
    if words != [] {
      CapitalizeAllShape(words[1..], c);
      var w := words[0];
      var cw := Capitalize(w);
      assert c !in cw by {
        forall i | 0 <= i < |cw|
          ensures cw[i] != c
        {
          assert w[i] != c;
          if i > 0 {
            assert cw[i] == Lower(w[1..])[i - 1] == LowerChar(w[i]);
          }
        }
      }
    }
  }

  /** A tool name has no `_`, and is the function name minus its underscores in length. */
  lemma ToolNameShape(funcName: string)
    ensures '_' !in ToolName(funcName)
    ensures |ToolName(funcName)| == |funcName| - Count(funcName, '_')
  {
    var words := Split(funcName, '_');
    SplitCounts(funcName, '_');
    CapitalizeAllShape(words[1..], '_');
    assert SumLengths(words) == |words[0]| + SumLengths(words[1..]);
  }

  /** A function name without `_` is its own tool name. */
  lemma ToolNameWithoutUnderscore(funcName: string)
    requires '_' !in funcName
    ensures ToolName(funcName) == funcName
  {
    SplitWithoutSeparator(funcName, '_');
    assert Split(funcName, '_')[1..] == [];
  }

  /** Words joined with `_` give the first word followed by the others capitalised: `add_two_numbers` becomes `addTwoNumbers`. */
  lemma ToolNameOfWords(first: string, rest: seq<string>)
    requires '_' !in first
    requires forall i :: 0 <= i < |rest| ==> '_' !in rest[i]
    ensures ToolName(Join([first] + rest, "_")) == first + CapitalizeAll(rest)
  {
    SplitJoin([first] + rest, '_');
    assert ([first] + rest)[1..] == rest;
  }

  /** The first paragraph: the text before the first blank-line separator `\n\n`, or all of it. */
  function FirstParagraph(doc: string): (d: string)
    ensures |d| <= |doc| && doc[..|d|] == d
    ensures d == doc || OccursAt(doc, "\n\n", |d|)
    ensures forall i :: 0 <= i < |d| ==> !OccursAt(doc, "\n\n", i)
  {
    if |doc| < 2 then doc
    else if doc[0] == '\n' && doc[1] == '\n' then ""
    else
      var rest := FirstParagraph(doc[1..]);
      assert forall i :: 1 <= i < |rest| + 1 ==> (OccursAt(doc, "\n\n", i) <==> OccursAt(doc[1..], "\n\n", i - 1));
      assert !OccursAt(doc, "\n\n", 0);
      [doc[0]] + rest
  }

  /** A docstring with no blank-line separator is all description. */
  lemma FirstParagraphWhole(doc: string)
    requires forall i :: 0 <= i < |doc| ==> !OccursAt(doc, "\n\n", i)
    ensures FirstParagraph(doc) == doc
  {
  }

  /** Whether a line is the `Args:` header (after stripping). */
  predicate IsArgsHeader(line: string) {
    StartsWith(Strip(line), "Args:")
  }

  /** Whether a line ends the argument section: blank, or a `Returns:` header (after stripping). */
  predicate EndsArgs(line: string) {
    Strip(line) == "" || StartsWith(Strip(line), "Returns:")
  }

  /** The argument name and description a line carries: the stripped text either side of its first `:`. */
  function ArgOfLine(line: string): (string, string)
    requires ':' in line
  {
    var parts := SplitFirst(line, ':');
    (Strip(parts.0), Strip(parts.1))
  }

  /** How the scan reads one docstring line. */
  datatype LineKind =
    | ArgsHeader
    | SectionEnd
    | ArgLine(name: string, desc: string)
    | OtherLine

  /**
    The kind of a line, tested in the scan's order: an `Args:` header, then a
    blank or `Returns:` line, then a line with a `:`, which carries the stripped
    text on either side of its first colon.
   */
  function KindOf(line: string): LineKind {
    if IsArgsHeader(line) then ArgsHeader
    else if EndsArgs(line) then SectionEnd
    else if ':' in line then ArgLine(ArgOfLine(line).0, ArgOfLine(line).1)
    else OtherLine
  }

  /** The kind of every line, in order. */
  function KindsOf(lines: seq<string>): (kinds: seq<LineKind>)
    ensures |kinds| == |lines|
    ensures forall i :: 0 <= i < |lines| ==> kinds[i] == KindOf(lines[i])
  {
    seq(|lines|, i requires 0 <= i < |lines| => KindOf(lines[i]))
  }

  /**
    The docstring scan over the kinds of the remaining lines: an `Args:` line
    opens the argument section (again), a blank or `Returns:` line inside it ends
    the scan, and inside it every line with a `:` records a description.
   */
  function ScanArgs(kinds: seq<LineKind>, inArgs: bool, acc: map<string, string>): map<string, string>
    decreases |kinds|
  {
    if kinds == [] then acc
    else if kinds[0] == ArgsHeader then ScanArgs(kinds[1..], true, acc)
    else if !inArgs then ScanArgs(kinds[1..], false, acc)
    else if kinds[0] == SectionEnd then acc
    else if kinds[0].ArgLine? then ScanArgs(kinds[1..], true, acc[kinds[0].name := kinds[0].desc])
    else ScanArgs(kinds[1..], true, acc)
  }

  /** The lines the scan reads: none for an empty docstring. */
  function DocLines(doc: string): seq<string> {
    if doc == "" then [] else Split(doc, '\n')
  }

  /** The per-argument descriptions of a docstring. */
  function ArgDescriptions(doc: string): map<string, string> {
    ScanArgs(KindsOf(DocLines(doc)), false, map[])
  }

  /** The scan's state after a line of kind `kind` read in state `inArgs`: in the section or not, or `None` once stopped. */
  function Step(kind: LineKind, inArgs: bool): Option<bool> {
    if kind == ArgsHeader then Some(true)
    else if !inArgs then Some(false)
    else if kind == SectionEnd then None
    else Some(true)
  }

  /** The scan's state just before line `k`, starting in state `inArgs`. */
  function StateBefore(kinds: seq<LineKind>, inArgs: bool, k: nat): Option<bool>
    requires k <= |kinds|
    decreases k
  {
    if k == 0 then Some(inArgs)
    else match Step(kinds[0], inArgs)
      case None => None
      case Some(next) => StateBefore(kinds[1..], next, k - 1)
  }

  /** The scan records line `k`: a line with a `:` that it reads inside the argument section. */
  predicate Recorded(kinds: seq<LineKind>, inArgs: bool, k: int) {
    0 <= k < |kinds| && StateBefore(kinds, inArgs, k) == Some(true) && kinds[k].ArgLine?
  }

  /** The descriptions after reading a line of kind `kind` in state `inArgs`. */
  function Record(kind: LineKind, inArgs: bool, acc: map<string, string>): map<string, string> {
    if inArgs && kind.ArgLine? then acc[kind.name := kind.desc] else acc
  }

  /** One step of the scan, in terms of `Step` and `Record`. */
  lemma ScanArgsStep(kinds: seq<LineKind>, inArgs: bool, acc: map<string, string>)
    requires kinds != []
    ensures Step(kinds[0], inArgs).None? ==> ScanArgs(kinds, inArgs, acc) == acc
    ensures Step(kinds[0], inArgs).Some? ==>
              ScanArgs(kinds, inArgs, acc) == ScanArgs(kinds[1..], Step(kinds[0], inArgs).value, Record(kinds[0], inArgs, acc))
  {
  }

  /** Line `k` is line `k - 1` of the rest, read in the first line's successor state. */
  lemma RecordedShift(kinds: seq<LineKind>, inArgs: bool, next: bool, k: int)
    requires kinds != [] && 0 < k && Step(kinds[0], inArgs) == Some(next)
    ensures Recorded(kinds, inArgs, k) <==> Recorded(kinds[1..], next, k - 1)
  {
    if k < |kinds| {
      assert kinds[1..][k - 1] == kinds[k];
      assert StateBefore(kinds, inArgs, k) == StateBefore(kinds[1..], next, k - 1);
    }
  }

  /**
    Every description the scan records comes from a line it records, or was
    already there.
   */
  lemma {:induction false} ScanArgsFromLines(kinds: seq<LineKind>, inArgs: bool, acc: map<string, string>, name: string)
    requires name in ScanArgs(kinds, inArgs, acc)
    ensures (name in acc && ScanArgs(kinds, inArgs, acc)[name] == acc[name])
            || exists i :: Recorded(kinds, inArgs, i) && kinds[i] == ArgLine(name, ScanArgs(kinds, inArgs, acc)[name])
    decreases |kinds|
  {
    if kinds != [] && Step(kinds[0], inArgs).Some? {
      var next := Step(kinds[0], inArgs).value;
      var acc' := Record(kinds[0], inArgs, acc);
      ScanArgsStep(kinds, inArgs, acc);
      ScanArgsFromLines(kinds[1..], next, acc', name);
      var r := ScanArgs(kinds, inArgs, acc);
      if name in acc' && r[name] == acc'[name] {
        if !(name in acc && r[name] == acc[name]) {
          assert Recorded(kinds, inArgs, 0);
        }
      } else {
        var i :| Recorded(kinds[1..], next, i) && kinds[1..][i] == ArgLine(name, r[name]);
        RecordedShift(kinds, inArgs, next, i + 1);
      }
    }
  }

  /** A description stays unless a later recorded line names the same argument. */
  lemma {:induction false} ScanArgsKeeps(kinds: seq<LineKind>, inArgs: bool, acc: map<string, string>, name: string)
    requires name in acc
    requires forall k :: Recorded(kinds, inArgs, k) ==> kinds[k].name != name
    ensures name in ScanArgs(kinds, inArgs, acc) && ScanArgs(kinds, inArgs, acc)[name] == acc[name]
    decreases |kinds|
  {
    if kinds != [] && Step(kinds[0], inArgs).Some? {
      var next := Step(kinds[0], inArgs).value;
      ScanArgsStep(kinds, inArgs, acc);
      forall k | Recorded(kinds[1..], next, k)
        ensures kinds[1..][k].name != name
      {
        RecordedShift(kinds, inArgs, next, k + 1);
      }
      if Recorded(kinds, inArgs, 0) {
        assert kinds[0].name != name;
      }
      ScanArgsKeeps(kinds[1..], next, Record(kinds[0], inArgs, acc), name);
    }
  }

  /**
    Every line the scan records describes its argument in the result, unless a
    later recorded line names the same argument again (the later one wins).
   */
  lemma {:induction false} ScanArgsRecords(kinds: seq<LineKind>, inArgs: bool, acc: map<string, string>, k: nat)
    requires Recorded(kinds, inArgs, k)
    requires forall j :: k < j && Recorded(kinds, inArgs, j) ==> kinds[j].name != kinds[k].name
    ensures kinds[k].name in ScanArgs(kinds, inArgs, acc) && ScanArgs(kinds, inArgs, acc)[kinds[k].name] == kinds[k].desc
    decreases |kinds|
  {
    var next := Step(kinds[0], inArgs).value;
    var acc' := Record(kinds[0], inArgs, acc);
    ScanArgsStep(kinds, inArgs, acc);
    forall j | k - 1 < j && Recorded(kinds[1..], next, j)
      ensures kinds[1..][j].name != kinds[k].name
    {
      RecordedShift(kinds, inArgs, next, j + 1);
    }
    if k == 0 {
      ScanArgsKeeps(kinds[1..], next, acc', kinds[0].name);
    } else {
      RecordedShift(kinds, inArgs, next, k);
      ScanArgsRecords(kinds[1..], next, acc', k - 1);
    }
  }

  /** Once a blank or `Returns:` line ends the argument section, the lines after it change nothing. */
  lemma {:induction false} ScanArgsStops(kinds: seq<LineKind>, rest: seq<LineKind>, inArgs: bool, acc: map<string, string>)
    requires kinds != [] && StateBefore(kinds, inArgs, |kinds| - 1) == Some(true)
    requires kinds[|kinds| - 1] == SectionEnd
    ensures ScanArgs(kinds + rest, inArgs, acc) == ScanArgs(kinds, inArgs, acc)
    decreases |kinds|
  {
    assert (kinds + rest)[0] == kinds[0];
    assert (kinds + rest)[1..] == kinds[1..] + rest;
    ScanArgsStep(kinds + rest, inArgs, acc);
    ScanArgsStep(kinds, inArgs, acc);
    if |kinds| > 1 {
      var next := Step(kinds[0], inArgs).value;
      assert kinds[1..][|kinds| - 2] == kinds[|kinds| - 1];
      ScanArgsStops(kinds[1..], rest, next, Record(kinds[0], inArgs, acc));
    }
  }

  /** Outside an argument section nothing is recorded until an `Args:` line. */
  lemma {:induction false} ScanArgsNeedsHeader(kinds: seq<LineKind>, acc: map<string, string>)
    requires forall i :: 0 <= i < |kinds| ==> kinds[i] != ArgsHeader
    ensures ScanArgs(kinds, false, acc) == acc
    decreases |kinds|
  {
    if kinds != [] {
      ScanArgsNeedsHeader(kinds[1..], acc);
    }
  }

  /**
    Every argument description is read from a line the scan records (inside
    the `Args:` section, before its end), split at its first colon and stripped.
   */
  lemma ArgDescriptionsFromDoc(doc: string, name: string)
    requires name in ArgDescriptions(doc)
    ensures exists i :: Recorded(KindsOf(DocLines(doc)), false, i)
                        && ':' in DocLines(doc)[i] && ArgOfLine(DocLines(doc)[i]) == (name, ArgDescriptions(doc)[name])
  {
    var kinds := KindsOf(DocLines(doc));
    ScanArgsFromLines(kinds, false, map[], name);
    var i :| Recorded(kinds, false, i) && kinds[i] == ArgLine(name, ArgDescriptions(doc)[name]);
    assert kinds[i] == KindOf(DocLines(doc)[i]);
  }

  /**
    Every line of the `Args:` section with a colon describes its argument; when
    several lines name the same argument, the last one wins.
   */
  lemma ArgDescriptionsComplete(doc: string, k: nat)
    requires Recorded(KindsOf(DocLines(doc)), false, k)
    requires forall j :: k < j && Recorded(KindsOf(DocLines(doc)), false, j) ==> KindsOf(DocLines(doc))[j].name != KindsOf(DocLines(doc))[k].name
    ensures ':' in DocLines(doc)[k]
    ensures var arg := ArgOfLine(DocLines(doc)[k]);
            arg.0 in ArgDescriptions(doc) && ArgDescriptions(doc)[arg.0] == arg.1
  {
    ScanArgsRecords(KindsOf(DocLines(doc)), false, map[], k);
  }

  /** A docstring without an `Args:` line describes no argument. */
  lemma ArgDescriptionsWithoutHeader(doc: string)
    requires forall i :: 0 <= i < |DocLines(doc)| ==> !IsArgsHeader(DocLines(doc)[i])
    ensures ArgDescriptions(doc) == map[]
  {
    ScanArgsNeedsHeader(KindsOf(DocLines(doc)), map[]);
  }

  /** A one-line docstring that is not an `Args:` header is all description and describes no argument. */
  lemma OneLineDocstring(doc: string)
    requires '\n' !in doc && !IsArgsHeader(doc)
    ensures FirstParagraph(doc) == doc
    ensures ArgDescriptions(doc) == map[]
  {
    forall i | 0 <= i < |doc|
      ensures !OccursAt(doc, "\n\n", i)
    {
      assert doc[i] in doc;
    }
    FirstParagraphWhole(doc);
    SplitWithoutSeparator(doc, '\n');
    ArgDescriptionsWithoutHeader(doc);
  }

  /** The docstring scan of the registration decorator, as a loop over the lines. */
  method ParseArgDescriptions(doc: string) returns (descs: map<string, string>)
    ensures descs == ArgDescriptions(doc)
  {
    descs := map[];
    if doc == "" {
      return;
    }
    var lines := Split(doc, '\n');
    ghost var kinds := KindsOf(lines);
    var inArgs := false;
    var i := 0;
    while i < |lines|
      invariant 0 <= i <= |lines|
      invariant ScanArgs(kinds[i..], inArgs, descs) == ArgDescriptions(doc)
    {
      var line := lines[i];
      assert kinds[i..][0] == KindOf(line) && kinds[i..][1..] == kinds[i + 1..];
      ScanArgsStep(kinds[i..], inArgs, descs);
      if IsArgsHeader(line) {
        inArgs := true;
        i := i + 1;
        continue;
      }
      if inArgs {
        if EndsArgs(line) {
          break;
        }
        if ':' in line {
          var parts := SplitFirst(line, ':');
          descs := descs[Strip(parts.0) := Strip(parts.1)];
        }
      }
      i := i + 1;
    }
    assert i == |lines| ==> kinds[i..] == [];
  }

  /** One entry of `properties`. */
  datatype Property = Property(name: string, schema: Schema, description: Option<string>)

  /** `{"type": "object", "properties": ..., "required": ...}`. */
  datatype InputSchema = InputSchema(properties: seq<Property>, required: seq<string>)

  /** The descriptor `tools/list` reports. */
  datatype ToolDescriptor = ToolDescriptor(name: string, description: string, inputSchema: InputSchema)

  /** The hints without the `return` entry. */
  function Params(hints: seq<(string, Hint)>): (ps: seq<(string, Hint)>)
    ensures forall i :: 0 <= i < |ps| ==> ps[i].0 != "return" && ps[i] in hints
    ensures forall i :: 0 <= i < |hints| && hints[i].0 != "return" ==> hints[i] in ps
    ensures |ps| <= |hints|
  {
    if hints == [] then []
    else if hints[0].0 == "return" then Params(hints[1..])
    else [hints[0]] + Params(hints[1..])
  }

  /** Dropping `return` acts on each hint alone: the parameters of two runs of hints are the parameters of each, in order. */
  lemma {:induction false} ParamsConcat(a: seq<(string, Hint)>, b: seq<(string, Hint)>)
    ensures Params(a + b) == Params(a) + Params(b)
    decreases |a|
  {
    if a != [] {
      assert (a + b)[0] == a[0] && (a + b)[1..] == a[1..] + b;
      ParamsConcat(a[1..], b);
      if a[0].0 != "return" {
        calc {
          Params(a + b);
          [a[0]] + Params(a[1..] + b);
          [a[0]] + (Params(a[1..]) + Params(b));
          { assert [a[0]] + (Params(a[1..]) + Params(b)) == ([a[0]] + Params(a[1..])) + Params(b); }
          Params(a) + Params(b);
        }
      }
    } else {
      assert a + b == b;
    }
  }

  /** A single hint is kept exactly when it is not the `return` hint. */
  lemma ParamsSingle(h: (string, Hint))
    ensures Params([h]) == if h.0 == "return" then [] else [h]
  {
  }

  /** The entry for one parameter: its schema, with its docstring description attached when the name matches exactly. */
  function PropertyFor(param: (string, Hint), descs: map<string, string>): Property {
    Property(param.0, GetTypeSchema(param.1), if param.0 in descs then Some(descs[param.0]) else None)
  }

  /** The properties-and-required loop of the registration decorator. */
  method BuildInputSchema(params: seq<(string, Hint)>, descs: map<string, string>) returns (schema: InputSchema)
    ensures |schema.properties| == |params| && |schema.required| == |params|
    ensures forall i :: 0 <= i < |params| ==> schema.properties[i] == PropertyFor(params[i], descs)
    ensures forall i :: 0 <= i < |params| ==> schema.required[i] == params[i].0
  {
    var properties: seq<Property> := [];
    var required: seq<string> := [];
    var i := 0;
    while i < |params|
      invariant 0 <= i <= |params|
      invariant |properties| == i && |required| == i
      invariant forall j :: 0 <= j < i ==> properties[j] == PropertyFor(params[j], descs)
      invariant forall j :: 0 <= j < i ==> required[j] == params[j].0
    {
      var (name, hint) := params[i];
      var description := if name in descs then Some(descs[name]) else None;
      properties := properties + [Property(name, GetTypeSchema(hint), description)];
      required := required + [name];
      i := i + 1;
    }
    schema := InputSchema(properties, required);
  }

  /** The input schema of a tool: every hinted parameter but `return`, in hint order, all of them required. */
  function InputSchemaOf(params: seq<(string, Hint)>, descs: map<string, string>): (schema: InputSchema)
    ensures |schema.properties| == |params| && |schema.required| == |params|
    ensures forall i :: 0 <= i < |params| ==> schema.properties[i] == PropertyFor(params[i], descs)
    ensures forall i :: 0 <= i < |params| ==> schema.required[i] == params[i].0
  {
    InputSchema(seq(|params|, i requires 0 <= i < |params| => PropertyFor(params[i], descs)),
                seq(|params|, i requires 0 <= i < |params| => params[i].0))
  }

  /** An argument as the tool function receives it: the decoded value, or the Enum member with that value. */
  datatype ArgValue = Raw(value: Json) | Member(enumName: string, memberValue: Json)

  /** What calling a tool function does: returns a value (given as its `str()`), or raises (given as the message). */
  datatype ToolOutcome = Returned(text: string) | Raised(message: string)

  /**
    A tool function.  `doc` is the cleaned docstring, `""` when there is none;
    `hints` are its type hints by name in declaration order, `return` included;
    `run` is what a call with the given keyword arguments does.
   */
  datatype Callable = Callable(funcName: string, doc: string, hints: seq<(string, Hint)>, run: map<string, ArgValue> -> ToolOutcome)

  /** The descriptor registration derives from a tool function. */
  function Descriptor(f: Callable): (d: ToolDescriptor)
    ensures d.name == ToolName(f.funcName) && d.description == FirstParagraph(f.doc)
    ensures d.inputSchema == InputSchemaOf(Params(f.hints), ArgDescriptions(f.doc))
  {
    ToolDescriptor(ToolName(f.funcName), FirstParagraph(f.doc), InputSchemaOf(Params(f.hints), ArgDescriptions(f.doc)))
  }

  /** The decorator's steps that build a tool's descriptor: name, first paragraph, scanned descriptions, then the schema loop. */
  method BuildDescriptor(f: Callable) returns (d: ToolDescriptor)
    ensures d == Descriptor(f)
  {
    var toolName := ToolName(f.funcName);
    var description := FirstParagraph(f.doc);
    var descs := ParseArgDescriptions(f.doc);
    var inputSchema := BuildInputSchema(Params(f.hints), descs);
    assert inputSchema == InputSchemaOf(Params(f.hints), ArgDescriptions(f.doc));
    d := ToolDescriptor(toolName, description, inputSchema);
  }
}
