/**
  The handler's tool registry: two dicts under the same keys, one holding the
  descriptors (in registration order, which `tools/list` reports) and one the
  tool functions.
 */
module Registry {
  import opened ToolSchema

  /** `order` is the key order of the descriptor dict. */
  datatype Tools = Tools(order: seq<string>, descriptors: map<string, ToolDescriptor>, implementations: map<string, Callable>)
  {
    /** Both dicts hold the same keys, and `order` lists each key once. */
    ghost predicate Valid() {
      && (forall i, j :: 0 <= i < j < |order| ==> order[i] != order[j])
      && (forall k :: k in descriptors <==> k in order)
      && descriptors.Keys == implementations.Keys
    }
  }

  const Empty: Tools := Tools([], map[], map[])

  lemma EmptyValid()
    ensures Empty.Valid()
  {
  }

  /**
    Registration under the tool name: both dicts gain (or overwrite) the same
    key; a new key goes last, a re-registered one keeps its place.
   */
  function Register(r: Tools, f: Callable): (r': Tools)
    requires r.Valid()
    ensures r'.Valid()
    ensures var name := ToolName(f.funcName);
            name in r'.descriptors && r'.descriptors[name] == Descriptor(f) && r'.implementations[name] == f
    ensures var name := ToolName(f.funcName);
            forall k :: k in r.descriptors && k != name ==>
              k in r'.descriptors && r'.descriptors[k] == r.descriptors[k] && r'.implementations[k] == r.implementations[k]
    ensures r'.descriptors.Keys == r.descriptors.Keys + {ToolName(f.funcName)}
    ensures ToolName(f.funcName) in r.descriptors ==> r'.order == r.order
    ensures ToolName(f.funcName) !in r.descriptors ==> r'.order == r.order + [ToolName(f.funcName)]
  {
    var name := ToolName(f.funcName);
    var order := if name in r.descriptors then r.order else r.order + [name];
    Tools(order, r.descriptors[name := Descriptor(f)], r.implementations[name := f])
  }

  /** `list(self.tools.values())`: the descriptors in registration order. */
  function ListTools(r: Tools): (tools: seq<ToolDescriptor>)
    requires r.Valid()
    ensures |tools| == |r.order|
    ensures forall i :: 0 <= i < |r.order| ==> tools[i] == r.descriptors[r.order[i]]
  {
    seq(|r.order|, i requires 0 <= i < |r.order| => r.descriptors[r.order[i]])
  }

  /** Registering a new tool appends its descriptor to the listing; re-registering replaces it in place. */
  lemma RegisterThenList(r: Tools, f: Callable)
    requires r.Valid()
    ensures var name := ToolName(f.funcName);
            var before := ListTools(r);
            var after := ListTools(Register(r, f));
            (name !in r.descriptors ==> after == before + [Descriptor(f)])
            && (name in r.descriptors ==>
                  |after| == |before|
                  && forall i :: 0 <= i < |before| ==> after[i] == if r.order[i] == name then Descriptor(f) else before[i])
  {
    var name := ToolName(f.funcName);
    var r' := Register(r, f);
    var before := ListTools(r);
    var after := ListTools(r');
    if name !in r.descriptors {
      assert |after| == |before| + 1;
      forall i | 0 <= i < |before|
        ensures after[i] == before[i]
      {
        assert r'.order[i] == r.order[i] && r.order[i] != name;
      }
    }
  }
}
