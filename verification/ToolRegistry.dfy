/** The tool registry: tools and validators by name, and a cached list of definitions that is
    rebuilt and sorted on every registration. */
module ToolRegistry {
  import opened Protocol

  datatype ToolDef = ToolDef(name: string, description: string, parameters: string)

  /** `behaviour` stands for what the tool does; its definition never changes. */
  datatype Tool = Tool(definition: ToolDef, behaviour: nat)

  datatype ValidatorState = Ready(schema: string) | Invalid(message: string)

  // ----- Names in order -----

  predicate Less(a: string, b: string) {
    b != [] && (a == [] || a[0] < b[0] || (a[0] == b[0] && Less(a[1..], b[1..])))
  }

  lemma {:induction false} LessIsTotal(a: string, b: string)
    ensures !(Less(a, b) && Less(b, a))
    ensures Less(a, b) || Less(b, a) || a == b
    ensures !Less(a, a)
  {
    if a != [] && b != [] {
      LessIsTotal(a[1..], b[1..]);
    }
    if a != [] {
      LessIsTotal(a[1..], a[1..]);
    }
  }

  /** They agree on the first `k` characters, and there `a` ends or has the smaller one. */
  predicate ComesFirstAt(a: string, b: string, k: nat) {
    && k <= |a| && k < |b|
    && (forall i :: 0 <= i < k ==> a[i] == b[i])
    && (k < |a| ==> a[k] < b[k])
  }

  lemma ComesFirstShifts(a: string, b: string, k: nat)
    requires a != [] && b != [] && a[0] == b[0]
    ensures ComesFirstAt(a[1..], b[1..], k) <==> ComesFirstAt(a, b, k + 1)
  {
    if ComesFirstAt(a[1..], b[1..], k) {
      forall i | 0 <= i < k + 1 ensures a[i] == b[i] {
        assert i == 0 || a[1..][i - 1] == b[1..][i - 1];
      }
    }
    if ComesFirstAt(a, b, k + 1) {
      forall i | 0 <= i < k ensures a[1..][i] == b[1..][i] {
        assert a[i + 1] == b[i + 1];
      }
    }
  }

  /** The order of the dictionary. */
  lemma {:induction false} LessIff(a: string, b: string)
    ensures Less(a, b) <==> exists k: nat :: ComesFirstAt(a, b, k)
  {
    if a != [] && b != [] && a[0] == b[0] {
      LessIff(a[1..], b[1..]);
      if k: nat :| ComesFirstAt(a[1..], b[1..], k) {
        ComesFirstShifts(a, b, k);
      }
      if k: nat :| ComesFirstAt(a, b, k) {
        ComesFirstShifts(a, b, k - 1);
      }
    } else if k: nat :| ComesFirstAt(a, b, k) {
      assert k == 0;
    } else {
      assert !ComesFirstAt(a, b, 0);
    }
  }

  lemma {:induction false} LessIsTransitive(a: string, b: string, c: string)
    requires Less(a, b) && Less(b, c)
    ensures Less(a, c)
  {
    if a != [] && a[0] == b[0] == c[0] {
      LessIsTransitive(a[1..], b[1..], c[1..]);
    }
  }

  ghost predicate StrictlySorted(definitions: seq<ToolDef>) {
    forall i, j :: 0 <= i < j < |definitions| ==> Less(definitions[i].name, definitions[j].name)
  }

  /** Exactly the definitions of these tools, sorted by name. */
  ghost predicate Lists(definitions: seq<ToolDef>, tools: map<string, Tool>) {
    && StrictlySorted(definitions)
    && (forall i :: 0 <= i < |definitions| ==>
          definitions[i].name in tools && tools[definitions[i].name].definition == definitions[i])
    && (forall name :: name in tools ==> tools[name].definition in definitions)
  }

  ghost predicate Named(tools: map<string, Tool>) {
    forall name :: name in tools ==> tools[name].definition.name == name
  }

  // ----- The code -----

  class Registry {
    const compile: string -> ValidatorState
    var tools: map<string, Tool>
    var validators: map<string, ValidatorState>
    var sortedDefinitions: seq<ToolDef>

    ghost predicate Valid()
      reads this
    {
      && Named(tools)
      && Lists(sortedDefinitions, tools)
      && validators.Keys == tools.Keys
      && forall name :: name in tools ==> validators[name] == compile(tools[name].definition.parameters)
    }

    /** `compile` compiles a JSON schema. */
    constructor (compile: string -> ValidatorState)
      ensures Valid() && tools == map[] && this.compile == compile
    {
      this.compile := compile;
      tools, validators, sortedDefinitions := map[], map[], [];
    }

    method Register(tool: Tool)
      requires Valid()
      modifies this
      ensures Valid() && tools == old(tools)[tool.definition.name := tool]
    {
      var name := tool.definition.name;
      validators := validators[name := compile(tool.definition.parameters)];
      tools := tools[name := tool];
      RebuildSortedDefinitions();
    }

    /** Collect the definitions, in any order, and sort them. */
    method RebuildSortedDefinitions()
      requires Named(tools)
      modifies this`sortedDefinitions
      ensures Lists(sortedDefinitions, tools)
    {
      var definitions: seq<ToolDef> := [];
      var todo := tools.Keys;
      while todo != {}
        invariant todo <= tools.Keys
        invariant forall i :: 0 <= i < |definitions| ==>
                    definitions[i].name in tools.Keys - todo && tools[definitions[i].name].definition == definitions[i]
        invariant forall name :: name in tools.Keys - todo ==> tools[name].definition in definitions
        invariant forall i, j :: 0 <= i < j < |definitions| ==> definitions[i].name != definitions[j].name
        decreases |todo|
      {
        var name :| name in todo;
        definitions := definitions + [tools[name].definition];
        todo := todo - {name};
      }
      sortedDefinitions := SortByName(definitions);
      SortedLists(definitions, sortedDefinitions, tools);
    }

    method Definitions() returns (definitions: seq<ToolDef>)
      requires Valid()
      ensures Lists(definitions, tools)
    {
      return sortedDefinitions;
    }

    method Validator(name: string) returns (validator: Option<ValidatorState>)
      requires Valid()
      ensures validator == if name in tools then Some(compile(tools[name].definition.parameters)) else None
    {
      return if name in validators then Some(validators[name]) else None;
    }

    /** The tools of a whole startup, one after the other. */
    method RegisterAll(added: seq<Tool>)
      requires Valid()
      modifies this
      ensures Valid() && tools == old(tools) + Registered(added)
    {
      ghost var start := tools;
      for i := 0 to |added|
        invariant Valid() && tools == start + Registered(added[..i])
      {
        RegisteredStep(start, added, i);
        Register(added[i]);
      }
      assert added[..|added|] == added;
    }
  }

  /** A sort by name, for definitions with distinct names. */
  method SortByName(definitions: seq<ToolDef>) returns (sorted: seq<ToolDef>)
    requires forall i, j :: 0 <= i < j < |definitions| ==> definitions[i].name != definitions[j].name
    ensures StrictlySorted(sorted) && multiset(sorted) == multiset(definitions)
  {
    sorted := [];
    for i := 0 to |definitions|
      invariant StrictlySorted(sorted) && multiset(sorted) == multiset(definitions[..i])
    {
      forall d | d in sorted ensures d.name != definitions[i].name {
        assert d in multiset(definitions[..i]);
      }
      sorted := Insert(sorted, definitions[i]);
      assert definitions[..i + 1] == definitions[..i] + [definitions[i]];
    }
    assert definitions[..|definitions|] == definitions;
  }

  method Insert(sorted: seq<ToolDef>, definition: ToolDef) returns (longer: seq<ToolDef>)
    requires StrictlySorted(sorted) && forall d :: d in sorted ==> d.name != definition.name
    ensures StrictlySorted(longer) && multiset(longer) == multiset(sorted) + multiset{definition}
  {
    var i := 0;
    while i < |sorted| && Less(sorted[i].name, definition.name)
      invariant i <= |sorted| && forall j :: 0 <= j < i ==> Less(sorted[j].name, definition.name)
    {
      i := i + 1;
    }
    longer := sorted[..i] + [definition] + sorted[i..];
    assert sorted == sorted[..i] + sorted[i..];
    if i < |sorted| {
      assert sorted[i] in sorted;
      LessIsTotal(definition.name, sorted[i].name);
    }
    InsertedIsSorted(sorted, i, definition);
  }

  lemma InsertedIsSorted(sorted: seq<ToolDef>, i: nat, definition: ToolDef)
    requires StrictlySorted(sorted) && i <= |sorted|
    requires forall j :: 0 <= j < i ==> Less(sorted[j].name, definition.name)
    requires i < |sorted| ==> Less(definition.name, sorted[i].name)
    ensures StrictlySorted(sorted[..i] + [definition] + sorted[i..])
  {
    forall j | i <= j < |sorted| ensures Less(definition.name, sorted[j].name) {
      if i < j {
        LessIsTransitive(definition.name, sorted[i].name, sorted[j].name);
      }
    }
    var longer := sorted[..i] + [definition] + sorted[i..];
    forall j, k | 0 <= j < k < |longer| ensures Less(longer[j].name, longer[k].name) {
      assert j < i ==> longer[j] == sorted[j];
      assert i < j ==> longer[j] == sorted[j - 1];
      assert k < i ==> longer[k] == sorted[k];
      assert i < k ==> longer[k] == sorted[k - 1];
    }
  }

  lemma SortedLists(definitions: seq<ToolDef>, sorted: seq<ToolDef>, tools: map<string, Tool>)
    requires StrictlySorted(sorted) && multiset(sorted) == multiset(definitions)
    requires forall i :: 0 <= i < |definitions| ==>
               definitions[i].name in tools && tools[definitions[i].name].definition == definitions[i]
    requires forall name :: name in tools ==> tools[name].definition in definitions
    ensures Lists(sorted, tools)
  {
    forall d ensures d in sorted <==> d in definitions {
      assert d in sorted <==> d in multiset(sorted);
      assert d in definitions <==> d in multiset(definitions);
    }
    forall i | 0 <= i < |sorted| ensures sorted[i].name in tools && tools[sorted[i].name].definition == sorted[i] {
      assert sorted[i] in sorted;
    }
  }

  // ----- The list depends on the tools alone -----

  lemma {:induction false} ListIsUnique(xs: seq<ToolDef>, ys: seq<ToolDef>, tools: map<string, Tool>)
    requires Named(tools) && Lists(xs, tools) && Lists(ys, tools)
    ensures xs == ys
    decreases |xs|
  {
    if xs == [] || ys == [] {
      NoTools(xs, tools);
      NoTools(ys, tools);
    } else {
      FirstIsLeast(xs, ys, tools);
      var name := xs[0].name;
      RestLists(xs, tools);
      RestLists(ys, tools);
      ListIsUnique(xs[1..], ys[1..], tools - {name});
      assert xs == [xs[0]] + xs[1..] && ys == [ys[0]] + ys[1..];
    }
  }

  lemma NoTools(definitions: seq<ToolDef>, tools: map<string, Tool>)
    requires Lists(definitions, tools)
    ensures definitions == [] <==> tools == map[]
  {
    assert tools == map[] <==> forall name :: name !in tools;
    if definitions != [] {
      assert definitions[0].name in tools;
    }
  }

  lemma FirstIsLeast(xs: seq<ToolDef>, ys: seq<ToolDef>, tools: map<string, Tool>)
    requires xs != [] && ys != [] && Lists(xs, tools) && Lists(ys, tools)
    ensures xs[0] == ys[0]
  {
    assert xs[0] in ys && ys[0] in xs;
    var k :| 0 <= k < |ys| && ys[k] == xs[0];
    var m :| 0 <= m < |xs| && xs[m] == ys[0];
    LessIsTotal(xs[0].name, ys[0].name);
  }

  lemma RestLists(definitions: seq<ToolDef>, tools: map<string, Tool>)
    requires definitions != [] && Named(tools) && Lists(definitions, tools)
    ensures Lists(definitions[1..], tools - {definitions[0].name}) && Named(tools - {definitions[0].name})
  {
    var first, rest, left := definitions[0].name, definitions[1..], tools - {definitions[0].name};
    forall i | 0 <= i < |rest| ensures rest[i].name in left && left[rest[i].name].definition == rest[i] {
      LessIsTotal(first, rest[i].name);
      assert Less(definitions[0].name, definitions[i + 1].name);
      assert definitions[i + 1].name in tools;
    }
    forall name | name in left ensures left[name].definition in rest {
      var k :| 0 <= k < |definitions| && definitions[k] == tools[name].definition;
      assert k > 0;
      assert rest[k - 1] == definitions[k];
    }
  }

  // ----- Registering several tools -----

  function Registered(added: seq<Tool>): map<string, Tool> {
    if added == [] then map[]
    else Registered(added[..|added| - 1])[added[|added| - 1].definition.name := added[|added| - 1]]
  }

  lemma RegisteredStep(start: map<string, Tool>, added: seq<Tool>, i: nat)
    requires i < |added|
    ensures start + Registered(added[..i + 1])
         == (start + Registered(added[..i]))[added[i].definition.name := added[i]]
  {
    assert added[..i + 1][..i] == added[..i];
  }

  /** A name is registered exactly if some tool had it, and the last such tool won. */
  lemma {:induction false} LastRegisteredWins(added: seq<Tool>, name: string)
    ensures name in Registered(added) <==> exists i :: 0 <= i < |added| && added[i].definition.name == name
    ensures name in Registered(added) ==>
      exists i :: 0 <= i < |added| && added[i] == Registered(added)[name] && name == added[i].definition.name
        && forall j :: i < j < |added| ==> added[j].definition.name != name
  {
    if added != [] {
      var n := |added| - 1;
      LastRegisteredWins(added[..n], name);
      if added[n].definition.name == name {
        assert added[n] == Registered(added)[name];
      } else if name in Registered(added) {
        var i :| 0 <= i < n && added[..n][i] == Registered(added[..n])[name] && name == added[i].definition.name
          && forall j :: i < j < n ==> added[..n][j].definition.name != name;
        assert added[i] == Registered(added)[name];
        forall j | i < j < |added| ensures added[j].definition.name != name {
          assert j < n ==> added[..n][j] == added[j];
        }
      }
    }
  }

  lemma RegisteredAreTools(added: seq<Tool>)
    ensures forall name :: name in Registered(added) ==>
              Registered(added)[name] in added && Registered(added)[name].definition.name == name
    ensures forall tool :: tool in added ==> tool.definition.name in Registered(added)
  {
    forall name | name in Registered(added)
      ensures Registered(added)[name] in added && Registered(added)[name].definition.name == name
    {
      LastRegisteredWins(added, name);
    }
    forall tool | tool in added ensures tool.definition.name in Registered(added) {
      LastRegisteredWins(added, tool.definition.name);
    }
  }

  ghost predicate DistinctNames(added: seq<Tool>) {
    forall i, j :: 0 <= i < j < |added| ==> added[i].definition.name != added[j].definition.name
  }

  lemma SameRegistered(xs: seq<Tool>, ys: seq<Tool>)
    requires DistinctNames(xs) && multiset(xs) == multiset(ys)
    ensures Registered(xs) == Registered(ys)
  {
    SameTools(xs, ys);
    RegisteredAreTools(xs);
    RegisteredAreTools(ys);
    forall name | name in Registered(xs)
      ensures name in Registered(ys) && Registered(ys)[name] == Registered(xs)[name]
    {
      assert Registered(xs)[name] in ys;
      assert Registered(ys)[name] in xs;
    }
    forall name | name in Registered(ys) ensures name in Registered(xs) {
      assert Registered(ys)[name] in xs;
    }
  }

  /** Tools with distinct names may be registered in any order: the cached list is the same. */
  lemma OrderDoesNotMatter(xs: seq<Tool>, ys: seq<Tool>, left: seq<ToolDef>, right: seq<ToolDef>)
    requires DistinctNames(xs) && multiset(xs) == multiset(ys)
    requires Lists(left, Registered(xs)) && Lists(right, Registered(ys))
    ensures left == right
  {
    SameRegistered(xs, ys);
    RegisteredAreTools(xs);
    ListIsUnique(left, right, Registered(xs));
  }

  lemma SameTools(xs: seq<Tool>, ys: seq<Tool>)
    requires multiset(xs) == multiset(ys)
    ensures forall tool :: tool in xs <==> tool in ys
  {
    forall tool ensures tool in xs <==> tool in ys {
      assert tool in xs <==> tool in multiset(xs);
      assert tool in ys <==> tool in multiset(ys);
    }
  }
}
