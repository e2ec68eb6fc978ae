/**
 The required-member walker of internal/evidence/deployment.go: a recursive interpreter of a JSON schema that
 follows `$ref`, and the positions of a value that a schema addresses.
 */
module Walker {
  import opened Wrappers
  import opened Json
  import opened Lists
  import Forms

  type Object = map<string, Json>

  // ----- references -----

  const DEFINITIONS_PREFIX: string := "#/definitions/"

  function Reference(schema: Object): Option<string> {
    if "$ref" in schema && schema["$ref"].Str? then Some(schema["$ref"].s) else None
  }

  /** The name of the definition that a reference resolves to, if it resolves. */
  function TargetName(definitions: Object, schema: Object): Option<string> {
    var ref :- Reference(schema);
    if !(DEFINITIONS_PREFIX <= ref) then None
    else
      var name := ref[|DEFINITIONS_PREFIX|..];
      if name in definitions && definitions[name].Obj? then Some(name) else None
  }

  function Target(definitions: Object, schema: Object): Option<Object> {
    var name :- TargetName(definitions, schema);
    Some(definitions[name].fields)
  }

  /** Each named definition is nothing but a reference to the next one. */
  predicate Chain(definitions: Object, names: seq<string>) {
    && (forall i | 0 <= i < |names| :: names[i] in definitions && definitions[names[i]].Obj?)
    && forall i | 0 <= i < |names| - 1 :: TargetName(definitions, definitions[names[i]].fields) == Some(names[i + 1])
  }

  predicate Cycle(definitions: Object, names: seq<string>) {
    |names| >= 2 && Chain(definitions, names) && names[0] == names[|names| - 1]
  }

  /** No cycle is made of references alone. */
  ghost predicate Acyclic(definitions: Object) {
    forall names: seq<string> :: !Cycle(definitions, names)
  }

  /** How many references a schema is away from one that is no resolvable reference, if that is within the fuel. */
  function Hops(definitions: Object, schema: Object, fuel: nat): Option<nat>
    decreases fuel
  {
    match Target(definitions, schema)
    case None => Some(0)
    case Some(next) =>
      if fuel == 0 then None
      else
        var n :- Hops(definitions, next, fuel - 1);
        Some(n + 1)
  }

  lemma {:induction false} HopsSettled(definitions: Object, schema: Object, fuel: nat, more: nat)
    requires fuel <= more && Hops(definitions, schema, fuel).Some?
    ensures Hops(definitions, schema, more) == Hops(definitions, schema, fuel)
    decreases fuel
  {
    if Target(definitions, schema).Some? {
      HopsSettled(definitions, Target(definitions, schema).value, fuel - 1, more - 1);
    }
  }

  lemma {:induction false} LongChain(definitions: Object, name: string, fuel: nat) returns (names: seq<string>)
    requires name in definitions && definitions[name].Obj?
    requires Hops(definitions, definitions[name].fields, fuel).None?
    ensures Chain(definitions, names) && |names| == fuel + 2 && names[0] == name
    decreases fuel
  {
    var next := TargetName(definitions, definitions[name].fields).value;
    if fuel == 0 {
      names := [name, next];
    } else {
      var rest := LongChain(definitions, next, fuel - 1);
      names := [name] + rest;
    }
  }

  lemma SubsetSize<A>(a: set<A>, b: set<A>)
    requires a <= b
    ensures |a| <= |b|
  {
    assert b == a + (b - a);
  }

  /** More names than definitions: one of them comes twice. */
  lemma Pigeonhole(definitions: Object, names: seq<string>)
    requires Chain(definitions, names) && |names| > |definitions|
    ensures !NoDuplicates(names)
  {
    assert ToSet(names) <= definitions.Keys;
    SubsetSize(ToSet(names), definitions.Keys);
    CountDistinct(names);
  }

  /** Without a cycle every definition settles, within as many hops as there are definitions. */
  lemma AcyclicSettles(definitions: Object, name: string)
    requires Acyclic(definitions) && name in definitions && definitions[name].Obj?
    ensures Hops(definitions, definitions[name].fields, |definitions|).Some?
  {
    if Hops(definitions, definitions[name].fields, |definitions|).None? {
      var names := LongChain(definitions, name, |definitions|);
      Pigeonhole(definitions, names);
      var i, j :| 0 <= i < j < |names| && names[i] == names[j];
      assert Cycle(definitions, names[i..j + 1]);
    }
  }

  /** The condition is exact: on a cycle no number of hops settles, so the walk never comes to an end. */
  lemma {:induction false} CycleNeverSettles(definitions: Object, names: seq<string>, i: nat, fuel: nat)
    requires Cycle(definitions, names) && i < |names|
    ensures Hops(definitions, definitions[names[i]].fields, fuel).None?
    decreases fuel, i
  {
    if i == |names| - 1 {
      assert names[i] == names[0];
      CycleNeverSettles(definitions, names, 0, fuel);
    } else if fuel == 0 {
      assert TargetName(definitions, definitions[names[i]].fields) == Some(names[i + 1]);
    } else {
      CycleNeverSettles(definitions, names, i + 1, fuel - 1);
    }
  }

  /** Termination is exact: there is no reference-only cycle just when every definition settles. */
  lemma AcyclicIffSettles(definitions: Object)
    ensures Acyclic(definitions) <==>
      forall name | name in definitions && definitions[name].Obj? ::
        Hops(definitions, definitions[name].fields, |definitions|).Some?
  {
    if Acyclic(definitions) {
      forall name | name in definitions && definitions[name].Obj?
        ensures Hops(definitions, definitions[name].fields, |definitions|).Some?
      {
        AcyclicSettles(definitions, name);
      }
    } else {
      var names: seq<string> :| Cycle(definitions, names);
      CycleNeverSettles(definitions, names, 0, |definitions|);
    }
  }

  /** The second component of the walker's termination measure. */
  ghost function Rank(definitions: Object, schema: Object): nat
    requires Acyclic(definitions)
  {
    match TargetName(definitions, schema)
    case None => 0
    case Some(name) =>
      AcyclicSettles(definitions, name);
      1 + Hops(definitions, definitions[name].fields, |definitions|).value
  }

  lemma RankDrops(definitions: Object, schema: Object)
    requires Acyclic(definitions) && Target(definitions, schema).Some?
    ensures Rank(definitions, Target(definitions, schema).value) < Rank(definitions, schema)
  {
    var next := Target(definitions, schema).value;
    AcyclicSettles(definitions, TargetName(definitions, schema).value);
    if TargetName(definitions, next).Some? {
      HopsSettled(definitions, Target(definitions, next).value, |definitions| - 1, |definitions|);
    }
  }

  // ----- the parts of a schema -----

  predicate HasType(schema: Object, name: string) {
    "type" in schema && schema["type"] == Str(name)
  }

  /** schema["required"].([]interface{}): absent or ill-typed is empty. */
  function RequiredOf(schema: Object): seq<Json> {
    if "required" in schema && schema["required"].Arr? then schema["required"].items else []
  }

  function PropertiesOf(schema: Object): Object {
    if "properties" in schema && schema["properties"].Obj? then schema["properties"].fields else map[]
  }

  function ItemsOf(schema: Object): Option<Object> {
    if "items" in schema && schema["items"].Obj? then Some(schema["items"].fields) else None
  }

  // ----- paths -----

  datatype Step = Member(name: string) | Item(index: nat)

  function StepText(s: Step): string {
    match s
    case Member(name) => "." + name
    case Item(index) => "[" + Forms.Digits(index) + "]"
  }

  function PathText(steps: seq<Step>): string {
    if steps == [] then "" else StepText(steps[0]) + PathText(steps[1..])
  }

  predicate HasSuffix(s: string, suffix: string) {
    |suffix| <= |s| && s[|s| - |suffix|..] == suffix
  }

  /** deferredEvidenceMember */
  predicate Deferred(path: string, name: string) {
    name == "statementDigest" && HasSuffix(path, ".testResult")
  }

  // ----- the walker -----

  /** A required member is a string, and is present or deferred. */
  predicate RequiredMet(r: Json, fields: Object, path: string) {
    r.Str? && (r.s in fields || Deferred(path, r.s))
  }

  /** validateRequiredEvidenceMembers: whether it returns no error. */
  ghost predicate Accepts(value: Json, schema: Object, definitions: Object, path: string)
    requires Acyclic(definitions)
    decreases value, Rank(definitions, schema)
  {
    if value == Null then false
    else if Reference(schema).Some? then
      match Target(definitions, schema)
      case None => false
      case Some(next) =>
        RankDrops(definitions, schema);
        Accepts(value, next, definitions, path)
    else if HasType(schema, "object") then
      && value.Obj?
      && (forall r | r in RequiredOf(schema) :: RequiredMet(r, value.fields, path))
      && forall name | name in PropertiesOf(schema) && name in value.fields ::
           && PropertiesOf(schema)[name].Obj?
           && Accepts(value.fields[name], PropertiesOf(schema)[name].fields, definitions, path + "." + name)
    else if HasType(schema, "array") then
      && value.Arr?
      && ItemsOf(schema).Some?
      && forall i | 0 <= i < |value.items| ::
           Accepts(value.items[i], ItemsOf(schema).value, definitions, path + "[" + Forms.Digits(i) + "]")
    else true
  }

  // ----- addressed positions -----

  /** The schema at the end of a chain of references. */
  ghost function Resolve(definitions: Object, schema: Object): Option<Object>
    requires Acyclic(definitions)
    decreases Rank(definitions, schema)
  {
    if Reference(schema).None? then Some(schema)
    else
      match Target(definitions, schema)
      case None => None
      case Some(next) =>
        RankDrops(definitions, schema);
        Resolve(definitions, next)
  }

  /** A value, and the schema it is held against. */
  datatype Position = Position(value: Json, schema: Object)

  /** One step down from a position, along a property the schema names or an item. */
  ghost function Below(p: Position, definitions: Object, step: Step): Option<Position>
    requires Acyclic(definitions)
  {
    var s :- Resolve(definitions, p.schema);
    match step
    case Member(name) =>
      if && HasType(s, "object") && p.value.Obj? && name in p.value.fields
         && name in PropertiesOf(s) && PropertiesOf(s)[name].Obj?
      then Some(Position(p.value.fields[name], PropertiesOf(s)[name].fields))
      else None
    case Item(index) =>
      if HasType(s, "array") && p.value.Arr? && index < |p.value.items| && ItemsOf(s).Some?
      then Some(Position(p.value.items[index], ItemsOf(s).value))
      else None
  }

  /** The position that the steps lead to, if the schema addresses it and the value has it. */
  ghost function At(p: Position, definitions: Object, steps: seq<Step>): Option<Position>
    requires Acyclic(definitions)
    decreases |steps|
  {
    if steps == [] then Some(p)
    else
      var next :- Below(p, definitions, steps[0]);
      At(next, definitions, steps[1..])
  }

  /**
   What a single position must show, whatever lies above or below it: a value that is not null, a schema that
   resolves, the container kind that the schema demands with all its required members, and usable child schemas.
   */
  ghost predicate Sound(p: Position, definitions: Object, path: string)
    requires Acyclic(definitions)
  {
    var s := Resolve(definitions, p.schema);
    && p.value != Null
    && s.Some?
    && (HasType(s.value, "object") ==>
          && p.value.Obj?
          && (forall r | r in RequiredOf(s.value) :: RequiredMet(r, p.value.fields, path))
          && forall name | name in PropertiesOf(s.value) && name in p.value.fields ::
               PropertiesOf(s.value)[name].Obj?)
    && (HasType(s.value, "array") ==> p.value.Arr? && ItemsOf(s.value).Some?)
  }

  /** The steps lead to an addressed position that is not sound. */
  ghost predicate FaultAt(p: Position, definitions: Object, path: string, steps: seq<Step>)
    requires Acyclic(definitions)
  {
    var q := At(p, definitions, steps);
    q.Some? && !Sound(q.value, definitions, path + PathText(steps))
  }

  lemma PathStep(path: string, step: Step, rest: seq<Step>)
    ensures path + PathText([step] + rest) == (path + StepText(step)) + PathText(rest)
  {
    assert ([step] + rest)[1..] == rest;
  }

  /** A reference adds no position and changes none. */
  lemma {:induction false} ReferenceTransparent(
    p: Position, next: Object, definitions: Object, path: string, steps: seq<Step>)
    requires Acyclic(definitions) && Reference(p.schema).Some? && Target(definitions, p.schema) == Some(next)
    ensures FaultAt(p, definitions, path, steps) <==> FaultAt(p.(schema := next), definitions, path, steps)
  {
    assert Resolve(definitions, p.schema) == Resolve(definitions, next);
  }

  /** A fault is here, or one step down. */
  lemma FaultHereOrBelow(p: Position, definitions: Object, path: string, steps: seq<Step>)
    requires Acyclic(definitions)
    ensures FaultAt(p, definitions, path, []) <==> !Sound(p, definitions, path)
    ensures steps != [] ==>
      (FaultAt(p, definitions, path, steps) <==>
       Below(p, definitions, steps[0]).Some?
       && FaultAt(Below(p, definitions, steps[0]).value, definitions, path + StepText(steps[0]), steps[1..]))
  {
    hide Sound, Below;
    assert path + PathText([]) == path;
    if steps != [] {
      assert steps == [steps[0]] + steps[1..];
      PathStep(path, steps[0], steps[1..]);
    }
  }

  /** No position the schema addresses is at fault. */
  ghost predicate Faultless(p: Position, definitions: Object, path: string)
    requires Acyclic(definitions)
  {
    forall steps: seq<Step> :: !FaultAt(p, definitions, path, steps)
  }

  lemma FaultlessUnfolds(p: Position, definitions: Object, path: string)
    requires Acyclic(definitions)
    ensures Faultless(p, definitions, path) <==>
      && Sound(p, definitions, path)
      && forall step | Below(p, definitions, step).Some? ::
           Faultless(Below(p, definitions, step).value, definitions, path + StepText(step))
  {
    hide Sound, Below, FaultAt;
    FaultHereOrBelow(p, definitions, path, []);
    if Faultless(p, definitions, path) {
      forall step, rest: seq<Step> | Below(p, definitions, step).Some?
        ensures !FaultAt(Below(p, definitions, step).value, definitions, path + StepText(step), rest)
      {
        FaultHereOrBelow(p, definitions, path, [step] + rest);
        assert ([step] + rest)[1..] == rest;
      }
    } else {
      var steps :| FaultAt(p, definitions, path, steps);
      FaultHereOrBelow(p, definitions, path, steps);
    }
  }

  lemma FaultlessThroughReference(p: Position, next: Object, definitions: Object, path: string)
    requires Acyclic(definitions) && Reference(p.schema).Some? && Target(definitions, p.schema) == Some(next)
    ensures Faultless(p, definitions, path) <==> Faultless(p.(schema := next), definitions, path)
  {
    hide FaultAt;
    forall steps: seq<Step>
      ensures FaultAt(p, definitions, path, steps) <==> FaultAt(p.(schema := next), definitions, path, steps)
    {
      ReferenceTransparent(p, next, definitions, path, steps);
    }
  }

  /** The walker accepts exactly the values in which every position the schema addresses is sound. */
  lemma {:induction false} AcceptsIffFaultless(value: Json, schema: Object, definitions: Object, path: string)
    requires Acyclic(definitions)
    ensures Accepts(value, schema, definitions, path) <==> Faultless(Position(value, schema), definitions, path)
    decreases value, Rank(definitions, schema)
  {
    hide Faultless, Hops, Rank;
    var p := Position(value, schema);
    FaultlessUnfolds(p, definitions, path);
    if value == Null {
    } else if Reference(schema).Some? {
      if Target(definitions, schema).Some? {
        var next := Target(definitions, schema).value;
        RankDrops(definitions, schema);
        AcceptsIffFaultless(value, next, definitions, path);
        FaultlessThroughReference(p, next, definitions, path);
      }
    } else if HasType(schema, "object") && value.Obj? {
      forall name | name in PropertiesOf(schema) && name in value.fields && PropertiesOf(schema)[name].Obj?
        ensures Below(p, definitions, Member(name)).Some?
        ensures Accepts(value.fields[name], PropertiesOf(schema)[name].fields, definitions, path + "." + name)
           <==> Faultless(Below(p, definitions, Member(name)).value, definitions, path + StepText(Member(name)))
      {
        AcceptsIffFaultless(value.fields[name], PropertiesOf(schema)[name].fields, definitions, path + "." + name);
        assert path + "." + name == path + StepText(Member(name));
      }
    } else if HasType(schema, "array") && value.Arr? && ItemsOf(schema).Some? {
      forall i | 0 <= i < |value.items|
        ensures Below(p, definitions, Item(i)).Some?
        ensures Accepts(value.items[i], ItemsOf(schema).value, definitions, path + "[" + Forms.Digits(i) + "]")
           <==> Faultless(Below(p, definitions, Item(i)).value, definitions, path + StepText(Item(i)))
      {
        AcceptsIffFaultless(value.items[i], ItemsOf(schema).value, definitions, path + "[" + Forms.Digits(i) + "]");
        assert path + "[" + Forms.Digits(i) + "]" == path + StepText(Item(i));
      }
    }
  }

  // ----- the walk -----

  /** Some position at or below p is at fault, and this is its path. */
  ghost predicate FaultPath(p: Position, definitions: Object, path: string, text: string)
    requires Acyclic(definitions)
  {
    exists steps: seq<Step> :: FaultAt(p, definitions, path, steps) && text == path + PathText(steps)
  }

  lemma FaultPathHere(p: Position, definitions: Object, path: string)
    requires Acyclic(definitions) && !Sound(p, definitions, path)
    ensures FaultPath(p, definitions, path, path)
  {
    hide Sound;
    FaultHereOrBelow(p, definitions, path, []);
    assert path == path + PathText([]);
  }

  lemma FaultPathBelow(p: Position, definitions: Object, path: string, step: Step, text: string)
    requires Acyclic(definitions) && Below(p, definitions, step).Some?
    requires FaultPath(Below(p, definitions, step).value, definitions, path + StepText(step), text)
    ensures FaultPath(p, definitions, path, text)
  {
    hide Sound, Below, FaultAt;
    var q := Below(p, definitions, step).value;
    var rest: seq<Step> :| FaultAt(q, definitions, path + StepText(step), rest)
                           && text == (path + StepText(step)) + PathText(rest);
    FaultHereOrBelow(p, definitions, path, [step] + rest);
    assert ([step] + rest)[1..] == rest;
    PathStep(path, step, rest);
  }

  lemma FaultPathThroughReference(p: Position, next: Object, definitions: Object, path: string, text: string)
    requires Acyclic(definitions) && Reference(p.schema).Some? && Target(definitions, p.schema) == Some(next)
    requires FaultPath(p.(schema := next), definitions, path, text)
    ensures FaultPath(p, definitions, path, text)
  {
    hide FaultAt;
    var steps: seq<Step> :| FaultAt(p.(schema := next), definitions, path, steps) && text == path + PathText(steps);
    ReferenceTransparent(p, next, definitions, path, steps);
  }

  /**
   validateRequiredEvidenceMembers as a walk: properties come in whatever order the map yields them. The order
   decides which fault is reported, never whether one is, and what is reported is always the path of a real fault.
   */
  method Validate(value: Json, schema: Object, definitions: Object, path: string) returns (fault: Option<string>)
    requires Acyclic(definitions)
    ensures fault.None? <==> Accepts(value, schema, definitions, path)
    ensures fault.Some? ==> FaultPath(Position(value, schema), definitions, path, fault.value)
    decreases value, Rank(definitions, schema), 1
  {
    hide FaultPath, Hops, Rank;
    ghost var p := Position(value, schema);
    if value == Null {
      FaultPathHere(p, definitions, path);
      return Some(path);
    }
    if Reference(schema).Some? {
      var next := Target(definitions, schema);
      if next.None? {
        FaultPathHere(p, definitions, path);
        return Some(path);
      }
      RankDrops(definitions, schema);
      fault := Validate(value, next.value, definitions, path);
      if fault.Some? {
        FaultPathThroughReference(p, next.value, definitions, path, fault.value);
      }
      return;
    }
    if HasType(schema, "object") {
      fault := ValidateObject(value, schema, definitions, path);
    } else if HasType(schema, "array") {
      fault := ValidateArray(value, schema, definitions, path);
    } else {
      fault := None;
    }
  }

  method ValidateObject(value: Json, schema: Object, definitions: Object, path: string) returns (fault: Option<string>)
    requires Acyclic(definitions) && value != Null && Reference(schema).None? && HasType(schema, "object")
    ensures fault.None? <==> Accepts(value, schema, definitions, path)
    ensures fault.Some? ==> FaultPath(Position(value, schema), definitions, path, fault.value)
    decreases value, Rank(definitions, schema), 0
  {
    hide FaultPath, Hops, Rank;
    ghost var p := Position(value, schema);
    if !value.Obj? {
      FaultPathHere(p, definitions, path);
      return Some(path);
    }
    var required := RequiredOf(schema);
    for i := 0 to |required|
      invariant forall j | 0 <= j < i :: RequiredMet(required[j], value.fields, path)
    {
      if !RequiredMet(required[i], value.fields, path) {
        assert required[i] in RequiredOf(schema);
        FaultPathHere(p, definitions, path);
        return Some(path);
      }
    }
    var properties := PropertiesOf(schema);
    var rest := properties.Keys;
    while rest != {}
      invariant rest <= properties.Keys
      invariant forall name | name in properties && name !in rest && name in value.fields ::
        properties[name].Obj? && Accepts(value.fields[name], properties[name].fields, definitions, path + "." + name)
    {
      var name :| name in rest;
      if name in value.fields {
        if !properties[name].Obj? {
          FaultPathHere(p, definitions, path);
          return Some(path);
        }
        fault := Validate(value.fields[name], properties[name].fields, definitions, path + "." + name);
        if fault.Some? {
          assert path + "." + name == path + StepText(Member(name));
          FaultPathBelow(p, definitions, path, Member(name), fault.value);
          return;
        }
      }
      rest := rest - {name};
    }
    return None;
  }

  method ValidateArray(value: Json, schema: Object, definitions: Object, path: string) returns (fault: Option<string>)
    requires Acyclic(definitions) && value != Null && Reference(schema).None?
    requires HasType(schema, "array") && !HasType(schema, "object")
    ensures fault.None? <==> Accepts(value, schema, definitions, path)
    ensures fault.Some? ==> FaultPath(Position(value, schema), definitions, path, fault.value)
    decreases value, Rank(definitions, schema), 0
  {
    hide FaultPath, Hops, Rank;
    ghost var p := Position(value, schema);
    if !value.Arr? || ItemsOf(schema).None? {
      FaultPathHere(p, definitions, path);
      return Some(path);
    }
    var items := ItemsOf(schema).value;
    for i := 0 to |value.items|
      invariant forall j | 0 <= j < i ::
        Accepts(value.items[j], items, definitions, path + "[" + Forms.Digits(j) + "]")
    {
      fault := Validate(value.items[i], items, definitions, path + "[" + Forms.Digits(i) + "]");
      if fault.Some? {
        assert path + "[" + Forms.Digits(i) + "]" == path + StepText(Item(i));
        FaultPathBelow(p, definitions, path, Item(i), fault.value);
        return;
      }
    }
    return None;
  }

  // ----- the deferred member -----

  predicate Dotless(s: string) {
    '.' !in s
  }

  predicate DotlessSteps(steps: seq<Step>) {
    forall s | s in steps :: s.Member? ==> Dotless(s.name)
  }

  lemma {:induction false} PathTextLast(steps: seq<Step>)
    requires steps != []
    ensures PathText(steps) == PathText(steps[..|steps| - 1]) + StepText(steps[|steps| - 1])
  {
    if |steps| == 1 {
      assert steps[1..] == [] && steps[..0] == [];
    } else {
      PathTextLast(steps[1..]);
      assert steps[..|steps| - 1][1..] == steps[1..][..|steps| - 2];
    }
  }

  /** The last dot of a text that ends in a dot and a dotless name is the one before the name. */
  predicate LastDotAt(s: string, k: nat) {
    k < |s| && s[k] == '.' && forall i | k < i < |s| :: s[i] != '.'
  }

  lemma NameAfterLastDot(front: string, name: string)
    requires Dotless(name)
    ensures LastDotAt(front + "." + name, |front|)
  {
    var s := front + "." + name;
    forall i | |front| < i < |s|
      ensures s[i] != '.'
    {
      assert s[i] == name[i - |front| - 1];
    }
  }

  lemma SuffixLastDot(s: string, name: string)
    requires Dotless(name) && HasSuffix(s, "." + name)
    ensures LastDotAt(s, |s| - |name| - 1)
  {
    var front := s[..|s| - |name| - 1];
    assert s == front + "." + name;
    NameAfterLastDot(front, name);
  }

  /** A text that ends in a dot and a dotless name ends in a dot and another one only if the names are the same. */
  lemma DotSuffix(front: string, name: string, other: string)
    requires Dotless(name) && Dotless(other)
    ensures HasSuffix(front + "." + name, "." + other) <==> name == other
  {
    hide Dotless;
    var s := front + "." + name;
    NameAfterLastDot(front, name);
    assert s[|front| + 1..] == name;
    if HasSuffix(s, "." + other) {
      SuffixLastDot(s, other);
      assert ("." + other)[1..] == other;
      assert s[|s| - |other|..] == s[|s| - |other| - 1..][1..];
    }
    if name == other {
      assert s[|s| - |other| - 1..] == "." + other;
    }
  }

  lemma SuffixLastChar(s: string, suffix: string)
    requires suffix != [] && HasSuffix(s, suffix)
    ensures s[|s| - 1] == suffix[|suffix| - 1]
  {
    assert s[|s| - |suffix|..][|suffix| - 1] == s[|s| - 1];
  }

  lemma BracketSuffix(front: string, index: nat)
    ensures !HasSuffix(front + StepText(Item(index)), ".testResult")
  {
    hide HasSuffix;
    var s := front + StepText(Item(index));
    assert s[|s| - 1] == ']';
    if HasSuffix(s, ".testResult") {
      SuffixLastChar(s, ".testResult");
    }
  }

  lemma StepSuffix(front: string, step: Step)
    requires step.Member? ==> Dotless(step.name)
    ensures HasSuffix(front + StepText(step), ".testResult") <==> step == Member("testResult")
  {
    hide HasSuffix, Dotless;
    if step.Member? {
      assert Dotless("testResult") by { DotlessName(); }
      assert front + StepText(step) == front + "." + step.name;
      assert "." + "testResult" == ".testResult";
      DotSuffix(front, step.name, "testResult");
    } else {
      BracketSuffix(front, step.index);
    }
  }

  lemma DotlessName()
    ensures Dotless("testResult")
  {
  }

  lemma SamePathText(path: string, front: string, last: string, whole: string)
    requires whole == front + last
    ensures path + whole == (path + front) + last
  {
  }

  /** Where property names hold no dot, the suffix test is a test of the last step, at any index and depth. */
  lemma SuffixIffLastStep(path: string, steps: seq<Step>)
    requires steps != [] && DotlessSteps(steps)
    ensures HasSuffix(path + PathText(steps), ".testResult") <==> steps[|steps| - 1] == Member("testResult")
  {
    hide HasSuffix, PathText, StepText, Dotless;
    var last, front := steps[|steps| - 1], PathText(steps[..|steps| - 1]);
    PathTextLast(steps);
    SamePathText(path, front, StepText(last), PathText(steps));
    assert last in steps;
    StepSuffix(path + front, last);
  }
}
