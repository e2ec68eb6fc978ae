/**
 The toy agent runtime of adapters/non-agt/toy_runtime.py: policy documents, the tool.pre decision, and the guarded
 tool call.
 */
module ToyRuntime {
  import opened Wrappers
  import opened Json
  import opened Lists
  import opened Sorting

  /** A rule as the policy document states it. Absent members are None; a null field is an absent one. */
  datatype Rule = Rule(
    name: Option<string>, action: Option<string>, priority: Option<real>,
    toolName: Option<Json>, field: Option<string>, equals: Option<Json>)

  datatype PolicyDoc = PolicyDoc(defaultAction: Option<string>, rules: seq<Rule>)

  type Context = map<string, Json>

  datatype Decision = Decision(verdict: string, matchedRule: Option<string>, viaDefault: bool)

  const TOOL_NAME: string := "write-marker"
  const GLOBAL_DEFAULT_NO_POLICY: string := "allow"

  // ----- matching -----

  function Numeric(v: Json): Option<real> {
    match v
    case Bool(b) => Some(if b then 1.0 else 0.0)
    case Num(n) => Some(n)
    case _ => None
  }

  /** Python's ==, for which True is 1 and False is 0 at any depth. */
  predicate PyEqual(a: Json, b: Json) {
    if Numeric(a).Some? || Numeric(b).Some? then Numeric(a) == Numeric(b)
    else if a.Arr? && b.Arr? then
      |a.items| == |b.items| && forall i | 0 <= i < |a.items| :: PyEqual(a.items[i], b.items[i])
    else if a.Obj? && b.Obj? then
      a.fields.Keys == b.fields.Keys && forall k | k in a.fields :: PyEqual(a.fields[k], b.fields[k])
    else a == b
  }

  /** context.get(key) */
  function Get(context: Context, key: string): Json {
    if key in context then context[key] else Null
  }

  function OrElse<T>(t: Option<T>, otherwise: T): T {
    if t.Some? then t.value else otherwise
  }

  predicate Matches(r: Rule, context: Context) {
    && PyEqual(Get(context, "tool_name"), OrElse(r.toolName, Str(TOOL_NAME)))
    && (r.field.Some? ==> PyEqual(Get(context, r.field.value), OrElse(r.equals, Null)))
  }

  function Priority(r: Rule): real {
    OrElse(r.priority, 0.0)
  }

  /** The sort key, reversed. */
  predicate Higher(a: Rule, b: Rule) {
    Priority(a) > Priority(b)
  }

  lemma HigherOrder()
    ensures StrictWeakOrder(Higher)
  {
  }

  // ----- the decision -----

  /** The rules of all documents, in document order. */
  function AllRules(docs: seq<PolicyDoc>): seq<Rule> {
    if docs == [] then [] else AllRules(docs[..|docs| - 1]) + docs[|docs| - 1].rules
  }

  /** default_behavior */
  function DefaultBehavior(docs: seq<PolicyDoc>): string {
    if docs == [] then GLOBAL_DEFAULT_NO_POLICY else OrElse(docs[0].defaultAction, "deny")
  }

  /** The decision of a rule; one without an action or a name is a KeyError. */
  function Chosen(r: Rule): Option<Decision> {
    var action :- r.action;
    var name :- r.name;
    Some(Decision(action, Some(name), false))
  }

  function Default(docs: seq<PolicyDoc>): Option<Decision> {
    Some(Decision(DefaultBehavior(docs), None, true))
  }

  function FirstWhere<T>(p: T -> bool, xs: seq<T>): Option<T> {
    if xs == [] then None else if p(xs[0]) then Some(xs[0]) else FirstWhere(p, xs[1..])
  }

  function Matcher(context: Context): Rule -> bool {
    r => Matches(r, context)
  }

  function MatcherAt(context: Context, priority: real): Rule -> bool {
    r => Matches(r, context) && Priority(r) == priority
  }

  /** decide, as the code computes it: sort by priority, scan for the first match. None is a raised KeyError. */
  function Decide(docs: seq<PolicyDoc>, context: Context): Option<Decision> {
    match FirstWhere(Matcher(context), StableSort(Higher, AllRules(docs)))
    case None => Default(docs)
    case Some(r) => Chosen(r)
  }

  // ----- what the decision means -----

  /** No rule that matches has a higher priority than rule i, and none of the same priority comes earlier. */
  predicate Best(rules: seq<Rule>, context: Context, i: nat) {
    && i < |rules|
    && Matches(rules[i], context)
    && forall j | 0 <= j < |rules| && Matches(rules[j], context) ::
         Priority(rules[j]) < Priority(rules[i]) || (Priority(rules[j]) == Priority(rules[i]) && i <= j)
  }

  lemma {:induction false} FirstWhereAt<T>(p: T -> bool, xs: seq<T>, i: nat)
    requires i < |xs| && p(xs[i]) && forall j | 0 <= j < i :: !p(xs[j])
    ensures FirstWhere(p, xs) == Some(xs[i])
  {
    if i > 0 {
      FirstWhereAt(p, xs[1..], i - 1);
    }
  }

  lemma {:induction false} FirstWhereFinds<T>(p: T -> bool, xs: seq<T>) returns (k: nat)
    requires FirstWhere(p, xs).Some?
    ensures k < |xs| && xs[k] == FirstWhere(p, xs).value && p(xs[k]) && forall j | 0 <= j < k :: !p(xs[j])
  {
    if p(xs[0]) {
      k := 0;
    } else {
      var rest := FirstWhereFinds(p, xs[1..]);
      k := rest + 1;
    }
  }

  lemma {:induction false} FirstWhereNone<T>(p: T -> bool, xs: seq<T>)
    ensures FirstWhere(p, xs).None? <==> forall x | x in xs :: !p(x)
  {
    if xs != [] {
      FirstWhereNone(p, xs[1..]);
      assert xs == [xs[0]] + xs[1..];
    }
  }

  /** Searching among the elements that are kept is searching for an element that is kept. */
  lemma {:induction false} FirstAmongKept<T>(f: T -> Option<T>, p: T -> bool, both: T -> bool, xs: seq<T>)
    requires forall x | x in xs :: f(x) == None || f(x) == Some(x)
    requires forall x | x in xs :: both(x) <==> f(x).Some? && p(x)
    ensures FirstWhere(p, Collect(f, xs)) == FirstWhere(both, xs)
  {
    if xs != [] {
      assert xs[0] in xs && forall x | x in xs[1..] :: x in xs;
      FirstAmongKept(f, p, both, xs[1..]);
      if f(xs[0]).Some? {
        assert Collect(f, xs)[1..] == Collect(f, xs[1..]);
      } else {
        assert Collect(f, xs) == Collect(f, xs[1..]);
      }
    }
  }

  /** Among the rules of one priority, the first match is the same before and after the sort. */
  lemma SameFirstOfPriority(rules: seq<Rule>, context: Context, k: Rule)
    ensures FirstWhere(MatcherAt(context, Priority(k)), StableSort(Higher, rules)) ==
      FirstWhere(MatcherAt(context, Priority(k)), rules)
  {
    hide Matches;
    var both, f := MatcherAt(context, Priority(k)), TiesWith(Higher, k);
    HigherOrder();
    SortStable(Higher, k, rules);
    FirstAmongKept(f, Matcher(context), both, rules);
    FirstAmongKept(f, Matcher(context), both, StableSort(Higher, rules));
  }

  lemma SameRules(rules: seq<Rule>, r: Rule)
    ensures r in StableSort(Higher, rules) <==> r in rules
  {
    SortPermutes(Higher, rules);
    assert r in StableSort(Higher, rules) <==> r in multiset(StableSort(Higher, rules));
    assert r in rules <==> r in multiset(rules);
  }

  /** The first match after the sort has the highest priority of all matches, and is the first of that priority. */
  lemma FirstHighest(rules: seq<Rule>, context: Context, r: Rule)
    requires FirstWhere(Matcher(context), StableSort(Higher, rules)) == Some(r)
    ensures r in rules && Matches(r, context)
    ensures forall q | q in rules && Matches(q, context) :: Priority(q) <= Priority(r)
    ensures FirstWhere(MatcherAt(context, Priority(r)), rules) == Some(r)
  {
    hide Matches;
    var s := StableSort(Higher, rules);
    var k := FirstWhereFinds(Matcher(context), s);
    SameRules(rules, r);
    HigherOrder();
    SortSorted(Higher, rules);
    forall q | q in rules && Matches(q, context)
      ensures Priority(q) <= Priority(r)
    {
      SameRules(rules, q);
      var j :| 0 <= j < |s| && s[j] == q;
      assert k <= j;
    }
    FirstWhereAt(MatcherAt(context, Priority(r)), s, k);
    SameFirstOfPriority(rules, context, r);
  }

  lemma BestFound(rules: seq<Rule>, context: Context, r: Rule) returns (i: nat)
    requires FirstWhere(Matcher(context), StableSort(Higher, rules)) == Some(r)
    ensures Best(rules, context, i) && rules[i] == r
  {
    hide Matches, StableSort;
    FirstHighest(rules, context, r);
    i := FirstWhereFinds(MatcherAt(context, Priority(r)), rules);
  }

  lemma BestUnique(rules: seq<Rule>, context: Context, i: nat, j: nat)
    requires Best(rules, context, i) && Best(rules, context, j)
    ensures i == j
  {
    hide Matches;
  }

  lemma MatchAfterSort(rules: seq<Rule>, context: Context)
    ensures FirstWhere(Matcher(context), StableSort(Higher, rules)).Some? <==>
      exists r | r in rules :: Matches(r, context)
  {
    hide Matches, StableSort;
    FirstWhereNone(Matcher(context), StableSort(Higher, rules));
    forall r
      ensures r in StableSort(Higher, rules) <==> r in rules
    {
      SameRules(rules, r);
    }
  }

  /**
   The decision is that of the earliest rule, in document order, among the matching rules of maximal priority. There is
   such a rule exactly when some rule matches; otherwise the decision is the default.
   */
  lemma DecideIsBest(docs: seq<PolicyDoc>, context: Context)
    ensures forall i: nat | Best(AllRules(docs), context, i) :: Decide(docs, context) == Chosen(AllRules(docs)[i])
    ensures (exists i: nat :: Best(AllRules(docs), context, i)) <==>
      exists r | r in AllRules(docs) :: Matches(r, context)
    ensures (forall r | r in AllRules(docs) :: !Matches(r, context)) <==> Decide(docs, context) == Default(docs)
  {
    hide Best, Matches, StableSort, DefaultBehavior;
    var rules := AllRules(docs);
    MatchAfterSort(rules, context);
    var found := FirstWhere(Matcher(context), StableSort(Higher, rules));
    forall i: nat | Best(rules, context, i)
      ensures i < |rules| && found == Some(rules[i])
    {
      BestMatches(rules, context, i);
      var j := BestFound(rules, context, found.value);
      BestUnique(rules, context, i, j);
    }
    if found.Some? {
      var i := BestFound(rules, context, found.value);
    }
  }

  lemma BestMatches(rules: seq<Rule>, context: Context, i: nat)
    requires Best(rules, context, i)
    ensures i < |rules| && rules[i] in rules && Matches(rules[i], context)
  {
  }

  // ----- what the parts of the decision mean -----

  /** The value with its booleans as numbers. */
  function Unboxed(v: Json): Json {
    match v
    case Bool(b) => Num(if b then 1.0 else 0.0)
    case Arr(items) => Arr(seq(|items|, i requires 0 <= i < |items| => Unboxed(items[i])))
    case Obj(fields) => Obj(map k | k in fields :: Unboxed(fields[k]))
    case _ => v
  }

  /** Python's equality is equality once True is 1 and False is 0, at every depth. */
  lemma {:induction false} PyEqualMeans(a: Json, b: Json)
    ensures PyEqual(a, b) <==> Unboxed(a) == Unboxed(b)
  {
    if a.Arr? && b.Arr? {
      forall i | 0 <= i < |a.items| && i < |b.items|
        ensures PyEqual(a.items[i], b.items[i]) <==> Unboxed(a.items[i]) == Unboxed(b.items[i])
      {
        PyEqualMeans(a.items[i], b.items[i]);
      }
      ArraysMean(a.items, b.items);
    } else if a.Obj? && b.Obj? {
      forall k | k in a.fields && k in b.fields
        ensures PyEqual(a.fields[k], b.fields[k]) <==> Unboxed(a.fields[k]) == Unboxed(b.fields[k])
      {
        PyEqualMeans(a.fields[k], b.fields[k]);
      }
      ObjectsMean(a.fields, b.fields);
    }
  }

  lemma ArraysMean(a: seq<Json>, b: seq<Json>)
    ensures Unboxed(Arr(a)) == Unboxed(Arr(b)) <==>
      |a| == |b| && forall i | 0 <= i < |a| :: Unboxed(a[i]) == Unboxed(b[i])
  {
    var x, y := Unboxed(Arr(a)).items, Unboxed(Arr(b)).items;
    assert forall i | 0 <= i < |a| :: x[i] == Unboxed(a[i]);
    assert forall i | 0 <= i < |b| :: y[i] == Unboxed(b[i]);
  }

  lemma ObjectsMean(a: map<string, Json>, b: map<string, Json>)
    ensures Unboxed(Obj(a)) == Unboxed(Obj(b)) <==>
      a.Keys == b.Keys && forall k | k in a :: Unboxed(a[k]) == Unboxed(b[k])
  {
    var x, y := Unboxed(Obj(a)).fields, Unboxed(Obj(b)).fields;
    assert x.Keys == a.Keys && y.Keys == b.Keys;
    assert forall k | k in a :: x[k] == Unboxed(a[k]);
    assert forall k | k in b :: y[k] == Unboxed(b[k]);
  }

  /** A rule is about one tool, write-marker unless it says otherwise, and perhaps about the value of one field. */
  lemma MatchesMeans(r: Rule, context: Context)
    ensures Matches(r, context) <==>
      && Unboxed(if "tool_name" in context then context["tool_name"] else Null) ==
         Unboxed(if r.toolName.Some? then r.toolName.value else Str("write-marker"))
      && (r.field.Some? ==>
            Unboxed(if r.field.value in context then context[r.field.value] else Null) ==
            Unboxed(if r.equals.Some? then r.equals.value else Null))
  {
    hide PyEqual, Unboxed;
    PyEqualMeans(Get(context, "tool_name"), OrElse(r.toolName, Str(TOOL_NAME)));
    if r.field.Some? {
      PyEqualMeans(Get(context, r.field.value), OrElse(r.equals, Null));
    }
  }

  /** The rules of one document follow those of the documents before it. */
  lemma RulesInOrder(docs: seq<PolicyDoc>, doc: PolicyDoc)
    ensures AllRules([]) == [] && AllRules(docs + [doc]) == AllRules(docs) + doc.rules
  {
    assert (docs + [doc])[..|docs|] == docs;
  }

  /** Where no rule matches, a document's own default decides, deny if it has none, and allow without a document. */
  lemma DefaultMeans(docs: seq<PolicyDoc>, context: Context)
    requires forall r | r in AllRules(docs) :: !Matches(r, context)
    ensures Decide(docs, context) == Some(Decision(
      if docs == [] then "allow" else if docs[0].defaultAction.Some? then docs[0].defaultAction.value else "deny",
      None, true))
  {
    hide Decide, Matches;
    DecideIsBest(docs, context);
  }

  /** The best match decides by its action and names itself; without either it raises. No priority means 0. */
  lemma BestDecides(docs: seq<PolicyDoc>, context: Context, i: nat)
    requires Best(AllRules(docs), context, i)
    ensures var r := AllRules(docs)[i];
            Decide(docs, context) ==
            if r.action.Some? && r.name.Some? then Some(Decision(r.action.value, r.name, false)) else None
    ensures var r := AllRules(docs)[i];
            Priority(r) == if r.priority.Some? then r.priority.value else 0.0
  {
    hide Decide, Matches;
    DecideIsBest(docs, context);
  }

  // ----- the runtime -----

  /** The directory the tool writes to: whether the marker is there. */
  class Workspace {
    var marker: bool

    constructor ()
      ensures !marker
    {
      marker := false;
    }

    /** write_marker */
    method WriteMarker()
      modifies this
      ensures marker
    {
      marker := true;
    }
  }

  class Runtime {
    var policyDocs: seq<PolicyDoc>

    constructor (docs: seq<PolicyDoc>)
      ensures policyDocs == docs
    {
      policyDocs := docs;
    }

    /** decide: extend, sort in place, scan. */
    method DecideToolPre(context: Context) returns (decision: Option<Decision>)
      ensures decision == Decide(policyDocs, context)
    {
      var rules: seq<Rule> := [];
      for i := 0 to |policyDocs|
        invariant rules == AllRules(policyDocs[..i])
      {
        assert policyDocs[..i + 1][..i] == policyDocs[..i];
        rules := rules + policyDocs[i].rules;
      }
      assert policyDocs[..|policyDocs|] == policyDocs;
      rules := StableSort(Higher, rules);
      ghost var matches := Matcher(context);
      for i := 0 to |rules|
        invariant FirstWhere(matches, rules) == FirstWhere(matches, rules[i..])
      {
        assert rules[i..][0] == rules[i] && rules[i..][1..] == rules[i + 1..];
        if !PyEqual(Get(context, "tool_name"), OrElse(rules[i].toolName, Str(TOOL_NAME))) { continue; }
        if rules[i].field.Some? && !PyEqual(Get(context, rules[i].field.value), OrElse(rules[i].equals, Null)) {
          continue;
        }
        return Chosen(rules[i]);
      }
      return Default(policyDocs);
    }

    /** invoke_tool: the tool runs on an allow verdict and on no other. */
    method InvokeTool(workspace: Workspace, context: Context) returns (decision: Option<Decision>, executed: bool)
      modifies workspace
      ensures decision == Decide(policyDocs, context)
      ensures executed <==> decision.Some? && decision.value.verdict == "allow"
      ensures workspace.marker <==> old(workspace.marker) || executed
    {
      decision := DecideToolPre(context);
      executed := false;
      if decision.Some? && decision.value.verdict == "allow" {
        workspace.WriteMarker();
        executed := true;
      }
    }
  }
}
