/**
 A reader of the predicate document by its member names, written apart from everything that prints or judges one: each
 object must have exactly its members, each member its kind of value. Absent optional members read as empty.
 */
module EvidenceReader {
  import opened Wrappers
  import opened Json
  import opened EvidenceModel

  type Doc = Option<Json>

  /** The member of an object. */
  function Field(d: Doc, key: string): Doc {
    match d
    case Some(Obj(fields)) => if key in fields then Some(fields[key]) else None
    case _ => None
  }

  predicate HasMembers(d: Doc, required: set<string>, optional: set<string>) {
    match d
    case Some(Obj(fields)) => required <= fields.Keys && fields.Keys <= required + optional
    case _ => false
  }

  function ReadText(d: Doc): Option<string> {
    match d
    case Some(Str(s)) => Some(s)
    case _ => None
  }

  /** A member that is left out when it is empty, and never printed empty. */
  function ReadOptionalText(d: Doc): Option<string> {
    match d
    case None => Some("")
    case Some(Str(s)) => if s == "" then None else Some(s)
    case _ => None
  }

  function ReadFlag(d: Doc): Option<bool> {
    match d
    case Some(Bool(b)) => Some(b)
    case _ => None
  }

  /** A number without a fraction. */
  function ReadCount(d: Doc): Option<int> {
    match d
    case Some(Num(n)) => if n == n.Floor as real then Some(n.Floor) else None
    case _ => None
  }

  function ReadTexts(d: Doc): Option<seq<string>> {
    match d
    case Some(Arr(items)) =>
      if forall i | 0 <= i < |items| :: items[i].Str?
      then Some(seq(|items|, i requires 0 <= i < |items| => items[i].s))
      else None
    case _ => None
  }

  function ReadArtifact(d: Doc): Option<ArtifactRef> {
    var uri :- ReadText(Field(d, "uri"));
    var digest :- ReadText(Field(d, "digest"));
    if HasMembers(d, {"uri", "digest"}, {}) then Some(ArtifactRef(uri, digest)) else None
  }

  function ReadRedacted(d: Doc): Option<RedactedRef> {
    var id :- ReadText(Field(d, "id"));
    var digest :- ReadText(Field(d, "digest"));
    if HasMembers(d, {"id", "digest"}, {}) then Some(RedactedRef(id, digest)) else None
  }

  function ReadAgent(d: Doc): Option<Agent> {
    var name :- ReadText(Field(d, "name"));
    var uri :- ReadText(Field(d, "uri"));
    var digest :- ReadText(Field(d, "artifactDigest"));
    if HasMembers(d, {"name", "uri", "artifactDigest"}, {}) then Some(Agent(name, uri, digest)) else None
  }

  function ReadRuntime(d: Doc): Option<Runtime> {
    var name :- ReadText(Field(d, "name"));
    var version :- ReadText(Field(d, "version"));
    var framework :- ReadOptionalText(Field(d, "framework"));
    var artifact :- ReadArtifact(Field(d, "artifact"));
    if HasMembers(d, {"name", "version", "artifact"}, {"framework"})
    then Some(Runtime(name, version, framework, artifact))
    else None
  }

  function ReadAdapter(d: Doc): Option<Adapter> {
    var name :- ReadText(Field(d, "name"));
    var artifact :- ReadArtifact(Field(d, "artifact"));
    var contractVersion :- ReadText(Field(d, "contractVersion"));
    var runtimeDigest :- ReadText(Field(d, "runtimeDigest"));
    if HasMembers(d, {"name", "artifact", "contractVersion", "runtimeDigest"}, {})
    then Some(Adapter(name, artifact, contractVersion, runtimeDigest))
    else None
  }

  function ReadRuntimePolicy(d: Doc): Option<RuntimePolicy> {
    var engine :- ReadText(Field(d, "engine"));
    var artifact :- ReadArtifact(Field(d, "artifact"));
    var count :- ReadCount(Field(d, "count"));
    var loaded :- ReadFlag(Field(d, "loaded"));
    if HasMembers(d, {"engine", "artifact", "count", "loaded"}, {})
    then Some(RuntimePolicy(engine, artifact, count, loaded))
    else None
  }

  function ReadEnforcement(d: Doc): Option<Enforcement> {
    var mode :- ReadText(Field(d, "mode"));
    var defaultBehavior :- ReadText(Field(d, "defaultBehavior"));
    var required :- ReadTexts(Field(d, "requiredInterventionPoints"));
    var observed :- ReadTexts(Field(d, "observedInterventionPoints"));
    if HasMembers(d, {"mode", "defaultBehavior", "requiredInterventionPoints", "observedInterventionPoints"}, {})
    then Some(Enforcement(mode, defaultBehavior, required, observed))
    else None
  }

  function ReadIdentity(d: Doc): Option<Identity> {
    var providerUri :- ReadText(Field(d, "providerUri"));
    var subjectKind :- ReadText(Field(d, "subjectKind"));
    var subject :- ReadRedacted(Field(d, "subject"));
    if HasMembers(d, {"providerUri", "subjectKind", "subject"}, {})
    then Some(Identity(providerUri, subjectKind, subject))
    else None
  }

  function ReadAudit(d: Doc): Option<Audit> {
    var sinkKind :- ReadText(Field(d, "sinkKind"));
    var sink :- ReadRedacted(Field(d, "sink"));
    var configurationDigest :- ReadText(Field(d, "configurationDigest"));
    if HasMembers(d, {"sinkKind", "sink", "configurationDigest"}, {})
    then Some(Audit(sinkKind, sink, configurationDigest))
    else None
  }

  function ReadFixture(d: Doc): Option<Fixture> {
    var id :- ReadText(Field(d, "id"));
    var producer :- ReadText(Field(d, "producer"));
    if HasMembers(d, {"id", "producer"}, {}) then Some(Fixture(id, producer)) else None
  }

  function ReadTool(d: Doc): Option<Tool> {
    var name :- ReadText(Field(d, "name"));
    var actionClass :- ReadText(Field(d, "actionClass"));
    var artifact :- ReadArtifact(Field(d, "artifact"));
    if HasMembers(d, {"name", "actionClass", "artifact"}, {}) then Some(Tool(name, actionClass, artifact)) else None
  }

  function ReadOptionalRedacted(d: Doc): Option<Option<RedactedRef>> {
    match d
    case None => Some(None)
    case Some(_) =>
      var r :- ReadRedacted(d);
      Some(Some(r))
  }

  /** A decision, whose finding is its verdict, or an outcome, whose finding is its result. */
  function ReadObservation(d: Doc, finding: string): Option<Observation> {
    var state :- ReadText(Field(d, "state"));
    var found :- ReadText(Field(d, finding));
    var reference :- ReadOptionalRedacted(Field(d, "reference"));
    var observedAt :- ReadOptionalText(Field(d, "observedAt"));
    if HasMembers(d, {"state", finding}, {"reference", "observedAt"})
    then Some(Observation(state, found, reference, observedAt))
    else None
  }

  function ReadTestResultRef(d: Doc): Option<TestResultRef> {
    var predicateType :- ReadText(Field(d, "predicateType"));
    var testId :- ReadText(Field(d, "testId"));
    var statementDigest :- ReadText(Field(d, "statementDigest"));
    if HasMembers(d, {"predicateType", "testId", "statementDigest"}, {})
    then Some(TestResultRef(predicateType, testId, statementDigest))
    else None
  }

  function ReadCase(d: Doc): Option<Case> {
    var id :- ReadText(Field(d, "id"));
    var kind :- ReadText(Field(d, "kind"));
    var correlationId :- ReadText(Field(d, "correlationId"));
    var startedAt :- ReadText(Field(d, "startedAt"));
    var completedAt :- ReadText(Field(d, "completedAt"));
    var decision :- ReadObservation(Field(d, "decision"), "verdict");
    var outcome :- ReadObservation(Field(d, "outcome"), "result");
    var testResult :- ReadTestResultRef(Field(d, "testResult"));
    if HasMembers(d, {"id", "kind", "correlationId", "startedAt", "completedAt", "decision", "outcome", "testResult"},
                  {})
    then Some(Case(id, kind, correlationId, startedAt, completedAt, decision, outcome, testResult))
    else None
  }

  function ReadCases(d: Doc): Option<seq<Case>> {
    match d
    case Some(Arr(items)) =>
      if forall i | 0 <= i < |items| :: ReadCase(Some(items[i])).Some?
      then Some(seq(|items|, i requires 0 <= i < |items| => ReadCase(Some(items[i])).value))
      else None
    case _ => None
  }

  datatype Conformance = Conformance(fixture: Fixture, tool: Tool, cases: seq<Case>)

  function ReadConformance(d: Doc): Option<Conformance> {
    var fixture :- ReadFixture(Field(d, "fixture"));
    var tool :- ReadTool(Field(d, "controlledTool"));
    var cases :- ReadCases(Field(d, "cases"));
    if HasMembers(d, {"fixture", "controlledTool", "cases"}, {}) then Some(Conformance(fixture, tool, cases)) else None
  }

  /** The core of the predicate; extensions are read by what they denote. */
  function ReadPredicate(d: Doc): Option<Evidence> {
    var schemaVersion :- ReadText(Field(d, "schemaVersion"));
    var agent :- ReadAgent(Field(d, "agent"));
    var runtime :- ReadRuntime(Field(d, "runtime"));
    var adapter :- ReadAdapter(Field(d, "adapter"));
    var policy :- ReadRuntimePolicy(Field(d, "runtimePolicy"));
    var enforcement :- ReadEnforcement(Field(d, "enforcement"));
    var identity :- ReadIdentity(Field(d, "identity"));
    var audit :- ReadAudit(Field(d, "audit"));
    var conformance :- ReadConformance(Field(d, "conformance"));
    if HasMembers(d, {"schemaVersion", "agent", "runtime", "adapter", "runtimePolicy", "enforcement", "identity",
                      "audit", "conformance"}, {"extensions"})
    then Some(Evidence(schemaVersion, agent, runtime, adapter, policy, enforcement, identity, audit,
                       conformance.fixture, conformance.tool, conformance.cases, map[]))
    else None
  }

  // ----- statements -----

  /** An in-toto statement about one subject. */
  datatype Statement = Statement(kind: string, name: string, sum: string, predicateType: string, body: Json)

  function ReadStatement(d: Doc): Option<Statement> {
    var kind :- ReadText(Field(d, "_type"));
    var subject :- ReadOnly(Field(d, "subject"));
    var name :- ReadText(Field(Some(subject), "name"));
    var sum :- ReadText(Field(Field(Some(subject), "digest"), "sha256"));
    var predicateType :- ReadText(Field(d, "predicateType"));
    var body :- Field(d, "predicate");
    if && HasMembers(d, {"_type", "subject", "predicateType", "predicate"}, {})
       && HasMembers(Some(subject), {"name", "digest"}, {})
       && HasMembers(Field(Some(subject), "digest"), {"sha256"}, {})
    then Some(Statement(kind, name, sum, predicateType, body))
    else None
  }

  /** The one item of a list. */
  function ReadOnly(d: Doc): Doc {
    match d
    case Some(Arr(items)) => if |items| == 1 then Some(items[0]) else None
    case _ => None
  }

  /** A test result over one configuration descriptor. */
  datatype TestReport = TestReport(
    result: string, passed: seq<string>, warned: seq<string>, failed: seq<string>,
    name: string, uri: string, sum: string, annotations: map<string, Json>)

  function ReadTestReport(d: Doc): Option<TestReport> {
    var result :- ReadText(Field(d, "result"));
    var passed :- ReadTexts(Field(d, "passedTests"));
    var warned :- ReadTexts(Field(d, "warnedTests"));
    var failed :- ReadTexts(Field(d, "failedTests"));
    var descriptor :- ReadOnly(Field(d, "configuration"));
    var name :- ReadText(Field(Some(descriptor), "name"));
    var uri :- ReadText(Field(Some(descriptor), "uri"));
    var sum :- ReadText(Field(Field(Some(descriptor), "digest"), "sha256"));
    var annotations :- Field(Some(descriptor), "annotations");
    if && HasMembers(d, {"result", "passedTests", "warnedTests", "failedTests", "configuration"}, {})
       && HasMembers(Some(descriptor), {"name", "uri", "digest", "annotations"}, {})
       && annotations.Obj?
    then Some(TestReport(result, passed, warned, failed, name, uri, sum, annotations.fields))
    else None
  }

  /** The full name of an annotation. */
  function Annotation(name: string): string {
    "https://autogov.dev/attestation/agent-governance-deployment/v0.1" + "#" + name
  }
}
