# Agent-governance evidence: a verified model

This project models how a record of one agent run becomes an admission verdict, and proves what that pipeline
promises:

1. a runtime decides at `tool.pre` and a producer writes the facts of one conformance case
   (`adapters/non-agt/toy_runtime.py`, `adapters/non-agt/producer.py`);
2. the Go generator refuses evidence with missing members, normalises it in place, validates it and prints it
   (`internal/evidence/deployment.go`);
3. the statement builder prints a test result, binds its hash into the evidence and prints the deployment statement
   (`internal/demokit/statements.go`); the signer signs a pre-authentication encoding of each
   (`internal/demokit/signer.go`);
4. the Rego gate reads the signed bundles as untyped JSON, admits or denies, and reports violations
   (`policy/agent_governance.rego`).

The generator and the gate are two rule systems that were written independently of each other. The central results
relate them over all inputs:

- the gate admits exactly the inputs that read, by a reader with the member names spelled out, as one well-formed
  deployment of proven and timely cases with their own test results (`GateReference.AllowMeans`);
- the gate's positive derivation and its list of violations are the same verdict (`GateTheorems.AllowIffNoViolations`);
- the walker, the validators and the printed documents meet references that are written apart from them
  (`Completeness.AcceptsIffComplete`, `GeneratorMeaning.ValidMeans`, `ReadBack.BuiltReads`);
- the printed evidence is a canonical form, in both directions (`Canonical.GenerateCanonical`);
- what the builder prints is admitted exactly when the canonical facts say so (`Admission.BuiltCaseAdmitted`);
- and so, for every policy document and context, a run is admitted exactly when it was a positive one
  (`Pipeline.ProducedAdmittedIff`, `Buildability.ReportBuiltIffHonest`, `Buildability.PositiveRunAdmitted`).

## Files

| file | what it holds |
|---|---|
| `Wrappers.dfy`, `Lists.dfy`, `Sorting.dfy`, `Forms.dfy` | options, lists, stable sorting, lexical forms |
| `Json.dfy` | decoded JSON, and Rego's evaluation of paths, `some`, `every` and `count` on missing or ill-typed values |
| `Calendar.dfy`, `Rfc3339.dfy`, `ZonedText.dfy` | the Gregorian calendar, timestamps as text, and what a zoned text denotes |
| `FormsMeaning.dfy`, `Utf8.dfy` | the lexical forms as spelled-out alphabets, and the UTF-8 encoding that byte limits measure |
| `Gate.dfy`, `GateTheorems.dfy`, `GateInput.dfy`, `GatePairing.dfy` | the gate, its two derivations, its dependence on the input, what admission guarantees |
| `EvidenceReader.dfy`, `ReadBack.dfy` | a reader of the documents by their member names, and what the builder prints read back |
| `GateMeaning.dfy`, `GateReference.dfy`, `GateReports.dfy` | the gate's rules, its verdict and its reports, said of what the input reads as |
| `Extensions.dfy`, `EvidenceModel.dfy`, `Normalizer.dfy` | extension values, the evidence with its normal form and validators, and the class that is normalised in place |
| `GeneratorMeaning.dfy` | what the generator accepts, said once as conditions on the evidence |
| `Canonical.dfy`, `FixedPoint.dfy` | the normal form decides equivalence, and is a fixed point |
| `Walker.dfy`, `EmbeddedSchema.dfy`, `Completeness.dfy` | the required-member walker, the schema it is run on, and the evidence it accepts member by member |
| `Statements.dfy`, `Printed.dfy`, `Admission.dfy` | the builder, what the gate makes of what it prints, and the two together |
| `ToyRuntime.dfy`, `Producer.dfy`, `Pipeline.dfy`, `Buildability.dfy` | the runtime, the producer, and the pipeline from end to end |
| `Demonstration.dfy` | the repository's five runs, and a world in which the assumptions of the theorems hold together |
| `Pae.dfy` | bytes, and the pre-authentication encoding |

## How the source is read

- A Rego term is an option: `None` is undefined, and a rule with an undefined term fails. `not x.y == z` is true when
  `x.y` is undefined. `every` over a scalar or an undefined value fails; over an empty collection it holds.
- Functions that the source takes from libraries are fields of a record (`Gate.Env`, `EvidenceModel.Library`,
  `Statements.Codec`, `Producer.Host`) and nothing is assumed of them, except where a theorem says so: `Agrees` (both
  sides compute the same SHA-256, and the gate's URI patterns accept what the generator and the schema accept) and
  `ReadsBack` (the gate decodes the two payloads to the statements that were printed). SHA-256 is not assumed to be
  free of collisions.
- The printed predicate is the canonical value that is printed; `Library.emits` stands for the rest of the embedded
  schema together with the bounds on the printed size.
- Timestamps are read as Go's `time.Parse` reads them: an hour of one digit, a comma before the fraction, and offsets
  up to 24:60 are accepted.
- A Python exception and a Go error are `None`.

## What the proofs turned up

- The comment on timestamp normalisation says that a fraction must not be truncated. Go keeps nine digits of it, so a
  fraction whose first nine digits are zeros is dropped in silence. `Rfc3339.TruncatedFraction` gives such a text and
  `Rfc3339.NormalizesIffNineZeros` the exact condition.
- Years outside 0 to 9999 can come out of a conversion to UTC. Such text is normalised without an error and does not
  read back, so the validators refuse it (`Rfc3339.NormalTextReadable`).
- The generator accepts the years 0 to 9999, the gate's clock reaches from 1677 to 2262. A case outside is built and
  then denied; `Admission.BuiltCaseAdmitted` names this as one of its conditions.
- The gate's cardinality rule permits four cases. At most two are ever admitted (`GateTheorems.AdmittedCases`).
- The gate accepts a `subject` that is an object of one member as well as an array of one element;
  `GatePairing.AdmittedPairsOff` holds for both.

## Model

| member | source | states |
|---|---|---|
| GateTheorems.NoViolations | policy/agent_governance.rego:576-816 | the violation set is empty exactly when no rule fires: naming an agent or a case never loses a message |
| GateTheorems.SubjectCaught | policy/agent_governance.rego:462-485 | a missing or malformed subject, which the subject rules skip as undefined, is caught by the cross-binding of any one case |
| GateTheorems.AllowIffNoViolations | policy/agent_governance.rego:87-98 | on every input, allow holds exactly when nothing is reported |
| GateTheorems.AllowIffDistinctKinds | policy/agent_governance.rego:89-98 | the absence of violations adds to the positive derivation only that no two cases share a kind |
| GateTheorems.SameIdSameKind | policy/agent_governance.rego:442-503 | admissible cases with one id bind one test result and so have one kind |
| GateTheorems.DistinctByCount | policy/agent_governance.rego:695-707 | comparing the number of distinct members with the number of cases is pairwise distinctness |
| GateTheorems.AdmittedCases | policy/agent_governance.rego:126-131 | an admitted deployment is the only one, its case ids are distinct, and it has at most two cases |
| GateInput.OrderIrrelevant | policy/agent_governance.rego:61-83 | verdict and violations do not depend on the order of the bundles |
| GateInput.IrrelevantBundle | policy/agent_governance.rego:61-83 | a bundle of another type, an undecodable one, or a test result that claims no case changes neither verdict nor violations, wherever it is put |
| GateInput.SecondDeploymentDenies | policy/agent_governance.rego:607-610 | a second deployment statement turns an admitted input into a denied one |
| GateInput.SecondClaimDenies | policy/agent_governance.rego:801-806 | so does any further test result that claims an admitted case, a byte-identical copy included |
| GatePairing.AdmittedPairsOff | policy/agent_governance.rego:442-546 | if the input is admitted, its cases map one to one to payloads that hash to the stated digests, share the agent's subject, are bound to the pinned tool and repeat exactly the facts of a proven case |
| GateMeaning.ClockReads | policy/agent_governance.rego:555-557 | the gate's clock reads exactly the canonical texts of four-digit years within 64-bit nanoseconds, as the instants they denote |
| GateMeaning.CaseMeans | policy/agent_governance.rego:274-295 | a case has the required shape exactly when it reads, by its member names, as a case with members in form |
| GateMeaning.EnvelopeMeans | policy/agent_governance.rego:103-145 | the envelope check and the consistency of the policy facts hold exactly when the statement reads as well-formed evidence of its one subject, on the pinned tool |
| GateReference.InputMeans | policy/agent_governance.rego:61-83 | the statements the gate works on are those the bundles carry, each as often as it is carried, with the hash of its payload |
| GateReference.TestResultMeans | policy/agent_governance.rego:462-553 | the cross-binding holds exactly when hash, subject, tool, annotations, result profile and link of the test result are those of the case |
| GateReference.AllowMeans | policy/agent_governance.rego:87-98 | the gate admits exactly the inputs that read as one well-formed deployment of distinct, proven and timely cases, each with the one test result that is its own |
| GateReports.AdmittedTimes | policy/agent_governance.rego:559-570 | every case of an admitted input has four readable times in order, within five minutes, both observations inside |
| GateReports.BadTimesReported | policy/agent_governance.rego:725-731 | a positive case that breaks any of these is reported by name, and the input denied |
| GateReports.CaseReported | policy/agent_governance.rego:709-806 | each rule on a case is reported, naming agent and case, for exactly the cases whose members are at fault |
| GateReports.AgentReported | policy/agent_governance.rego:612-707 | each rule on a statement is reported, naming the agent, for exactly the statements whose members are at fault |
| GateReports.CountReported | policy/agent_governance.rego:607-610 | the number of deployment statements is reported exactly when it is not one |
| GateReports.ShapeReported | policy/agent_governance.rego:624-691 | the four rules on shape are silent exactly when the predicate reads as evidence in form |
| GateReports.EnforcementReported | policy/agent_governance.rego:733-739 | on evidence in form, a positive case is reported as unenforced exactly when policy, mode or exercised points say so |
| GateReports.BindingReported | policy/agent_governance.rego:808-816 | a case in form is reported for its test result exactly when one alone claims it and is not its own |
| GateReports.NamesMean | policy/agent_governance.rego:576-594 | reports name agent and case by their values where those are in form, and by a fixed text otherwise |
| Calendar.AddDaysNumber | internal/evidence/deployment.go:508-517 | the carry over day, month, year and leap day moves the count of days by exactly the days added |
| Calendar.ToUtcInstant | internal/evidence/deployment.go:508-517 | conversion to UTC keeps the instant |
| Calendar.InstantInjective | internal/evidence/deployment.go:508-517 | an instant has one UTC reading |
| ZonedText.ZonedNormalizes | internal/evidence/deployment.go:508-517 | a reading followed by +hh:mm normalises to the reading that much earlier, followed by -hh:mm to the one that much later, and offsets beyond 24:60 are refused |
| ZonedText.KnownZones | internal/evidence/deployment_test.go:167-168 | the zoned start of the generator's own test, and a carry over a leap day, normalise to the expected texts |
| ZonedText.KnownInstants | internal/evidence/deployment.go:740-756 | instants count seconds from 1970-01-01T00:00:00Z |
| ZonedText.OneDigitHour | internal/evidence/deployment.go:508-517 | an hour below ten may be written with one digit |
| ZonedText.ZeroFraction | internal/evidence/deployment.go:508-517 | a fraction of zeros, after a period or a comma, changes nothing |
| Rfc3339.FormatParses | internal/evidence/deployment.go:508-517 | printed text of a four-digit year reads back as the reading it was printed from |
| Rfc3339.SameInstantSameText | internal/evidence/deployment.go:508-517 | two accepted texts normalise alike exactly when they denote the same instant |
| Rfc3339.NormalTextReads | internal/evidence/deployment.go:508-517 | normal text that reads back denotes the original instant, is a fixed point and has the shape the gate asks for |
| Rfc3339.NormalTextReadable | internal/evidence/deployment.go:740-756 | normal text reads back exactly when its instant lies in the years 0 to 9999 |
| ZonedText.FractionValue | internal/evidence/deployment.go:508-517 | a fraction is read as the value of its first nine digits, filled up with zeros, in nanoseconds |
| Rfc3339.NormalizesIffNineZeros | internal/evidence/deployment.go:504-514 | a readable timestamp is accepted exactly when the first nine digits of its fraction are zeros |
| Rfc3339.TruncatedFraction | internal/evidence/deployment.go:504-514 | a concrete fraction that is not zero is accepted |
| FixedPoint.IntervalOnInstants | internal/evidence/deployment.go:740-756 | the interval check on normalised text asks about the instants the producer wrote: readable, in order and at most five minutes apart |
| FixedPoint.ObservedOnInstants | internal/evidence/deployment.go:932-944 | the in-interval check on normalised text compares the instants the producer wrote |
| Sorting.SortedUnique | internal/evidence/deployment.go:448-463 | without ties there is one sorted arrangement of a collection |
| Sorting.SortStable | internal/evidence/deployment.go:448-463 | elements that tie keep their order |
| Sorting.LexMeans | internal/evidence/deployment.go:521-533 | one text sorts before another when it is a proper prefix or smaller at the first difference |
| Sorting.DedupeSortOnSets | internal/evidence/deployment.go:521-533 | deduplicating and sorting gives equal results exactly for equal sets |
| Normalizer.DedupeSortStrings | internal/evidence/deployment.go:521-533 | the loop with its set of seen strings computes the sorted set of its input |
| Canonical.CaseOrder | internal/evidence/deployment.go:448-463 | the case comparator is a strict weak order |
| Canonical.PrintedOrder | internal/evidence/deployment.go:67-72 | normalised cases stand in the order allowed, denied, bypass, no policy, any other, and by id within a kind |
| Canonical.FourKinds | internal/evidence/deployment.go:448-463 | four accepted cases are printed in exactly that order |
| Canonical.DistinctNoTies | internal/evidence/deployment.go:670-708 | cases that pass the duplicate check have no ties under the comparator |
| Extensions.CanonDenotes | internal/evidence/deployment.go:473-492 | the canonical text of an extension value denotes what the original denoted, last duplicate winning |
| Extensions.CanonIffDenote | internal/evidence/deployment.go:473-492 | two values have the same canonical text exactly when they denote the same value |
| Extensions.CanonTwice | internal/evidence/deployment.go:473-492 | canonicalising twice changes nothing |
| Extensions.CanonKeysInOrder | internal/evidence/deployment.go:473-492 | canonical members stand in strictly increasing order of their keys |
| Extensions.DepthIsHeightAndWidth | internal/evidence/deployment.go:901-929 | the depth walk accepts exactly nesting of at most four containers of at most sixteen children |
| Extensions.AcceptedLeaves | internal/evidence/deployment.go:901-929 | an accepted value has at most 65536 leaves |
| Normalizer.PercentEncodingValid | internal/evidence/deployment.go:966-990 | the scan accepts exactly text in which every percent sign starts an escape |
| GeneratorMeaning.EscapedMeans | internal/evidence/deployment.go:966-990 | the scan for percent signs, which skips what it matched, misses none |
| FormsMeaning.DigestMeans | internal/evidence/deployment.go:75 | a canonical digest is sha256: and 64 characters of 0123456789abcdef |
| FormsMeaning.LooseDigestMeans | internal/evidence/deployment.go:76 | a digest before normalisation may use either case |
| FormsMeaning.IdMeans | internal/evidence/deployment.go:77 | an id is a lower-case letter or digit and at most 127 further characters of a fixed alphabet |
| FormsMeaning.RedactedMeans | internal/evidence/deployment.go:78 | a redacted id is redacted: and 1 to 112 characters of a fixed alphabet |
| FormsMeaning.NoControlMeans | internal/evidence/deployment.go:949-964 | control characters are U+0000 to U+001F and U+007F to U+009F |
| Utf8.EncodingRead | internal/evidence/deployment.go:949-955 | the length that the limits bound is that of the UTF-8 encoding, from which a decoder recovers the text |
| Normalizer.Deployment.NormalizeHeadDigests | internal/evidence/deployment.go:387-433 | the nine digests outside the cases are normalised in place and nothing else changes |
| Normalizer.Deployment.NormalizeCaseDigests | internal/evidence/deployment.go:404-433 | the digests of every case are normalised in place, or one of them is refused |
| Normalizer.Deployment.NormalizeCaseTimes | internal/evidence/deployment.go:435-457 | the timestamps of every case are normalised in place, or one of them is refused |
| Normalizer.Deployment.NormalizeExtensions | internal/evidence/deployment.go:473-492 | in whatever order the map is visited, every value ends up canonical and no key is lost |
| Normalizer.Deployment.Normalize | internal/evidence/deployment.go:387-469 | normalisation in place succeeds exactly where the canonical form exists and leaves the object in that form |
| Normalizer.Deployment.ValidateCases | internal/evidence/deployment.go:690-708 | the loop that remembers ids and kinds accepts exactly cases with as many ids and as many kinds as there are cases, each meeting the stated conditions |
| Normalizer.Deployment.ValidateExtensions | internal/evidence/deployment.go:859-898 | the loop over the keys accepts exactly at most eight absolute-URI keys of at most 256 bytes with values of bounded depth |
| Normalizer.Deployment.Validate | internal/evidence/deployment.go:539-555 | the validators together decide validity of the value the object holds and change nothing |
| Normalizer.Deployment.GenerateBody | internal/evidence/deployment.go:1047-1070 | generation returns the canonical value where it is valid and accepted by the schema, and leaves the object holding it |
| GeneratorMeaning.DistinctMeans | internal/evidence/deployment.go:690-703 | cases are pairwise distinct exactly when there are as many ids, and as many kinds, as cases |
| GeneratorMeaning.AcceptedDistinct | internal/evidence/deployment.go:1047-1070 | accepted evidence has one to four cases with as many distinct ids and kinds, before and after normalisation |
| GeneratorMeaning.SharedNameRefused | internal/evidence/deployment.go:690-703 | two cases that share an id or a kind are refused, whatever else holds |
| GeneratorMeaning.CaseMeans | internal/evidence/deployment.go:712-853 | a case is valid exactly when its times, records, linkage and kind meet the stated conditions |
| GeneratorMeaning.ValidMeans | internal/evidence/deployment.go:539-555 | the validators together decide exactly the stated conditions on the evidence |
| Canonical.DigestForms | internal/evidence/deployment.go:497-502 | digests normalise alike exactly when they differ at most in the case of hexadecimal digits |
| Canonical.EquivalentCanon | internal/evidence/deployment.go:387-469 | equivalent evidence normalises or fails together, to the same cases up to order, and to the same value where no cases tie |
| Canonical.CanonEquivalent | internal/evidence/deployment.go:387-469 | evidence with one normal form is equivalent: nothing but order, repetition, hexadecimal case, zone and member order is lost |
| Canonical.GenerateCanonical | internal/evidence/deployment.go:1045-1070 | equivalent evidence gives equal output or is refused together, and equal output comes only from equivalent evidence |
| FixedPoint.NormalizeTwice | internal/evidence/deployment.go:387-469 | a second normalisation that succeeds changes nothing |
| FixedPoint.GenerateFixed | internal/evidence/deployment.go:1047-1070 | what generation accepted is its own normal form and generates itself again |
| Walker.AcyclicIffSettles | internal/evidence/deployment.go:315-330 | no cycle is made of references alone exactly when every definition resolves within as many hops as there are definitions |
| Walker.CycleNeverSettles | internal/evidence/deployment.go:319-329 | on such a cycle no number of hops ends, so the condition for termination is exact |
| Walker.RankDrops | internal/evidence/deployment.go:319-329 | following a reference lowers the second component of the termination measure |
| Walker.AcceptsIffFaultless | internal/evidence/deployment.go:315-377 | the walker accepts exactly the values in which every position the schema addresses is not null, has its container kind and holds its required members, bar the deferred one |
| Walker.Validate | internal/evidence/deployment.go:315-377 | in whatever order the properties are visited, an error is returned exactly when the value is not accepted, and it names the path of a real fault |
| Walker.ValidateObject | internal/evidence/deployment.go:332-358 | the object case: required members, then properties in any order |
| Walker.ValidateArray | internal/evidence/deployment.go:359-374 | the array case: every item against the items schema |
| Walker.SuffixIffLastStep | internal/evidence/deployment.go:379-381 | where property names hold no dot, the suffix test on the path is a test of the last step, at any depth and index |
| EmbeddedSchema.DefinitionsAcyclic | internal/evidence/schemas/agent-governance-deployment-schema.json:4-118 | the embedded definitions contain no cycle of references, so the walk terminates |
| EmbeddedSchema.DigestRequiredOnlyThere | internal/evidence/schemas/agent-governance-deployment-schema.json:4-284 | of all positions the schema addresses, only the test-result references of cases require a statement digest |
| EmbeddedSchema.OnlyStatementDigestDeferred | internal/evidence/deployment.go:379-381 | against the embedded schema the one deferred member is the statement digest of a case's test-result reference |
| Completeness.AcceptsIffComplete | internal/evidence/deployment.go:286-377 | on the embedded schema the walker accepts exactly the evidence that has, member by member, everything but possibly statement digests, and no null |
| Completeness.AcceptedHasRequired | internal/evidence/deployment.go:338-346 | at every addressed object position accepted evidence has every required member, except possibly the statement digest of a case's test-result reference |
| Completeness.MissingRefused | internal/evidence/deployment.go:338-346 | evidence that lacks any other required member at any addressed position is refused |
| Completeness.DigestOptional | internal/evidence/deployment.go:379-381 | taking a case's statement digest away never turns accepted evidence into refused evidence |
| Completeness.EmptyRefused | internal/evidence/deployment.go:338-346 | the empty object is refused |
| Statements.BuildTestResultStatement | internal/demokit/statements.go:159-219 | filling annotations and predicate step by step gives the specified statement, or an error for a missing reference, an unknown state or a refused predicate |
| Statements.SetDigest | internal/demokit/statements.go:91-104 | the assignment replaces the statement digest of the first case and nothing else |
| Statements.BuildCase | internal/demokit/statements.go:70-124 | three assignments of the digest around two normalisations return the specified statements and leave the completed evidence |
| ReadBack.PredicateReads | internal/evidence/deployment.go:85-230 | the printed predicate reads back, by its member names, as the evidence it was printed from |
| ReadBack.ExtensionsShown | internal/evidence/deployment.go:229 | extensions are printed under their own keys with the values they denote, and omitted when there are none |
| ReadBack.TestResultBuilt | internal/demokit/statements.go:169-211 | a test result comes of a case exactly when the states have their references, the outcome is verified or unknown, and the schema agrees |
| ReadBack.TestResultReads | internal/demokit/statements.go:176-228 | a printed test result reads back as PASSED or WARNED over its one case, under the agent's name and digest, bound to the tool |
| ReadBack.AnnotationsRead | internal/demokit/statements.go:160-203 | each annotation holds the fact it is named after |
| ReadBack.AnnotationsExact | internal/demokit/statements.go:160-203 | there are no other annotations |
| ReadBack.BuiltReads | internal/demokit/statements.go:70-124 | what BuildCase returns reads back as the body and the report on its one case, and the body states the hash of the printed test result |
| Printed.CaseTimestamps | policy/agent_governance.rego:555-570 | on a valid case with both observations the gate's interval rules hold exactly when the times are within its clock |
| Printed.ExercisedPoints | internal/evidence/deployment.go:1035-1045 | the gate's subset test over printed arrays is the generator's over strings |
| Printed.Enforcing | policy/agent_governance.rego:387-413 | a valid printed deployment is enforcing exactly when a policy is loaded, the mode is enforce and every required point was observed |
| Printed.Envelope | policy/agent_governance.rego:103-145 | of the whole envelope check, only the pinned tool and the range of the gate's clock can fail on accepted evidence |
| Printed.AnnotationKeys | internal/demokit/statements.go:160-203 | the builder writes exactly the annotation keys the gate expects for the two states |
| Printed.AnnotationsAgree | policy/agent_governance.rego:489-527 | the annotations of a built test result are the ones the gate wants for its case |
| Printed.ResultProfile | policy/agent_governance.rego:532-553 | the builder's result profile is the one the gate expects for the outcome |
| Printed.BuiltResultValid | policy/agent_governance.rego:462-485 | a built test result passes the cross-binding with its deployment statement |
| Admission.SecondNormalization | internal/demokit/statements.go:87-106 | the second normalisation changes nothing that the hashed test result recorded |
| Admission.BuildParts | internal/demokit/statements.go:70-124 | what a successful build returns: a fixed point, its two printed statements, and the digest of the second in the first |
| Admission.BuiltCaseAdmitted | internal/demokit/statements.go:65-124 | the gate admits what was built exactly when the canonical facts are positive, enforced, verified, on the pinned tool and within the gate's clock |
| Admission.BuildReproducible | cmd/demo/main.go:166-188 | generating and building again from the completed evidence gives the same body and the same hashed test result |
| ToyRuntime.DecideIsBest | adapters/non-agt/toy_runtime.py:45-66 | the decision is that of the earliest rule among the matching ones of highest priority, and the default exactly when none matches |
| ToyRuntime.BestDecides | adapters/non-agt/toy_runtime.py:57-61 | the best match decides by its action and names itself, and raises without either |
| ToyRuntime.DefaultMeans | adapters/non-agt/toy_runtime.py:39-43 | where no rule matches, the first document's default decides, deny if it has none, and allow with no document |
| ToyRuntime.MatchesMeans | adapters/non-agt/toy_runtime.py:52-56 | a rule matches on its tool, write-marker by default, and on the value of its field if it has one |
| ToyRuntime.PyEqualMeans | adapters/non-agt/toy_runtime.py:52-56 | values compare as Python compares them: equal once True is 1 and False is 0 at every depth |
| ToyRuntime.SameFirstOfPriority | adapters/non-agt/toy_runtime.py:50 | the stable sort keeps, within each priority, which rule matches first |
| ToyRuntime.Runtime.DecideToolPre | adapters/non-agt/toy_runtime.py:45-66 | extending, sorting and scanning compute the decision |
| ToyRuntime.Runtime.InvokeTool | adapters/non-agt/toy_runtime.py:68-78 | the tool runs, and the marker appears, exactly on an allow verdict |
| Producer.RunCase | adapters/non-agt/producer.py:99-250 | the branches around the run produce the specified evidence, with the outcome taken from the workspace |
| Producer.ReportSections | adapters/non-agt/producer.py:170-232 | each section of a report holds the shared fact it is named after, and the policy digest is that of the policy in force |
| Producer.ReportCase | adapters/non-agt/producer.py:129-150 | the decision on record is the runtime's on this context, with the record of it |
| Producer.ReportOutcome | adapters/non-agt/producer.py:152-168 | the outcome on record is whether the tool ran, or unknown if it was not observed |
| Pipeline.FactsKept | internal/demokit/statements.go:91-106 | the facts in the built body are the facts of the evidence handed in |
| Pipeline.TsInGateRange | adapters/non-agt/producer.py:91-92 | every printed time of the producer that reads back is within the gate's clock |
| Pipeline.ProducedFacts | adapters/non-agt/producer.py:99-250 | for a built report, the facts of admission are those of a positive run on the pinned tool |
| Pipeline.ProducedAdmittedIff | adapters/non-agt/producer.py:99-250 | whatever the policy document, context and label, a built report is admitted exactly for a loaded policy, no bypass, an observed outcome, the kind named by the verdict and the pinned tool |
| Buildability.TsReads | adapters/non-agt/producer.py:91-92 | within its minute the producer's clock prints canonical text one second apart |
| Buildability.ReportCanonical | adapters/non-agt/producer.py:193-250 | a well-formed report with a digest filled in is in normal form |
| Buildability.ReportCase | internal/evidence/deployment.go:712-853 | a well-formed case is valid exactly when its kind label is honest about the run |
| Buildability.ReportBuiltIffHonest | internal/demokit/statements.go:70-124 | a well-formed report is built exactly when its kind label is honest about the run |
| Buildability.PositiveRunAdmitted | internal/demokit/statements.go:70-124 | from end to end, a well-formed positive run on the pinned tool is built and what is built is admitted |
| Demonstration.PolicyDecides | adapters/non-agt/runtime_policy.json:1-22 | under the repository's policy file the two purposes decide allow and deny by the rule that names them, although both rules have one priority |
| Demonstration.FixtureRuns | adapters/non-agt/producer.py:295-348 | the five fixture labels are honest, the two mandatory positive runs are positive, and the bypass, no-policy and dropped-outcome runs are not |
| GateMeaning.PinnedCanonical | policy/agent_governance.rego:52-55 | the pinned tool digest is one the gate can accept |
| Demonstration.AllowedRunAdmitted | adapters/non-agt/producer.py:296-305 | there is a world in which every assumption of the pipeline's theorems holds and the repository's allowed run is built and admitted |
| Pae.FrameRead | internal/demokit/signer.go:290-293 | a length-prefixed frame is read back whatever bytes follow it |
| Pae.DecodeIffEncoded | internal/demokit/signer.go:290-293 | decoding gives a payload type and a payload exactly for the encoding of the two |
| Pae.EncodeInjective | internal/demokit/signer.go:290-293 | what is signed determines payload type and payload |
| Pae.EncodingSpelled | internal/demokit/signer.go:290-293 | an encoding is "DSSEv1 ", then length, type, length and payload with single spaces |
| Pae.DecimalDigits | internal/demokit/signer.go:290-293 | lengths are printed in decimal, most significant digit first |

## Left out

- Normalizer.Deployment.Normalize: what the object holds after an error is not stated, because every caller discards it.
- Normalizer.Deployment.ValidateExtensions: the bounds of 4096 and 16384 bytes on printed extension values are part of `Library.emits`.
- EmbeddedSchema.OnlyStatementDigestDeferred: the constants hold the keywords that the walker reads; patterns, lengths, enumerations and `allOf` are not read by it.
- Walker.Validate: the error is the path at which the walk stops; its wording is not modelled, and a schema with a cycle of references alone is outside its precondition, because the walk does not end on one.
- Aliasing through pointers into the case list: normalisation of a case is an update of the list held by the object.
- JSON text, base64 and Go's case-insensitive member names: the model starts from JSON trees and from member lists for extension values.
- The gate's input is a list of bundles; an input that is no array is not modelled.
- The gate's and the schema's URI patterns are opaque; that the gate accepts what the generator accepts is part of `Agrees`.
- `sprintf` of a value that is not a string is an opaque function of the gate's host.
- Wording of violations and errors: a violation is its rule and whom it names.
- gojsonschema and the test-result schema: opaque predicates.
- Rule documents are records with optional members; a priority, tool name or field of a type Python cannot compare or hash is not modelled, nor is NaN.
- Signing, certificates, timestamps of authorities, trusted roots and the offline verifier: library cryptography.
- The AGT producer, the import guard and wheel verification: a third-party evaluator and Python's import machinery.
- File reading and writing, command-line flags, the external verifier binary and the release scripts: plumbing.
- Freshness and replay: the gate does not provide them.
