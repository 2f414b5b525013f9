/** `validateIndependentHypothesisCasePacket`: what an independently written case packet must be. */
module CasePacket {
  import opened Prelude
  import opened Json
  import opened Text

  const SYSTEM_NAMES: seq<string> := ["research", "meetings", "crm", "documents", "messages"]
  const BEHAVIORS: seq<string> := ["candidate", "contested-candidate", "no-candidate"]

  function TextOf(v: Value): string { if v.Text? then v.s else "" }

  // ---- Documents

  predicate DocumentOk(d: Value) {
    && d.Object?
    && |Trim(TextOf(Field(d, "title")))| >= 5 && |Trim(TextOf(Field(d, "body")))| >= 20
    && !Labelled(TextOf(Field(d, "title")) + " " + TextOf(Field(d, "body")))
  }

  /** The text names a stance or the word hypothesis. */
  predicate Labelled(text: string) {
    ContainsWord(text, "supports") || ContainsWord(text, "contradicts") || ContainsWord(text, "hypothesis")
  }

  function SystemOf(d: Value): Value { if d.Object? then Field(d, "sourceSystem") else Undefined }

  /** Five documents, and each source system occurs among them. */
  ghost predicate Covers(documents: seq<Value>) {
    && |documents| == 5
    && forall k :: 0 <= k < 5 ==> exists i :: 0 <= i < |documents| && SystemOf(documents[i]) == Text(SYSTEM_NAMES[k])
  }

  ghost predicate DocumentsOk(documents: seq<Value>) {
    Covers(documents) && forall i :: 0 <= i < |documents| ==> DocumentOk(documents[i])
  }

  // ---- Cases

  predicate ConceptsOk(v: Value, concepts: set<string>, behavior: Value) {
    && v.Array?
    && (forall i :: 0 <= i < |v.items| ==> v.items[i].Text? && v.items[i].s in concepts)
    && (behavior == Text("no-candidate") <==> v.items == [])
  }

  predicate BehaviorOk(v: Value) { v.Text? && v.s in BEHAVIORS }

  ghost predicate CaseOk(c: Value, concepts: set<string>) {
    && c.Object?
    && Field(c, "id").Text? && Field(c, "id").s != ""
    && Field(c, "subject").Text? && |Trim(Field(c, "subject").s)| >= 8
    && BehaviorOk(Field(c, "expectedBehavior"))
    && ConceptsOk(Field(c, "expectedConceptIds"), concepts, Field(c, "expectedBehavior"))
    && Field(c, "documents").Array? && DocumentsOk(Field(c, "documents").items)
  }

  function CaseId(c: Value): string { TextOf(Field(c, "id")) }

  function CountBehavior(cases: seq<Value>, behavior: string): nat {
    if cases == [] then 0
    else CountBehavior(DropLast(cases), behavior) + if Field(Last(cases), "expectedBehavior") == Text(behavior) then 1
         else 0
  }

  lemma BehaviorsCounted(cases: seq<Value>, behavior: string)
    ensures CountBehavior(cases, behavior) ==
            |set i: nat | i < |cases| && Field(cases[i], "expectedBehavior") == Text(behavior)|
  {
    hide Field;
    var expects := (c: Value) => Field(c, "expectedBehavior") == Text(behavior);
    CountIsFilter(cases, behavior, expects);
    FilterIsPlaces(cases, expects);
    assert Places(cases, expects) ==
           set i: nat | i < |cases| && Field(cases[i], "expectedBehavior") == Text(behavior);
  }

  lemma {:induction false} CountIsFilter(cases: seq<Value>, behavior: string, expects: Value -> bool)
    requires forall c :: expects(c) <==> Field(c, "expectedBehavior") == Text(behavior)
    ensures CountBehavior(cases, behavior) == |Filter(cases, expects)|
  {
    hide Field;
    if cases != [] {
      CountIsFilter(DropLast(cases), behavior, expects);
    }
  }

  /** `Math.max(2, Math.ceil(length * 0.1))` */
  function MinimumControls(n: nat): (m: nat)
    ensures m >= 2 && 10 * m >= n && (m > 2 ==> 10 * (m - 1) < n)
  {
    if (n + 9) / 10 > 2 then (n + 9) / 10 else 2
  }

  predicate AuthorshipOk(a: Value, isDate: string -> bool) {
    && a.Object?
    && Field(a, "author").Text? && Trim(Field(a, "author").s) != ""
    && Field(a, "authoredAt").Text? && isDate(Field(a, "authoredAt").s)
    && Field(a, "independentlyAuthored") == Bool(true)
    && Field(a, "didNotInspectImplementation") == Bool(true)
  }

  predicate HeaderOk(packet: Value, isDate: string -> bool) {
    && packet.Object?
    && Field(packet, "schemaVersion") == Number(1.0)
    && AuthorshipOk(Field(packet, "authorship"), isDate)
    && Field(packet, "cases").Array? && |Field(packet, "cases").items| >= 20
  }

  /** Cases in order, with distinct identifiers, and at least a tenth each of controls and of contested candidates. */
  ghost predicate CasesOk(cases: seq<Value>, concepts: set<string>) {
    && (forall i :: 0 <= i < |cases| ==> CaseOk(cases[i], concepts))
    && (forall i, j :: 0 <= i < j < |cases| ==> CaseId(cases[i]) != CaseId(cases[j]))
    && CountBehavior(cases, "no-candidate") >= MinimumControls(|cases|)
    && CountBehavior(cases, "contested-candidate") >= MinimumControls(|cases|)
  }

  ghost predicate PacketOk(packet: Value, concepts: set<string>, isDate: string -> bool) {
    HeaderOk(packet, isDate) && CasesOk(Field(packet, "cases").items, concepts)
  }

  // ---- Every source system exactly once

  function SystemsIn(documents: seq<Value>): set<string> {
    if documents == [] then {}
    else SystemsIn(DropLast(documents)) + if SystemOf(Last(documents)).Text? then {SystemOf(Last(documents)).s} else {}
  }

  lemma {:induction false} SystemsInMembers(documents: seq<Value>)
    ensures forall s :: s in SystemsIn(documents) <==>
                        exists i :: 0 <= i < |documents| && SystemOf(documents[i]) == Text(s)
    ensures |SystemsIn(documents)| <= |documents|
  {
    hide SystemOf;
    if documents != [] {
      SystemsInMembers(DropLast(documents));
    }
  }

  lemma NamesDiffer()
    ensures Distinct(SYSTEM_NAMES)
  {
    assert SYSTEM_NAMES[0][0] == 'r' && SYSTEM_NAMES[1][0] == 'm' && SYSTEM_NAMES[2][0] == 'c'
           && SYSTEM_NAMES[3][0] == 'd' && SYSTEM_NAMES[4][0] == 'm';
    assert SYSTEM_NAMES[1][2] == 'e' && SYSTEM_NAMES[4][2] == 's';
  }

  function AllSystems(): (r: set<string>)
    ensures |r| == 5
  {
    NamesDiffer();
    DistinctCount(SYSTEM_NAMES);
    Elements(SYSTEM_NAMES)
  }

  /** The check on the set of systems is the same as saying that each occurs. */
  lemma CoveredBySet(documents: seq<Value>)
    requires |documents| == 5
    ensures Covers(documents) <==>
            |SystemsIn(documents)| == 5 && forall k :: 0 <= k < 5 ==> SYSTEM_NAMES[k] in SystemsIn(documents)
  {
    hide SystemOf;
    SystemsInMembers(documents);
    if Covers(documents) {
      forall k | 0 <= k < 5
        ensures SYSTEM_NAMES[k] in SystemsIn(documents)
      {
      }
      assert AllSystems() <= SystemsIn(documents);
      SubsetCount(AllSystems(), SystemsIn(documents));
    }
  }

  function SystemValues(documents: seq<Value>): seq<Value> {
    Map(documents, SystemOf)
  }

  /** Five documents that cover the five source systems have each exactly once. */
  lemma EachSystemOnce(documents: seq<Value>, i: nat, j: nat)
    requires Covers(documents) && i < j < 5
    ensures SystemOf(documents[i]) != SystemOf(documents[j])
    ensures SystemOf(documents[i]).Text? && SystemOf(documents[i]).s in SYSTEM_NAMES
  {
    hide SystemOf;
    var values := SystemValues(documents);
    var names := Map(SYSTEM_NAMES, (s: string) => Text(s));
    forall k | 0 <= k < 5
      ensures names[k] in values
    {
      var n :| 0 <= n < |documents| && SystemOf(documents[n]) == Text(SYSTEM_NAMES[k]);
      assert values[n] == names[k];
    }
    DistinctNames();
    DistinctCount(names);
    DistinctCount(values);
    SubsetCount(Elements(names), Elements(values));
    assert values[i] in Elements(names);
    var n :| 0 <= n < |names| && names[n] == values[i];
  }

  lemma DistinctNames()
    ensures Distinct(Map(SYSTEM_NAMES, (s: string) => Text(s)))
  {
    var names := Map(SYSTEM_NAMES, (s: string) => Text(s));
    NamesDiffer();
    forall i, j | 0 <= i < j < 5
      ensures names[i] != names[j]
    {
      assert SYSTEM_NAMES[i] != SYSTEM_NAMES[j];
    }
  }

  // ---- The validator

  datatype CaseError =
    | NotAnObject | BadSchemaVersion | BadAuthorship | BadAuthor | BadDate | NotIndependent | SawImplementation
    | TooFewCases
    | CaseNotAnObject(index: nat) | IdNotUnique(index: nat) | BadSubject(index: nat) | BadBehavior(index: nat)
    | ConceptsNotAnArray(index: nat) | UnknownConcept(index: nat) | ConceptsNotEmpty(index: nat)
    | ConceptsMissing(index: nat)
    | DocumentsNotAnArray(index: nat) | NotFiveDocuments(index: nat) | BadDocument(index: nat, document: nat)
    | ThinDocument(index: nat, document: nat) | LabelledDocument(index: nat, document: nat)
    | SystemsNotCovered(index: nat)
    | TooFewControls(minimum: nat) | TooFewContested(minimum: nat)

  method ValidateDocument(index: nat, i: nat, d: Value) returns (errors: seq<CaseError>)
    ensures errors == [] <==> DocumentOk(d)
  {
    hide Labelled, Trim;
    errors := [];
    if !d.Object? {
      return [BadDocument(index, i)];
    }
    var title, body := TextOf(Field(d, "title")), TextOf(Field(d, "body"));
    if |Trim(title)| < 5 || |Trim(body)| < 20 { errors := errors + [ThinDocument(index, i)]; }
    if Labelled(title + " " + body) { errors := errors + [LabelledDocument(index, i)]; }
  }

  method ValidateDocuments(index: nat, documents: seq<Value>) returns (errors: seq<CaseError>)
    ensures errors == [] <==> DocumentsOk(documents)
  {
    hide DocumentOk, Covers;
    errors := [];
    if |documents| != 5 { errors := errors + [NotFiveDocuments(index)]; }
    var systems: set<string> := {};
    for i := 0 to |documents|
      invariant errors == [] <==> |documents| == 5 && forall j :: 0 <= j < i ==> DocumentOk(documents[j])
      invariant systems == SystemsIn(documents[..i])
    {
      assert DropLast(documents[..i + 1]) == documents[..i];
      var d := documents[i];
      if SystemOf(d).Text? { systems := systems + {SystemOf(d).s}; }
      var found := ValidateDocument(index, i, d);
      errors := errors + found;
    }
    assert documents[..|documents|] == documents;
    if |documents| == 5 {
      CoveredBySet(documents);
    }
    CoversFive(documents);
    if |systems| != 5 || exists k :: 0 <= k < 5 && SYSTEM_NAMES[k] !in systems {
      errors := errors + [SystemsNotCovered(index)];
    }
  }

  lemma CoversFive(documents: seq<Value>)
    ensures Covers(documents) ==> |documents| == 5
  {
  }

  method ValidateConcepts(index: nat, v: Value, concepts: set<string>, behavior: Value) returns (errors: seq<CaseError>)
    ensures errors == [] <==> ConceptsOk(v, concepts, behavior)
  {
    errors := [];
    if !v.Array? {
      return [ConceptsNotAnArray(index)];
    }
    for i := 0 to |v.items|
      invariant errors == [] <==> forall j :: 0 <= j < i ==> v.items[j].Text? && v.items[j].s in concepts
    {
      if !v.items[i].Text? || v.items[i].s !in concepts { errors := errors + [UnknownConcept(index)]; }
    }
    if behavior == Text("no-candidate") && |v.items| > 0 { errors := errors + [ConceptsNotEmpty(index)]; }
    if behavior != Text("no-candidate") && |v.items| == 0 { errors := errors + [ConceptsMissing(index)]; }
  }

  /** The checks on one case, apart from the uniqueness of its identifier. */
  method ValidateCase(index: nat, c: Value, concepts: set<string>) returns (errors: seq<CaseError>)
    requires c.Object?
    ensures errors == [] && CaseId(c) != "" <==> CaseOk(c, concepts)
  {
    hide DocumentsOk, ConceptsOk, Trim;
    errors := [];
    if !Field(c, "subject").Text? || |Trim(Field(c, "subject").s)| < 8 { errors := errors + [BadSubject(index)]; }
    if !BehaviorOk(Field(c, "expectedBehavior")) { errors := errors + [BadBehavior(index)]; }
    var found := ValidateConcepts(index, Field(c, "expectedConceptIds"), concepts, Field(c, "expectedBehavior"));
    errors := errors + found;
    if !Field(c, "documents").Array? {
      return errors + [DocumentsNotAnArray(index)];
    }
    found := ValidateDocuments(index, Field(c, "documents").items);
    errors := errors + found;
  }

  ghost predicate PrefixOk(cases: seq<Value>, concepts: set<string>, n: nat)
    requires n <= |cases|
  {
    && (forall i :: 0 <= i < n ==> CaseOk(cases[i], concepts))
    && (forall i, j :: 0 <= i < j < n ==> CaseId(cases[i]) != CaseId(cases[j]))
  }

  method ValidateCases(cases: seq<Value>, concepts: set<string>)
    returns (errors: seq<CaseError>, controls: nat, contested: nat)
    ensures errors == [] <==> PrefixOk(cases, concepts, |cases|)
    ensures controls == CountBehavior(cases, "no-candidate") && contested == CountBehavior(cases, "contested-candidate")
  {
    hide CaseOk, Field, CaseId;
    errors, controls, contested := [], 0, 0;
    var seen: set<string> := {};
    for index := 0 to |cases|
      invariant errors == [] <==> PrefixOk(cases, concepts, index)
      invariant errors == [] ==> forall s :: s in seen <==> exists i :: 0 <= i < index && CaseId(cases[i]) == s
      invariant controls == CountBehavior(cases[..index], "no-candidate")
      invariant contested == CountBehavior(cases[..index], "contested-candidate")
    {
      assert DropLast(cases[..index + 1]) == cases[..index] && Last(cases[..index + 1]) == cases[index];
      var c := cases[index];
      CaseIsObject(c, concepts);
      if !c.Object? {
        errors := errors + [CaseNotAnObject(index)];
        continue;
      }
      var id := CaseId(c);
      if id == "" || id in seen { errors := errors + [IdNotUnique(index)]; }
      seen := seen + {id};
      if Field(c, "expectedBehavior") == Text("no-candidate") { controls := controls + 1; }
      if Field(c, "expectedBehavior") == Text("contested-candidate") { contested := contested + 1; }
      var found := ValidateCase(index, c, concepts);
      errors := errors + found;
    }
    assert cases[..|cases|] == cases;
  }

  lemma CaseIsObject(c: Value, concepts: set<string>)
    ensures CaseOk(c, concepts) ==> c.Object? && CaseId(c) != ""
    ensures !c.Object? ==> forall name :: Field(c, name) == Undefined
  {
  }

  method ValidateHeader(packet: Value, isDate: string -> bool) returns (errors: seq<CaseError>)
    requires packet.Object?
    ensures errors == [] && Field(packet, "cases").Array? && |Field(packet, "cases").items| >= 20 <==>
            HeaderOk(packet, isDate)
  {
    hide Trim;
    errors := [];
    if Field(packet, "schemaVersion") != Number(1.0) { errors := errors + [BadSchemaVersion]; }
    var authorship := Field(packet, "authorship");
    if !authorship.Object? {
      errors := errors + [BadAuthorship];
    } else {
      if !Field(authorship, "author").Text? || Trim(Field(authorship, "author").s) == "" {
        errors := errors + [BadAuthor];
      }
      if !Field(authorship, "authoredAt").Text? || !isDate(Field(authorship, "authoredAt").s) {
        errors := errors + [BadDate];
      }
      if Field(authorship, "independentlyAuthored") != Bool(true) { errors := errors + [NotIndependent]; }
      if Field(authorship, "didNotInspectImplementation") != Bool(true) { errors := errors + [SawImplementation]; }
    }
  }

  /** `validateIndependentHypothesisCasePacket`: no error exactly for a packet in order. */
  method ValidateCasePacket(packet: Value, concepts: set<string>, isDate: string -> bool)
    returns (errors: seq<CaseError>)
    ensures errors == [] <==> PacketOk(packet, concepts, isDate)
  {
    hide CaseOk, AuthorshipOk, CaseId;
    if !packet.Object? {
      return [NotAnObject];
    }
    errors := ValidateHeader(packet, isDate);
    if !Field(packet, "cases").Array? || |Field(packet, "cases").items| < 20 {
      return errors + [TooFewCases];
    }
    var cases := Field(packet, "cases").items;
    var found, controls, contested := ValidateCases(cases, concepts);
    errors := errors + found;
    var minimum := MinimumControls(|cases|);
    if controls < minimum { errors := errors + [TooFewControls(minimum)]; }
    if contested < minimum { errors := errors + [TooFewContested(minimum)]; }
  }
}
