/** Which retained records prove something about which attempt, by the identities they carry. */
module AttemptEvidence {
  import opened Common

  /** A JSON value; a number is kept as its printed form. */
  datatype Json =
    | JNull | JFlag(b: bool) | JNumber(printed: string) | JText(text: string)
    | JList(items: seq<Json>) | JObject(fields: seq<Field>)

  datatype Field = Field(key: string, value: Json)

  datatype Group = Attempt | Candidate | Publication | Integration | Window | Pr | Thread | Scope(key: string)

  /** One identity: a group and a value. A bundle is a set of them. */
  datatype Fact = Fact(group: Group, value: string)

  const ATTEMPT_KEYS := {"attempt_id", "semantic_attempt_id"}
  const CANDIDATE_KEYS := {
    "candidate_sha", "candidate_commit_sha", "reviewed_candidate_sha", "reviewed_head_sha", "run_head_sha",
    "repair_candidate_sha", "commit_sha"}
  const PUBLICATION_KEYS := {"publication_sha", "published_sha", "integrated_publication_sha"}
  const INTEGRATION_KEYS := {"integrated_sha", "merge_commit_sha"}
  const SCOPE_KEYS := {
    "base_sha", "reviewed_base_sha", "reviewed_default_base_sha", "default_base_sha", "repair_base_run_head_sha",
    "effective_revision", "parent_revision", "ticket_graph_revision", "candidate_tree", "candidate_tree_sha",
    "reviewed_candidate_tree", "expected_merge_tree"}
  const WINDOW_KEYS := {"window", "budget_window"}
  const THREAD_KEYS := {"reviewer_thread_id", "reported_thread_id", "requested_thread_id", "thread_id"}
  const NESTED_KEYS := {
    "acceptance_record", "candidate", "currentness_boundary", "deterministic_integration_record",
    "fallback_publication_receipt", "fallback_receipt", "pr", "review_budget", "publication",
    "required_checks_evidence", "review_identity", "semantic_attempt", "version"}
  const PUBLICATION_HEAD_KEYS := {"pr", "required_checks_evidence"}

  /** The groups that a key names; `head` is the group of a plain head in this object. */
  function Groups(key: string, head: Group): set<Group> {
    (if key in ATTEMPT_KEYS then {Attempt} else {})
    + (if key in CANDIDATE_KEYS then {Candidate} else {})
    + (if key in PUBLICATION_KEYS then {Publication} else {})
    + (if key in INTEGRATION_KEYS then {Integration} else {})
    + if key == "head_sha" then {head}
      else if key in SCOPE_KEYS then {Scope(key)}
      else if key in WINDOW_KEYS then {Window}
      else if key == "pr_number" then {Pr}
      else if key in THREAD_KEYS then {Thread}
      else {}
  }

  /** A text or a number stands for itself; flags, lists and objects are not identities. */
  function Scalars(v: Json): set<string> {
    match v
    case JText(text) => if text != "" then {text} else {}
    case JNumber(printed) => {printed}
    case _ => {}
  }

  function Lookup(fields: seq<Field>, key: string): Json {
    if fields == [] then JNull else if fields[0].key == key then fields[0].value else Lookup(fields[1..], key)
  }

  function HeadOf(key: string): Group {
    if key in PUBLICATION_HEAD_KEYS then Publication else Candidate
  }

  /** What one field says by itself. */
  function Said(f: Field, head: Group): set<Fact> {
    (set g, s | g in Groups(f.key, head) && s in Scalars(f.value) :: Fact(g, s))
    + if f.key == "pr" && f.value.JObject? then (set s | s in Scalars(Lookup(f.value.fields, "number")) :: Fact(Pr, s)) else {}
  }

  // ---- The declarative bundle ----

  /** A path of field positions that goes through nested records only. */
  predicate Path(v: Json, path: seq<nat>) {
    && v.JObject?
    && (path != [] ==>
          && path[0] < |v.fields| && v.fields[path[0]].key in NESTED_KEYS
          && Path(v.fields[path[0]].value, path[1..]))
  }

  /** The object at the end of a path. */
  function At(v: Json, path: seq<nat>): (r: Json)
    requires Path(v, path)
    ensures r.JObject?
  {
    if path == [] then v else At(v.fields[path[0]].value, path[1..])
  }

  /** The meaning of a plain head there: the last nested key decides. */
  function HeadAt(v: Json, path: seq<nat>, head: Group): Group
    requires Path(v, path)
  {
    if path == [] then head else HeadAt(v.fields[path[0]].value, path[1..], HeadOf(v.fields[path[0]].key))
  }

  predicate SaidAt(v: Json, head: Group, path: seq<nat>, i: nat, f: Fact) {
    Path(v, path) && i < |At(v, path).fields| && f in Said(At(v, path).fields[i], HeadAt(v, path, head))
  }

  /** `f` is said by some field of an object on an allowed path. */
  ghost predicate Declared(v: Json, head: Group, f: Fact) {
    exists path: seq<nat>, i: nat :: SaidAt(v, head, path, i, f)
  }

  /** Identities are declared by the object itself or by one of its nested records. */
  lemma DeclaredUnfolds(v: Json, head: Group, f: Fact)
    requires v.JObject?
    ensures Declared(v, head, f) <==>
              exists i :: 0 <= i < |v.fields| && FieldDeclares(v.fields[i], head, f)
  {
    if Declared(v, head, f) {
      var path: seq<nat>, i: nat :| SaidAt(v, head, path, i, f);
      if path == [] {
        assert FieldDeclares(v.fields[i], head, f);
      } else {
        var inner := v.fields[path[0]];
        assert SaidAt(inner.value, HeadOf(inner.key), path[1..], i, f);
        assert FieldDeclares(inner, head, f);
      }
    }
    if i :| 0 <= i < |v.fields| && FieldDeclares(v.fields[i], head, f) {
      if f in Said(v.fields[i], head) {
        assert SaidAt(v, head, [], i, f);
      } else {
        var inner := v.fields[i];
        var path: seq<nat>, k: nat :| SaidAt(inner.value, HeadOf(inner.key), path, k, f);
        var longer: seq<nat> := [i] + path;
        assert longer[1..] == path;
        assert SaidAt(v, head, longer, k, f);
      }
    }
  }

  ghost predicate FieldDeclares(field: Field, head: Group, f: Fact) {
    f in Said(field, head) || (field.key in NESTED_KEYS && Declared(field.value, HeadOf(field.key), f))
  }

  /** Collect a record's identities field by field, going into nested records. */
  method Bundle(v: Json, head: Group) returns (facts: set<Fact>)
    ensures forall f :: f in facts <==> Declared(v, head, f)
    decreases v
  {
    hide Said;
    facts := {};
    if !v.JObject? {
      NothingDeclared(v, head);
      return;
    }
    var i := 0;
    while i < |v.fields|
      invariant 0 <= i <= |v.fields|
      invariant forall f :: f in facts <==> exists k :: 0 <= k < i && FieldDeclares(v.fields[k], head, f)
    {
      ghost var before := facts;
      facts := facts + Said(v.fields[i], head);
      if v.fields[i].key in NESTED_KEYS {
        var nested := Bundle(v.fields[i].value, HeadOf(v.fields[i].key));
        facts := facts + nested;
      }
      assert forall f :: f in facts <==> f in before || FieldDeclares(v.fields[i], head, f);
      i := i + 1;
    }
    forall f ensures f in facts <==> Declared(v, head, f) {
      DeclaredUnfolds(v, head, f);
    }
  }

  lemma NothingDeclared(v: Json, head: Group)
    requires !v.JObject?
    ensures forall f :: !Declared(v, head, f)
  {
  }

  // ---- Merging ----

  ghost predicate DeclaredByOne(values: seq<Json>, f: Fact) {
    exists k :: 0 <= k < |values| && Declared(values[k], Candidate, f)
  }

  method Merge(values: seq<Json>) returns (facts: set<Fact>)
    ensures forall f :: f in facts <==> DeclaredByOne(values, f)
  {
    hide Declared;
    facts := {};
    for n := 0 to |values|
      invariant forall f :: f in facts <==> exists k :: 0 <= k < n && Declared(values[k], Candidate, f)
    {
      var more := Bundle(values[n], Candidate);
      facts := facts + more;
    }
  }

  /** Merging is a union: neither the order nor repetitions of the values matter. */
  lemma MergeIgnoresOrder(a: seq<Json>, b: seq<Json>, f: Fact)
    requires forall v :: v in a <==> v in b
    ensures DeclaredByOne(a, f) <==> DeclaredByOne(b, f)
  {
    if DeclaredByOne(a, f) {
      var k :| 0 <= k < |a| && Declared(a[k], Candidate, f);
      assert a[k] in b;
    }
    if DeclaredByOne(b, f) {
      var k :| 0 <= k < |b| && Declared(b[k], Candidate, f);
      assert b[k] in a;
    }
  }

  // ---- Matching ----

  function Values(facts: set<Fact>, g: Group): set<string> {
    set f | f in facts && f.group == g :: f.value
  }

  const SINGLE_GROUPS: set<Group> := (set key | key in SCOPE_KEYS :: Scope(key)) + {Window, Pr, Thread}

  predicate Agree(expected: set<string>, record: set<string>) {
    expected == {} || record == {} || expected * record != {}
  }

  /** The record names exactly this attempt's objects, and at least one of them. */
  predicate Proves(record: set<Fact>, expected: set<Fact>, attemptId: Option<string>) {
    && (Values(record, Attempt) != {} ==> attemptId.Some? && attemptId.value in Values(record, Attempt))
    && (forall g :: g in SINGLE_GROUPS ==>
          |Values(expected, g)| <= 1 && |Values(record, g)| <= 1 && Agree(Values(expected, g), Values(record, g)))
    && |Values(expected, Candidate)| <= 1 && |Values(record, Candidate)| <= 1
    && (Values(record, Candidate) != {} ==> Values(expected, Candidate) * Values(record, Candidate) != {})
    && Agree(Values(expected, Publication), Values(record, Publication))
    && Agree(Values(expected, Integration), Values(record, Integration))
    && (|| Values(record, Candidate) * Values(expected, Candidate) != {}
        || Values(record, Publication) * Values(expected, Publication) != {}
        || Values(record, Integration) * Values(expected, Integration) != {})
  }

  /** Compare a record with everything retained about an attempt, group by group, giving up at the first mismatch. */
  method Matches(isObservation: bool, value: Json, attemptId: Option<string>, retained: seq<Json>)
    returns (ok: bool, record: set<Fact>, expected: set<Fact>)
    ensures ok ==> forall f :: f in record <==> Declared(value, if isObservation then Publication else Candidate, f)
    ensures ok ==> forall f :: f in expected <==> DeclaredByOne(retained, f)
    ensures ok ==> Proves(record, expected, attemptId)
    ensures !ok ==> !exists r: set<Fact>, e: set<Fact> ::
              && (forall f :: f in r <==> Declared(value, if isObservation then Publication else Candidate, f))
              && (forall f :: f in e <==> DeclaredByOne(retained, f))
              && Proves(r, e, attemptId)
  {
    hide Declared;
    hide DeclaredByOne;
    record := Bundle(value, if isObservation then Publication else Candidate);
    expected := Merge(retained);
    ok := Compare(record, expected, attemptId);
    if !ok {
      forall r: set<Fact>, e: set<Fact> |
        && (forall f :: f in r <==> Declared(value, if isObservation then Publication else Candidate, f))
        && (forall f :: f in e <==> DeclaredByOne(retained, f))
        ensures !Proves(r, e, attemptId)
      {
        assert r == record && e == expected;
      }
    }
  }

  method Compare(record: set<Fact>, expected: set<Fact>, attemptId: Option<string>) returns (ok: bool)
    ensures ok == Proves(record, expected, attemptId)
  {
    var ids := Values(record, Attempt);
    if ids != {} && (attemptId.None? || attemptId.value !in ids) { return false; }
    var groups := SINGLE_GROUPS;
    while groups != {}
      invariant groups <= SINGLE_GROUPS
      invariant forall g :: g in SINGLE_GROUPS - groups ==>
                  |Values(expected, g)| <= 1 && |Values(record, g)| <= 1 && Agree(Values(expected, g), Values(record, g))
      decreases |groups|
    {
      var g :| g in groups;
      if |Values(expected, g)| > 1 || |Values(record, g)| > 1 { return false; }
      if !Agree(Values(expected, g), Values(record, g)) { return false; }
      groups := groups - {g};
    }
    var expectedCandidates, recordCandidates := Values(expected, Candidate), Values(record, Candidate);
    if |expectedCandidates| > 1 || |recordCandidates| > 1 { return false; }
    if recordCandidates != {} && expectedCandidates * recordCandidates == {} { return false; }
    if !Agree(Values(expected, Publication), Values(record, Publication)) { return false; }
    if !Agree(Values(expected, Integration), Values(record, Integration)) { return false; }
    ok := || recordCandidates * expectedCandidates != {}
          || Values(record, Publication) * Values(expected, Publication) != {}
          || Values(record, Integration) * Values(expected, Integration) != {};
  }

  /** A record that names a Candidate proves something only about attempts with exactly that Candidate. */
  lemma CandidateBinds(record: set<Fact>, expected: set<Fact>, attemptId: Option<string>)
    requires Proves(record, expected, attemptId) && Values(record, Candidate) != {}
    ensures |Values(record, Candidate)| == 1 && Values(expected, Candidate) == Values(record, Candidate)
  {
    var r, e := Values(record, Candidate), Values(expected, Candidate);
    var c :| c in r && c in e;
    SingletonIs(r, c);
    SingletonIs(e, c);
  }

  lemma SingletonIs(s: set<string>, c: string)
    requires c in s && |s| <= 1
    ensures s == {c}
  {
    var rest := s - {c};
    assert |rest| == |s| - 1;
    assert s == rest + {c};
  }

  /** So it can match two attempts only if both have that one Candidate. */
  lemma TwoAttemptsShareTheCandidate(record: set<Fact>, a: set<Fact>, aId: Option<string>, b: set<Fact>, bId: Option<string>)
    requires Values(record, Candidate) != {}
    requires Proves(record, a, aId) && Proves(record, b, bId)
    ensures Values(a, Candidate) == Values(b, Candidate) == Values(record, Candidate)
  {
    CandidateBinds(record, a, aId);
    CandidateBinds(record, b, bId);
  }
}
