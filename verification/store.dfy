/**
  The test-suite / test-case store: two tables, `test_suites` and `test_cases`,
  held in memory as maps from row id to row. In `src/database.js` SQL is only
  the storage encoding; what is kept is its behaviour: fresh ids, whitelisted
  partial updates that refuse an empty patch, "some row changed" as the found
  flag, the owning suite's `updated_at` bump on every test-case mutation, and
  the filtered queries and counts.

  Timestamps are an abstract clock: every mutating call that writes
  CURRENT_TIMESTAMP first advances `clock` and stamps with its new value.
 */
module TestStore {
  import opened Values

  datatype Suite = Suite(id: int, name: Value, project: Value, description: Value, updatedAt: nat)

  datatype TestCase = TestCase(
    id: int,
    suiteId: int,
    description: Value,
    status: Value,
    priority: Value,
    category: Value,
    notes: Value,
    updatedAt: nat)

  /** One `[field, value]` pair of an update object, in the object's own order. */
  type Entry = (string, Value)

  const SUITE_FIELDS: seq<string> := ["name", "project", "description"]
  const CASE_FIELDS: seq<string> := ["status", "notes", "priority", "category", "description"]

  /**
    Status a new test case starts in. `addTestCase` writes no status, so this
    is the column default; `src/database.test.js` (lines 164 and 172)
    expects it to be 'pending'.
   */
  const DEFAULT_STATUS: Value := Text("pending")
  /** Priority `addTestCase` uses when the caller gives none. */
  const DEFAULT_PRIORITY: Value := Text("medium")

  // ---------------------------------------------------------------------------
  // Whitelisted partial updates

  /** The entries of `updates` whose field is whitelisted, in their order. */
  function Allowed(updates: seq<Entry>, allowed: seq<string>): (r: seq<Entry>)
    ensures forall e :: e in r <==> e in updates && e.0 in allowed
    ensures |r| <= |updates|
  {
    if updates == [] then []
    else
      var last := updates[|updates| - 1];
      Allowed(updates[..|updates| - 1], allowed) + (if last.0 in allowed then [last] else [])
  }

  /**
    The loop that builds the SET clause and its parameters: it keeps, in
    order, the entries whose field is whitelisted.
   */
  method CollectAllowed(updates: seq<Entry>, allowed: seq<string>) returns (kept: seq<Entry>)
    ensures kept == Allowed(updates, allowed)
  {
    kept := [];
    for i := 0 to |updates|
      invariant kept == Allowed(updates[..i], allowed)
    {
      assert updates[..i + 1][..i] == updates[..i];
      if updates[i].0 in allowed {
        kept := kept + [updates[i]];
      }
    }
    assert updates[..|updates|] == updates;
  }

  /** Whitelisting an update whose fields are all allowed keeps it whole. */
  lemma {:induction false} AllowedKeepsAll(updates: seq<Entry>, allowed: seq<string>)
    requires forall e :: e in updates ==> e.0 in allowed
    ensures Allowed(updates, allowed) == updates
  {
    if updates != [] {
      SplitLast(updates);
      AllowedKeepsAll(updates[..|updates| - 1], allowed);
    }
  }

  /** The value an update writes to `field`: that of its last entry for it. */
  function PatchValue(patch: seq<Entry>, field: string): Option<Value>
  {
    if patch == [] then None
    else if patch[|patch| - 1].0 == field then Some(patch[|patch| - 1].1)
    else PatchValue(patch[..|patch| - 1], field)
  }

  /** An update writes a field exactly when it has an entry for it, and then a value it was given. */
  lemma {:induction false} PatchValueIn(patch: seq<Entry>, field: string)
    ensures PatchValue(patch, field).Some? <==> exists e :: e in patch && e.0 == field
    ensures PatchValue(patch, field).Some? ==> (field, PatchValue(patch, field).value) in patch
  {
    if patch != [] {
      var prefix := patch[..|patch| - 1];
      PatchValueIn(prefix, field);
      SplitLast(patch);
    }
  }

  /** Whitelisting passes the values of allowed fields through and drops every other field. */
  lemma {:induction false} AllowedPatchValue(updates: seq<Entry>, allowed: seq<string>, field: string)
    ensures PatchValue(Allowed(updates, allowed), field) == if field in allowed then PatchValue(updates, field) else None
  {
    if updates != [] {
      var prefix := updates[..|updates| - 1];
      var last := updates[|updates| - 1];
      AllowedPatchValue(prefix, allowed, field);
      var r := Allowed(updates, allowed);
      if last.0 in allowed {
        assert r[..|r| - 1] == Allowed(prefix, allowed);
      } else {
        assert r == Allowed(prefix, allowed);
      }
    }
  }

  function SetSuiteColumn(s: Suite, e: Entry): Suite
  {
    if e.0 == "name" then s.(name := e.1)
    else if e.0 == "project" then s.(project := e.1)
    else if e.0 == "description" then s.(description := e.1)
    else s
  }

  /** `UPDATE test_suites SET f1 = v1, f2 = v2, ...` on one row. */
  function ApplyToSuite(s: Suite, patch: seq<Entry>): Suite
  {
    if patch == [] then s
    else SetSuiteColumn(ApplyToSuite(s, patch[..|patch| - 1]), patch[|patch| - 1])
  }

  /** Patched suite columns take the patch's values; the others, the id and the stamp are unchanged. */
  lemma {:induction false} ApplyToSuiteColumns(s: Suite, patch: seq<Entry>)
    ensures ApplyToSuite(s, patch).id == s.id
    ensures ApplyToSuite(s, patch).updatedAt == s.updatedAt
    ensures ApplyToSuite(s, patch).name == PatchValue(patch, "name").GetOr(s.name)
    ensures ApplyToSuite(s, patch).project == PatchValue(patch, "project").GetOr(s.project)
    ensures ApplyToSuite(s, patch).description == PatchValue(patch, "description").GetOr(s.description)
  {
    if patch != [] {
      ApplyToSuiteColumns(s, patch[..|patch| - 1]);
    }
  }

  function SetCaseColumn(c: TestCase, e: Entry): TestCase
  {
    if e.0 == "status" then c.(status := e.1)
    else if e.0 == "notes" then c.(notes := e.1)
    else if e.0 == "priority" then c.(priority := e.1)
    else if e.0 == "category" then c.(category := e.1)
    else if e.0 == "description" then c.(description := e.1)
    else c
  }

  /** `UPDATE test_cases SET f1 = v1, f2 = v2, ...` on one row. */
  function ApplyToCase(c: TestCase, patch: seq<Entry>): TestCase
  {
    if patch == [] then c
    else SetCaseColumn(ApplyToCase(c, patch[..|patch| - 1]), patch[|patch| - 1])
  }

  /** Patched case columns take the patch's values; the others, the ids and the stamp are unchanged. */
  lemma {:induction false} ApplyToCaseColumns(c: TestCase, patch: seq<Entry>)
    ensures ApplyToCase(c, patch).id == c.id
    ensures ApplyToCase(c, patch).suiteId == c.suiteId
    ensures ApplyToCase(c, patch).updatedAt == c.updatedAt
    ensures ApplyToCase(c, patch).status == PatchValue(patch, "status").GetOr(c.status)
    ensures ApplyToCase(c, patch).notes == PatchValue(patch, "notes").GetOr(c.notes)
    ensures ApplyToCase(c, patch).priority == PatchValue(patch, "priority").GetOr(c.priority)
    ensures ApplyToCase(c, patch).category == PatchValue(patch, "category").GetOr(c.category)
    ensures ApplyToCase(c, patch).description == PatchValue(patch, "description").GetOr(c.description)
  {
    if patch != [] {
      ApplyToCaseColumns(c, patch[..|patch| - 1]);
    }
  }

  /** `UPDATE test_suites SET updated_at = CURRENT_TIMESTAMP WHERE id = ?`. */
  function Touch(suites: map<int, Suite>, suiteId: int, stamp: nat): (r: map<int, Suite>)
    ensures r.Keys == suites.Keys
    ensures suiteId in suites ==> r[suiteId] == suites[suiteId].(updatedAt := stamp)
    ensures forall id :: id in suites && id != suiteId ==> r[id] == suites[id]
  {
    if suiteId in suites then suites[suiteId := suites[suiteId].(updatedAt := stamp)] else suites
  }

  // ---------------------------------------------------------------------------
  // Queries

  /** `SELECT * FROM test_suites WHERE id = ?`. */
  function GetTestSuite(suites: map<int, Suite>, id: int): (r: Option<Suite>)
    ensures r.Some? <==> id in suites
    ensures r.Some? ==> r.value == suites[id]
  {
    if id in suites then Some(suites[id]) else None
  }

  /** JavaScript truthiness of a filter argument: null, 0 and the empty string are false. */
  predicate IsTruthy(v: Value)
  {
    match v
    case Null => false
    case Text(t) => t != ""
    case Number(n) => n != 0.0
  }

  /** The ids of the cases of a suite. */
  function CasesOf(cases: map<int, TestCase>, suiteId: int): set<int>
  {
    set id | id in cases && cases[id].suiteId == suiteId
  }

  /** The ids of the cases of a suite that have the given status. */
  function WithStatus(cases: map<int, TestCase>, suiteId: int, status: string): set<int>
  {
    set id | id in cases && cases[id].suiteId == suiteId && cases[id].status == Text(status)
  }

  /** The ids of the cases of a suite that have the given priority. */
  function WithPriority(cases: map<int, TestCase>, suiteId: int, priority: string): set<int>
  {
    set id | id in cases && cases[id].suiteId == suiteId && cases[id].priority == Text(priority)
  }

  lemma SubsetCard(a: set<int>, b: set<int>)
    requires a <= b
    ensures |a| <= |b|
  {
    assert b == a + (b - a);
    assert a !! (b - a);
  }

  /** Five pairwise disjoint subsets of `t` count at most `|t|` elements together. */
  lemma DisjointCount(a: set<int>, b: set<int>, c: set<int>, d: set<int>, e: set<int>, t: set<int>)
    requires a !! b && a !! c && a !! d && a !! e && b !! c && b !! d && b !! e && c !! d && c !! e && d !! e
    requires a + b + c + d + e <= t
    ensures |a| + |b| + |c| + |d| + |e| <= |t|
  {
    assert |a + b| == |a| + |b|;
    assert |a + b + c| == |a + b| + |c|;
    assert |a + b + c + d| == |a + b + c| + |d|;
    assert |a + b + c + d + e| == |a + b + c + d| + |e|;
    SubsetCard(a + b + c + d + e, t);
  }

  /** The per-status counts of a suite never add up to more than its cases. */
  lemma StatusCountsWithin(cases: map<int, TestCase>, suiteId: int)
    ensures |WithStatus(cases, suiteId, "passed")| + |WithStatus(cases, suiteId, "failed")|
          + |WithStatus(cases, suiteId, "pending")| + |WithStatus(cases, suiteId, "blocked")|
          + |WithStatus(cases, suiteId, "skipped")| <= |CasesOf(cases, suiteId)|
  {
    DisjointCount(WithStatus(cases, suiteId, "passed"), WithStatus(cases, suiteId, "failed"),
                  WithStatus(cases, suiteId, "pending"), WithStatus(cases, suiteId, "blocked"),
                  WithStatus(cases, suiteId, "skipped"), CasesOf(cases, suiteId));
  }

  /** The per-priority counts of a suite never add up to more than its cases. */
  lemma PriorityCountsWithin(cases: map<int, TestCase>, suiteId: int)
    ensures |WithPriority(cases, suiteId, "critical")| + |WithPriority(cases, suiteId, "high")|
          + |WithPriority(cases, suiteId, "medium")| + |WithPriority(cases, suiteId, "low")|
          <= |CasesOf(cases, suiteId)|
  {
    DisjointCount(WithPriority(cases, suiteId, "critical"), WithPriority(cases, suiteId, "high"),
                  WithPriority(cases, suiteId, "medium"), WithPriority(cases, suiteId, "low"),
                  {}, CasesOf(cases, suiteId));
  }

  /** A row of `getTestSuites`: the suite and the counts of its cases by status. */
  datatype SuiteListing = SuiteListing(
    suite: Suite,
    totalCases: nat,
    passedCases: nat,
    failedCases: nat,
    pendingCases: nat,
    blockedCases: nat,
    skippedCases: nat)

  function Listing(suites: map<int, Suite>, cases: map<int, TestCase>, id: int): SuiteListing
    requires id in suites
  {
    SuiteListing(suites[id], |CasesOf(cases, id)|,
                 |WithStatus(cases, id, "passed")|, |WithStatus(cases, id, "failed")|,
                 |WithStatus(cases, id, "pending")|, |WithStatus(cases, id, "blocked")|,
                 |WithStatus(cases, id, "skipped")|)
  }

  /**
    `getTestSuites(project)`: every suite (filtered by project when the filter
    is truthy) with the counts of its cases. The DESC ordering on
    `updated_at` is not modelled: the result is keyed by id.
   */
  function GetTestSuites(suites: map<int, Suite>, cases: map<int, TestCase>, project: Value): (r: map<int, SuiteListing>)
    ensures forall id :: id in r <==> id in suites && (IsTruthy(project) ==> suites[id].project == project)
    ensures forall id :: id in r ==> r[id].suite == suites[id]
    ensures forall id :: id in r ==> r[id].totalCases == |CasesOf(cases, id)|
    ensures forall id :: id in r ==>
      && r[id].passedCases == |WithStatus(cases, id, "passed")|
      && r[id].failedCases == |WithStatus(cases, id, "failed")|
      && r[id].pendingCases == |WithStatus(cases, id, "pending")|
      && r[id].blockedCases == |WithStatus(cases, id, "blocked")|
      && r[id].skippedCases == |WithStatus(cases, id, "skipped")|
    ensures forall id :: id in r ==>
      r[id].passedCases + r[id].failedCases + r[id].pendingCases + r[id].blockedCases + r[id].skippedCases
        <= r[id].totalCases
  {
    forall id | id in suites {
      StatusCountsWithin(cases, id);
    }
    map id | id in suites && (IsTruthy(project) ==> suites[id].project == project) :: Listing(suites, cases, id)
  }

  /** `needle` sits in `hay` at offset `i`. */
  ghost predicate OccursAt(needle: string, hay: string, i: int)
  {
    0 <= i && i + |needle| <= |hay| && hay[i..i + |needle|] == needle
  }

  /** `needle` occurs in `hay` as a contiguous piece (SQL `LIKE '%needle%'` without wildcards). */
  function Occurs(needle: string, hay: string): (r: bool)
    ensures r <==> exists i :: OccursAt(needle, hay, i)
    decreases |hay|
  {
    if |needle| > |hay| then
      assert forall i :: !OccursAt(needle, hay, i);
      false
    else if hay[..|needle|] == needle then
      assert OccursAt(needle, hay, 0);
      true
    else
      var r := Occurs(needle, hay[1..]);
      assert forall j :: OccursAt(needle, hay[1..], j) <==> OccursAt(needle, hay, j + 1) by {
        forall j ensures OccursAt(needle, hay[1..], j) <==> OccursAt(needle, hay, j + 1) {
          if 0 <= j && j + |needle| <= |hay| - 1 {
            assert hay[1..][j..j + |needle|] == hay[j + 1..j + 1 + |needle|];
          }
        }
      }
      assert !OccursAt(needle, hay, 0);
      assert r ==> exists i :: OccursAt(needle, hay, i) by {
        if r {
          var j :| OccursAt(needle, hay[1..], j);
          assert OccursAt(needle, hay, j + 1);
        }
      }
      assert (exists i :: OccursAt(needle, hay, i)) ==> r by {
        if exists i :: OccursAt(needle, hay, i) {
          var i :| OccursAt(needle, hay, i);
          assert OccursAt(needle, hay[1..], i - 1);
        }
      }
      r
  }

  /** A column holding text in which `needle` occurs somewhere. */
  ghost predicate HasText(v: Value, needle: string)
  {
    v.Text? && exists i :: OccursAt(needle, v.text, i)
  }

  /** A column that holds text containing `needle`. */
  predicate Mentions(v: Value, needle: string)
  {
    v.Text? && Occurs(needle, v.text)
  }

  /**
    The criteria of `getTestCases`. Each applies only when truthy: an absent
    criterion, a suite id of 0 and an empty string select everything.
   */
  datatype CaseFilter = CaseFilter(
    suiteId: Option<int>,
    status: Option<string>,
    priority: Option<string>,
    category: Option<string>,
    search: Option<string>)

  predicate ActiveId(o: Option<int>) { o.Some? && o.value != 0 }
  predicate ActiveText(o: Option<string>) { o.Some? && o.value != "" }

  predicate Matches(c: TestCase, f: CaseFilter)
  {
    && (ActiveId(f.suiteId) ==> c.suiteId == f.suiteId.value)
    && (ActiveText(f.status) ==> c.status == Text(f.status.value))
    && (ActiveText(f.priority) ==> c.priority == Text(f.priority.value))
    && (ActiveText(f.category) ==> c.category == Text(f.category.value))
    && (ActiveText(f.search) ==> Mentions(c.description, f.search.value) || Mentions(c.notes, f.search.value))
  }

  /**
    `getTestCases(filters)`: exactly the cases that satisfy every active
    criterion. The `created_at` DESC ordering is not modelled.
   */
  function GetTestCases(cases: map<int, TestCase>, f: CaseFilter): (r: map<int, TestCase>)
    ensures forall id :: id in r ==> id in cases && r[id] == cases[id]
    ensures forall id :: id in r <==> (id in cases
      && (ActiveId(f.suiteId) ==> cases[id].suiteId == f.suiteId.value)
      && (ActiveText(f.status) ==> cases[id].status == Text(f.status.value))
      && (ActiveText(f.priority) ==> cases[id].priority == Text(f.priority.value))
      && (ActiveText(f.category) ==> cases[id].category == Text(f.category.value))
      && (ActiveText(f.search) ==> HasText(cases[id].description, f.search.value) || HasText(cases[id].notes, f.search.value)))
  {
    map id | id in cases && Matches(cases[id], f) :: cases[id]
  }

  /** With no active criterion every case is returned. */
  lemma NoCriteriaSelectsAll(cases: map<int, TestCase>, f: CaseFilter)
    requires !ActiveId(f.suiteId) && !ActiveText(f.status) && !ActiveText(f.priority)
    requires !ActiveText(f.category) && !ActiveText(f.search)
    ensures GetTestCases(cases, f) == cases
  {
  }

  /** Turning on one more criterion can only narrow the result. */
  lemma StatusCriterionNarrows(cases: map<int, TestCase>, f: CaseFilter, status: string)
    ensures GetTestCases(cases, f.(status := Some(status))).Keys <= GetTestCases(cases, f.(status := None)).Keys
  {
    var narrow, wide := GetTestCases(cases, f.(status := Some(status))), GetTestCases(cases, f.(status := None));
    forall id | id in narrow ensures id in wide {
    }
  }

  // ---------------------------------------------------------------------------
  // Summary

  /**
    `Math.round(part / total * 100)`, 0 when there is nothing to count, taken
    as exact rounding to the nearest integer with halves going up.
   */
  function RoundedPercent(part: nat, total: nat): (r: nat)
    ensures total == 0 ==> r == 0
    ensures total > 0 ==> 2 * total * r - total <= 200 * part < 2 * total * r + total
    ensures part <= total ==> r <= 100
  {
    if total == 0 then 0
    else
      var m := 2 * total;
      var r := (200 * part + total) / m;
      DivBounds(200 * part + total, m);
      assert m * r - total <= 200 * part < m * r + total;
      assert part <= total ==> r <= 100 by {
        if part <= total && r > 100 {
          MulMonotone(m, r, 101);
        }
      }
      r
  }

  lemma DivBounds(x: int, m: int)
    requires m > 0
    ensures m * (x / m) <= x < m * (x / m) + m
  {
  }

  lemma MulMonotone(a: nat, b: int, c: int)
    requires b >= c
    ensures a * b >= a * c
  {
  }

  datatype Summary = Summary(
    total: nat,
    passed: nat,
    failed: nat,
    pending: nat,
    blocked: nat,
    skipped: nat,
    critical: nat,
    high: nat,
    medium: nat,
    low: nat,
    completionPercentage: nat,
    passPercentage: nat)

  /** `getTestSummary(suiteId)`: counts by status and priority and the two percentages. */
  function GetTestSummary(cases: map<int, TestCase>, suiteId: int): (r: Summary)
    ensures r.total == |CasesOf(cases, suiteId)|
    ensures r.passed == |WithStatus(cases, suiteId, "passed")| && r.failed == |WithStatus(cases, suiteId, "failed")|
    ensures r.skipped == |WithStatus(cases, suiteId, "skipped")|
    ensures r.pending == |WithStatus(cases, suiteId, "pending")| && r.blocked == |WithStatus(cases, suiteId, "blocked")|
    ensures r.critical == |WithPriority(cases, suiteId, "critical")| && r.high == |WithPriority(cases, suiteId, "high")|
    ensures r.medium == |WithPriority(cases, suiteId, "medium")| && r.low == |WithPriority(cases, suiteId, "low")|
    ensures r.passed + r.failed + r.pending + r.blocked + r.skipped <= r.total
    ensures r.critical + r.high + r.medium + r.low <= r.total
    ensures r.total == 0 ==> r.completionPercentage == 0 && r.passPercentage == 0
    ensures r.completionPercentage <= 100 && r.passPercentage <= 100
    ensures r.total > 0 ==>
      2 * r.total * r.completionPercentage - r.total <= 200 * (r.passed + r.failed + r.skipped)
        < 2 * r.total * r.completionPercentage + r.total
    ensures r.total > 0 ==>
      2 * r.total * r.passPercentage - r.total <= 200 * r.passed < 2 * r.total * r.passPercentage + r.total
  {
    StatusCountsWithin(cases, suiteId);
    PriorityCountsWithin(cases, suiteId);
    var total := |CasesOf(cases, suiteId)|;
    var passed := |WithStatus(cases, suiteId, "passed")|;
    var failed := |WithStatus(cases, suiteId, "failed")|;
    var skipped := |WithStatus(cases, suiteId, "skipped")|;
    Summary(total, passed, failed,
            |WithStatus(cases, suiteId, "pending")|, |WithStatus(cases, suiteId, "blocked")|, skipped,
            |WithPriority(cases, suiteId, "critical")|, |WithPriority(cases, suiteId, "high")|,
            |WithPriority(cases, suiteId, "medium")|, |WithPriority(cases, suiteId, "low")|,
            RoundedPercent(passed + failed + skipped, total), RoundedPercent(passed, total))
  }

  // ---------------------------------------------------------------------------
  // The store

  class Store {
    var suites: map<int, Suite>
    var cases: map<int, TestCase>
    /** Largest id ever given to a suite (ids are never reused). */
    var lastSuiteId: nat
    /** Largest id ever given to a case. */
    var lastCaseId: nat
    /** The abstract CURRENT_TIMESTAMP. */
    var clock: nat

    ghost predicate Valid()
      reads this
    {
      && (forall id :: id in suites ==> 0 < id <= lastSuiteId && suites[id].id == id && suites[id].updatedAt <= clock)
      && (forall id :: id in cases ==> 0 < id <= lastCaseId && cases[id].id == id && cases[id].updatedAt <= clock)
    }

    constructor ()
      ensures Valid() && suites == map[] && cases == map[]
    {
      suites, cases := map[], map[];
      lastSuiteId, lastCaseId, clock := 0, 0, 0;
    }

    /** `createTestSuite(name, project, description)`: inserts a suite under a fresh id. */
    method CreateTestSuite(name: Value, project: Value, description: Value) returns (id: int)
      requires Valid()
      modifies this
      ensures Valid() && clock > old(clock)
      ensures id > 0 && id !in old(suites) && forall k :: k in old(suites) ==> k < id
      ensures GetTestSuite(suites, id) == Some(Suite(id, name, project, description, clock))
      ensures suites == old(suites)[id := Suite(id, name, project, description, clock)]
      ensures cases == old(cases) && lastSuiteId == id && lastCaseId == old(lastCaseId)
    {
      clock := clock + 1;
      lastSuiteId := lastSuiteId + 1;
      id := lastSuiteId;
      suites := suites[id := Suite(id, name, project, description, clock)];
    }

    /**
      `updateTestSuite(id, updates)`: writes the whitelisted fields (name,
      project, description) and bumps `updated_at`; an update with no
      whitelisted field is refused and changes nothing. The flag says whether
      a row was changed.
     */
    method UpdateTestSuite(id: int, updates: seq<Entry>) returns (r: Result<bool, Error>)
      requires Valid()
      modifies this
      ensures Valid() && cases == old(cases)
      ensures lastSuiteId == old(lastSuiteId) && lastCaseId == old(lastCaseId)
      ensures (forall e :: e in updates ==> e.0 !in SUITE_FIELDS) ==> r == Err(NoValidFields) && unchanged(this)
      ensures (exists e :: e in updates && e.0 in SUITE_FIELDS) ==>
        && r == Ok(id in old(suites))
        && clock > old(clock)
        && suites == if id in old(suites)
                     then old(suites)[id := ApplyToSuite(old(suites)[id], Allowed(updates, SUITE_FIELDS)).(updatedAt := clock)]
                     else old(suites)
    {
      var kept := CollectAllowed(updates, SUITE_FIELDS);
      if kept == [] {
        assert forall e :: e in updates ==> e.0 !in SUITE_FIELDS;
        return Err(NoValidFields);
      }
      assert kept[0] in kept;
      clock := clock + 1;
      if id in suites {
        ApplyToSuiteColumns(suites[id], kept);
        suites := suites[id := ApplyToSuite(suites[id], kept).(updatedAt := clock)];
        r := Ok(true);
      } else {
        r := Ok(false);
      }
    }

    /** `deleteTestSuite(id)`: removes the row; the flag says whether there was one. */
    method DeleteTestSuite(id: int) returns (found: bool)
      requires Valid()
      modifies this
      ensures Valid() && cases == old(cases) && clock == old(clock)
      ensures lastSuiteId == old(lastSuiteId) && lastCaseId == old(lastCaseId)
      ensures found == (id in old(suites))
      ensures suites == old(suites) - {id}
      ensures GetTestSuite(suites, id) == None
    {
      found := id in suites;
      suites := suites - {id};
    }

    /**
      `addTestCase(suiteId, description, priority, category)`: inserts a
      pending case under a fresh id, priority 'medium' and category null
      when the caller omits them, and bumps the suite's `updated_at`.
     */
    method AddTestCase(suiteId: int, description: Value, priority: Option<Value>, category: Option<Value>)
      returns (id: int)
      requires Valid()
      modifies this
      ensures Valid() && clock > old(clock)
      ensures id > 0 && id !in old(cases) && forall k :: k in old(cases) ==> k < id
      ensures cases == old(cases)[id := TestCase(id, suiteId, description, DEFAULT_STATUS,
                                                priority.GetOr(DEFAULT_PRIORITY), category.GetOr(Null), Null, clock)]
      ensures suites == Touch(old(suites), suiteId, clock)
      ensures lastCaseId == id && lastSuiteId == old(lastSuiteId)
      ensures suiteId in old(suites) ==> suites[suiteId].updatedAt > old(suites[suiteId].updatedAt)
    {
      clock := clock + 1;
      lastCaseId := lastCaseId + 1;
      id := lastCaseId;
      cases := cases[id := TestCase(id, suiteId, description, DEFAULT_STATUS,
                                    priority.GetOr(DEFAULT_PRIORITY), category.GetOr(Null), Null, clock)];
      suites := Touch(suites, suiteId, clock);
    }

    /**
      `updateTestCase(id, updates)`: writes the whitelisted fields (status,
      notes, priority, category, description) and bumps `updated_at` of the
      case and of its suite; an update with no whitelisted field is refused
      and changes nothing. The flag says whether a row was changed.
     */
    method UpdateTestCase(id: int, updates: seq<Entry>) returns (r: Result<bool, Error>)
      requires Valid()
      modifies this
      ensures Valid()
      ensures lastSuiteId == old(lastSuiteId) && lastCaseId == old(lastCaseId)
      ensures (forall e :: e in updates ==> e.0 !in CASE_FIELDS) ==> r == Err(NoValidFields) && unchanged(this)
      ensures (exists e :: e in updates && e.0 in CASE_FIELDS) ==>
        && r == Ok(id in old(cases))
        && clock > old(clock)
        && cases == (if id in old(cases)
                     then old(cases)[id := ApplyToCase(old(cases)[id], Allowed(updates, CASE_FIELDS)).(updatedAt := clock)]
                     else old(cases))
        && suites == (if id in old(cases) then Touch(old(suites), old(cases)[id].suiteId, clock) else old(suites))
    {
      var kept := CollectAllowed(updates, CASE_FIELDS);
      if kept == [] {
        assert forall e :: e in updates ==> e.0 !in CASE_FIELDS;
        return Err(NoValidFields);
      }
      assert kept[0] in kept;
      clock := clock + 1;
      if id in cases {
        ApplyToCaseColumns(cases[id], kept);
        var suiteId := cases[id].suiteId;
        cases := cases[id := ApplyToCase(cases[id], kept).(updatedAt := clock)];
        suites := Touch(suites, suiteId, clock);
        r := Ok(true);
      } else {
        r := Ok(false);
      }
    }

    /**
      `deleteTestCase(id)`: removes the row and, only when there was one,
      bumps its suite's `updated_at`.
     */
    method DeleteTestCase(id: int) returns (found: bool)
      requires Valid()
      modifies this
      ensures Valid()
      ensures lastSuiteId == old(lastSuiteId) && lastCaseId == old(lastCaseId)
      ensures found == (id in old(cases))
      ensures cases == old(cases) - {id}
      ensures !found ==> suites == old(suites) && clock == old(clock)
      ensures found ==> clock > old(clock) && suites == Touch(old(suites), old(cases)[id].suiteId, clock)
    {
      found := id in cases;
      if found {
        var suiteId := cases[id].suiteId;
        cases := cases - {id};
        clock := clock + 1;
        suites := Touch(suites, suiteId, clock);
      }
    }
  }
}
