/**
  Concrete runs of the store: the suite life cycle and the summary of a
  suite with one passed and one failed case, as the store's own tests
  exercise them.
 */
module StoreScenarios {
  import opened Values
  import opened TestStore

  /** Create a suite, rename it and move it to another project, then delete it. */
  method SuiteLifecycle() returns (created: Option<Suite>, updated: Option<Suite>, deleted: Option<Suite>)
    ensures created.Some? && created.value.name == Text("Login Tests") && created.value.project == Text("MyApp")
    ensures updated.Some? && updated.value.id == created.value.id
    ensures updated.value.name == Text("Updated Login Tests") && updated.value.project == Text("NewApp")
    ensures updated.value.description == created.value.description
    ensures deleted == None
  {
    var store := new Store();
    var suiteId := store.CreateTestSuite(Text("Login Tests"), Text("MyApp"), Null);
    created := GetTestSuite(store.suites, suiteId);
    var patch := [("name", Text("Updated Login Tests")), ("project", Text("NewApp"))];
    assert patch[0] in patch && patch[0].0 in SUITE_FIELDS;
    var r := store.UpdateTestSuite(suiteId, patch);
    assert Allowed(patch, SUITE_FIELDS) == patch by {
      AllowedKeepsAll(patch, SUITE_FIELDS);
    }
    ApplyToSuiteColumns(created.value, patch);
    updated := GetTestSuite(store.suites, suiteId);
    var found := store.DeleteTestSuite(suiteId);
    deleted := GetTestSuite(store.suites, suiteId);
  }

  /** `updateTestCase(id, { status })` on an existing case: only that case's status changes. */
  method MarkStatus(store: Store, id: int, status: string)
    requires store.Valid() && id in store.cases
    modifies store
    ensures store.Valid() && store.cases.Keys == old(store.cases.Keys)
    ensures store.cases[id] == old(store.cases[id]).(status := Text(status), updatedAt := store.clock)
    ensures forall k :: k in old(store.cases) && k != id ==> store.cases[k] == old(store.cases[k])
  {
    var patch := [("status", Text(status))];
    AllowedKeepsAll(patch, CASE_FIELDS);
    ApplyToCaseColumns(store.cases[id], patch);
    assert patch[0] in patch;
    var r := store.UpdateTestCase(id, patch);
  }

  /**
    Two cases, one high and one critical; the first passes and the second
    fails: the summary counts both, one passed, one failed, one of each
    priority, 100% complete and 50% passed.
   */
  method SummaryOfTwoCases() returns (s: Summary)
    ensures s.total == 2 && s.passed == 1 && s.failed == 1
    ensures s.critical == 1 && s.high == 1
    ensures s.completionPercentage == 100 && s.passPercentage == 50
  {
    var store := new Store();
    var suiteId := store.CreateTestSuite(Text("Login Tests"), Text("MyApp"), Null);
    var id1 := store.AddTestCase(suiteId, Text("Test 1"), Some(Text("high")), None);
    var id2 := store.AddTestCase(suiteId, Text("Test 2"), Some(Text("critical")), None);
    assert id1 != id2 && store.cases.Keys == {id1, id2};
    MarkStatus(store, id1, "passed");
    MarkStatus(store, id2, "failed");
    SummaryOfPassedAndFailed(store.cases, suiteId, id1, id2);
    s := GetTestSummary(store.cases, suiteId);
  }

  /** The counts behind `SummaryOfTwoCases`, on the final table. */
  lemma SummaryOfPassedAndFailed(cases: map<int, TestCase>, suiteId: int, id1: int, id2: int)
    requires id1 != id2 && cases.Keys == {id1, id2}
    requires cases[id1].suiteId == suiteId && cases[id2].suiteId == suiteId
    requires cases[id1].status == Text("passed") && cases[id1].priority == Text("high")
    requires cases[id2].status == Text("failed") && cases[id2].priority == Text("critical")
    ensures var s := GetTestSummary(cases, suiteId);
      && s.total == 2 && s.passed == 1 && s.failed == 1
      && s.critical == 1 && s.high == 1
      && s.completionPercentage == 100 && s.passPercentage == 50
  {
    assert CasesOf(cases, suiteId) == {id1, id2};
    assert WithStatus(cases, suiteId, "passed") == {id1};
    assert WithStatus(cases, suiteId, "failed") == {id2};
    assert WithStatus(cases, suiteId, "skipped") == {};
    assert WithPriority(cases, suiteId, "critical") == {id2};
    assert WithPriority(cases, suiteId, "high") == {id1};
  }
}
