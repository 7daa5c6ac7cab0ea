/**
  The `update_test_case` tool of the server: it validates its arguments in a
  fixed order, builds an update object from the arguments that are defined,
  and hands it to the store, turning "no row changed" into a not-found error.
  Values reach the store as the SQL driver binds them: null and undefined as
  NULL, booleans as 1 and 0, numbers and strings as themselves.
 */
module Tools {
  import opened Values
  import opened Validation
  import opened TestStore

  // ---------------------------------------------------------------------------
  // Binding JavaScript values to SQL parameters

  /** The values the driver binds as a scalar; arrays and objects never reach it here. */
  predicate Bindable(v: JsValue)
  {
    !v.Arr? && !v.Obj?
  }

  /**
    How the sqlite3 driver binds a scalar: `undefined` and `null` become
    NULL, a boolean becomes the integer 1 or 0, a number stays a number and
    a string becomes TEXT.
   */
  function ToValue(v: JsValue): (r: Value)
    requires Bindable(v)
    ensures r == Null <==> v == Undefined || v == JsNull
    ensures r.Text? <==> v.Str?
    ensures v.Str? ==> r.text == v.s
    ensures v.Num? ==> r == Number(v.n)
    ensures v.Bool? ==> r == Number(if v.b then 1.0 else 0.0)
  {
    match v
    case Undefined => Null
    case JsNull => Null
    case Bool(b) => Number(if b then 1.0 else 0.0)
    case Num(n) => Number(n)
    case Str(s) => Text(s)
  }

  /** An update object's entries, bound as SQL parameters. */
  function Bind(p: seq<(string, JsValue)>): (r: seq<Entry>)
    requires forall e :: e in p ==> Bindable(e.1)
    ensures |r| == |p|
    ensures forall i :: 0 <= i < |p| ==> r[i] == (p[i].0, ToValue(p[i].1))
  {
    if p == [] then [] else [(p[0].0, ToValue(p[0].1))] + Bind(p[1..])
  }

  /** No field occurs twice. */
  ghost predicate DistinctFields<V>(p: seq<(string, V)>)
  {
    forall i, j :: 0 <= i < j < |p| ==> p[i].0 != p[j].0
  }

  // ---------------------------------------------------------------------------
  // Building the update object

  /** `if (v !== undefined) updates[field] = v` on an update object without `field`. */
  function Put(u: seq<(string, JsValue)>, field: string, v: JsValue): seq<(string, JsValue)>
  {
    if v != Undefined then u + [(field, v)] else u
  }

  /** Setting a defined field adds exactly its entry, and keeps fields distinct when it is new. */
  lemma PutMembers(u: seq<(string, JsValue)>, field: string, v: JsValue)
    ensures forall e :: e in Put(u, field, v) <==> e in u || (v != Undefined && e == (field, v))
    ensures DistinctFields(u) && (forall e :: e in u ==> e.0 != field) ==> DistinctFields(Put(u, field, v))
  {
  }

  /** The update object of `updateTestCase`, its fields set in this order. */
  function UpdateFields(status: JsValue, notes: JsValue, priority: JsValue, category: JsValue, description: JsValue): seq<(string, JsValue)>
  {
    Put(Put(Put(Put(Put([], "status", status), "notes", notes), "priority", priority), "category", category), "description", description)
  }

  /** Each argument of the tool under the column it may update. */
  function Candidates(status: JsValue, notes: JsValue, priority: JsValue, category: JsValue, description: JsValue): seq<(string, JsValue)>
  {
    [("status", status), ("notes", notes), ("priority", priority), ("category", category), ("description", description)]
  }

  /** The update object never names a field twice. */
  lemma UpdateFieldsDistinct(status: JsValue, notes: JsValue, priority: JsValue, category: JsValue, description: JsValue)
    ensures DistinctFields(UpdateFields(status, notes, priority, category, description))
  {
    var u1 := Put([], "status", status);
    var u2 := Put(u1, "notes", notes);
    var u3 := Put(u2, "priority", priority);
    var u4 := Put(u3, "category", category);
    PutMembers([], "status", status);
    PutMembers(u1, "notes", notes);
    PutMembers(u2, "priority", priority);
    PutMembers(u3, "category", category);
    PutMembers(u4, "description", description);
    assert forall e :: e in u1 ==> e.0 == "status";
    assert forall e :: e in u2 ==> e.0 == "status" || e.0 == "notes";
    assert forall e :: e in u3 ==> e.0 == "status" || e.0 == "notes" || e.0 == "priority";
    assert forall e :: e in u4 ==> e.0 == "status" || e.0 == "notes" || e.0 == "priority" || e.0 == "category";
  }

  /** `u` holds exactly the entries of `c` whose value is defined. */
  ghost predicate KeepsDefined(u: seq<(string, JsValue)>, c: seq<(string, JsValue)>)
  {
    forall e :: e in u <==> e in c && e.1 != Undefined
  }

  /** Setting one more candidate keeps the update object exactly the defined candidates. */
  lemma PutKeepsDefined(u: seq<(string, JsValue)>, c: seq<(string, JsValue)>, field: string, v: JsValue)
    requires KeepsDefined(u, c)
    ensures KeepsDefined(Put(u, field, v), c + [(field, v)])
  {
    PutMembers(u, field, v);
  }

  /**
    The update object holds each defined argument under its own column name
    and nothing else; it is empty exactly when every argument is undefined.
   */
  lemma UpdateFieldsMembers(status: JsValue, notes: JsValue, priority: JsValue, category: JsValue, description: JsValue)
    ensures var u := UpdateFields(status, notes, priority, category, description);
      && KeepsDefined(u, Candidates(status, notes, priority, category, description))
      && (forall e :: e in u ==> e.0 in CASE_FIELDS)
      && (u == [] <==> status == notes == priority == category == description == Undefined)
  {
    var u1 := Put([], "status", status);
    var u2 := Put(u1, "notes", notes);
    var u3 := Put(u2, "priority", priority);
    var u4 := Put(u3, "category", category);
    var u := Put(u4, "description", description);
    var c1 := [("status", status)];
    var c2 := c1 + [("notes", notes)];
    var c3 := c2 + [("priority", priority)];
    var c4 := c3 + [("category", category)];
    var c := c4 + [("description", description)];
    PutKeepsDefined([], [], "status", status);
    PutKeepsDefined(u1, c1, "notes", notes);
    PutKeepsDefined(u2, c2, "priority", priority);
    PutKeepsDefined(u3, c3, "category", category);
    PutKeepsDefined(u4, c4, "description", description);
    assert c == Candidates(status, notes, priority, category, description);
    forall e | e in u ensures e.0 in CASE_FIELDS {
      assert e in c;
    }
    if u == [] {
      forall k | 0 <= k < 5 ensures c[k].1 == Undefined {
        assert c[k] !in u;
      }
    }
  }

  /** The five `if (x !== undefined) updates.x = x` statements. */
  method BuildUpdates(status: JsValue, notes: JsValue, priority: JsValue, category: JsValue, description: JsValue)
    returns (updates: seq<(string, JsValue)>)
    ensures updates == UpdateFields(status, notes, priority, category, description)
  {
    updates := [];
    if status != Undefined { updates := updates + [("status", status)]; }
    assert updates == Put([], "status", status);
    ghost var u1 := updates;
    if notes != Undefined { updates := updates + [("notes", notes)]; }
    assert updates == Put(u1, "notes", notes);
    ghost var u2 := updates;
    if priority != Undefined { updates := updates + [("priority", priority)]; }
    assert updates == Put(u2, "priority", priority);
    ghost var u3 := updates;
    if category != Undefined { updates := updates + [("category", category)]; }
    assert updates == Put(u3, "category", category);
    ghost var u4 := updates;
    if description != Undefined { updates := updates + [("description", description)]; }
    assert updates == Put(u4, "description", description);
  }

  // ---------------------------------------------------------------------------
  // Argument checks

  /** Every argument the tool may write can be bound as an SQL parameter. */
  predicate ArgsBindable(args: JsValue)
  {
    forall f :: f in CASE_FIELDS ==> Bindable(Prop(args, f))
  }

  /** Two validations in a row: the first failure wins. */
  function AndThen(first: Check, second: Check): (r: Check)
    ensures r.Pass? <==> first.Pass? && second.Pass?
    ensures first.Fail? ==> r == first
  {
    if first.Fail? then first else second
  }

  /**
    Destructuring `args`, then `validateId(id, 'Case ID')`, `validateStatus`,
    `validatePriority` and the three optional strings, in that order.
   */
  function CheckUpdateArgs(args: JsValue): (r: Check)
    ensures r.Pass? <==>
      && args != Undefined && args != JsNull
      && ValidateId(Prop(args, "id"), "Case ID").Pass?
      && ValidateStatus(Prop(args, "status")).Pass?
      && ValidatePriority(Prop(args, "priority")).Pass?
      && ValidateString(Prop(args, "notes"), "Notes", false).Pass?
      && ValidateString(Prop(args, "category"), "Category", false).Pass?
      && ValidateString(Prop(args, "description"), "Description", false).Pass?
    ensures r.Pass? ==> exists k :: k >= 1 && IsNumber(Prop(args, "id"), k)
    ensures r.Pass? ==> ArgsBindable(args)
    ensures (args == Undefined || args == JsNull) <==> r == Fail(NotDestructurable)
    // The first validator that fails decides the error.
    ensures args != Undefined && args != JsNull ==>
      var id, status, priority := Prop(args, "id"), Prop(args, "status"), Prop(args, "priority");
      var notes, category := Prop(args, "notes"), Prop(args, "category");
      if ValidateId(id, "Case ID").Fail? then r == Fail(InvalidId("Case ID"))
      else if ValidateStatus(status).Fail? then r == Fail(InvalidStatus(status))
      else if ValidatePriority(priority).Fail? then r == Fail(InvalidPriority(priority))
      else if ValidateString(notes, "Notes", false).Fail? then r == Fail(NotAString("Notes"))
      else if ValidateString(category, "Category", false).Fail? then r == Fail(NotAString("Category"))
      else r.Fail? ==> r == Fail(NotAString("Description"))
  {
    if args == Undefined || args == JsNull then Fail(NotDestructurable)
    else
      AndThen(ValidateId(Prop(args, "id"), "Case ID"),
      AndThen(ValidateStatus(Prop(args, "status")),
      AndThen(ValidatePriority(Prop(args, "priority")),
      AndThen(ValidateString(Prop(args, "notes"), "Notes", false),
      AndThen(ValidateString(Prop(args, "category"), "Category", false),
              ValidateString(Prop(args, "description"), "Description", false))))))
  }

  /** The row id of a validated `id` argument. */
  function CaseId(args: JsValue): (k: int)
    requires CheckUpdateArgs(args).Pass?
    ensures k >= 1 && IsNumber(Prop(args, "id"), k)
  {
    Prop(args, "id").n.Floor
  }

  /** An update object built from bindable arguments holds only bindable values. */
  lemma UpdateFieldsBindable(status: JsValue, notes: JsValue, priority: JsValue, category: JsValue, description: JsValue)
    requires Bindable(status) && Bindable(notes) && Bindable(priority) && Bindable(category) && Bindable(description)
    ensures forall e :: e in UpdateFields(status, notes, priority, category, description) ==> Bindable(e.1)
  {
    UpdateFieldsMembers(status, notes, priority, category, description);
  }

  /** The update object of bindable arguments, bound as SQL parameters. */
  function BoundFields(status: JsValue, notes: JsValue, priority: JsValue, category: JsValue, description: JsValue): seq<Entry>
    requires Bindable(status) && Bindable(notes) && Bindable(priority) && Bindable(category) && Bindable(description)
  {
    UpdateFieldsBindable(status, notes, priority, category, description);
    Bind(UpdateFields(status, notes, priority, category, description))
  }

  /** The bound update object the tool passes to the store. */
  function UpdatePatch(args: JsValue): seq<Entry>
    requires ArgsBindable(args)
  {
    BoundFields(Prop(args, "status"), Prop(args, "notes"), Prop(args, "priority"), Prop(args, "category"), Prop(args, "description"))
  }

  /** Every argument left undefined: the update object is empty. */
  predicate NoFieldGiven(args: JsValue)
  {
    forall f :: f in CASE_FIELDS ==> Prop(args, f) == Undefined
  }

  /** With no field twice, the value written to a field is the one entry for it. */
  lemma {:induction false} PatchValueDistinct(p: seq<Entry>, field: string, v: Value)
    requires DistinctFields(p) && (field, v) in p
    ensures PatchValue(p, field) == Some(v)
  {
    var prefix := p[..|p| - 1];
    if p[|p| - 1].0 != field {
      var i :| 0 <= i < |p| && p[i] == (field, v);
      assert i < |p| - 1 && prefix[i] == p[i];
      assert DistinctFields(prefix) by {
        forall i, j | 0 <= i < j < |prefix| ensures prefix[i].0 != prefix[j].0 {
          assert prefix[i] == p[i] && prefix[j] == p[j];
        }
      }
      PatchValueDistinct(prefix, field, v);
    } else {
      var i :| 0 <= i < |p| && p[i] == (field, v);
      assert i == |p| - 1;
    }
  }

  /** Binding keeps the one entry of a field, bound. */
  lemma BindPatchValueSome(u: seq<(string, JsValue)>, field: string, v: JsValue)
    requires forall e :: e in u ==> Bindable(e.1)
    requires DistinctFields(u) && (field, v) in u
    ensures PatchValue(Bind(u), field) == Some(ToValue(v))
  {
    var p := Bind(u);
    assert DistinctFields(p) by {
      forall i, j | 0 <= i < j < |p| ensures p[i].0 != p[j].0 {
        assert p[i].0 == u[i].0 && p[j].0 == u[j].0;
      }
    }
    var i :| 0 <= i < |u| && u[i] == (field, v);
    assert p[i] == (field, ToValue(v));
    PatchValueDistinct(p, field, ToValue(v));
  }

  /** Binding adds no field. */
  lemma BindPatchValueNone(u: seq<(string, JsValue)>, field: string)
    requires forall e :: e in u ==> Bindable(e.1)
    requires forall e :: e in u ==> e.0 != field
    ensures PatchValue(Bind(u), field) == None
  {
    var p := Bind(u);
    PatchValueIn(p, field);
    forall e | e in p ensures e.0 != field {
      var i :| 0 <= i < |p| && p[i] == e;
      assert u[i] in u;
    }
  }

  /**
    An update object built from distinct candidate fields, keeping those
    with a defined value: binding it writes each candidate's value when it is
    defined and nothing otherwise.
   */
  lemma CandidatePatchValue(u: seq<(string, JsValue)>, c: seq<(string, JsValue)>, k: nat)
    requires k < |c| && DistinctFields(c)
    requires KeepsDefined(u, c)
    requires DistinctFields(u) && forall e :: e in u ==> Bindable(e.1)
    ensures PatchValue(Bind(u), c[k].0) == if c[k].1 != Undefined then Some(ToValue(c[k].1)) else None
  {
    if c[k].1 != Undefined {
      assert c[k] in c;
      BindPatchValueSome(u, c[k].0, c[k].1);
    } else {
      forall e | e in u ensures e.0 != c[k].0 {
        var j :| 0 <= j < |c| && c[j] == e;
        assert j != k;
      }
      BindPatchValueNone(u, c[k].0);
    }
  }

  /** The five candidate columns are different columns. */
  lemma CandidatesDistinct(status: JsValue, notes: JsValue, priority: JsValue, category: JsValue, description: JsValue)
    ensures DistinctFields(Candidates(status, notes, priority, category, description))
  {
    var c := Candidates(status, notes, priority, category, description);
    forall i, j | 0 <= i < j < |c| ensures c[i].0 != c[j].0 {
      assert |c[i].0| != |c[j].0| || c[i].0[0] != c[j].0[0];
    }
  }

  /** What `CandidatePatchValue` needs of the update object and its candidates. */
  lemma UpdateFieldsShape(status: JsValue, notes: JsValue, priority: JsValue, category: JsValue, description: JsValue)
    requires Bindable(status) && Bindable(notes) && Bindable(priority) && Bindable(category) && Bindable(description)
    ensures var u, c := UpdateFields(status, notes, priority, category, description), Candidates(status, notes, priority, category, description);
      && DistinctFields(c) && KeepsDefined(u, c)
      && DistinctFields(u) && forall e :: e in u ==> Bindable(e.1)
  {
    var c := Candidates(status, notes, priority, category, description);
    UpdateFieldsMembers(status, notes, priority, category, description);
    UpdateFieldsDistinct(status, notes, priority, category, description);
    CandidatesDistinct(status, notes, priority, category, description);
    assert forall e :: e in c ==> Bindable(e.1);
  }

  /** The value the bound update object writes to the column of candidate `k`. */
  lemma UpdateFieldsPatchValueAt(status: JsValue, notes: JsValue, priority: JsValue, category: JsValue, description: JsValue, k: nat)
    requires Bindable(status) && Bindable(notes) && Bindable(priority) && Bindable(category) && Bindable(description)
    requires k < 5
    ensures var c := Candidates(status, notes, priority, category, description);
      PatchValue(BoundFields(status, notes, priority, category, description), c[k].0)
        == if c[k].1 != Undefined then Some(ToValue(c[k].1)) else None
  {
    UpdateFieldsShape(status, notes, priority, category, description);
    CandidatePatchValue(UpdateFields(status, notes, priority, category, description),
                        Candidates(status, notes, priority, category, description), k);
  }

  /**
    The bound update object writes every defined argument to the column of
    the same name, bound as the driver binds it, and leaves the column alone
    when its argument is undefined.
   */
  lemma UpdateFieldsPatchValue(status: JsValue, notes: JsValue, priority: JsValue, category: JsValue, description: JsValue)
    requires Bindable(status) && Bindable(notes) && Bindable(priority) && Bindable(category) && Bindable(description)
    ensures var p := BoundFields(status, notes, priority, category, description);
      && PatchValue(p, "status") == (if status != Undefined then Some(ToValue(status)) else None)
      && PatchValue(p, "notes") == (if notes != Undefined then Some(ToValue(notes)) else None)
      && PatchValue(p, "priority") == (if priority != Undefined then Some(ToValue(priority)) else None)
      && PatchValue(p, "category") == (if category != Undefined then Some(ToValue(category)) else None)
      && PatchValue(p, "description") == (if description != Undefined then Some(ToValue(description)) else None)
  {
    var c := Candidates(status, notes, priority, category, description);
    assert c[0] == ("status", status) && c[1] == ("notes", notes) && c[2] == ("priority", priority);
    assert c[3] == ("category", category) && c[4] == ("description", description);
    UpdateFieldsPatchValueAt(status, notes, priority, category, description, 0);
    UpdateFieldsPatchValueAt(status, notes, priority, category, description, 1);
    UpdateFieldsPatchValueAt(status, notes, priority, category, description, 2);
    UpdateFieldsPatchValueAt(status, notes, priority, category, description, 3);
    UpdateFieldsPatchValueAt(status, notes, priority, category, description, 4);
  }

  /** The tool's patch passes the store's whitelist unchanged. */
  lemma UpdatePatchAllowed(args: JsValue)
    requires ArgsBindable(args)
    ensures Allowed(UpdatePatch(args), CASE_FIELDS) == UpdatePatch(args)
    ensures UpdatePatch(args) == [] <==> NoFieldGiven(args)
  {
    var status, notes, priority, category, description :=
      Prop(args, "status"), Prop(args, "notes"), Prop(args, "priority"), Prop(args, "category"), Prop(args, "description");
    var u := UpdateFields(status, notes, priority, category, description);
    UpdateFieldsMembers(status, notes, priority, category, description);
    var p := UpdatePatch(args);
    forall e | e in p ensures e.0 in CASE_FIELDS {
      var i :| 0 <= i < |p| && p[i] == e;
      assert u[i] in u;
    }
    AllowedKeepsAll(p, CASE_FIELDS);
  }

  /** The case row after a successful update at time `stamp`. */
  function Updated(c: TestCase, args: JsValue, stamp: nat): TestCase
    requires ArgsBindable(args)
  {
    ApplyToCase(c, UpdatePatch(args)).(updatedAt := stamp)
  }

  /** Applying the bound update object: each column takes its argument when defined. */
  lemma BoundFieldsColumns(c: TestCase, status: JsValue, notes: JsValue, priority: JsValue, category: JsValue, description: JsValue)
    requires Bindable(status) && Bindable(notes) && Bindable(priority) && Bindable(category) && Bindable(description)
    ensures var a := ApplyToCase(c, BoundFields(status, notes, priority, category, description));
      && a.id == c.id && a.suiteId == c.suiteId && a.updatedAt == c.updatedAt
      && a.status == (if status != Undefined then ToValue(status) else c.status)
      && a.notes == (if notes != Undefined then ToValue(notes) else c.notes)
      && a.priority == (if priority != Undefined then ToValue(priority) else c.priority)
      && a.category == (if category != Undefined then ToValue(category) else c.category)
      && a.description == (if description != Undefined then ToValue(description) else c.description)
  {
    var p := BoundFields(status, notes, priority, category, description);
    ApplyToCaseColumns(c, p);
    UpdateFieldsPatchValue(status, notes, priority, category, description);
  }

  /**
    A successful update sets each column to its argument when that argument
    is defined and leaves it alone otherwise; the ids never change.
   */
  lemma UpdatedColumns(c: TestCase, args: JsValue, stamp: nat)
    requires ArgsBindable(args)
    ensures var u := Updated(c, args, stamp);
      && u.id == c.id && u.suiteId == c.suiteId && u.updatedAt == stamp
      && u.status == (if Prop(args, "status") != Undefined then ToValue(Prop(args, "status")) else c.status)
      && u.notes == (if Prop(args, "notes") != Undefined then ToValue(Prop(args, "notes")) else c.notes)
      && u.priority == (if Prop(args, "priority") != Undefined then ToValue(Prop(args, "priority")) else c.priority)
      && u.category == (if Prop(args, "category") != Undefined then ToValue(Prop(args, "category")) else c.category)
      && u.description == (if Prop(args, "description") != Undefined then ToValue(Prop(args, "description")) else c.description)
  {
    var status, notes, priority, category, description :=
      Prop(args, "status"), Prop(args, "notes"), Prop(args, "priority"), Prop(args, "category"), Prop(args, "description");
    assert UpdatePatch(args) == BoundFields(status, notes, priority, category, description);
    BoundFieldsColumns(c, status, notes, priority, category, description);
  }

  /** The decimal digits of `n`, as JavaScript prints an integral number. */
  function Decimal(n: nat): string
  {
    var digit := "0123456789"[n % 10];
    if n < 10 then [digit] else Decimal(n / 10) + [digit]
  }

  /** The tool's result object. */
  function SuccessPayload(k: int): JsValue
    requires k >= 1
  {
    Obj(map["success" := Bool(true), "message" := Str("Test case " + Decimal(k) + " updated successfully")])
  }

  /**
    The `update_test_case` tool. A failed validation or an empty update
    throws and leaves the store alone; otherwise the store runs the update,
    and an id with no row is reported as not found.
   */
  method UpdateTestCaseTool(store: Store, args: JsValue) returns (r: Result<JsValue, Error>)
    requires store.Valid()
    modifies store
    ensures store.Valid()
    ensures store.lastSuiteId == old(store.lastSuiteId) && store.lastCaseId == old(store.lastCaseId)
    ensures CheckUpdateArgs(args).Fail? ==> r == Err(CheckUpdateArgs(args).error) && unchanged(store)
    ensures CheckUpdateArgs(args).Pass? && NoFieldGiven(args) ==> r == Err(NoValidFields) && unchanged(store)
    ensures CheckUpdateArgs(args).Pass? && !NoFieldGiven(args) ==>
      var k := CaseId(args);
      && store.clock > old(store.clock)
      && (k in old(store.cases) ==>
            && r == Ok(SuccessPayload(k))
            && store.cases == old(store.cases)[k := Updated(old(store.cases)[k], args, store.clock)]
            && store.suites == Touch(old(store.suites), old(store.cases)[k].suiteId, store.clock))
      && (k !in old(store.cases) ==>
            r == Err(CaseNotFound(Prop(args, "id"))) && store.cases == old(store.cases) && store.suites == old(store.suites))
  {
    var check := CheckUpdateArgs(args);
    if check.Fail? {
      return Err(check.error);
    }
    var id := Prop(args, "id");
    var updates := BuildUpdates(Prop(args, "status"), Prop(args, "notes"), Prop(args, "priority"), Prop(args, "category"), Prop(args, "description"));
    UpdateFieldsBindable(Prop(args, "status"), Prop(args, "notes"), Prop(args, "priority"), Prop(args, "category"), Prop(args, "description"));
    var patch := Bind(updates);
    assert patch == UpdatePatch(args);
    UpdatePatchAllowed(args);
    if patch == [] {
      assert forall e :: e in patch ==> e.0 !in CASE_FIELDS;
    } else {
      assert patch[0] in Allowed(patch, CASE_FIELDS);
    }
    var k := CaseId(args);
    var success := store.UpdateTestCase(k, patch);
    match success
    case Err(e) =>
      r := Err(e);
    case Ok(changed) =>
      if !changed {
        r := Err(CaseNotFound(id));
      } else {
        r := Ok(SuccessPayload(k));
      }
  }
}
