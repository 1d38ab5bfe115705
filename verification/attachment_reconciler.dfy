/** Planning attachment manifests: for every intake attachment, insert a manifest row unless one with
    the same five-column identity exists. */
module AttachmentReconciler {
  import opened Options

  datatype Identity = Identity(connection: int, project: string, sourceType: string, item: string, attachment: string)

  datatype IntakeRecord = IntakeRecord(
    id: int, syncRun: int, connection: int, sourceType: string, project: string, item: string)

  datatype IntakeAttachment = IntakeAttachment(
    record: IntakeRecord, attachment: string, filename: string, contentType: Option<string>)

  datatype Status = Planned | Downloaded | Skipped | Failed

  /** A row of the manifest table; four of the five identity columns may be NULL. */
  datatype Row = Row(
    connection: Option<int>, project: Option<string>, sourceType: string, item: Option<string>,
    attachment: Option<string>,
    record: Option<int>, syncRun: Option<int>, filename: string, storageKey: string, status: Status)

  /** `plan_attachment_storage` and the filename sanitizer, left arbitrary: None stands for a raise. */
  datatype StoragePlan = StoragePlan(filename: string, storageKey: string)

  type Planner = IntakeAttachment -> Option<StoragePlan>

  function IdentityOf(a: IntakeAttachment): Identity {
    Identity(a.record.connection, a.record.project, a.record.sourceType, a.record.item, a.attachment)
  }

  function IdentitySet(intake: seq<IntakeAttachment>): set<Identity> {
    set a | a in intake :: IdentityOf(a)
  }

  // ----- Rows and their identities

  /** The WHERE clause of the lookup: a NULL column equals nothing. */
  predicate Matches(row: Row, id: Identity) {
    && row.connection == Some(id.connection) && row.project == Some(id.project) && row.sourceType == id.sourceType
    && row.item == Some(id.item) && row.attachment == Some(id.attachment)
  }

  predicate Has(rows: seq<Row>, id: Identity) {
    exists k :: 0 <= k < |rows| && Matches(rows[k], id)
  }

  predicate IsComplete(row: Row) {
    row.connection.Some? && row.project.Some? && row.item.Some? && row.attachment.Some?
  }

  function RowIdentity(row: Row): Identity
    requires IsComplete(row)
  {
    Identity(row.connection.value, row.project.value, row.sourceType, row.item.value, row.attachment.value)
  }

  function Identities(rows: seq<Row>): set<Identity> {
    set row | row in rows && IsComplete(row) :: RowIdentity(row)
  }

  /** The table's unique constraint over the five columns; rows with a NULL among them never clash. */
  predicate Unique(rows: seq<Row>) {
    forall i, j :: 0 <= i < j < |rows| && IsComplete(rows[i]) && IsComplete(rows[j]) ==>
      RowIdentity(rows[i]) != RowIdentity(rows[j])
  }

  lemma HasIffIdentity(rows: seq<Row>, id: Identity)
    ensures Has(rows, id) <==> id in Identities(rows)
  {
    if Has(rows, id) {
      var k :| 0 <= k < |rows| && Matches(rows[k], id);
      assert rows[k] in rows && IsComplete(rows[k]) && RowIdentity(rows[k]) == id;
    }
    if id in Identities(rows) {
      var row :| row in rows && IsComplete(row) && RowIdentity(row) == id;
      var k :| 0 <= k < |rows| && rows[k] == row;
      assert Matches(rows[k], id);
    }
  }

  // ----- One insertion

  /** The field constraints of the plan request. */
  predicate IsValidRequest(a: IntakeAttachment) {
    && a.record.sourceType in {"rfi", "submittal", "unknown"}
    && 1 <= |a.filename| <= 500
    && (a.contentType.Some? ==> |a.contentType.value| <= 200)
  }

  predicate IsPlannable(a: IntakeAttachment, plan: Planner) {
    IsValidRequest(a) && plan(a).Some?
  }

  function Filled(a: IntakeAttachment, plan: StoragePlan, status: Status): Row {
    Row(Some(a.record.connection), Some(a.record.project), a.record.sourceType, Some(a.record.item), Some(a.attachment),
        Some(a.record.id), Some(a.record.syncRun), plan.filename, plan.storageKey, status)
  }

  /** What the columns of a row say about the attachment it is planned for. */
  predicate HasColumns(row: Row, a: IntakeAttachment, plan: StoragePlan) {
    && row.connection == Some(a.record.connection) && row.project == Some(a.record.project)
    && row.sourceType == a.record.sourceType && row.item == Some(a.record.item)
    && row.attachment == Some(a.attachment)
    && row.record == Some(a.record.id) && row.syncRun == Some(a.record.syncRun)
    && row.filename == plan.filename && row.storageKey == plan.storageKey
  }

  // ----- The whole run, as a function

  datatype Run = Done(rows: seq<Row>, created: nat) | Aborted

  function Reconcile(rows: seq<Row>, intake: seq<IntakeAttachment>, plan: Planner): Run
    decreases |intake|
  {
    if intake == [] then Done(rows, 0)
    else if Has(rows, IdentityOf(intake[0])) then Reconcile(rows, intake[1..], plan)
    else if !IsPlannable(intake[0], plan) then Aborted
    else
      match Reconcile(rows + [Filled(intake[0], plan(intake[0]).value, Planned)], intake[1..], plan)
      case Aborted => Aborted
      case Done(after, created) => Done(after, created + 1)
  }

  // ----- The session and the loop

  datatype Creation = Created | Updated | Rejected | Conflict

  class Session {
    var committed: seq<Row>
    var rows: seq<Row>                 // what selects in this session see
    ghost var known: set<Identity>     // the complete identities among them

    ghost predicate Valid()
      reads this
    {
      Unique(committed) && Unique(rows) && known == Identities(rows)
    }

    constructor (table: seq<Row>)
      requires Unique(table)
      ensures Valid() && committed == table && rows == table
    {
      committed, rows, known := table, table, Identities(table);
    }

    method FindExisting(id: Identity) returns (index: Option<nat>)
      requires Valid()
      ensures index.Some? <==> id in known
      ensures index.Some? ==> index.value < |rows| && Matches(rows[index.value], id)
    {
      HasIffIdentity(rows, id);
      if k: nat :| k < |rows| && Matches(rows[k], id) {
        return Some(k);
      }
      return None;
    }

    /** Looks the identity up once more, then inserts a row or refills the one found; the flush
        checks the unique constraint. */
    method CreateManifestRecord(a: IntakeAttachment, plan: Planner) returns (creation: Creation)
      requires Valid()
      modifies this`rows, this`known
      ensures Valid()
      ensures creation == Rejected <==>
                || a.record.sourceType !in {"rfi", "submittal", "unknown"} || a.filename == "" || |a.filename| > 500
                || (a.contentType.Some? && |a.contentType.value| > 200) || plan(a).None?
      ensures creation != Rejected ==> creation == if IdentityOf(a) in old(known) then Updated else Created
      ensures creation == Rejected ==> rows == old(rows)
      ensures creation == Created ==>
                && |rows| == |old(rows)| + 1 && rows[..|old(rows)|] == old(rows)
                && HasColumns(rows[|old(rows)|], a, plan(a).value) && rows[|old(rows)|].status == Planned
      ensures creation == Updated ==>
                && known == old(known) && |rows| == |old(rows)|
                && exists k ::
                     && 0 <= k < |rows| && Matches(old(rows)[k], IdentityOf(a)) && HasColumns(rows[k], a, plan(a).value)
                     && (if old(rows)[k].status == Downloaded then rows[k].status == Downloaded
                         else rows[k].status == Planned)
                     && rows == old(rows)[k := rows[k]]
    {
      if !IsPlannable(a, plan) {
        return Rejected;
      }
      var existing := FindExisting(IdentityOf(a));
      var planned := plan(a).value;
      match existing {
        case Some(k) =>
          var status := if rows[k].status == Downloaded then Downloaded else Planned;
          RefillKeepsIdentities(rows, k, Filled(a, planned, status));
          ghost var before := rows;
          rows := rows[k := Filled(a, planned, status)];
          assert Matches(before[k], IdentityOf(a)) && HasColumns(rows[k], a, planned);
          creation := Updated;
        case None =>
          HasIffIdentity(rows, IdentityOf(a));
          InsertAddsIdentity(rows, a, planned);
          rows := rows + [Filled(a, planned, Planned)];
          known := known + {IdentityOf(a)};
          creation := Created;
      }
      if !Unique(rows) {
        creation := Conflict;
      }
    }

    method PlanAttachmentsForIntake(intake: seq<IntakeAttachment>, plan: Planner) returns (run: Run)
      requires Valid() && rows == committed
      modifies this
      ensures Valid() && rows == committed
      ensures run == Reconcile(old(rows), intake, plan)
      ensures committed == if run.Done? then run.rows else old(committed)
    {
      hide HasColumns, Filled, Matches, Unique, Identities;
      var created := 0;
      var i := 0;
      while i < |intake|
        invariant 0 <= i <= |intake|
        invariant Valid() && committed == old(committed)
        invariant Reconcile(old(rows), intake, plan) ==
          match Reconcile(rows, intake[i..], plan)
          case Aborted => Aborted
          case Done(after, more) => Done(after, created + more)
      {
        var metadata := intake[i];
        i := i + 1;
        HasIffIdentity(rows, IdentityOf(metadata));
        var existing := FindExisting(IdentityOf(metadata));
        if existing.Some? {
          continue;
        }
        ghost var before := rows;
        var creation := CreateManifestRecord(metadata, plan);
        if creation == Created {
          ColumnsFill(before, rows, metadata, plan(metadata).value);
        }
        if creation != Created {
          rows, known := committed, Identities(committed);
          return Aborted;
        }
        created := created + 1;
      }
      committed := rows;
      return Done(rows, created);
    }
  }

  lemma InsertAddsIdentity(rows: seq<Row>, a: IntakeAttachment, plan: StoragePlan)
    requires !Has(rows, IdentityOf(a))
    ensures Unique(rows) ==> Unique(rows + [Filled(a, plan, Planned)])
    ensures Identities(rows + [Filled(a, plan, Planned)]) == Identities(rows) + {IdentityOf(a)}
  {
    var row := Filled(a, plan, Planned);
    forall i | 0 <= i < |rows| && IsComplete(rows[i]) ensures RowIdentity(rows[i]) != IdentityOf(a) {
      assert !Matches(rows[i], IdentityOf(a));
    }
    assert forall r :: r in rows + [row] <==> r in rows || r == row;
    assert row in rows + [row] && IsComplete(row) && RowIdentity(row) == IdentityOf(a);
  }

  lemma RefillKeepsIdentities(rows: seq<Row>, k: nat, row: Row)
    requires Unique(rows) && k < |rows| && IsComplete(rows[k])
    requires IsComplete(row) && RowIdentity(row) == RowIdentity(rows[k])
    ensures Unique(rows[k := row]) && Identities(rows[k := row]) == Identities(rows)
  {
    var after := rows[k := row];
    forall id ensures id in Identities(after) <==> id in Identities(rows) {
      HasIffIdentity(after, id);
      HasIffIdentity(rows, id);
      assert forall j :: 0 <= j < |rows| ==> (Matches(after[j], id) <==> Matches(rows[j], id));
    }
  }

  lemma ColumnsFill(before: seq<Row>, after: seq<Row>, a: IntakeAttachment, plan: StoragePlan)
    requires |after| == |before| + 1 && after[..|before|] == before
    requires HasColumns(after[|before|], a, plan) && after[|before|].status == Planned
    ensures after == before + [Filled(a, plan, Planned)]
  {
  }

  // ----- What a run achieves

  /** Attachment i is the first of its identity that the table does not have yet. */
  predicate Needed(rows: seq<Row>, intake: seq<IntakeAttachment>, i: nat)
    requires i < |intake|
  {
    && !Has(rows, IdentityOf(intake[i]))
    && forall j :: 0 <= j < i ==> IdentityOf(intake[j]) != IdentityOf(intake[i])
  }

  lemma HasAfterInsert(rows: seq<Row>, row: Row, id: Identity)
    ensures Has(rows + [row], id) <==> Has(rows, id) || Matches(row, id)
  {
    var after := rows + [row];
    if Has(rows, id) {
      var k :| 0 <= k < |rows| && Matches(rows[k], id);
      assert Matches(after[k], id);
    }
    if Matches(row, id) {
      assert Matches(after[|rows|], id);
    }
  }

  /** How "needed" carries over to the rest of the list once its head is dealt with. */
  lemma NeededInRest(rows: seq<Row>, intake: seq<IntakeAttachment>, plan: StoragePlan, i: nat)
    requires 0 < i < |intake|
    ensures Has(rows, IdentityOf(intake[0])) ==>
      (Needed(rows, intake, i) <==> Needed(rows, intake[1..], i - 1))
    ensures Needed(rows, intake, i) <==>
      Needed(rows + [Filled(intake[0], plan, Planned)], intake[1..], i - 1)
  {
    HasAfterInsert(rows, Filled(intake[0], plan, Planned), IdentityOf(intake[i]));
    assert forall j :: 0 < j < |intake| ==> intake[1..][j - 1] == intake[j];
    assert forall j :: 0 <= j < |intake| - 1 ==> intake[1..][j] == intake[j + 1];
  }

  /** A run stops before it commits exactly when an attachment that it needs a row for cannot be planned. */
  lemma {:induction false} RunAbortsIff(rows: seq<Row>, intake: seq<IntakeAttachment>, plan: Planner)
    ensures Reconcile(rows, intake, plan).Aborted? <==>
      exists i: nat :: i < |intake| && Needed(rows, intake, i) && !IsPlannable(intake[i], plan)
    decreases |intake|
  {
    if intake != [] {
      var head, rest := intake[0], intake[1..];
      if Has(rows, IdentityOf(head)) {
        RunAbortsIff(rows, rest, plan);
        NeededShifts(rows, rows, intake, plan);
      } else if IsPlannable(head, plan) {
        var next := rows + [Filled(head, plan(head).value, Planned)];
        RunAbortsIff(next, rest, plan);
        NeededShifts(rows, next, intake, plan);
      } else {
        assert Needed(rows, intake, 0);
      }
    }
  }

  lemma NeededShifts(rows: seq<Row>, next: seq<Row>, intake: seq<IntakeAttachment>, plan: Planner)
    requires intake != []
    requires if Has(rows, IdentityOf(intake[0])) then next == rows
      else IsPlannable(intake[0], plan) && next == rows + [Filled(intake[0], plan(intake[0]).value, Planned)]
    ensures (exists i: nat :: i < |intake| && Needed(rows, intake, i) && !IsPlannable(intake[i], plan)) <==>
      exists i: nat :: i < |intake[1..]| && Needed(next, intake[1..], i) && !IsPlannable(intake[1..][i], plan)
  {
    var anyPlan := StoragePlan("", "");
    forall i: nat | 0 < i < |intake| ensures Needed(rows, intake, i) <==> Needed(next, intake[1..], i - 1) {
      NeededInRest(rows, intake, if plan(intake[0]).Some? then plan(intake[0]).value else anyPlan, i);
    }
    if i: nat :| i < |intake[1..]| && Needed(next, intake[1..], i) && !IsPlannable(intake[1..][i], plan) {
      assert Needed(rows, intake, i + 1);
    }
    if i: nat :| i < |intake| && Needed(rows, intake, i) && !IsPlannable(intake[i], plan) {
      assert Needed(next, intake[1..], i - 1);
    }
  }

  lemma IdentitySetOfHead(intake: seq<IntakeAttachment>)
    requires intake != []
    ensures IdentitySet(intake) == {IdentityOf(intake[0])} + IdentitySet(intake[1..])
  {
    assert forall a :: a in intake <==> a == intake[0] || a in intake[1..];
  }

  lemma {:induction false} RunAppends(rows: seq<Row>, intake: seq<IntakeAttachment>, plan: Planner)
    requires Reconcile(rows, intake, plan).Done?
    ensures var run := Reconcile(rows, intake, plan);
      && rows <= run.rows
      && |run.rows| == |rows| + run.created
      && (Unique(rows) ==> Unique(run.rows))
    decreases |intake|
  {
    if intake != [] {
      if Has(rows, IdentityOf(intake[0])) {
        RunAppends(rows, intake[1..], plan);
      } else {
        var next := rows + [Filled(intake[0], plan(intake[0]).value, Planned)];
        InsertAddsIdentity(rows, intake[0], plan(intake[0]).value);
        RunAppends(next, intake[1..], plan);
        assert rows <= next;
      }
    }
  }

  lemma {:induction false} RunIdentities(rows: seq<Row>, intake: seq<IntakeAttachment>, plan: Planner)
    requires Reconcile(rows, intake, plan).Done?
    ensures Identities(Reconcile(rows, intake, plan).rows) == Identities(rows) + IdentitySet(intake)
    decreases |intake|
  {
    if intake != [] {
      IdentitySetOfHead(intake);
      HasIffIdentity(rows, IdentityOf(intake[0]));
      if Has(rows, IdentityOf(intake[0])) {
        RunIdentities(rows, intake[1..], plan);
      } else {
        InsertAddsIdentity(rows, intake[0], plan(intake[0]).value);
        RunIdentities(rows + [Filled(intake[0], plan(intake[0]).value, Planned)], intake[1..], plan);
      }
    }
  }

  /** What dealing with the head of the list does to the set of identities still missing. */
  lemma Missing(intake: seq<IntakeAttachment>, known: set<Identity>)
    requires intake != []
    ensures var id := IdentityOf(intake[0]);
      |IdentitySet(intake) - known| ==
        if id in known then |IdentitySet(intake[1..]) - known| else |IdentitySet(intake[1..]) - (known + {id})| + 1
  {
    var id, rest := IdentityOf(intake[0]), IdentitySet(intake[1..]);
    IdentitySetOfHead(intake);
    if id in known {
      assert IdentitySet(intake) - known == rest - known;
    } else {
      assert IdentitySet(intake) - known == (rest - (known + {id})) + {id};
    }
  }

  lemma {:induction false} RunCounts(rows: seq<Row>, intake: seq<IntakeAttachment>, plan: Planner)
    requires Reconcile(rows, intake, plan).Done?
    ensures Reconcile(rows, intake, plan).created == |IdentitySet(intake) - Identities(rows)|
    decreases |intake|
  {
    if intake != [] {
      Missing(intake, Identities(rows));
      HasIffIdentity(rows, IdentityOf(intake[0]));
      if Has(rows, IdentityOf(intake[0])) {
        RunCounts(rows, intake[1..], plan);
      } else {
        InsertAddsIdentity(rows, intake[0], plan(intake[0]).value);
        RunCounts(rows + [Filled(intake[0], plan(intake[0]).value, Planned)], intake[1..], plan);
      }
    }
  }

  /** A finished run adds rows and touches none: the identities are the old ones and those of all
      attachments, as many rows are added as identities were missing, however often attachments
      repeat and whatever rows with NULLs there are, and the unique constraint still holds. */
  lemma RunIsExact(rows: seq<Row>, intake: seq<IntakeAttachment>, plan: Planner)
    requires Reconcile(rows, intake, plan).Done?
    ensures var run := Reconcile(rows, intake, plan);
      && rows <= run.rows
      && |run.rows| == |rows| + run.created
      && run.created == |IdentitySet(intake) - Identities(rows)|
      && Identities(run.rows) == Identities(rows) + IdentitySet(intake)
      && (Unique(rows) ==> Unique(run.rows))
  {
    RunAppends(rows, intake, plan);
    RunIdentities(rows, intake, plan);
    RunCounts(rows, intake, plan);
  }

  /** Every needed attachment can be planned and fills a row. */
  lemma {:induction false} RunFillsNeededRows(rows: seq<Row>, intake: seq<IntakeAttachment>, plan: Planner)
    requires Reconcile(rows, intake, plan).Done?
    ensures forall i: nat :: i < |intake| && Needed(rows, intake, i) ==>
      IsPlannable(intake[i], plan) &&
      Filled(intake[i], plan(intake[i]).value, Planned) in Reconcile(rows, intake, plan).rows
    decreases |intake|
  {
    RunAbortsIff(rows, intake, plan);
    if intake != [] {
      var head, rest := intake[0], intake[1..];
      var next := if Has(rows, IdentityOf(head)) then rows else rows + [Filled(head, plan(head).value, Planned)];
      RunFillsNeededRows(next, rest, plan);
      RunIsExact(next, rest, plan);
      var after := Reconcile(rows, intake, plan).rows;
      assert after == Reconcile(next, rest, plan).rows;
      forall i: nat | i < |intake| && Needed(rows, intake, i)
        ensures IsPlannable(intake[i], plan) && Filled(intake[i], plan(intake[i]).value, Planned) in after
      {
        if i == 0 {
          assert after[|rows|] == next[|rows|];
        } else {
          NeededInRest(rows, intake, if plan(head).Some? then plan(head).value else StoragePlan("", ""), i);
          assert rest[i - 1] == intake[i];
        }
      }
    }
  }

  lemma {:induction false} AddedRowsAreFilled(
      rows: seq<Row>, intake: seq<IntakeAttachment>, plan: Planner, k: nat)
    requires Reconcile(rows, intake, plan).Done? && |rows| <= k < |Reconcile(rows, intake, plan).rows|
    ensures exists i: nat ::
      && i < |intake| && Needed(rows, intake, i) && IsPlannable(intake[i], plan)
      && Reconcile(rows, intake, plan).rows[k] == Filled(intake[i], plan(intake[i]).value, Planned)
    decreases |intake|
  {
    var head, rest := intake[0], intake[1..];
    var next := if Has(rows, IdentityOf(head)) then rows else rows + [Filled(head, plan(head).value, Planned)];
    RunAppends(next, rest, plan);
    if k < |next| {
      assert Reconcile(rows, intake, plan).rows[k] == next[k];
      assert Needed(rows, intake, 0);
    } else {
      AddedRowsAreFilled(next, rest, plan, k);
      var i: nat :| i < |rest| && Needed(next, rest, i) && IsPlannable(rest[i], plan)
        && Reconcile(next, rest, plan).rows[k] == Filled(rest[i], plan(rest[i]).value, Planned);
      NeededInRest(rows, intake, if plan(head).Some? then plan(head).value else StoragePlan("", ""), i + 1);
      assert Needed(rows, intake, i + 1) && intake[i + 1] == rest[i];
    }
  }

  /** Every row a run adds carries, column by column, an attachment that is the first of an identity
      that the table lacked. */
  lemma AddedRowsAreNeeded(rows: seq<Row>, intake: seq<IntakeAttachment>, plan: Planner, k: nat)
    requires Reconcile(rows, intake, plan).Done? && |rows| <= k < |Reconcile(rows, intake, plan).rows|
    ensures var row := Reconcile(rows, intake, plan).rows[k];
      exists i: nat ::
        && i < |intake| && Needed(rows, intake, i) && plan(intake[i]).Some?
        && row.connection == Some(intake[i].record.connection) && row.project == Some(intake[i].record.project)
        && row.sourceType == intake[i].record.sourceType && row.item == Some(intake[i].record.item)
        && row.attachment == Some(intake[i].attachment)
        && row.record == Some(intake[i].record.id) && row.syncRun == Some(intake[i].record.syncRun)
        && row.filename == plan(intake[i]).value.filename && row.storageKey == plan(intake[i]).value.storageKey
        && row.status == Planned
  {
    AddedRowsAreFilled(rows, intake, plan, k);
  }

  /** Every needed attachment has such a row. */
  lemma NeededAttachmentsHaveRows(rows: seq<Row>, intake: seq<IntakeAttachment>, plan: Planner, i: nat)
    requires Reconcile(rows, intake, plan).Done? && i < |intake| && Needed(rows, intake, i)
    ensures plan(intake[i]).Some?
    ensures exists k ::
      && |rows| <= k < |Reconcile(rows, intake, plan).rows|
      && HasColumns(Reconcile(rows, intake, plan).rows[k], intake[i], plan(intake[i]).value)
      && Reconcile(rows, intake, plan).rows[k].status == Planned
  {
    var after := Reconcile(rows, intake, plan).rows;
    RunFillsNeededRows(rows, intake, plan);
    RunIsExact(rows, intake, plan);
    var row := Filled(intake[i], plan(intake[i]).value, Planned);
    var k :| 0 <= k < |after| && after[k] == row;
    assert Matches(row, IdentityOf(intake[i]));
    assert k < |rows| ==> rows[k] == row;
  }

  // ----- Runs after runs, and the order of the attachments

  lemma {:induction false} RunOfConcatenation(
      rows: seq<Row>, xs: seq<IntakeAttachment>, ys: seq<IntakeAttachment>, plan: Planner)
    ensures Reconcile(rows, xs + ys, plan) ==
      var first := Reconcile(rows, xs, plan);
      if first.Done? then AddCreated(Reconcile(first.rows, ys, plan), first.created) else Aborted
    decreases |xs|
  {
    if xs == [] {
      assert xs + ys == ys;
    } else {
      assert (xs + ys)[1..] == xs[1..] + ys;
      var next := if Has(rows, IdentityOf(xs[0])) then rows
        else if IsPlannable(xs[0], plan) then rows + [Filled(xs[0], plan(xs[0]).value, Planned)] else rows;
      RunOfConcatenation(next, xs[1..], ys, plan);
    }
  }

  lemma {:induction false} NothingToDo(rows: seq<Row>, intake: seq<IntakeAttachment>, plan: Planner)
    requires IdentitySet(intake) <= Identities(rows)
    ensures Reconcile(rows, intake, plan) == Done(rows, 0)
    decreases |intake|
  {
    if intake != [] {
      IdentitySetOfHead(intake);
      HasIffIdentity(rows, IdentityOf(intake[0]));
      NothingToDo(rows, intake[1..], plan);
    }
  }

  /** A second run creates nothing and cannot fail. */
  lemma SecondRunCreatesNothing(rows: seq<Row>, xs: seq<IntakeAttachment>, plan: Planner)
    requires Reconcile(rows, xs, plan).Done?
    ensures var after := Reconcile(rows, xs, plan).rows;
      Reconcile(after, xs, plan) == Done(after, 0)
  {
    RunIdentities(rows, xs, plan);
    NothingToDo(Reconcile(rows, xs, plan).rows, xs, plan);
  }

  function AddCreated(run: Run, before: nat): Run {
    if run.Done? then Done(run.rows, before + run.created) else Aborted
  }

  /** A run on xs followed by one on xs + ys ends as a single run on xs + ys does, in the same table,
      with the created counts adding up, or aborted. */
  lemma RunsCompose(rows: seq<Row>, xs: seq<IntakeAttachment>, ys: seq<IntakeAttachment>, plan: Planner)
    requires Reconcile(rows, xs, plan).Done?
    ensures var first := Reconcile(rows, xs, plan);
      Reconcile(rows, xs + ys, plan) == AddCreated(Reconcile(first.rows, xs + ys, plan), first.created)
  {
    var after := Reconcile(rows, xs, plan).rows;
    SecondRunCreatesNothing(rows, xs, plan);
    RunOfConcatenation(rows, xs, ys, plan);
    RunOfConcatenation(after, xs, ys, plan);
  }

  /** Two finished runs over the same attachments in different orders reach the same identities and
      the same count. */
  lemma OrderKeepsIdentities(rows: seq<Row>, xs: seq<IntakeAttachment>, ys: seq<IntakeAttachment>, plan: Planner)
    requires multiset(xs) == multiset(ys)
    requires Reconcile(rows, xs, plan).Done? && Reconcile(rows, ys, plan).Done?
    ensures Identities(Reconcile(rows, xs, plan).rows) == Identities(Reconcile(rows, ys, plan).rows)
    ensures Reconcile(rows, xs, plan).created == Reconcile(rows, ys, plan).created
  {
    RunIsExact(rows, xs, plan);
    RunIsExact(rows, ys, plan);
    assert IdentitySet(xs) == IdentitySet(ys) by {
      forall a ensures a in xs <==> a in ys {
        assert a in xs <==> a in multiset(xs);
        assert a in ys <==> a in multiset(ys);
      }
    }
  }

  predicate Finishes(rows: seq<Row>, intake: seq<IntakeAttachment>, plan: Planner) {
    Reconcile(rows, intake, plan).Done?
  }

  /** Whether a run finishes at all can depend on the order, because only the first attachment of an
      identity is planned. Every order finishes exactly when each attachment whose identity the
      table lacks could be planned. */
  lemma EveryOrderFinishesIff(rows: seq<Row>, xs: seq<IntakeAttachment>, plan: Planner)
    ensures (forall ys :: multiset(ys) == multiset(xs) ==> Finishes(rows, ys, plan)) <==>
      forall a :: a in xs && !Has(rows, IdentityOf(a)) ==> IsPlannable(a, plan)
  {
    if forall a :: a in xs && !Has(rows, IdentityOf(a)) ==> IsPlannable(a, plan) {
      forall ys | multiset(ys) == multiset(xs) ensures Finishes(rows, ys, plan) {
        RunAbortsIff(rows, ys, plan);
        forall i: nat | i < |ys| && Needed(rows, ys, i) ensures IsPlannable(ys[i], plan) {
          assert ys[i] in multiset(ys);
          assert ys[i] in multiset(xs);
        }
      }
    } else {
      var a :| a in xs && !Has(rows, IdentityOf(a)) && !IsPlannable(a, plan);
      var ys := BroughtToFront(xs, a);
      assert !Finishes(rows, ys, plan);
    }
  }

  lemma BroughtToFront(xs: seq<IntakeAttachment>, a: IntakeAttachment) returns (ys: seq<IntakeAttachment>)
    requires a in xs
    ensures multiset(ys) == multiset(xs) && ys != [] && ys[0] == a
  {
    var k :| 0 <= k < |xs| && xs[k] == a;
    ys := [a] + (xs[..k] + xs[k + 1..]);
    assert xs == xs[..k] + ([a] + xs[k + 1..]);
  }

  // ----- Records do not shadow each other

  /** The unique constraint of the intake records, as far as a list of their attachments shows it. */
  predicate UniqueSources(intake: seq<IntakeAttachment>) {
    forall a, b :: a in intake && b in intake
      && a.record.sourceType == b.record.sourceType && a.record.project == b.record.project
      && a.record.item == b.record.item
      ==> a.record == b.record
  }

  /** No attachment is skipped on account of another record: two attachments share an identity only
      within one record, and a row that a run adds for an identity names the record of every
      attachment that has this identity. */
  lemma RecordsDoNotShadow(rows: seq<Row>, intake: seq<IntakeAttachment>, plan: Planner, a: IntakeAttachment)
    requires UniqueSources(intake) && a in intake && !Has(rows, IdentityOf(a))
    requires Reconcile(rows, intake, plan).Done?
    ensures forall b :: b in intake ==>
      (IdentityOf(a) == IdentityOf(b) <==> a.record == b.record && a.attachment == b.attachment)
    ensures exists row ::
      row in Reconcile(rows, intake, plan).rows && Matches(row, IdentityOf(a)) && row.record == Some(a.record.id)
  {
    var k :| 0 <= k < |intake| && intake[k] == a;
    var i := FirstOfIdentity(intake, k);
    RunFillsNeededRows(rows, intake, plan);
    assert intake[i] in intake;
    assert Needed(rows, intake, i);
    assert Matches(Filled(intake[i], plan(intake[i]).value, Planned), IdentityOf(a));
  }

  lemma FirstOfIdentity(intake: seq<IntakeAttachment>, k: nat) returns (i: nat)
    requires k < |intake|
    ensures i <= k && IdentityOf(intake[i]) == IdentityOf(intake[k])
    ensures forall j :: 0 <= j < i ==> IdentityOf(intake[j]) != IdentityOf(intake[i])
  {
    if j: nat :| j < k && IdentityOf(intake[j]) == IdentityOf(intake[k]) {
      i := FirstOfIdentity(intake, j);
    } else {
      i := k;
    }
  }

  /** The order can decide whether a run finishes: of two attachments with one identity the first
      fills the row, and only it has to be acceptable. */
  lemma OrderDecidesWhetherARunFinishes(good: IntakeAttachment, bad: IntakeAttachment, plan: Planner)
    requires IdentityOf(good) == IdentityOf(bad) && IsPlannable(good, plan) && !IsPlannable(bad, plan)
    ensures Reconcile([], [good, bad], plan) == Done([Filled(good, plan(good).value, Planned)], 1)
    ensures Reconcile([], [bad, good], plan) == Aborted
  {
    var row := Filled(good, plan(good).value, Planned);
    assert [] + [row] == [row] && Matches([row][0], IdentityOf(bad));
    assert [good, bad][1..] == [bad] && [bad][1..] == [];
    assert Reconcile([row], [bad], plan) == Done([row], 0);
  }
}
