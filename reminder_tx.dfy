/** The reminder service's data layer (reminder-service/db/tx.js):
    `updateReminder`, `deleteReminder` and `getRemindersDueSoon`.

    `updateReminder` as written pushes the `is_active` assignment twice, so
    an UPDATE that changes `isActive` assigns the column twice, which
    PostgreSQL refuses ("multiple assignments to same column"). The model
    keeps that builder as `CandidatesAsWritten` and shows the repetition;
    `UpdateReminder` uses the corrected list, which pushes it once. The
    service's `query.js` is not part of this model: the statement is
    recorded as its fragments and parameters. */
module ReminderTx {
  import opened Wrappers
  import opened PgTx

  /** The optional arguments of `updateReminder`; `None` is `undefined`. */
  datatype ReminderUpdate = ReminderUpdate(
    name: Option<SqlValue>, notes: Option<SqlValue>, isActive: Option<SqlValue>, dueAt: Option<SqlValue>,
    dueDay: Option<SqlValue>, isProxy: Option<SqlValue>, proxy: Option<SqlValue>)

  /** The columns before and after the `is_active` pushes. */
  function Leading(u: ReminderUpdate): seq<Candidate>
  {
    [Candidate("name", u.name), Candidate("notes", u.notes)]
  }

  function Trailing(u: ReminderUpdate): seq<Candidate>
  {
    [Candidate("due_at", u.dueAt), Candidate("due_day", u.dueDay), Candidate("is_proxy", u.isProxy),
     Candidate("proxy", u.proxy)]
  }

  /** The pushes as the source writes them: `is_active` twice. */
  function CandidatesAsWritten(u: ReminderUpdate): seq<Candidate>
  {
    Leading(u) + [Candidate("is_active", u.isActive), Candidate("is_active", u.isActive)] + Trailing(u)
  }

  /** The pushes as intended: each column once, in the source's order. */
  function Candidates(u: ReminderUpdate): seq<Candidate>
  {
    Leading(u) + [Candidate("is_active", u.isActive)] + Trailing(u)
  }

  /** As written, defining `isActive` makes two consecutive fragments assign
      `is_active`, with consecutive placeholders bound to the same value. */
  lemma IsActiveAssignedTwice(u: ReminderUpdate) returns (k: nat)
    requires u.isActive.Some?
    ensures k == |Defined(Leading(u))|
    ensures |Columns(CandidatesAsWritten(u))| == k + 2 + |Defined(Trailing(u))|
    ensures Columns(CandidatesAsWritten(u))[k] == "is_active" && Columns(CandidatesAsWritten(u))[k + 1] == "is_active"
    ensures Values(CandidatesAsWritten(u))[k] == u.isActive.value && Values(CandidatesAsWritten(u))[k + 1] == u.isActive.value
    ensures Fragments(Columns(CandidatesAsWritten(u)))[k] == Assignment("is_active", k + 2)
    ensures Fragments(Columns(CandidatesAsWritten(u)))[k + 1] == Assignment("is_active", k + 3)
  {
    var twice := [Candidate("is_active", u.isActive), Candidate("is_active", u.isActive)];
    DefinedAppend(Leading(u), twice);
    DefinedAppend(Leading(u) + twice, Trailing(u));
    assert Defined(twice) == Defined([twice[0]]) + [twice[1]] by {
      assert twice[..1] == [twice[0]];
    }
    assert Defined([twice[0]]) == [twice[0]] by {
      assert [twice[0]][..0] == [];
    }
    k := |Defined(Leading(u))|;
    var ds := Defined(CandidatesAsWritten(u));
    assert ds[k] == twice[0] && ds[k + 1] == twice[1];
  }

  /** The smallest update that shows it: `{ isActive: false }` alone yields
      `is_active = $2, is_active = $3`. */
  lemma IsActiveOnlyExample()
    ensures Columns(CandidatesAsWritten(ReminderUpdate(None, None, Some(SqlBool(false)), None, None, None, None)))
      == ["is_active", "is_active"]
  {
    var u := ReminderUpdate(None, None, Some(SqlBool(false)), None, None, None, None);
    var k := IsActiveAssignedTwice(u);
    assert Defined(Leading(u)) == [] && Defined(Trailing(u)) == [];
  }

  /** With the corrected list no column is assigned twice, whichever
      arguments are defined. */
  lemma NoColumnRepeats(u: ReminderUpdate)
    ensures Distinct(Columns(Candidates(u)))
  {
    DistinctColumnsKept(Candidates(u));
  }

  /** `updateReminder({ id, userID, ... })`: the ownership check, the
      fragments and values pushed in place, then the transaction. */
  method UpdateReminder<T>(id: string, userID: string, u: ReminderUpdate, eligibility: EligibilityReply,
                           reply: WriteReply<T>) returns (run: TxRun<T>)
    ensures run == UpdateTransaction(id, userID, eligibility, Fragments(Columns(Candidates(u))), Values(Candidates(u)), reply)
    ensures Permitted(eligibility) && Defined(Candidates(u)) == [] ==> run.result == Ok(None) && Begin !in run.ops
    ensures !Permitted(eligibility) ==> run.result == Err(Forbidden)
    ensures Permitted(eligibility) && Defined(Candidates(u)) != [] && reply.Written? && reply.rowCount == 0 ==>
      run.result == Err(NoAffectedRow) && Rollback in run.ops && Commit !in run.ops
    ensures Permitted(eligibility) && Defined(Candidates(u)) != [] && reply.WriteThrew? ==>
      run.result == Err(Rethrown(reply.message)) && Rollback in run.ops && Commit !in run.ops
  {
    var fields, values := BuildUpdate(Candidates(u));
    run := UpdateTransaction(id, userID, eligibility, fields, values, reply);
  }

  /** `deleteReminder({ id, userID })`. */
  function DeleteReminder<T>(id: string, userID: string, eligibility: EligibilityReply, reply: WriteReply<T>)
    : (run: TxRun<T>)
    ensures run.result == Err(Failure("Soft delete failed, not found ")) <==>
      Permitted(eligibility) && reply.Written? && reply.rowCount == 0
    ensures run.result.Ok? <==> Permitted(eligibility) && reply.Written? && reply.rowCount > 0
  {
    DeleteTransaction(id, userID, eligibility, "Soft delete failed, not found ", reply)
  }

  /** The answer to the due-soon query: it threw, or rows (`None` for a
      missing `rows`). */
  datatype DueSoonReply<T> = DueSoonThrew(message: string) | DueSoonRows(rows: Option<seq<T>>)

  /** `getRemindersDueSoon({ windowSec })`: `rows || []`, so a successful
      call always yields an array. */
  function GetRemindersDueSoon<T>(reply: DueSoonReply<T>): (r: Result<seq<T>, DbError>)
    ensures r.Err? <==> reply.DueSoonThrew?
    ensures r.Err? ==> r.error == Rethrown(reply.message)
    ensures r.Ok? && reply.rows.Some? ==> r.value == reply.rows.value
    ensures r.Ok? && reply.rows.None? ==> r.value == []
  {
    match reply
    case DueSoonThrew(m) => Err(Rethrown(m))
    case DueSoonRows(rows) => Ok(if rows.Some? then rows.value else [])
  }
}
