/** The proxy service's data layer (proxy-service/db/tx.js): `updateProxys`,
    `searchProxys` and `deleteProxy`. The service's `query.js` is not part of
    this model. */
module ProxyTx {
  import opened Wrappers
  import opened PgTx

  /** The optional arguments of `updateProxys`; `None` is `undefined`. */
  datatype ProxyUpdate = ProxyUpdate(
    name: Option<SqlValue>, startDate: Option<SqlValue>, endDate: Option<SqlValue>, phoneNumber: Option<SqlValue>)

  /** The pushes of `updateProxys`, in order. */
  function Candidates(u: ProxyUpdate): seq<Candidate>
  {
    [Candidate("name", u.name), Candidate("start_date", u.startDate), Candidate("end_date", u.endDate),
     Candidate("phone_number", u.phoneNumber)]
  }

  /** No column is assigned twice. */
  lemma NoColumnRepeats(u: ProxyUpdate)
    ensures Distinct(Columns(Candidates(u)))
  {
    DistinctColumnsKept(Candidates(u));
  }

  /** `updateProxys({ id, userID, name, startDate, endDate, phoneNumber })`. */
  method UpdateProxys<T>(id: string, userID: string, u: ProxyUpdate, eligibility: EligibilityReply,
                         reply: WriteReply<T>) returns (run: TxRun<T>)
    ensures run == UpdateTransaction(id, userID, eligibility, Fragments(Columns(Candidates(u))), Values(Candidates(u)), reply)
    ensures u == ProxyUpdate(None, None, None, None) && Permitted(eligibility) ==> run.result == Ok(None) && Begin !in run.ops
    ensures u == ProxyUpdate(None, None, None, None) && !Permitted(eligibility) ==> run.result == Err(Forbidden)
    ensures Permitted(eligibility) && Defined(Candidates(u)) != [] && reply.Written? && reply.rowCount == 0 ==>
      run.result == Err(NoAffectedRow) && Rollback in run.ops && Commit !in run.ops
    ensures Permitted(eligibility) && Defined(Candidates(u)) != [] && reply.WriteThrew? ==>
      run.result == Err(Rethrown(reply.message)) && Rollback in run.ops && Commit !in run.ops
  {
    var fields, values := BuildUpdate(Candidates(u));
    run := UpdateTransaction(id, userID, eligibility, fields, values, reply);
  }

  /** `searchProxys({ userID, searchValue, limit, offset })`: the arguments
      sent and the outcome. */
  function SearchProxys<T>(userID: string, searchValue: Option<string>, limit: int, offset: int,
                           reply: RowsReply<T>): (r: (seq<SqlValue>, Result<seq<T>, DbError>))
    ensures |r.0| == 4 && r.0[1] == SqlText(userID) && r.0[2] == SqlInt(limit) && r.0[3] == SqlInt(offset)
    ensures r.0[0] == SqlNull <==> searchValue.None? || searchValue.value == ""
    ensures searchValue.Some? && searchValue.value != "" ==> r.0[0] == SqlText("%" + searchValue.value + "%")
    ensures r.1.Ok? <==> reply.Rows? && reply.rows != []
    ensures reply == Rows([]) ==> r.1 == Err(NotFound)
  {
    (SearchArgs(userID, searchValue, limit, offset), Search(reply))
  }

  /** `deleteProxy({ id, userID })`: zero deleted rows is the error
      `'Delete failed, not found '` and rolls back. */
  function DeleteProxy<T>(id: string, userID: string, eligibility: EligibilityReply, reply: WriteReply<T>)
    : (run: TxRun<T>)
    ensures run.result == Err(Failure("Delete failed, not found ")) <==>
      Permitted(eligibility) && reply.Written? && reply.rowCount == 0
    ensures run.result.Ok? <==> Permitted(eligibility) && reply.Written? && reply.rowCount > 0
    ensures Commit in run.ops <==> run.result.Ok?
  {
    DeleteTransaction(id, userID, eligibility, "Delete failed, not found ", reply)
  }
}
