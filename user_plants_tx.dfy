/** The user-plants service's data layer (user-plants-service/db/tx.js):
    `updateUserPlants`, `searchUserPlants`, `deleteUserPlant` and the photo
    upload `getS3ID`. The photo service and the database are oracles. */
module UserPlantsTx {
  import opened Wrappers
  import opened PgTx

  /** The optional arguments of `updateUserPlants`; `None` is `undefined`. */
  datatype PlantUpdate = PlantUpdate(s3ID: Option<SqlValue>, name: Option<SqlValue>, notes: Option<SqlValue>)

  /** The pushes of `updateUserPlants`, in order. */
  function Candidates(u: PlantUpdate): seq<Candidate>
  {
    [Candidate("s3_id", u.s3ID), Candidate("name", u.name), Candidate("notes", u.notes)]
  }

  /** No column is assigned twice. */
  lemma NoColumnRepeats(u: PlantUpdate)
    ensures Distinct(Columns(Candidates(u)))
  {
    DistinctColumnsKept(Candidates(u));
  }

  /** `updateUserPlants({ id, userID, s3ID, name, notes })`. */
  method UpdateUserPlants<T>(id: string, userID: string, u: PlantUpdate, eligibility: EligibilityReply,
                             reply: WriteReply<T>) returns (run: TxRun<T>)
    ensures run == UpdateTransaction(id, userID, eligibility, Fragments(Columns(Candidates(u))), Values(Candidates(u)), reply)
    ensures u == PlantUpdate(None, None, None) && Permitted(eligibility) ==> run.result == Ok(None) && Begin !in run.ops
    ensures u == PlantUpdate(None, None, None) && !Permitted(eligibility) ==> run.result == Err(Forbidden)
    ensures Permitted(eligibility) && Defined(Candidates(u)) != [] && reply.Written? && reply.rowCount == 0 ==>
      run.result == Err(NoAffectedRow) && Rollback in run.ops && Commit !in run.ops
    ensures Permitted(eligibility) && Defined(Candidates(u)) != [] && reply.WriteThrew? ==>
      run.result == Err(Rethrown(reply.message)) && Rollback in run.ops && Commit !in run.ops
  {
    var fields, values := BuildUpdate(Candidates(u));
    run := UpdateTransaction(id, userID, eligibility, fields, values, reply);
  }

  /** `searchUserPlants({ userID, searchValue, limit, offset })`: the
      arguments sent and the outcome. */
  function SearchUserPlants<T>(userID: string, searchValue: Option<string>, limit: int, offset: int,
                               reply: RowsReply<T>): (r: (seq<SqlValue>, Result<seq<T>, DbError>))
    ensures |r.0| == 4 && r.0[1] == SqlText(userID) && r.0[2] == SqlInt(limit) && r.0[3] == SqlInt(offset)
    ensures r.0[0] == SqlNull <==> searchValue.None? || searchValue.value == ""
    ensures searchValue.Some? && searchValue.value != "" ==> r.0[0] == SqlText("%" + searchValue.value + "%")
    ensures r.1.Ok? <==> reply.Rows? && reply.rows != []
    ensures reply == Rows([]) ==> r.1 == Err(NotFound)
  {
    (SearchArgs(userID, searchValue, limit, offset), Search(reply))
  }

  /** `deleteUserPlant({ id, userID })`. */
  function DeleteUserPlant<T>(id: string, userID: string, eligibility: EligibilityReply, reply: WriteReply<T>)
    : (run: TxRun<T>)
    ensures run.result == Err(Failure("Soft delete failed, not found ")) <==>
      Permitted(eligibility) && reply.Written? && reply.rowCount == 0
    ensures run.result.Ok? <==> Permitted(eligibility) && reply.Written? && reply.rowCount > 0
  {
    DeleteTransaction(id, userID, eligibility, "Soft delete failed, not found ", reply)
  }

  /** The photo service's answer to the upload: the URL, or an error with
      the HTTP status when there was a response. */
  datatype UploadReply = Uploaded(url: string) | UploadFailed(status: Option<nat>, message: string)

  /** `getS3ID({ file })`: a 404 means "no image" and yields `null`; every
      other error is rethrown. */
  function GetS3Id(reply: UploadReply): (r: Result<Option<string>, DbError>)
    ensures r == Ok(None) <==> reply.UploadFailed? && reply.status == Some(404)
    ensures reply.Uploaded? ==> r == Ok(Some(reply.url))
    ensures r.Err? <==> reply.UploadFailed? && reply.status != Some(404)
    ensures r.Err? ==> r.error == Rethrown(reply.message)
  {
    match reply
    case Uploaded(url) => Ok(Some(url))
    case UploadFailed(status, m) => if status == Some(404) then Ok(None) else Err(Rethrown(m))
  }
}
