/** The SQL of the user-plants service (user-plants-service/db/query.js)
    that the data layer binds parameters to: `dynamicUpdate`, and the
    placeholder layout of `searchQuery` and `isEligiblequery`. Statements
    are written on one line; the source's line breaks and indentation are
    white space PostgreSQL ignores. */
module UserPlantsQuery {
  import opened Wrappers
  import opened JsText
  import opened PgTx

  /** The assignment `dynamicUpdate` always appends. */
  const TouchUpdatedAt := "updated_at = now()"

  /** The row condition of the UPDATE: the id is `$1`. */
  const WhereId := Assignment("id", 1)

  /** The SET clause: `${fields.join(', ')}, updated_at = now()`. */
  function SetClause(fields: seq<string>): (set_: string)
    ensures fields != [] ==> set_ == Join(fields + [TouchUpdatedAt], ", ")
  {
    assert fields != [] ==> (fields + [TouchUpdatedAt])[..|fields|] == fields;
    Join(fields, ", ") + ", " + TouchUpdatedAt
  }

  const UpdateHead := "UPDATE user_plants.user_plant_list SET "
  const UpdateTail := " WHERE " + WhereId + " RETURNING id, user_id, s3_id, name, notes, created_at, updated_at;"

  /** `dynamicUpdate(fields)`: the statement text, which depends on `fields`
      alone. For the builder's non-empty fragments, the SET list is exactly
      those fragments in order followed by `updated_at = now()`, and the
      row is selected by `$1`. */
  function DynamicUpdate(fields: seq<string>): (sql: string)
    ensures fields != [] ==> sql == UpdateHead + Join(fields + [TouchUpdatedAt], ", ") + UpdateTail
  {
    UpdateHead + SetClause(fields) + UpdateTail
  }

  /** The WHERE clause refers to `$1` only, and no fragment of the builder
      does: the id and the new values never share a placeholder. */
  lemma WhereDisjointFromFragments(columns: seq<string>)
    ensures WhereId == "id = $1"
    ensures PlaceholderOf(WhereId) == 1
    ensures forall k :: 0 <= k < |columns| ==> PlaceholderOf(Fragments(columns)[k]) >= 2
  {
    assert Decimal(1) == "1";
    PlaceholderRoundTrip("id", 1);
    BindingConsistent("", columns, seq(|columns|, _ => SqlNull));
  }

  /** What a query placeholder stands for. */
  datatype Slot = IdSlot | UserIdSlot | PatternSlot | LimitSlot | OffsetSlot

  /** `searchQuery`: `name ILIKE $1` / `notes ILIKE $1`, `user_id = $2`,
      `LIMIT $3 OFFSET $4`; the k-th entry is what `$k+1` means. */
  const SearchSlots: seq<Slot> := [PatternSlot, UserIdSlot, LimitSlot, OffsetSlot]

  /** `isEligiblequery`: `id = $1 AND user_id = $2`. */
  const EligibilitySlots: seq<Slot> := [IdSlot, UserIdSlot]

  /** The values a caller has to bind: those of `searchUserPlants` or of
      `isElligible`. */
  datatype Call =
    | SearchCall(userID: string, searchValue: Option<string>, limit: int, offset: int)
    | EligibilityCall(id: string, userID: string)

  /** The value a caller means for a slot, if the call has one. */
  function SlotValue(s: Slot, call: Call): Option<SqlValue>
  {
    match (s, call)
    case (IdSlot, EligibilityCall(id, _)) => Some(SqlText(id))
    case (UserIdSlot, _) => Some(SqlText(call.userID))
    case (PatternSlot, SearchCall(_, v, _, _)) => Some(SearchPattern(v))
    case (LimitSlot, SearchCall(_, _, limit, _)) => Some(SqlInt(limit))
    case (OffsetSlot, SearchCall(_, _, _, offset)) => Some(SqlInt(offset))
    case _ => None
  }

  /** The arguments `searchUserPlants` builds line up with the placeholders
      of `searchQuery`: `$k` receives the value its slot asks for. */
  lemma SearchArgsMatchQuery(userID: string, searchValue: Option<string>, limit: int, offset: int)
    ensures |SearchArgs(userID, searchValue, limit, offset)| == |SearchSlots|
    ensures forall k :: 0 <= k < |SearchSlots| ==>
      SlotValue(SearchSlots[k], SearchCall(userID, searchValue, limit, offset))
        == Some(SearchArgs(userID, searchValue, limit, offset)[k])
  {
  }

  /** The arguments of `isElligible` line up with `isEligiblequery`. */
  lemma EligibilityArgsMatchQuery(id: string, userID: string)
    ensures |EligibilityArgs(id, userID)| == |EligibilitySlots|
    ensures forall k :: 0 <= k < |EligibilitySlots| ==>
      SlotValue(EligibilitySlots[k], EligibilityCall(id, userID)) == Some(EligibilityArgs(id, userID)[k])
  {
  }
}
