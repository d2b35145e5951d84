/** The data-access logic shared by the three `db/tx.js` files of the
    reminder, user-plants and proxy services: the ownership check
    `isElligible`, the search arguments, the in-place builder of a partial
    UPDATE (`fields`, `values` and the counter `i`) and the transaction
    sequencing of the update and delete operations.

    The database is an oracle: each query's answer is an input, and a
    transaction is the trace of statements the client sends. Connecting,
    and the failure of BEGIN, COMMIT or ROLLBACK themselves, are not part of
    this model. */
module PgTx {
  import opened Wrappers
  import opened JsText

  /** A bound query parameter. */
  datatype SqlValue = SqlNull | SqlText(text: string) | SqlInt(n: int) | SqlBool(b: bool)

  /** What the data layer throws. `Failure` is a plain `new Error(message)`;
      `Rethrown` is an error of the driver or of a remote call, passed on. */
  datatype DbError =
    | Forbidden
    | NotFound
    | NoAffectedRow
    | Failure(message: string)
    | Rethrown(message: string)

  // ---------------------------------------------------------------------
  // Ownership check

  /** The answer to `isEligiblequery` with `[id, userID]`: the query threw,
      or the rows came back, each with its `eligible` column. */
  datatype EligibilityReply = EligibilityThrew(message: string) | EligibilityRows(eligible: seq<bool>)

  /** `isElligible({ userID, id })`: the `eligible` flag of the first row.
      A failed query and an empty answer (a `NotFoundError` thrown inside
      the `try`) both surface as `ForbiddenError`, so a caller never learns
      whether someone else's record exists. */
  function IsEligible(reply: EligibilityReply): (r: Result<bool, DbError>)
    ensures r.Err? ==> r.error == Forbidden
    ensures r.Ok? <==> reply.EligibilityRows? && |reply.eligible| > 0
    ensures r.Ok? ==> r.value == reply.eligible[0]
  {
    match reply
    case EligibilityThrew(_) => Err(Forbidden)
    case EligibilityRows(rows) => if |rows| == 0 then Err(Forbidden) else Ok(rows[0])
  }

  /** The parameters of the check, `[id, userID]`. */
  function EligibilityArgs(id: string, userID: string): (args: seq<SqlValue>)
    ensures |args| == 2 && args[0] == SqlText(id) && args[1] == SqlText(userID)
  {
    [SqlText(id), SqlText(userID)]
  }

  /** A caller goes on past the check exactly when it yields `true`. */
  predicate Permitted(reply: EligibilityReply)
  {
    IsEligible(reply) == Ok(true)
  }

  // ---------------------------------------------------------------------
  // Search

  /** `searchValue ? `%${searchValue}%` : null`; `None` stands for an absent
      value. */
  function SearchPattern(searchValue: Option<string>): (p: SqlValue)
    ensures p.SqlNull? <==> searchValue.None? || searchValue.value == ""
    ensures p.SqlText? ==>
      && 2 <= |p.text| && p.text[0] == '%' && p.text[|p.text| - 1] == '%'
      && searchValue == Some(p.text[1..|p.text| - 1])
  {
    match searchValue
    case None => SqlNull
    case Some(v) =>
      if v == "" then SqlNull
      else
        var t := "%" + v + "%";
        assert t[1..|t| - 1] == v;
        SqlText(t)
  }

  /** The parameters of a search, in the order `[pattern, userID, limit,
      offset]`. */
  function SearchArgs(userID: string, searchValue: Option<string>, limit: int, offset: int): (args: seq<SqlValue>)
    ensures |args| == 4 && args[0] == SearchPattern(searchValue)
    ensures args[1] == SqlText(userID) && args[2] == SqlInt(limit) && args[3] == SqlInt(offset)
  {
    [SearchPattern(searchValue), SqlText(userID), SqlInt(limit), SqlInt(offset)]
  }

  /** The answer to the search query. */
  datatype RowsReply<T> = QueryThrew(message: string) | Rows(rows: seq<T>)

  /** The search functions: driver errors are rethrown, an empty answer is
      a `NotFoundError`, otherwise the rows. */
  function Search<T>(reply: RowsReply<T>): (r: Result<seq<T>, DbError>)
    ensures r.Ok? <==> reply.Rows? && reply.rows != []
    ensures r.Ok? ==> r.value == reply.rows
    ensures reply == Rows([]) ==> r == Err(NotFound)
    ensures reply.QueryThrew? ==> r == Err(Rethrown(reply.message))
  {
    match reply
    case QueryThrew(m) => Err(Rethrown(m))
    case Rows(rows) => if rows == [] then Err(NotFound) else Ok(rows)
  }

  // ---------------------------------------------------------------------
  // The UPDATE builder

  /** The fragment `push(col + ' =', v)` appends as the `k`-th placeholder:
      `"<col> = $<k>"`. */
  function Assignment(column: string, k: nat): string
  {
    column + " = $" + Decimal(k)
  }

  /** The fragments for the given columns, numbered from `$2` on (`$1` is
      the id). */
  function Fragments(columns: seq<string>): (fs: seq<string>)
    ensures |fs| == |columns|
  {
    seq(|columns|, k requires 0 <= k < |columns| => Assignment(columns[k], k + 2))
  }

  /** The longest suffix of decimal digits. */
  function TrailingDigits(s: string): (r: string)
    ensures AllDigits(r) && |r| <= |s| && r == s[|s| - |r|..]
    ensures |r| == |s| || !IsDigit(s[|s| - |r| - 1])
  {
    if s != [] && IsDigit(s[|s| - 1]) then TrailingDigits(s[..|s| - 1]) + [s[|s| - 1]] else []
  }

  /** The placeholder number a fragment refers to, read back from its
      text. */
  function PlaceholderOf(fragment: string): nat
  {
    DigitsValue(TrailingDigits(fragment))
  }

  lemma {:induction false} TrailingDigitsAfter(p: string, d: string)
    requires AllDigits(d) && p != [] && !IsDigit(p[|p| - 1])
    ensures TrailingDigits(p + d) == d
  {
    if d == [] {
      assert p + d == p;
    } else {
      var s := p + d;
      assert s[..|s| - 1] == p + d[..|d| - 1];
      TrailingDigitsAfter(p, d[..|d| - 1]);
      assert d == d[..|d| - 1] + [d[|d| - 1]];
    }
  }

  /** The number written into a fragment is the one read back from it. */
  lemma PlaceholderRoundTrip(column: string, k: nat)
    ensures PlaceholderOf(Assignment(column, k)) == k
  {
    var p := column + " = $";
    assert p[|p| - 1] == '$';
    TrailingDigitsAfter(p, Decimal(k));
    DecimalRoundTrip(k);
  }

  /** An optional column of an update: `None` stands for an `undefined`
      argument, which the builder skips. */
  datatype Candidate = Candidate(column: string, value: Option<SqlValue>)

  /** The candidates whose value is defined, in order. */
  function Defined(cs: seq<Candidate>): (ds: seq<Candidate>)
    ensures |ds| <= |cs|
    ensures forall k :: 0 <= k < |ds| ==> ds[k].value.Some? && ds[k] in cs
    ensures ds == [] <==> forall k :: 0 <= k < |cs| ==> cs[k].value.None?
  {
    if cs == [] then []
    else
      var last := cs[|cs| - 1];
      var rest := Defined(cs[..|cs| - 1]);
      assert forall k :: 0 <= k < |cs| - 1 ==> cs[..|cs| - 1][k] == cs[k];
      if last.value.Some? then rest + [last] else rest
  }

  /** The columns the builder assigns. */
  function Columns(cs: seq<Candidate>): (cols: seq<string>)
    ensures |cols| == |Defined(cs)|
  {
    var ds := Defined(cs);
    seq(|ds|, k requires 0 <= k < |ds| => ds[k].column)
  }

  /** The values the builder binds, aligned with `Columns`. */
  function Values(cs: seq<Candidate>): (vs: seq<SqlValue>)
    ensures |vs| == |Defined(cs)|
  {
    var ds := Defined(cs);
    seq(|ds|, k requires 0 <= k < |ds| => ds[k].value.value)
  }

  /** Skipping undefined candidates commutes with concatenation. */
  lemma {:induction false} DefinedAppend(a: seq<Candidate>, b: seq<Candidate>)
    ensures Defined(a + b) == Defined(a) + Defined(b)
    decreases |b|
  {
    if b == [] {
      assert a + b == a;
    } else {
      var c := a + b;
      assert c[..|c| - 1] == a + b[..|b| - 1];
      DefinedAppend(a, b[..|b| - 1]);
    }
  }

  /** No column name occurs twice. */
  predicate DistinctColumns(cs: seq<Candidate>)
  {
    forall i, j :: 0 <= i < j < |cs| ==> cs[i].column != cs[j].column
  }

  /** No string occurs twice. */
  predicate Distinct(xs: seq<string>)
  {
    forall i, j :: 0 <= i < j < |xs| ==> xs[i] != xs[j]
  }

  /** Candidates with distinct columns give an UPDATE that assigns no column
      twice, whichever of them are defined. */
  lemma {:induction false} DistinctColumnsKept(cs: seq<Candidate>)
    requires DistinctColumns(cs)
    ensures Distinct(Columns(cs))
  {
    if cs != [] {
      var init := cs[..|cs| - 1];
      var last := cs[|cs| - 1];
      assert DistinctColumns(init);
      DistinctColumnsKept(init);
      if last.value.Some? {
        ColumnsSnoc(init, last);
        ColumnsAvoid(init, last.column);
        DistinctSnoc(Columns(init), last.column);
        assert cs == init + [last];
      } else {
        assert Defined(cs) == Defined(init);
      }
    }
  }

  /** A column name no candidate uses is not among the assigned columns. */
  lemma ColumnsAvoid(cs: seq<Candidate>, column: string)
    requires forall j :: 0 <= j < |cs| ==> cs[j].column != column
    ensures forall k :: 0 <= k < |Columns(cs)| ==> Columns(cs)[k] != column
  {
    var cols := Columns(cs);
    forall k | 0 <= k < |cols|
      ensures cols[k] != column
    {
      var d := Defined(cs)[k];
      assert cols[k] == d.column;
      var j :| 0 <= j < |cs| && cs[j] == d;
    }
  }

  /** A defined candidate after others adds its column at the end. */
  lemma ColumnsSnoc(init: seq<Candidate>, last: Candidate)
    requires last.value.Some?
    ensures Columns(init + [last]) == Columns(init) + [last.column]
    ensures forall k :: 0 <= k < |Columns(init)| ==> Columns(init)[k] == Defined(init)[k].column
  {
    var cs := init + [last];
    assert cs[..|cs| - 1] == init;
  }

  /** Appending a new string keeps a list free of repeats. */
  lemma DistinctSnoc(xs: seq<string>, x: string)
    requires Distinct(xs)
    requires forall k :: 0 <= k < |xs| ==> xs[k] != x
    ensures Distinct(xs + [x])
  {
  }

  /** `[id, ...values]`. */
  function Params(id: string, values: seq<SqlValue>): (ps: seq<SqlValue>)
    ensures |ps| == |values| + 1 && ps[0] == SqlText(id) && ps[1..] == values
  {
    [SqlText(id)] + values
  }

  lemma FragmentBinding(id: string, columns: seq<string>, values: seq<SqlValue>, k: nat)
    requires |columns| == |values| && k < |columns|
    ensures PlaceholderOf(Fragments(columns)[k]) == k + 2
    ensures Params(id, values)[k + 1] == values[k]
  {
    assert Fragments(columns)[k] == Assignment(columns[k], k + 2);
    PlaceholderRoundTrip(columns[k], k + 2);
    assert Params(id, values)[k + 1] == Params(id, values)[1..][k];
  }

  /** Binding consistency: `$1` is the id, and every fragment's placeholder,
      read back from its text, is a parameter holding that fragment's value;
      no parameter is left unreferenced. */
  lemma BindingConsistent(id: string, columns: seq<string>, values: seq<SqlValue>)
    requires |columns| == |values|
    ensures |Params(id, values)| == |Fragments(columns)| + 1
    ensures forall k :: 0 <= k < |columns| ==>
      && PlaceholderOf(Fragments(columns)[k]) == k + 2
      && Params(id, values)[PlaceholderOf(Fragments(columns)[k]) - 1] == values[k]
  {
    forall k | 0 <= k < |columns|
      ensures PlaceholderOf(Fragments(columns)[k]) == k + 2
      ensures Params(id, values)[PlaceholderOf(Fragments(columns)[k]) - 1] == values[k]
    {
      FragmentBinding(id, columns, values, k);
    }
  }

  /** The in-place state of an update being built: the `fields` and
      `values` arrays and the counter `i`, which starts at 1 so that the
      first fragment gets `$2`. */
  class UpdateBuilder {
    var fields: seq<string>
    var values: seq<SqlValue>
    var i: nat
    ghost var columns: seq<string>

    /** The counter is one ahead of the fragments, and the two arrays stay
        aligned. */
    ghost predicate Valid()
      reads this
    {
      i == |fields| + 1 && |values| == |fields| && fields == Fragments(columns)
    }

    constructor ()
      ensures Valid()
      ensures fields == [] && values == [] && columns == []
    {
      fields := [];
      values := [];
      i := 1;
      columns := [];
    }

    /** `push(column + ' =', value)`: bump the counter, then append the
        fragment and its value. */
    method Push(column: string, value: SqlValue)
      requires Valid()
      modifies this
      ensures Valid()
      ensures columns == old(columns) + [column]
      ensures values == old(values) + [value]
    {
      i := i + 1;
      fields := fields + [column + " = $" + Decimal(i)];
      values := values + [value];
      columns := columns + [column];
    }

    /** Push a candidate when its value is defined. */
    method PushDefined(c: Candidate)
      requires Valid()
      modifies this
      ensures Valid()
      ensures columns == old(columns) + Columns([c])
      ensures values == old(values) + Values([c])
    {
      assert Defined([c]) == Defined([][..0]) + (if c.value.Some? then [c] else []);
      if c.value.Some? {
        Push(c.column, c.value.value);
      }
    }
  }

  /** Appending one candidate extends the columns and values by its own. */
  lemma DefinedSnoc(cs: seq<Candidate>, c: Candidate)
    ensures Columns(cs + [c]) == Columns(cs) + Columns([c])
    ensures Values(cs + [c]) == Values(cs) + Values([c])
  {
    assert (cs + [c])[..|cs + [c]| - 1] == cs;
    assert Defined([c]) == Defined([][..0]) + (if c.value.Some? then [c] else []);
  }

  /** Runs the pushes of `cs` in order on a fresh builder: the arrays a
      `db/tx.js` update ends up with. */
  method BuildUpdate(cs: seq<Candidate>) returns (fields: seq<string>, values: seq<SqlValue>)
    ensures fields == Fragments(Columns(cs))
    ensures values == Values(cs)
  {
    var b := new UpdateBuilder();
    var n := 0;
    while n < |cs|
      invariant 0 <= n <= |cs|
      invariant b.Valid()
      invariant b.columns == Columns(cs[..n]) && b.values == Values(cs[..n])
    {
      b.PushDefined(cs[n]);
      DefinedSnoc(cs[..n], cs[n]);
      assert cs[..n + 1] == cs[..n] + [cs[n]];
      n := n + 1;
    }
    assert cs[..n] == cs;
    fields, values := b.fields, b.values;
  }

  // ---------------------------------------------------------------------
  // Transactions

  /** The statements a client sends, in order. The eligibility query runs on
      the pool, before BEGIN. */
  datatype DbOp =
    | CheckEligibility(id: string, userID: string)
    | Begin
    | RunUpdate(fields: seq<string>, params: seq<SqlValue>)
    | RunDelete(id: string)
    | Commit
    | Rollback
    | Release

  /** The answer to an UPDATE or DELETE ... RETURNING: it threw, or it
      affected `rowCount` rows, `first` being `rows[0]` when there is one. */
  datatype WriteReply<T> = WriteThrew(message: string) | Written(rowCount: nat, first: Option<T>)

  /** A transaction: the statements sent and the outcome (`None` is
      `null`). */
  datatype TxRun<T> = TxRun(ops: seq<DbOp>, result: Result<Option<T>, DbError>)

  /** The error path: the `catch` tries ROLLBACK (ignoring its failure),
      rethrows, and `finally` releases the client. */
  function Failed<T>(ops: seq<DbOp>, e: DbError): (run: TxRun<T>)
    ensures run.ops == ops + [Rollback, Release] && run.result == Err(e)
  {
    TxRun(ops + [Rollback, Release], Err(e))
  }

  /** `updateX({ id, userID, ... })` once the builder has produced `fields`
      and `values`. The ownership check comes first, so even an empty
      update by a non-owner is refused; an empty update returns `null`
      without BEGIN; zero affected rows is a `NoAffectedRowError`. */
  function UpdateTransaction<T>(id: string, userID: string, eligibility: EligibilityReply,
                                fields: seq<string>, values: seq<SqlValue>, reply: WriteReply<T>): (run: TxRun<T>)
    ensures |run.ops| >= 2 && run.ops[0] == CheckEligibility(id, userID) && run.ops[|run.ops| - 1] == Release
    ensures Release !in run.ops[..|run.ops| - 1]
    ensures !Permitted(eligibility) ==> run == TxRun([CheckEligibility(id, userID), Rollback, Release], Err(Forbidden))
    ensures Permitted(eligibility) && fields == [] ==> run == TxRun([CheckEligibility(id, userID), Release], Ok(None))
    ensures Begin in run.ops <==> Permitted(eligibility) && fields != []
    ensures Begin in run.ops ==> run.ops[1] == Begin && run.ops[2] == RunUpdate(fields, Params(id, values))
    ensures Commit in run.ops <==> Begin in run.ops && reply.Written? && reply.rowCount > 0
    ensures Commit in run.ops ==> run.result == Ok(reply.first)
    ensures Rollback in run.ops <==> run.result.Err?
    ensures run.result.Err? ==> run.result.error in {Forbidden, NoAffectedRow} || run.result.error.Rethrown?
    ensures Permitted(eligibility) && fields != [] && reply.Written? && reply.rowCount == 0 ==>
      run == Failed([CheckEligibility(id, userID), Begin, RunUpdate(fields, Params(id, values))], NoAffectedRow)
    ensures Permitted(eligibility) && fields != [] && reply.WriteThrew? ==>
      run == Failed([CheckEligibility(id, userID), Begin, RunUpdate(fields, Params(id, values))], Rethrown(reply.message))
  {
    var check := [CheckEligibility(id, userID)];
    if !Permitted(eligibility) then Failed(check, Forbidden)
    else if fields == [] then TxRun(check + [Release], Ok(None))
    else
      var sent := check + [Begin, RunUpdate(fields, Params(id, values))];
      match reply
      case WriteThrew(m) => Failed(sent, Rethrown(m))
      case Written(n, first) =>
        if n == 0 then Failed(sent, NoAffectedRow)
        else TxRun(sent + [Commit, Release], Ok(first))
  }

  /** `deleteX({ id, userID })`. A failed check is a `ForbiddenError`, a
      check answering `false` a plain `Error('Not Elligible')`, and zero
      deleted rows the error `notFound`; every error rolls back. */
  function DeleteTransaction<T>(id: string, userID: string, eligibility: EligibilityReply,
                                notFound: string, reply: WriteReply<T>): (run: TxRun<T>)
    ensures |run.ops| >= 2 && run.ops[0] == CheckEligibility(id, userID) && run.ops[|run.ops| - 1] == Release
    ensures IsEligible(eligibility).Err? ==> run.result == Err(Forbidden)
    ensures IsEligible(eligibility) == Ok(false) ==> run.result == Err(Failure("Not Elligible"))
    ensures Begin in run.ops <==> Permitted(eligibility)
    ensures Begin in run.ops ==> run.ops[1] == Begin && run.ops[2] == RunDelete(id)
    ensures Permitted(eligibility) && reply.Written? && reply.rowCount == 0 ==> run.result == Err(Failure(notFound))
    ensures Permitted(eligibility) && reply.WriteThrew? ==>
      run == Failed([CheckEligibility(id, userID), Begin, RunDelete(id)], Rethrown(reply.message))
    ensures Commit in run.ops <==> run.result.Ok?
    ensures Rollback in run.ops <==> run.result.Err?
    ensures run.result.Ok? ==> reply.Written? && reply.rowCount > 0 && run.result.value == reply.first
  {
    var check := [CheckEligibility(id, userID)];
    match IsEligible(eligibility)
    case Err(e) => Failed(check, e)
    case Ok(ok) =>
      if !ok then Failed(check, Failure("Not Elligible"))
      else
        var sent := check + [Begin, RunDelete(id)];
        match reply
        case WriteThrew(m) => Failed(sent, Rethrown(m))
        case Written(n, first) =>
          if n == 0 then Failed(sent, Failure(notFound))
          else TxRun(sent + [Commit, Release], Ok(first))
  }
}
