/** The request schemas of the proxy service
    (proxy-service/schemas/proxys.schema.js): `createSchema`, `updateSchema`
    and `searchSchema`.

    Coerced inputs arrive already converted: a date is valid or not
    (`z.coerce.date()`), a number is `NaN` or a finite value
    (`z.coerce.number()`). As zod does, a type failure (an invalid date, a
    `NaN`) aborts the parse before any `refine` runs, while a failed
    length or range check only marks it failed, so the `refine` still
    runs and adds its own issue. Messages the schema does not set are
    zod's defaults. */
module ProxySchemas {
  import opened Wrappers
  import opened JsText
  import opened Validation

  /** A coerced date: its time value, or an invalid date. */
  datatype DateInput = ValidDate(ms: int) | InvalidDate

  /** The issue of an invalid date. */
  function DateIssues(path: string, d: DateInput): (issues: seq<Issue>)
    ensures issues == [] <==> d.ValidDate?
    ensures d.InvalidDate? ==> issues == [Issue(path, "Invalid date")]
  {
    if d.ValidDate? then [] else [Issue(path, "Invalid date")]
  }

  // ---------------------------------------------------------------------
  // createSchema

  datatype CreateInput = CreateInput(name: string, startDate: DateInput, endDate: DateInput, phoneNumber: Option<string>)
  datatype CreateData = CreateData(name: string, startDateMs: int, endDateMs: int, phoneNumber: Option<string>)

  /** `createSchema`: a name that is not blank once trimmed, two valid
      dates, and an optional phone number that is only trimmed. */
  function ParseCreate(input: CreateInput): (r: Result<CreateData, seq<Issue>>)
    ensures r.Ok? <==> HasNonSpace(input.name) && input.startDate.ValidDate? && input.endDate.ValidDate?
    ensures r.Ok? ==>
      && r.value.name == Trim(input.name) && r.value.name != ""
      && r.value.startDateMs == input.startDate.ms && r.value.endDateMs == input.endDate.ms
      && (input.phoneNumber.None? ==> r.value.phoneNumber.None?)
      && (input.phoneNumber.Some? ==> r.value.phoneNumber == Some(Trim(input.phoneNumber.value)))
    ensures !HasNonSpace(input.name) ==> Issue("name", "A name must be provided!") in r.error
    ensures r.Err? ==>
      r.error == Check(HasNonSpace(input.name), "name", "A name must be provided!")
                 + DateIssues("startDate", input.startDate) + DateIssues("endDate", input.endDate)
  {
    TrimEmptyIff(input.name);
    var issues := Check(|Trim(input.name)| >= 1, "name", "A name must be provided!")
      + DateIssues("startDate", input.startDate) + DateIssues("endDate", input.endDate);
    if issues == [] then
      Ok(CreateData(Trim(input.name), input.startDate.ms, input.endDate.ms,
                    if input.phoneNumber.Some? then Some(Trim(input.phoneNumber.value)) else None))
    else Err(issues)
  }

  // ---------------------------------------------------------------------
  // updateSchema

  /** The fields of an update request; `None` is a key that is absent. */
  datatype UpdateInput = UpdateInput(name: Option<string>, startDate: Option<DateInput>, endDate: Option<DateInput>,
                                     phoneNumber: Option<string>)
  datatype UpdateData = UpdateData(name: Option<string>, startDateMs: Option<int>, endDateMs: Option<int>,
                                   phoneNumber: Option<string>)

  function OptDateIssues(path: string, d: Option<DateInput>): seq<Issue>
  {
    if d.Some? then DateIssues(path, d.value) else []
  }

  function TrimOpt(s: Option<string>): Option<string>
  {
    if s.Some? then Some(Trim(s.value)) else None
  }

  function DateOpt(d: Option<DateInput>): Option<int>
    requires d.Some? ==> d.value.ValidDate?
  {
    if d.Some? then Some(d.value.ms) else None
  }

  /** `updateSchema`: every field optional, and the `refine` that the
      parsed object has at least one key. A blank name is allowed. */
  function ParseUpdate(input: UpdateInput): (r: Result<UpdateData, seq<Issue>>)
    ensures r.Ok? <==>
      && (input.name.Some? || input.startDate.Some? || input.endDate.Some? || input.phoneNumber.Some?)
      && (input.startDate.Some? ==> input.startDate.value.ValidDate?)
      && (input.endDate.Some? ==> input.endDate.value.ValidDate?)
    ensures input == UpdateInput(None, None, None, None) ==>
      r == Err([Issue("", "Provide at least one field to update")])
    ensures r.Ok? ==> r.value.name == TrimOpt(input.name) && r.value.phoneNumber == TrimOpt(input.phoneNumber)
    ensures r.Ok? ==> r.value.startDateMs == DateOpt(input.startDate) && r.value.endDateMs == DateOpt(input.endDate)
    ensures ((input.startDate.Some? && !input.startDate.value.ValidDate?)
             || (input.endDate.Some? && !input.endDate.value.ValidDate?)) ==>
      r == Err(OptDateIssues("startDate", input.startDate) + OptDateIssues("endDate", input.endDate))
  {
    var typeIssues := OptDateIssues("startDate", input.startDate) + OptDateIssues("endDate", input.endDate);
    if typeIssues != [] then Err(typeIssues)
    else
      var data := UpdateData(TrimOpt(input.name), DateOpt(input.startDate), DateOpt(input.endDate),
                             TrimOpt(input.phoneNumber));
      if data.name.Some? || data.startDateMs.Some? || data.endDateMs.Some? || data.phoneNumber.Some? then Ok(data)
      else Err([Issue("", "Provide at least one field to update")])
  }

  // ---------------------------------------------------------------------
  // searchSchema

  /** A coerced number: absent, `NaN`, or a finite value. */
  datatype NumberInput = Absent | NotANumber | Number(x: real)

  /** The outcome of one numeric field: aborted (a type failure), or a
      value with the range issues found. */
  datatype NumberField = Aborted(issue: Issue) | Checked(value: real, issues: seq<Issue>)

  /** `z.coerce.number().int().min(lo)[.max(hi)].default(d)`. */
  function NumberCheck(path: string, n: NumberInput, lo: int, hi: Option<int>, d: int): (f: NumberField)
    ensures f.Aborted? <==> n.NotANumber?
    ensures n.Absent? ==> f == Checked(d as real, [])
    ensures n.Number? ==> f.Checked? && f.value == n.x
    ensures n.Number? ==>
      (f.issues == [] <==> n.x == n.x.Floor as real && lo as real <= n.x && (hi.Some? ==> n.x <= hi.value as real))
  {
    match n
    case Absent => Checked(d as real, [])
    case NotANumber => Aborted(Issue(path, "Expected number, received nan"))
    case Number(x) =>
      Checked(x,
        Check(x == x.Floor as real, path, "Expected integer, received float")
        + Check(lo as real <= x, path, "Number must be greater than or equal to " + IntText(lo))
        + (if hi.Some? then Check(x <= hi.value as real, path, "Number must be less than or equal to " + IntText(hi.value))
           else []))
  }

  /** The issues one numeric field reports: its type failure, or its range
      issues. */
  function FieldIssues(f: NumberField): (issues: seq<Issue>)
    ensures f.Aborted? ==> issues == [f.issue]
    ensures f.Checked? ==> issues == f.issues
  {
    match f
    case Aborted(issue) => [issue]
    case Checked(_, issues) => issues
  }

  datatype SearchInput = SearchInput(searchValue: Option<string>, limit: NumberInput, offset: NumberInput)
  datatype SearchData = SearchData(searchValue: string, limit: int, offset: int)

  /** A limit within the schema's bounds: an integer from 1 to 40, or
      absent. */
  predicate LimitOk(n: NumberInput)
  {
    n.Absent? || (n.Number? && n.x == n.x.Floor as real && 1.0 <= n.x <= 40.0)
  }

  /** An offset within the schema's bounds: an integer of at least 0, or
      absent. */
  predicate OffsetOk(n: NumberInput)
  {
    n.Absent? || (n.Number? && n.x == n.x.Floor as real && 0.0 <= n.x)
  }

  /** `LimitOk` is what the `limit` field's checks accept. */
  lemma LimitCheck(n: NumberInput)
    ensures var f := NumberCheck("limit", n, 1, Some(40), 20);
      LimitOk(n) <==> f.Checked? && f.issues == []
  {
  }

  /** `OffsetOk` is what the `offset` field's checks accept. */
  lemma OffsetCheck(n: NumberInput)
    ensures var f := NumberCheck("offset", n, 0, None, 0);
      OffsetOk(n) <==> f.Checked? && f.issues == []
  {
  }

  const NoSearch := Issue("", "No search was entered")

  /** The `searchValue` field: when present, trimmed and at least one
      character long. */
  function SearchValueIssues(v: Option<string>): (issues: seq<Issue>)
    ensures issues == [] <==> v.None? || HasNonSpace(v.value)
  {
    if v.None? then []
    else
      TrimEmptyIff(v.value);
      Check(|Trim(v.value)| >= 1, "searchValue", "String must contain at least 1 character(s)")
  }

  /** The `refine`: `d => d.searchValue`, a non-empty trimmed value. */
  predicate SearchGiven(v: Option<string>)
  {
    v.Some? && HasNonSpace(v.value)
  }

  /** `searchSchema`: an optional trimmed `searchValue` of at least one
      character, `limit` in 1..40 defaulting to 20, `offset` of at least 0
      defaulting to 0, and the `refine` that a search value was given. */
  function ParseSearch(input: SearchInput): (r: Result<SearchData, seq<Issue>>)
    ensures r.Ok? <==> SearchGiven(input.searchValue) && LimitOk(input.limit) && OffsetOk(input.offset)
    ensures !input.limit.NotANumber? && !input.offset.NotANumber? && !SearchGiven(input.searchValue) ==>
      r.Err? && NoSearch in r.error
    ensures input.limit.NotANumber? || input.offset.NotANumber? ==>
      r == Err(SearchValueIssues(input.searchValue)
               + FieldIssues(NumberCheck("limit", input.limit, 1, Some(40), 20))
               + FieldIssues(NumberCheck("offset", input.offset, 0, None, 0)))
    ensures r.Err? && !input.limit.NotANumber? && !input.offset.NotANumber? ==>
      r.error == SearchValueIssues(input.searchValue)
                 + FieldIssues(NumberCheck("limit", input.limit, 1, Some(40), 20))
                 + FieldIssues(NumberCheck("offset", input.offset, 0, None, 0))
                 + (if SearchGiven(input.searchValue) then [] else [NoSearch])
  {
    LimitCheck(input.limit);
    OffsetCheck(input.offset);
    var svIssues := SearchValueIssues(input.searchValue);
    var limit := NumberCheck("limit", input.limit, 1, Some(40), 20);
    var offset := NumberCheck("offset", input.offset, 0, None, 0);
    if limit.Aborted? || offset.Aborted? then
      Err(svIssues + FieldIssues(limit) + FieldIssues(offset))
    else
      var refineIssues := if SearchGiven(input.searchValue) then [] else [NoSearch];
      var issues := svIssues + FieldIssues(limit) + FieldIssues(offset) + refineIssues;
      if issues == [] then Ok(SearchData(Trim(input.searchValue.value), limit.value.Floor, offset.value.Floor))
      else Err(issues)
  }

  /** A `NaN` limit aborts the parse, yet the offset's own range issue is
      still reported: zod checks every field before giving up. */
  lemma NaNKeepsOtherFieldIssues()
    ensures ParseSearch(SearchInput(None, NotANumber, Number(-1.0)))
         == Err([Issue("limit", "Expected number, received nan"),
                 Issue("offset", "Number must be greater than or equal to " + IntText(0))])
  {
    var input := SearchInput(None, NotANumber, Number(-1.0));
    assert SearchValueIssues(None) == [];
    assert NumberCheck("limit", NotANumber, 1, Some(40), 20) == Aborted(Issue("limit", "Expected number, received nan"));
    assert (-1.0).Floor == -1;
    assert NumberCheck("offset", Number(-1.0), 0, None, 0)
        == Checked(-1.0, [Issue("offset", "Number must be greater than or equal to " + IntText(0))]);
    assert ParseSearch(input) == Err([] + [Issue("limit", "Expected number, received nan")]
                                     + [Issue("offset", "Number must be greater than or equal to " + IntText(0))]);
    assert [] + [Issue("limit", "Expected number, received nan")]
             + [Issue("offset", "Number must be greater than or equal to " + IntText(0))]
        == [Issue("limit", "Expected number, received nan"),
            Issue("offset", "Number must be greater than or equal to " + IntText(0))];
  }

  /** What a successful search parse yields: the trimmed search value, the
      limit (20 when absent) within 1..40 and the offset (0 when absent) of
      at least 0. */
  lemma ParsedSearch(input: SearchInput)
    requires ParseSearch(input).Ok?
    ensures var d := ParseSearch(input).value;
      && d.searchValue == Trim(input.searchValue.value) && d.searchValue != ""
      && 1 <= d.limit <= 40 && d.offset >= 0
      && (input.limit.Absent? ==> d.limit == 20)
      && (input.limit.Number? ==> d.limit as real == input.limit.x)
      && (input.offset.Absent? ==> d.offset == 0)
      && (input.offset.Number? ==> d.offset as real == input.offset.x)
  {
    TrimEmptyIff(input.searchValue.value);
  }
}
