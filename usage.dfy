/** The usage lookup Lambda (functions/inference-usage-lambda/main.py): answers
    an API Gateway query for a user's spending in one month, read from the
    monthly usage table, together with the configured monthly limit. The
    limit, read once from the environment, is the parameter `limit`. */
module UsageLookup {
  import opened Common
  import opened Store

  /** The `current_usage` field: `str()` of the record's `cost` attribute
      (absent prints as "None"), or the number 0 when there is no record. */
  datatype Amount = StoredCost(cost: Option<Attr>) | Zero

  /** The `monthly_limit` field: `str()` of the limit next to a stored cost,
      the bare number otherwise. */
  datatype Limit = LimitText(value: real) | LimitNumber(value: real)

  /** The 200 answer; the JSON text `json.dumps` makes of it is not modelled. */
  datatype UsageReport = UsageReport(statusCode: int, currentUsage: Amount, monthlyLimit: Limit)

  /** `event.get('queryStringParameters', {})`: the default only applies when
      the key is missing; API Gateway sends None when there is no query. */
  function QueryOf(event: Value): (r: Result<map<string, Value>, PyError>)
    ensures r.Ok? <==> event.Dict? && LookupOr(event.fields, "queryStringParameters", EmptyDict).Dict?
    ensures r.Err? ==> r.error == AttributeError
    ensures r.Ok? && "queryStringParameters" !in event.fields ==> r.value == map[]
  {
    if !event.Dict? then Err(AttributeError)
    else
      var q := LookupOr(event.fields, "queryStringParameters", EmptyDict);
      if q.Dict? then Ok(q.fields) else Err(AttributeError)
  }

  /** The Key argument of `get_item`: the query's `userArn` and `monthYear`,
      None where a parameter is missing. */
  function KeyOfQuery(query: map<string, Value>): map<string, Value> {
    map["userArn" := Lookup(query, "userArn"), "month_year" := Lookup(query, "monthYear")]
  }

  /** The handler. A missing parameter reaches DynamoDB as None and the read
      is refused; a stored record always has its key attributes, so Python
      finds it truthy. The status is 200 whenever the handler returns. */
  function Handle(event: Value, monthly: Table, limit: real): (r: Result<UsageReport, Failure>)
    requires monthly.schema == MonthlyUsageSchema && monthly.Valid()
    reads monthly
    ensures r.Ok? ==> r.value.statusCode == 200
    ensures QueryOf(event).Err? ==> r == Err(Raised(AttributeError))
    ensures QueryOf(event).Ok? ==>
      var key := KeyOfQuery(QueryOf(event).value);
      match KeyArgument(MonthlyUsageSchema, key)
      case Err(e) => r == Err(Rejected(e))
      case Ok(k) =>
        if k in monthly.items
        then r == Ok(UsageReport(200, StoredCost(if "cost" in monthly.items[k] then Some(monthly.items[k]["cost"]) else None), LimitText(limit)))
        else r == Ok(UsageReport(200, Zero, LimitNumber(limit)))
  {
    match QueryOf(event)
    case Err(e) => Err(Raised(e))
    case Ok(query) =>
      match monthly.GetItem(KeyOfQuery(query))
      case Err(e) => Err(Rejected(e))
      case Ok(found) =>
        if found.Some? && found.value != map[] then
          var cost := if "cost" in found.value then Some(found.value["cost"]) else None;
          Ok(UsageReport(200, StoredCost(cost), LimitText(limit)))
        else Ok(UsageReport(200, Zero, LimitNumber(limit)))
  }

  /** The limit is reported, never compared: two limits give the same answer
      but for the limit field. */
  lemma LimitOnlyReported(event: Value, monthly: Table, limit1: real, limit2: real)
    requires monthly.schema == MonthlyUsageSchema && monthly.Valid()
    ensures Handle(event, monthly, limit1).Ok? <==> Handle(event, monthly, limit2).Ok?
    ensures Handle(event, monthly, limit1).Ok? ==>
      var a, b := Handle(event, monthly, limit1).value, Handle(event, monthly, limit2).value;
      a.currentUsage == b.currentUsage && a.monthlyLimit.value == limit1 && b.monthlyLimit.value == limit2
  {
  }

  /** The query that names a user and month. */
  function QueryFor(userArn: string, monthYear: string): Value {
    Dict(map["queryStringParameters" := Dict(map["userArn" := Str(userArn), "monthYear" := Str(monthYear)])])
  }

  /** Read-back: a non-empty user and month that are present in the table
      report exactly the cost stored there, and absent ones report 0. */
  lemma ReportsStoredCost(userArn: string, monthYear: string, monthly: Table, limit: real)
    requires monthly.schema == MonthlyUsageSchema && monthly.Valid()
    requires userArn != "" && monthYear != ""
    ensures var r := Handle(QueryFor(userArn, monthYear), monthly, limit);
      && r.Ok?
      && ((userArn, monthYear) in monthly.items && "cost" in monthly.items[(userArn, monthYear)] ==>
            r.value.currentUsage == StoredCost(Some(monthly.items[(userArn, monthYear)]["cost"])))
      && ((userArn, monthYear) !in monthly.items ==> r.value.currentUsage == Zero)
  {
    var query := QueryOf(QueryFor(userArn, monthYear)).value;
    assert query == map["userArn" := Str(userArn), "monthYear" := Str(monthYear)];
    var key := KeyOfQuery(query);
    assert key == map["userArn" := Str(userArn), "month_year" := Str(monthYear)];
    assert KeyArgument(MonthlyUsageSchema, key) == Ok((userArn, monthYear));
  }
}
