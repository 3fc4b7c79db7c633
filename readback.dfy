/** How the usage ledger and the usage lookup meet in the monthly usage
    table: the lookup reads the record the ledger adds to. */
module LedgerReadBack {
  import opened Common
  import opened Store
  import UsageLedger
  import UsageLookup

  /** After the ledger's monthly update for a call, asking the lookup for
      the caller's ARN and the call's month bucket (`MM_YYYY`) reports the
      record's cost: what it held before, zero for a new record, plus the
      call's price. */
  lemma LedgerCostReported(body: Value, w: Writes, before: map<Key, Item>, monthly: Table,
                           arn: string, bucket: string, limit: real)
    requires UsageLedger.Plan(body) == Ok(w)
    requires Add(MonthlyUsageSchema, before, w.monthlyKey, w.increments).Ok?
    requires Lookup(body.fields, "userArn") == Str(arn)
    requires UsageLedger.MonthYearOf(Lookup(body.fields, "timestamp")) == Ok(bucket)
    requires monthly.schema == MonthlyUsageSchema && monthly.Valid()
    requires monthly.items == Add(MonthlyUsageSchema, before, w.monthlyKey, w.increments).value
    ensures "cost" in w.increments
    ensures UsageLookup.Handle(UsageLookup.QueryFor(arn, bucket), monthly, limit)
            == Ok(UsageLookup.UsageReport(200,
                    UsageLookup.StoredCost(Some(N(NumberOr0(Current(MonthlyUsageSchema, before, (arn, bucket)), "cost")
                                                  + w.increments["cost"]))),
                    UsageLookup.LimitText(limit)))
  {
    UsageLedger.MonthlyKeyOfPlan(body, w);
    UsageLedger.MonthlyAccumulated(body, w, before, arn, bucket);
    UsageLookup.ReportsStoredCost(arn, bucket, monthly, limit);
  }
}
