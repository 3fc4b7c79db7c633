/** The usage ledger Lambda (functions/inference-logger-lambda/main.py): prices
    one completed model call from its token counts, stores it as a transaction
    and adds it to the caller's monthly aggregate. */
module UsageLedger {
  import opened Common
  import opened Calendar
  import opened Store

  const HaikuModel := "anthropic.claude-3-haiku-20240307-v1:0"
  const SonnetModel := "anthropic.claude-sonnet-4-20250514-v1:0"

  /** A price in units of 1e-8 USD, the resolution of the per-token rates. */
  function InUnits(usd: real): real { usd * 100000000.0 }

  /** `_calculate_cost_from_tokens`: a per-model linear price in USD. The
      input count is multiplied first: a count a float cannot be multiplied
      by raises TypeError (None, a string, a container, a Decimal) or
      OverflowError (an int beyond the float range). A model that is not
      priced costs nothing, whatever the token counts hold. */
  function CalculateCost(inputTokens: Value, outputTokens: Value, modelId: Value): (r: Result<real, PyError>)
    ensures modelId != Str(HaikuModel) && modelId != Str(SonnetModel) ==> r == Ok(0.0)
    ensures modelId == Str(HaikuModel) || modelId == Str(SonnetModel) ==>
      && (r.Ok? <==> FloatOperand(inputTokens).Ok? && FloatOperand(outputTokens).Ok?)
      && (FloatOperand(inputTokens).Err? ==> r == Err(FloatOperand(inputTokens).error))
      && (FloatOperand(inputTokens).Ok? && FloatOperand(outputTokens).Err? ==> r == Err(FloatOperand(outputTokens).error))
    ensures modelId == Str(HaikuModel) && r.Ok? ==>
      InUnits(r.value) == 25.0 * FloatOperand(inputTokens).value + 125.0 * FloatOperand(outputTokens).value
    ensures modelId == Str(SonnetModel) && r.Ok? ==>
      InUnits(r.value) == 300.0 * FloatOperand(inputTokens).value + 1500.0 * FloatOperand(outputTokens).value
  {
    if modelId == Str(HaikuModel) || modelId == Str(SonnetModel) then
      var i :- FloatOperand(inputTokens);
      var o :- FloatOperand(outputTokens);
      if modelId == Str(HaikuModel) then Ok(0.00000025 * i + 0.00000125 * o)
      else Ok(0.000003 * i + 0.000015 * o)
    else Ok(0.0)
  }

  /** A count a float can be multiplied by. */
  predicate InFloatRange(n: int) { -FloatIntLimit < n < FloatIntLimit }

  /** The price never falls when either token count grows, and is never
      negative for non-negative counts. */
  lemma CostMonotone(modelId: Value, in1: int, out1: int, in2: int, out2: int)
    requires 0 <= in1 <= in2 && 0 <= out1 <= out2
    requires InFloatRange(in2) && InFloatRange(out2)
    ensures CalculateCost(Int(in1), Int(out1), modelId).Ok? && CalculateCost(Int(in2), Int(out2), modelId).Ok?
    ensures 0.0 <= CalculateCost(Int(in1), Int(out1), modelId).value
              <= CalculateCost(Int(in2), Int(out2), modelId).value
  {
  }

  /** The price is additive: two calls cost what one call with their summed counts costs. */
  lemma CostAdditive(modelId: Value, in1: int, out1: int, in2: int, out2: int)
    requires InFloatRange(in1) && InFloatRange(out1) && InFloatRange(in2) && InFloatRange(out2)
    requires InFloatRange(in1 + in2) && InFloatRange(out1 + out2)
    ensures CalculateCost(Int(in1 + in2), Int(out1 + out2), modelId).Ok?
    ensures CalculateCost(Int(in1 + in2), Int(out1 + out2), modelId).value
            == CalculateCost(Int(in1), Int(out1), modelId).value + CalculateCost(Int(in2), Int(out2), modelId).value
  {
  }

  /** One or two decimal digits, as each `%m`, `%H`, `%M`, `%S` field of
      `strptime` accepts them. */
  predicate ShortNumber(t: string) { 1 <= |t| <= 2 && AllDigits(t) }

  /** `%d` additionally accepts a space followed by one digit. */
  predicate DayField(t: string) {
    ShortNumber(t) || (|t| == 2 && t[0] == ' ' && IsDigit(t[1]))
  }

  function DayValue(t: string): nat
    requires DayField(t)
  {
    if t[0] == ' ' then DigitValue(t[1]) else NatValue(t)
  }

  /** `datetime.strptime(s, "%Y-%m-%dT%H:%M:%S")`: a four-digit year, then
      fields of one or two digits split by the literal separators (the `T`
      matched in either case), the date and time checked as `datetime` does;
      None where Python raises ValueError. */
  function ParseTimestamp(s: string): (r: Option<DateTime>)
    ensures r.Some? ==> ValidDateTime(r.value)
  {
    if |s| < 5 || !AllDigits(s[..4]) || s[4] != '-' then None
    else
      var p1 :- Cut(s[5..], {'-'});
      var p2 :- Cut(p1.1, {'T', 't'});
      var p3 :- Cut(p2.1, {':'});
      var p4 :- Cut(p3.1, {':'});
      var month, day, hour, minute, second := p1.0, p2.0, p3.0, p4.0, p4.1;
      if !(ShortNumber(month) && DayField(day) && ShortNumber(hour) && ShortNumber(minute) && ShortNumber(second))
      then None
      else
        var t := DateTime(NatValue(s[..4]), NatValue(month), DayValue(day), NatValue(hour), NatValue(minute), NatValue(second));
        if ValidDateTime(t) then Some(t) else None
  }

  /** `dt.strftime("%m_%Y")`: the month zero-padded, the year as glibc
      prints it (no padding below 1000). */
  function MonthBucket(t: DateTime): (bucket: string)
    requires ValidDateTime(t)
    ensures |bucket| >= 4 && bucket[2] == '_' && AllDigits(bucket[..2]) && AllDigits(bucket[3..])
    ensures NatValue(bucket[..2]) == t.month && NatValue(bucket[3..]) == t.year
  {
    var month, year := Pad2(t.month as nat), DecimalString(t.year as nat);
    NatValueOfPad2(t.month as nat);
    DecimalStringRoundTrip(t.year as nat);
    var bucket := month + "_" + year;
    assert bucket[..2] == month && bucket[3..] == year;
    bucket
  }

  /** Lines 32-33: the bucket of the request's timestamp; TypeError for a
      timestamp that is not a string, ValueError for a malformed one. */
  function MonthYearOf(timestamp: Value): (r: Result<string, PyError>)
    ensures r.Ok? <==> timestamp.Str? && ParseTimestamp(timestamp.s).Some?
    ensures r.Err? ==> r.error == (if timestamp.Str? then ValueError else TypeError)
  {
    if !timestamp.Str? then Err(TypeError)
    else match ParseTimestamp(timestamp.s)
      case None => Err(ValueError)
      case Some(t) => Ok(MonthBucket(t))
  }

  /** The zero-padded timestamp of a date and time, the format the handler expects. */
  function Format(t: DateTime): string
    requires ValidDateTime(t)
  {
    DecimalString(t.year as nat) + "-" + Pad2(t.month as nat) + "-" + Pad2(t.day as nat)
    + "T" + Pad2(t.hour as nat) + ":" + Pad2(t.minute as nat) + ":" + Pad2(t.second as nat)
  }

  lemma DecimalStringOfFourDigitYear(y: nat)
    requires 1000 <= y <= 9999
    ensures |DecimalString(y)| == 4
  {
    assert |DecimalString(y / 1000)| == 1;
    assert |DecimalString(y / 100)| == 2;
    assert |DecimalString(y / 10)| == 3;
  }

  lemma NatValueOfPad2(n: nat)
    requires n < 100
    ensures NatValue(Pad2(n)) == n
  {
    var s := Pad2(n);
    assert s[..1][..0] == [];
    assert NatValue(s[..1]) == n / 10;
  }

  lemma NoSeparatorIn(t: string, seps: set<char>)
    requires AllDigits(t) && forall c :: c in seps ==> !IsDigit(c)
    ensures forall i :: 0 <= i < |t| ==> t[i] !in seps
  {
  }

  /** Parsing the formatted timestamp of a date and time with a four-digit
      year gives back that date and time. */
  lemma {:induction false} ParseFormatRoundTrip(t: DateTime)
    requires ValidDateTime(t) && t.year >= 1000
    ensures ParseTimestamp(Format(t)) == Some(t)
  {
    var y := DecimalString(t.year as nat);
    var mo, d, h, mi, sec := Pad2(t.month as nat), Pad2(t.day as nat), Pad2(t.hour as nat), Pad2(t.minute as nat), Pad2(t.second as nat);
    DecimalStringOfFourDigitYear(t.year as nat);
    DecimalStringRoundTrip(t.year as nat);
    NatValueOfPad2(t.month as nat);
    NatValueOfPad2(t.day as nat);
    NatValueOfPad2(t.hour as nat);
    NatValueOfPad2(t.minute as nat);
    NatValueOfPad2(t.second as nat);
    var s := Format(t);
    var r4 := mi + [':'] + sec;
    var r3 := h + [':'] + r4;
    var r2 := d + ['T'] + r3;
    var r1 := mo + ['-'] + r2;
    assert s == y + ['-'] + r1;
    assert s[..4] == y && s[4] == '-' && s[5..] == r1;
    NoSeparatorIn(mo, {'-'});
    NoSeparatorIn(d, {'T', 't'});
    NoSeparatorIn(h, {':'});
    NoSeparatorIn(mi, {':'});
    CutOfJoin(mo, '-', r2, {'-'});
    CutOfJoin(d, 'T', r3, {'T', 't'});
    CutOfJoin(h, ':', r4, {':'});
    CutOfJoin(mi, ':', sec, {':'});
  }

  /** For a zero-padded `YYYY-MM-DDTHH:MM:SS` timestamp (nineteen characters,
      year without a leading zero) the bucket is the month digits, `_`, and
      the year digits, as written. */
  lemma {:induction false} BucketOfZeroPaddedTimestamp(s: string)
    requires |s| == 19 && s[0] != '0' && ParseTimestamp(s).Some?
    ensures MonthYearOf(Str(s)) == Ok(s[5..7] + "_" + s[..4])
  {
    var p1 := Cut(s[5..], {'-'}).value;
    var p2 := Cut(p1.1, {'T', 't'}).value;
    var p3 := Cut(p2.1, {':'}).value;
    var p4 := Cut(p3.1, {':'}).value;
    CutSplits(s[5..], {'-'});
    assert |p1.0| == 2 && |p2.0| == 2 && |p3.0| == 2 && |p4.0| == 2 && |p4.1| == 2;
    assert s[5..7] == p1.0;
    var t := ParseTimestamp(s).value;
    Pad2OfDigits(p1.0);
    DecimalStringOfDigits(s[..4]);
    assert MonthBucket(t) == s[5..7] + "_" + s[..4];
  }

  /** Lines 24-48 and the arguments of lines 50-61: every field read with
      `body.get` (None when missing), the month bucket derived before the cost
      is computed, and the same cost both stored and added. */
  function Plan(body: Value): (r: Result<Writes, PyError>)
    ensures !body.Dict? ==> r == Err(AttributeError)
    ensures body.Dict? ==>
      var f := body.fields;
      (r.Ok? <==> MonthYearOf(Lookup(f, "timestamp")).Ok?
                  && CalculateCost(Lookup(f, "input_tokens"), Lookup(f, "output_tokens"), Lookup(f, "model_id")).Ok?)
    ensures r.Ok? ==>
      var f := body.fields;
      var w := r.value;
      var cost := CalculateCost(Lookup(f, "input_tokens"), Lookup(f, "output_tokens"), Lookup(f, "model_id")).value;
      && w.transaction.Keys == {"userArn", "timestamp", "model_id", "usage", "cost"}
      && w.transaction["userArn"] == Lookup(f, "userArn") && w.transaction["timestamp"] == Lookup(f, "timestamp")
      && w.transaction["model_id"] == Lookup(f, "model_id")
      && w.transaction["usage"] == Dict(map["input_tokens" := Lookup(f, "input_tokens"), "output_tokens" := Lookup(f, "output_tokens")])
      && w.transaction["cost"] == Decimal(cost)
      && w.monthlyKey == map["userArn" := Lookup(f, "userArn"), "month_year" := Str(MonthYearOf(Lookup(f, "timestamp")).value)]
      && w.increments == map["invocations" := 1.0, "cost" := cost]
  {
    if !body.Dict? then Err(AttributeError)
    else
      var f := body.fields;
      var userArn, timestamp, modelId := Lookup(f, "userArn"), Lookup(f, "timestamp"), Lookup(f, "model_id");
      var inputTokens, outputTokens := Lookup(f, "input_tokens"), Lookup(f, "output_tokens");
      var monthYear :- MonthYearOf(timestamp);
      var cost :- CalculateCost(inputTokens, outputTokens, modelId);
      var transaction := map["userArn" := userArn, "timestamp" := timestamp, "model_id" := modelId,
                             "usage" := Dict(map["input_tokens" := inputTokens, "output_tokens" := outputTokens]),
                             "cost" := Decimal(cost)];
      assert transaction.Keys == {"userArn", "timestamp", "model_id", "usage", "cost"};
      Ok(Writes(
        transaction,
        map["userArn" := userArn, "month_year" := Str(monthYear)],
        map["invocations" := 1.0, "cost" := cost]))
  }

  /** A successful put stores the transaction under (userArn, timestamp),
      replacing any item there, with the priced cost, and leaves every other
      transaction alone. */
  lemma TransactionStored(body: Value, w: Writes, txItems: map<Key, Item>)
    requires Plan(body) == Ok(w)
    requires Put(TransactionsSchema, txItems, w.transaction).Ok?
    ensures
      var arn, ts := Lookup(body.fields, "userArn"), Lookup(body.fields, "timestamp");
      var tx := Put(TransactionsSchema, txItems, w.transaction).value;
      && arn.Str? && arn.s != "" && ts.Str?
      && tx.Keys == txItems.Keys + {(arn.s, ts.s)}
      && tx[(arn.s, ts.s)]["cost"] == N(w.increments["cost"])
      && (forall k :: k in txItems && k != (arn.s, ts.s) ==> tx[k] == txItems[k])
  {
    var stored := SerializeItem(w.transaction).value;
    assert stored["userArn"] == Serialize(w.transaction["userArn"]);
    assert stored["timestamp"] == Serialize(w.transaction["timestamp"]);
    assert stored["cost"] == Serialize(w.transaction["cost"]);
  }

  /** A token count of 39 or more digits is priced (at 0 for an unpriced
      model) but boto3 refuses the transaction it sits in, so nothing is
      stored. */
  lemma OversizedCountNotStored(body: Value, w: Writes, txItems: map<Key, Item>, n: int)
    requires Plan(body) == Ok(w)
    requires Lookup(body.fields, "input_tokens") == Int(n) || Lookup(body.fields, "output_tokens") == Int(n)
    requires n <= -NumberDigitsLimit || NumberDigitsLimit <= n
    ensures Put(TransactionsSchema, txItems, w.transaction) == Err(NotSerializable)
  {
    var usage := w.transaction["usage"];
    assert !Serializable(usage.fields["input_tokens"]) || !Serializable(usage.fields["output_tokens"]);
    assert !Serializable(usage);
  }

  /** The monthly record the update names is the caller's record for the
      bucket of the request's timestamp. */
  lemma MonthlyKeyOfPlan(body: Value, w: Writes)
    requires Plan(body) == Ok(w) && KeyArgument(MonthlyUsageSchema, w.monthlyKey).Ok?
    ensures
      var arn, ts := Lookup(body.fields, "userArn"), Lookup(body.fields, "timestamp");
      && arn.Str? && arn.s != ""
      && KeyArgument(MonthlyUsageSchema, w.monthlyKey).value == (arn.s, MonthYearOf(ts).value)
  {
    var k := KeyArgument(MonthlyUsageSchema, w.monthlyKey).value;
    assert w.monthlyKey["userArn"] == Str(k.0) && w.monthlyKey["month_year"] == Str(k.1);
  }

  /** The amounts the monthly update adds: one invocation and the price. */
  lemma PlanIncrements(body: Value, w: Writes)
    requires Plan(body) == Ok(w)
    ensures w.increments.Keys == {"invocations", "cost"} && w.increments["invocations"] == 1.0
  {
  }

  /** The monthly records after one call of price `cost` was counted under
      k: the record of k holds one more invocation and `cost` more than
      before (an absent record or attribute counting as zero), and every
      other month is as it was. */
  predicate Accumulated(before: map<Key, Item>, after: map<Key, Item>, k: Key, cost: real) {
    var record := Current(MonthlyUsageSchema, before, k);
    && after.Keys == before.Keys + {k}
    && "invocations" in after[k] && "cost" in after[k]
    && after[k]["invocations"] == N(NumberOr0(record, "invocations") + 1.0)
    && after[k]["cost"] == N(NumberOr0(record, "cost") + cost)
    && forall k' :: k' in before && k' != k ==> after[k'] == before[k']
  }

  /** A successful update counts the call under (userArn, bucket) with
      exactly the cost stored in the transaction. */
  lemma MonthlyAccumulated(body: Value, w: Writes, monthlyItems: map<Key, Item>, arn: string, bucket: string)
    requires Plan(body) == Ok(w)
    requires Add(MonthlyUsageSchema, monthlyItems, w.monthlyKey, w.increments).Ok?
    requires Lookup(body.fields, "userArn") == Str(arn) && MonthYearOf(Lookup(body.fields, "timestamp")) == Ok(bucket)
    ensures "cost" in w.increments && w.transaction["cost"] == Decimal(w.increments["cost"])
    ensures Accumulated(monthlyItems, Add(MonthlyUsageSchema, monthlyItems, w.monthlyKey, w.increments).value,
                        (arn, bucket), w.increments["cost"])
  {
    MonthlyKeyOfPlan(body, w);
    PlanIncrements(body, w);
    CountedUnder(w, monthlyItems, (arn, bucket));
  }

  /** The update of the record under k with one invocation and a cost. */
  lemma CountedUnder(w: Writes, monthlyItems: map<Key, Item>, k: Key)
    requires KeyArgument(MonthlyUsageSchema, w.monthlyKey) == Ok(k)
    requires w.increments.Keys == {"invocations", "cost"} && w.increments["invocations"] == 1.0
    requires Add(MonthlyUsageSchema, monthlyItems, w.monthlyKey, w.increments).Ok?
    ensures Accumulated(monthlyItems, Add(MonthlyUsageSchema, monthlyItems, w.monthlyKey, w.increments).value,
                        k, w.increments["cost"])
  {
    AddedUnder(MonthlyUsageSchema, monthlyItems, w.monthlyKey, w.increments, k);
  }

  /** The handler. It raises before touching either table when the body is not
      an object, the timestamp is missing or malformed, or a priced model's
      token counts are not numbers; the transaction is written before the
      monthly record, so a refused monthly update leaves the transaction in
      place. */
  method Handle(body: Value, transactions: Table, monthly: Table) returns (r: Result<Value, Failure>)
    requires transactions != monthly
    requires transactions.schema == TransactionsSchema && monthly.schema == MonthlyUsageSchema
    requires transactions.Valid() && monthly.Valid()
    modifies transactions, monthly
    ensures transactions.Valid() && monthly.Valid()
    ensures match Plan(body)
      case Err(e) =>
        r == Err(Raised(e)) && transactions.items == old(transactions.items) && monthly.items == old(monthly.items)
      case Ok(w) =>
        match Put(TransactionsSchema, old(transactions.items), w.transaction)
        case Err(e) =>
          r == Err(Rejected(e)) && transactions.items == old(transactions.items) && monthly.items == old(monthly.items)
        case Ok(tx) =>
          && transactions.items == tx
          && match Add(MonthlyUsageSchema, old(monthly.items), w.monthlyKey, w.increments)
             case Err(e) => r == Err(Rejected(e)) && monthly.items == old(monthly.items)
             case Ok(m) => r == Ok(Acknowledged) && monthly.items == m
  {
    var plan := Plan(body);
    if plan.Err? {
      return Err(Raised(plan.error));
    }
    var w := plan.value;
    var putError := transactions.PutItem(w.transaction);
    if putError.Some? {
      return Err(Rejected(putError.value));
    }
    var addError := monthly.UpdateItem(w.monthlyKey, w.increments);
    if addError.Some? {
      return Err(Rejected(addError.value));
    }
    return Ok(Acknowledged);
  }
}
