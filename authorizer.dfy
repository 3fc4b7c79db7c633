/** The invocation recorder Lambda (functions/inference-authorizer-lambda/main.py):
    triggered by the CloudTrail event of a Bedrock model invocation, it stores
    one transaction per event and counts the invocation in the caller's
    monthly record. The wall clock, read only when the event carries no
    `eventTime`, is the parameter `now` (the ISO text of the current UTC time). */
module InvocationRecorder {
  import opened Common
  import opened Calendar
  import opened Store

  /** `s.replace("Z", "+00:00")`. */
  function ReplaceZ(s: string): (r: string)
    ensures |r| >= |s|
  {
    if s == [] then []
    else (if s[0] == 'Z' then "+00:00" else [s[0]]) + ReplaceZ(s[1..])
  }

  lemma {:induction false} ReplaceZAppend(a: string, b: string)
    ensures ReplaceZ(a + b) == ReplaceZ(a) + ReplaceZ(b)
  {
    if a != [] {
      assert (a + b)[1..] == a[1..] + b;
      ReplaceZAppend(a[1..], b);
    } else {
      assert a + b == b;
    }
  }

  /** The replacement leaves a string without `Z` as it is. */
  lemma {:induction false} ReplaceZKeepsPlain(s: string)
    requires forall i :: 0 <= i < |s| ==> s[i] != 'Z'
    ensures ReplaceZ(s) == s
  {
    if s != [] {
      ReplaceZKeepsPlain(s[1..]);
    }
  }

  /** The replacement only inserts text starting with `+`, so up to the first
      `+` of the result the original string is unchanged. */
  lemma {:induction false} ReplaceZKeepsPrefix(s: string, n: nat)
    requires n <= |ReplaceZ(s)| && forall i :: 0 <= i < n ==> ReplaceZ(s)[i] != '+'
    ensures n <= |s| && ReplaceZ(s)[..n] == s[..n]
  {
    if n > 0 {
      assert s != [];
      assert ReplaceZ(s)[0] != '+';
      var r := ReplaceZ(s[1..]);
      assert ReplaceZ(s) == [s[0]] + r;
      forall i | 0 <= i < n - 1
        ensures r[i] != '+'
      {
        assert r[i] == ReplaceZ(s)[i + 1];
      }
      ReplaceZKeepsPrefix(s[1..], n - 1);
      assert ReplaceZ(s)[..n] == [s[0]] + r[..n - 1];
      assert s[..n] == [s[0]] + s[1..][..n - 1];
    }
  }

  /** Character i of the NUL-terminated text CPython's C parser walks. */
  function At(s: string, i: nat): char {
    if i < |s| then s[i] else '\0'
  }

  /** `parse_digits`: n ASCII digits starting at i, most significant first. */
  function Digits(s: string, i: nat, n: nat): (r: Option<nat>)
    ensures r.Some? <==> forall j :: i <= j < i + n ==> IsDigit(At(s, j))
  {
    if n == 0 then Some(0)
    else match Digits(s, i, n - 1)
      case None => None
      case Some(v) => if IsDigit(At(s, i + n - 1)) then Some(v * 10 + DigitValue(At(s, i + n - 1))) else None
  }

  /** Digits inside the text read as the number they spell. */
  lemma {:induction false} DigitsValue(s: string, i: nat, n: nat)
    requires i + n <= |s| && AllDigits(s[i..i + n])
    ensures Digits(s, i, n) == Some(NatValue(s[i..i + n]))
  {
    if n > 0 {
      assert s[i..i + n - 1] == s[i..i + n][..n - 1];
      DigitsValue(s, i, n - 1);
      assert At(s, i + n - 1) == s[i..i + n][n - 1];
    }
  }

  datatype Clock = Clock(hour: nat, minute: nat, second: nat, microsecond: nat)

  /** What `parse_hh_mm_ss_ff` reports: status 0 when the part ends right after
      what was read, 1 when another character follows, negative on failure. */
  datatype Scan = Scan(status: int, clock: Clock)

  function ClockOf(fields: seq<nat>, microsecond: nat): Clock
    requires 1 <= |fields| <= 3
  {
    Clock(fields[0], if |fields| > 1 then fields[1] else 0, if |fields| > 2 then fields[2] else 0, microsecond)
  }

  /** The fraction of a second: exactly three or six digits up to the end of
      the part, three digits counting as milliseconds. */
  function ScanFraction(s: string, p: nat, end: nat, fields: seq<nat>): (r: Scan)
    requires 1 <= |fields| <= 3 && p < end
    ensures r.status >= 0 ==> (end - p == 3 || end - p == 6) && Digits(s, p, end - p).Some?
    ensures r.status >= 0 ==> r.clock.microsecond == Digits(s, p, end - p).value * (if end - p == 3 then 1000 else 1)
    ensures r.clock.hour == fields[0]
  {
    var len := end - p;
    if len != 3 && len != 6 then Scan(-3, ClockOf(fields, 0))
    else match Digits(s, p, len)
      case None => Scan(-3, ClockOf(fields, 0))
      case Some(f) => Scan(if At(s, p + len) != '\0' then 1 else 0, ClockOf(fields, if len == 3 then f * 1000 else f))
  }

  /** `parse_hh_mm_ss_ff` over s[p..end] once `fields` have been read: two
      digits, then the character after them decides. Reaching `end` stops the
      scan; `:` leads to the next field (after the third, to a fraction), `.`
      to a fraction, anything else is a malformed separator. */
  function ScanFields(s: string, p: nat, end: nat, fields: seq<nat>): (r: Scan)
    requires |fields| <= 2
    ensures r.status >= 0 ==> Digits(s, p, 2).Some?
    decreases 2 - |fields|
  {
    match Digits(s, p, 2)
    case None => Scan(-3, Clock(0, 0, 0, 0))
    case Some(v) =>
      var c, q := At(s, p + 2), p + 3;
      if q >= end then Scan(if c != '\0' then 1 else 0, ClockOf(fields + [v], 0))
      else if c == ':' && |fields| < 2 then ScanFields(s, q, end, fields + [v])
      else if c == ':' || c == '.' then ScanFraction(s, q, end, fields + [v])
      else Scan(-4, ClockOf(fields + [v], 0))
  }

  /** `parse_isoformat_time` on the text after the date and separator: the
      UTC offset starts at the first `+` or `-` and must be 6, 9 or 16
      characters long, and its fields are scanned like the time's. The result
      is the clock and the offset in microseconds, None for a naive time. */
  function ParseTimePart(t: string): (r: Option<(Clock, Option<int>)>)
    ensures r.Some? ==> t != []
    ensures r.Some? ==> (r.value.1.None? <==> forall i :: 0 <= i < |t| ==> t[i] != '+' && t[i] != '-')
    ensures r.Some? && r.value.1.Some? ==> var n := |t| - FirstIndex(t, {'+', '-'}); n == 6 || n == 9 || n == 16
  {
    // an empty part fails on its first digit
    if t == [] then None
    else
      var tz := FirstIndex(t, {'+', '-'});
      var time := ScanFields(t, 0, tz, []);
      if time.status < 0 then None
      else if tz == |t| then (if time.status == 1 then None else Some((time.clock, None)))
      else
        var tzlen := |t| - tz;
        if tzlen != 6 && tzlen != 9 && tzlen != 16 then None
        else
          var sign := if t[tz] == '-' then -1 else 1;
          var offset := ScanFields(t, tz + 1, |t|, []);
          if offset.status != 0 then None
          else
            var c := offset.clock;
            Some((time.clock, Some(sign * ((c.hour * 3600 + c.minute * 60 + c.second) * 1000000 + c.microsecond))))
  }

  /** A date and time of day with an optional UTC offset in microseconds. */
  datatype Moment = Moment(year: int, month: int, day: int, clock: Clock, offset: Option<int>)

  /** The date part of `fromisoformat`: exactly `YYYY-MM-DD` in ASCII digits. */
  predicate DateShaped(s: string) {
    |s| >= 10 && AllDigits(s[..4]) && s[4] == '-' && AllDigits(s[5..7]) && s[7] == '-' && AllDigits(s[8..10])
  }

  /** `datetime.fromisoformat` of Python 3.10, which the deployed runtime uses:
      the date, then when more follows any single separator character and the
      time part; the fields checked as `datetime` and `timezone` do (an
      offset strictly within a day). None where Python raises ValueError. */
  function FromIsoFormat(s: string): (r: Option<Moment>)
    ensures r.Some? ==> DateShaped(s)
    ensures r.Some? ==> r.value.year == NatValue(s[..4]) && r.value.month == NatValue(s[5..7])
                        && r.value.day == NatValue(s[8..10]) && ValidDate(r.value.year, r.value.month, r.value.day)
  {
    if !DateShaped(s) then None
    else
      var y, m, d := NatValue(s[..4]), NatValue(s[5..7]), NatValue(s[8..10]);
      var time :- if |s| > 10 then ParseTimePart(s[11..]) else Some((Clock(0, 0, 0, 0), None));
      var c := time.0;
      if ValidDate(y, m, d) && c.hour <= 23 && c.minute <= 59 && c.second <= 59 && c.microsecond <= 999999
         && (time.1.Some? ==> -86400000000 < time.1.value < 86400000000)
      then Some(Moment(y, m, d, c, time.1))
      else None
  }

  /** `_iso_to_month_year`: `strftime("%Y-%m")` of the parsed time, in the
      time's own offset (no conversion to UTC). A value that is not a string
      has no `replace` method. */
  function IsoToMonthYear(v: Value): (r: Result<string, PyError>)
    ensures r.Ok? <==> v.Str? && FromIsoFormat(ReplaceZ(v.s)).Some?
    ensures r.Err? ==> r.error == (if v.Str? then ValueError else AttributeError)
    ensures r.Ok? ==> v.s != "" && r.value != ""
  {
    if !v.Str? then Err(AttributeError)
    else match FromIsoFormat(ReplaceZ(v.s))
      case None => Err(ValueError)
      case Some(t) => Ok(DecimalString(t.year as nat) + "-" + Pad2(t.month as nat))
  }

  /** The bucket is the year and month digits of the timestamp as written,
      whatever the time of day and offset (the year loses leading zeros). */
  lemma MonthOfEventTime(s: string)
    requires IsoToMonthYear(Str(s)).Ok?
    ensures DateShaped(s) && IsoToMonthYear(Str(s)).value
            == (if s[0] == '0' then DecimalString(NatValue(s[..4])) else s[..4]) + "-" + s[5..7]
  {
    var r := ReplaceZ(s);
    var t := FromIsoFormat(r).value;
    forall i | 0 <= i < 10
      ensures r[i] != '+'
    {
      assert i < 4 ==> r[..4][i] == r[i];
      assert 5 <= i < 7 ==> r[5..7][i - 5] == r[i];
      assert 8 <= i < 10 ==> r[8..10][i - 8] == r[i];
    }
    ReplaceZKeepsPrefix(s, 10);
    assert r[..4] == s[..4] && r[5..7] == s[5..7];
    Pad2OfDigits(s[5..7]);
    if s[0] != '0' {
      DecimalStringOfDigits(s[..4]);
    }
  }

  /** The number two digits at i spell. */
  function Two(s: string, i: nat): nat
    requires i + 2 <= |s| && IsDigit(s[i]) && IsDigit(s[i + 1])
  {
    DigitValue(s[i]) * 10 + DigitValue(s[i + 1])
  }

  /** The shape of CloudTrail's `eventTime`: `YYYY-MM-DDTHH:MM:SSZ`. */
  predicate CloudTrailShaped(s: string) {
    && |s| == 20 && DateShaped(s) && s[10] == 'T' && s[13] == ':' && s[16] == ':' && s[19] == 'Z'
    && IsDigit(s[11]) && IsDigit(s[12]) && IsDigit(s[14]) && IsDigit(s[15]) && IsDigit(s[17]) && IsDigit(s[18])
  }

  /** A CloudTrail `eventTime` is accepted whenever its fields form a valid
      date and time of day, and its bucket is then its year and month. */
  lemma CloudTrailTimeAccepted(s: string)
    requires CloudTrailShaped(s)
    requires ValidDate(NatValue(s[..4]), NatValue(s[5..7]), NatValue(s[8..10]))
    requires Two(s, 11) <= 23 && Two(s, 14) <= 59 && Two(s, 17) <= 59
    ensures IsoToMonthYear(Str(s)).Ok?
    ensures s[0] != '0' ==> IsoToMonthYear(Str(s)).value == s[..4] + "-" + s[5..7]
  {
    var plain := s[..19];
    forall i | 0 <= i < 19
      ensures plain[i] != 'Z'
    {
      assert plain[i] == s[i];
      if i < 4 { assert s[..4][i] == s[i]; }
      else if 5 <= i < 7 { assert s[5..7][i - 5] == s[i]; }
      else if 8 <= i < 10 { assert s[8..10][i - 8] == s[i]; }
    }
    ReplaceZKeepsPlain(plain);
    assert s == plain + "Z";
    ReplaceZAppend(plain, "Z");
    var r := plain + "+00:00";
    assert ReplaceZ(s) == r;
    assert r[..19] == s[..19];
    assert r[..4] == s[..4] && r[5..7] == s[5..7] && r[8..10] == s[8..10];
    var t := r[11..];
    assert |t| == 14;
    forall j | 0 <= j < 8
      ensures t[j] == s[11 + j]
    {
      assert t[j] == r[11 + j] == plain[11 + j];
    }
    assert t[8] == '+' && t[9] == '0' && t[10] == '0' && t[11] == ':' && t[12] == '0' && t[13] == '0';
    UtcClockParsed(t);
    assert FromIsoFormat(r).Some?;
    MonthOfEventTime(s);
  }

  /** `HH:MM:SS+00:00` reads as that time of day at offset zero. */
  lemma UtcClockParsed(t: string)
    requires |t| == 14 && IsDigit(t[0]) && IsDigit(t[1]) && t[2] == ':' && IsDigit(t[3]) && IsDigit(t[4]) && t[5] == ':'
    requires IsDigit(t[6]) && IsDigit(t[7]) && t[8] == '+' && t[9] == '0' && t[10] == '0' && t[11] == ':' && t[12] == '0' && t[13] == '0'
    ensures ParseTimePart(t) == Some((Clock(Two(t, 0), Two(t, 3), Two(t, 6), 0), Some(0)))
  {
    FirstIndexAt(t, {'+', '-'}, 8);
    var hh, mm, ss := Two(t, 0), Two(t, 3), Two(t, 6);
    DigitPair(t, 0);
    DigitPair(t, 3);
    DigitPair(t, 6);
    DigitPair(t, 9);
    DigitPair(t, 12);
    assert ScanFields(t, 6, 8, [hh, mm]) == Scan(1, Clock(hh, mm, ss, 0));
    assert ScanFields(t, 3, 8, [hh]) == Scan(1, Clock(hh, mm, ss, 0));
    assert ScanFields(t, 0, 8, []) == Scan(1, Clock(hh, mm, ss, 0));
    assert ScanFields(t, 12, 14, [0]) == Scan(0, Clock(0, 0, 0, 0));
    assert ScanFields(t, 9, 14, []) == Scan(0, Clock(0, 0, 0, 0));
  }

  /** Two digits read by `parse_digits`. */
  lemma DigitPair(s: string, i: nat)
    requires i + 2 <= |s| && IsDigit(s[i]) && IsDigit(s[i + 1])
    ensures Digits(s, i, 2) == Some(Two(s, i))
  {
    assert Digits(s, i, 1) == Some(DigitValue(s[i]));
  }

  /** The first index found is the first character in the set. */
  lemma FirstIndexAt(s: string, seps: set<char>, i: nat)
    requires i < |s| && s[i] in seps && forall j :: 0 <= j < i ==> s[j] !in seps
    ensures FirstIndex(s, seps) == i
  {
  }

  /** `_principal_to_user_id`: the caller's ARN, else its principal id, else
      "unknown", each taken only when truthy; a missing or empty identity
      counts as `{}`, any other identity that is not a dict has no `get`. */
  function PrincipalToUserId(detail: map<string, Value>): (r: Result<Value, PyError>)
    ensures r.Err? <==> Truthy(Lookup(detail, "userIdentity")) && !Lookup(detail, "userIdentity").Dict?
    ensures r.Err? ==> r.error == AttributeError
    ensures r.Ok? ==> Truthy(r.value)
    ensures r.Ok? && !Truthy(Lookup(detail, "userIdentity")) ==> r.value == Str("unknown")
    ensures r.Ok? && Truthy(Lookup(detail, "userIdentity")) ==>
      var ui := Lookup(detail, "userIdentity").fields;
      r.value == (if Truthy(Lookup(ui, "arn")) then Lookup(ui, "arn")
                  else if Truthy(Lookup(ui, "principalId")) then Lookup(ui, "principalId")
                  else Str("unknown"))
  {
    var ui := GetOrEmpty(detail, "userIdentity");
    if !ui.Dict? then Err(AttributeError)
    else Ok(Or(Or(Lookup(ui.fields, "arn"), Lookup(ui.fields, "principalId")), Str("unknown")))
  }

  /** The key attribute the handler writes the user id under. */
  const WrittenUserKey := "userId"

  /** The partition key both tables are deployed with. */
  const DeployedUserKey := "userArn"

  /** The zero token counts the handler records (a CloudTrail event carries none). */
  const ZeroUsage := Dict(map["input_tokens" := Int(0), "output_tokens" := Int(0), "total_tokens" := Int(0)])

  /** The amounts ADDed to the monthly record: one invocation and the zero counts. */
  const Counted := map["invocations" := 1.0, "input_tokens" := 0.0, "output_tokens" := 0.0, "total_tokens" := 0.0]

  /** The event time the handler records: CloudTrail's, or the current time
      when it is missing or empty. */
  function EventTime(detail: map<string, Value>, now: string): (v: Value)
    ensures Truthy(Lookup(detail, "eventTime")) ==> v == detail["eventTime"]
    ensures !Truthy(Lookup(detail, "eventTime")) ==> v == Str(now)
  {
    Or(Lookup(detail, "eventTime"), Str(now))
  }

  /** `d.get(key) or {}`: the value under key, `{}` when it is missing or
      falsy. The handler reads `detail`, `requestParameters` and
      `userIdentity` this way. */
  function GetOrEmpty(d: map<string, Value>, key: string): (v: Value)
    ensures Truthy(Lookup(d, key)) ==> key in d && v == d[key]
    ensures !Truthy(Lookup(d, key)) ==> v == EmptyDict
  {
    Or(Lookup(d, key), EmptyDict)
  }

  /** The shape of every set of writes the handler asks for: a transaction
      with the nine attributes it builds, a truthy user id, a non-empty
      event time and month bucket, zero token counts, and a monthly key
      naming the same user and bucket. */
  predicate Shaped(w: Writes, userKey: string) {
    && w.transaction.Keys == {userKey, "timestamp", "month_year", "model_id", "region", "event_name", "event_id", "source_ip", "usage"}
    && Truthy(w.transaction[userKey])
    && w.transaction["timestamp"].Str? && w.transaction["timestamp"].s != ""
    && w.transaction["month_year"].Str? && w.transaction["month_year"].s != ""
    && w.transaction["usage"] == ZeroUsage
    && w.monthlyKey == map[userKey := w.transaction[userKey], "month_year" := w.transaction["month_year"]]
    && w.increments == Counted
  }

  /** Lines 40-73: the transaction item and the monthly update built from
      the event's fields. */
  function Recording(userKey: string, userId: Value, eventTime: string, monthYear: string,
                     modelId: Value, region: Value, eventName: Value, eventId: Value, sourceIp: Value): (w: Writes)
    requires userKey == WrittenUserKey || userKey == DeployedUserKey
    requires Truthy(userId) && eventTime != "" && monthYear != ""
    ensures Shaped(w, userKey)
    ensures && w.transaction[userKey] == userId && w.transaction["timestamp"] == Str(eventTime)
            && w.transaction["month_year"] == Str(monthYear) && w.transaction["model_id"] == modelId
            && w.transaction["region"] == region && w.transaction["event_name"] == eventName
            && w.transaction["event_id"] == eventId && w.transaction["source_ip"] == sourceIp
  {
    Writes(
      map[userKey := userId, "timestamp" := Str(eventTime), "month_year" := Str(monthYear), "model_id" := modelId,
          "region" := region, "event_name" := eventName, "event_id" := eventId, "source_ip" := sourceIp,
          "usage" := ZeroUsage],
      map[userKey := userId, "month_year" := Str(monthYear)],
      Counted)
  }

  /** Lines 26-73 up to the two table calls, with the user id stored under
      `userKey`: the writes one event asks for, or the exception raised on
      the way. `detail` and `requestParameters` count as `{}` when missing or
      empty and must otherwise be dicts; the optional fields default as the
      handler says. */
  function Plan(event: Value, now: string, userKey: string): (r: Result<Writes, PyError>)
    requires userKey == WrittenUserKey || userKey == DeployedUserKey
    ensures !event.Dict? ==> r == Err(AttributeError)
    ensures event.Dict? ==>
      var detail := GetOrEmpty(event.fields, "detail");
      (r.Ok? <==> && detail.Dict? && GetOrEmpty(detail.fields, "requestParameters").Dict?
                  && PrincipalToUserId(detail.fields).Ok? && IsoToMonthYear(EventTime(detail.fields, now)).Ok?)
    ensures r.Ok? ==>
      var detail := GetOrEmpty(event.fields, "detail").fields;
      var w := r.value;
      && Shaped(w, userKey)
      && w.transaction[userKey] == PrincipalToUserId(detail).value
      && w.transaction["timestamp"] == EventTime(detail, now)
      && w.transaction["month_year"] == Str(IsoToMonthYear(EventTime(detail, now)).value)
      && w.transaction["model_id"] == LookupOr(GetOrEmpty(detail, "requestParameters").fields, "modelId", Str("unknown"))
      && w.transaction["region"] == LookupOr(detail, "awsRegion", Str("unknown"))
      && w.transaction["event_name"] == LookupOr(detail, "eventName", Str("unknown"))
      && w.transaction["event_id"] == LookupOr(detail, "eventID", Str(""))
      && w.transaction["source_ip"] == LookupOr(detail, "sourceIPAddress", Str(""))
  {
    if !event.Dict? then Err(AttributeError)
    else
      var detail := GetOrEmpty(event.fields, "detail");
      if !detail.Dict? then Err(AttributeError)
      else
        var d := detail.fields;
        var eventTime := EventTime(d, now);
        var region, eventName := LookupOr(d, "awsRegion", Str("unknown")), LookupOr(d, "eventName", Str("unknown"));
        var eventId, sourceIp := LookupOr(d, "eventID", Str("")), LookupOr(d, "sourceIPAddress", Str(""));
        var params := GetOrEmpty(d, "requestParameters");
        if !params.Dict? then Err(AttributeError)
        else
          var modelId := LookupOr(params.fields, "modelId", Str("unknown"));
          var userId :- PrincipalToUserId(d);
          var monthYear :- IsoToMonthYear(eventTime);
          Ok(Recording(userKey, userId, eventTime.s, monthYear, modelId, region, eventName, eventId, sourceIp))
  }

  /** As written, the handler names the user `userId`, an attribute neither
      table is keyed on: whatever the event, the transaction put is refused,
      so the handler raises before the monthly update, and that update would
      be refused too. */
  lemma AsWrittenStoresNothing(w: Writes, txItems: map<Key, Item>, monthlyItems: map<Key, Item>)
    requires Shaped(w, WrittenUserKey)
    ensures Put(TransactionsSchema, txItems, w.transaction).Err?
    ensures Add(MonthlyUsageSchema, monthlyItems, w.monthlyKey, w.increments).Err?
  {
    assert DeployedUserKey !in w.transaction;
    assert WrittenUserKey in w.monthlyKey.Keys;
  }

  /** The fields of the transaction that come straight from the event, which
      boto3 must be able to serialise. */
  predicate EventFieldsSerializable(w: Writes)
    requires Shaped(w, DeployedUserKey)
  {
    && Serializable(w.transaction["model_id"]) && Serializable(w.transaction["region"])
    && Serializable(w.transaction["event_name"]) && Serializable(w.transaction["event_id"])
    && Serializable(w.transaction["source_ip"])
  }

  /** The model id is a non-empty string, as the table's model-id index
      requires of the attribute. */
  predicate ModelIdIndexable(w: Writes)
    requires Shaped(w, DeployedUserKey)
  {
    w.transaction["model_id"].Str? && w.transaction["model_id"].s != ""
  }

  /** With the deployed key, the transaction is stored exactly when the user
      id is a string, the event's own fields hold no float and the model id
      is a non-empty string; it lands under
      (user id, event time) with zero usage, and no other transaction changes. */
  lemma TransactionRecorded(w: Writes, txItems: map<Key, Item>)
    requires Shaped(w, DeployedUserKey)
    ensures Put(TransactionsSchema, txItems, w.transaction).Ok?
            <==> w.transaction[DeployedUserKey].Str? && EventFieldsSerializable(w) && ModelIdIndexable(w)
    ensures Put(TransactionsSchema, txItems, w.transaction).Ok? ==>
      w.transaction[DeployedUserKey].Str? &&
      var k := (w.transaction[DeployedUserKey].s, w.transaction["timestamp"].s);
      var tx := Put(TransactionsSchema, txItems, w.transaction).value;
      && tx.Keys == txItems.Keys + {k}
      && "usage" in tx[k]
      && tx[k]["usage"] == M(map["input_tokens" := N(0.0), "output_tokens" := N(0.0), "total_tokens" := N(0.0)])
      && forall k' :: k' in txItems && k' != k ==> tx[k'] == txItems[k']
  {
    var t := w.transaction;
    var uid := t[DeployedUserKey];
    SerializableTransaction(w);
    if uid.Str? && EventFieldsSerializable(w) {
      var stored := SerializeItem(t).value;
      assert stored["model_id"] == Serialize(t["model_id"]) && stored["month_year"] == S(t["month_year"].s);
      assert stored[DeployedUserKey] == S(uid.s) && stored["timestamp"] == S(t["timestamp"].s);
      assert KeyOf(TransactionsSchema, stored) == Ok((uid.s, t["timestamp"].s));
      assert stored["usage"] == Serialize(ZeroUsage);
      ZeroUsageStored();
    } else if !uid.Str? && SerializeItem(t).Ok? {
      assert SerializeItem(t).value[DeployedUserKey] == Serialize(uid);
    }
  }

  lemma ZeroUsageStored()
    ensures Serializable(ZeroUsage)
    ensures Serialize(ZeroUsage) == M(map["input_tokens" := N(0.0), "output_tokens" := N(0.0), "total_tokens" := N(0.0)])
  {
    var m := Serialize(ZeroUsage).fields;
    assert m.Keys == {"input_tokens", "output_tokens", "total_tokens"};
  }

  /** boto3 accepts the transaction exactly when the user id and the event's
      own fields hold no float; the rest is built from strings and ints. */
  lemma SerializableTransaction(w: Writes)
    requires Shaped(w, DeployedUserKey)
    ensures SerializeItem(w.transaction).Ok? <==> Serializable(w.transaction[DeployedUserKey]) && EventFieldsSerializable(w)
  {
    var t := w.transaction;
    assert Serializable(t["month_year"]) && Serializable(t["usage"]) && Serializable(t["timestamp"]);
  }

  /** The counters this handler ADDs hold numbers, or are absent, in `item`. */
  predicate CountersNumeric(item: Item) {
    forall n :: n in Counted && n in item ==> item[n].N?
  }

  /** With the deployed key and a string user id, the monthly update is
      accepted exactly when the record's counters are numeric or absent. */
  lemma MonthlyUpdateAccepted(w: Writes, monthlyItems: map<Key, Item>)
    requires Shaped(w, DeployedUserKey) && w.transaction[DeployedUserKey].Str?
    ensures
      var k := (w.transaction[DeployedUserKey].s, w.transaction["month_year"].s);
      Add(MonthlyUsageSchema, monthlyItems, w.monthlyKey, w.increments).Ok?
      <==> CountersNumeric(Current(MonthlyUsageSchema, monthlyItems, k))
  {
    MonthlyKeyOfShaped(w);
    CountersAreNotKeys();
  }

  /** An accepted monthly update adds one invocation to the record of the
      user id and month bucket, leaves its token totals at their values
      (zero for a new record), and touches no other month. */
  lemma InvocationCounted(w: Writes, monthlyItems: map<Key, Item>)
    requires Shaped(w, DeployedUserKey) && w.transaction[DeployedUserKey].Str?
    requires Add(MonthlyUsageSchema, monthlyItems, w.monthlyKey, w.increments).Ok?
    ensures
      var k := (w.transaction[DeployedUserKey].s, w.transaction["month_year"].s);
      var before := Current(MonthlyUsageSchema, monthlyItems, k);
      var r := Add(MonthlyUsageSchema, monthlyItems, w.monthlyKey, w.increments).value;
      && r.Keys == monthlyItems.Keys + {k}
      && "invocations" in r[k]
      && r[k]["invocations"] == N(NumberOr0(before, "invocations") + 1.0)
      && (forall n :: n in Counted && n != "invocations" ==> n in r[k] && r[k][n] == N(NumberOr0(before, n)))
      && forall k' :: k' in monthlyItems && k' != k ==> r[k'] == monthlyItems[k']
  {
    var k := (w.transaction[DeployedUserKey].s, w.transaction["month_year"].s);
    MonthlyKeyOfShaped(w);
    CountedAmounts();
    AddedUnder(MonthlyUsageSchema, monthlyItems, w.monthlyKey, w.increments, k);
  }

  /** The handler adds one to the invocation count and zero to every token total. */
  lemma CountedAmounts()
    ensures "invocations" in Counted
    ensures forall n :: n in Counted ==> Counted[n] == if n == "invocations" then 1.0 else 0.0
  {
  }

  /** The counters the handler adds to are none of the monthly table's keys. */
  lemma CountersAreNotKeys()
    ensures MonthlyUsageSchema.partitionKey !in Counted && MonthlyUsageSchema.sortKey !in Counted
    ensures MonthlyUsageSchema.indexKeys == {}
  {
  }

  /** The monthly update names the record of the user id and month bucket. */
  lemma MonthlyKeyOfShaped(w: Writes)
    requires Shaped(w, DeployedUserKey) && w.transaction[DeployedUserKey].Str?
    ensures KeyArgument(MonthlyUsageSchema, w.monthlyKey)
            == Ok((w.transaction[DeployedUserKey].s, w.transaction["month_year"].s))
  {
  }

  /** The handler, with the user id stored under `userKey` (the source writes
      `WrittenUserKey`; `DeployedUserKey` is what the tables need). Nothing
      is written when the event is malformed; the transaction is written
      before the monthly record. */
  method Handle(event: Value, now: string, userKey: string, transactions: Table, monthly: Table)
    returns (r: Result<Value, Failure>)
    requires userKey == WrittenUserKey || userKey == DeployedUserKey
    requires transactions != monthly
    requires transactions.schema == TransactionsSchema && monthly.schema == MonthlyUsageSchema
    requires transactions.Valid() && monthly.Valid()
    modifies transactions, monthly
    ensures transactions.Valid() && monthly.Valid()
    ensures match Plan(event, now, userKey)
      case Err(e) =>
        r == Err(Raised(e)) && transactions.items == old(transactions.items) && monthly.items == old(monthly.items)
      case Ok(w) =>
        match Put(TransactionsSchema, old(transactions.items), w.transaction)
        case Err(e) =>
          r == Err(Rejected(e)) && transactions.items == old(transactions.items) && monthly.items == old(monthly.items)
        case Ok(tx) =>
          && transactions.items == tx
          && match Add(MonthlyUsageSchema, old(monthly.items), w.monthlyKey, w.increments)
             case Err(e) => r == Err(Rejected(e)) && monthly.items == old(monthly.items)
             case Ok(m) => r == Ok(Acknowledged) && monthly.items == m
  {
    var plan := Plan(event, now, userKey);
    if plan.Err? {
      return Err(Raised(plan.error));
    }
    var w := plan.value;
    var putError := transactions.PutItem(w.transaction);
    if putError.Some? {
      return Err(Rejected(putError.value));
    }
    var addError := monthly.UpdateItem(w.monthlyKey, w.increments);
    if addError.Some? {
      return Err(Rejected(addError.value));
    }
    return Ok(Acknowledged);
  }
}
