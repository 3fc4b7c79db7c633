# Bedrock usage metering, modelled in Dafny

This project models five AWS Lambda handlers of the blueprint chat stack and
proves properties of them:

- the **usage ledger** (`functions/inference-logger-lambda/main.py`)
- the **invocation recorder** (`functions/inference-authorizer-lambda/main.py`)
- the **usage lookup** (`functions/inference-usage-lambda/main.py`)
- the **non-streaming completion proxy** (`functions/inference-proxy-lambda/main.py`)
- the **streaming relay** (`functions/inference-proxy-lambda/index.ts`)

## What each handler does

**Usage ledger.** Prices one completed model call from its token counts.
It stores the call as a transaction item and ADDs one invocation and the
price to the caller's monthly record.

**Invocation recorder.** Runs on the CloudTrail event of a Bedrock
invocation. It resolves the caller, derives a month bucket from the event
time, stores a zero-usage transaction and counts the invocation.

**Usage lookup.** Reports the stored monthly cost, or 0, next to the
configured limit. It never compares the two.

**Completion proxy.** Validates a chat request, clamps its token budget and
calls one model. It maps the reply, or the error, to an HTTP response.

**Streaming relay.** Forwards a Converse request and writes one JSON line per
stream event, then ends the response. On an error it writes two error lines
after whatever was already written, then ends the response.

## Modules

| file | module | what it holds |
|---|---|---|
| `common.dfy` | `Common` | Python values as JSON and Lambda events deliver them, and the exceptions the handlers raise |
| `calendar.dfy` | `Calendar` | decimal digits and Python's `datetime` calendar |
| `store.dfy` | `Store` | the two DynamoDB tables |
| `logger.dfy` | `UsageLedger` | the usage ledger |
| `authorizer.dfy` | `InvocationRecorder` | the invocation recorder |
| `usage.dfy` | `UsageLookup` | the usage lookup |
| `proxy.dfy` | `CompletionProxy` | the completion proxy |
| `relay.dfy` | `StreamRelay` | the streaming relay |
| `readback.dfy` | `LedgerReadBack` | where the ledger and the lookup meet |

In `store.dfy`, the pure functions `Put`, `Add` and `Get` specify
`put_item`, `update_item` with `ADD`, and `get_item`. The class `Table`
holds the items and specifies its methods by those functions. Table keys
and secondary-index keys follow the deployed stack
(`lib/blueprint_chat_cdk-stack.ts`).

## How the model is built

Each handler that writes to a table is a method over `Table` objects. The
method is proved against a pure `Plan` function, which computes what the
handler asks to write or which Python exception it raises first. The
lemmas then describe the tables after the writes.

**Streaming relay.** The relay writes to a `ResponseStream` class through its
`Write` and `End` methods. The relay method's loop carries the invariant
that ties the lines written to the events read so far.

**Inputs the handlers read from outside.** These are parameters of the model:

- the parsed request body (JSON text is not parsed here);
- the Bedrock backend, as a function from the call to its outcome;
- `JSON.stringify` in the relay;
- the current time, which the recorder uses when an event has no `eventTime` or an empty one;
- the settings read from the environment: `GLOBAL_MAX_TOKENS_PER_CALL` as
  `ceiling`, and `MONTHLY_LIMIT` as `limit`.

**Cost.** Cost is an exact `real` computed with the source's own per-token
rates. `CalculateCost` states it in units of 1e-8 USD:

- Haiku: 25 per input token and 125 per output token.
- Sonnet: 300 per input token and 1500 per output token.

**Timestamps.** The ledger's `strptime` and the recorder's
`fromisoformat` are modelled character by character.

- `strptime` takes one- or two-digit fields and a `T` in either case.
- `fromisoformat` follows CPython 3.10's C parser, the runtime the stack
  deploys:
  - any separator character after the date is accepted;
  - the time fields are two digits each;
  - a fraction has 3 or 6 digits;
  - an offset is 6, 9 or 16 characters long.

## Behaviour worth noting

- **Two month-bucket formats.** The ledger buckets by `MM_YYYY`
  (`dt.strftime("%m_%Y")`). The recorder buckets by `YYYY-MM`, and it
  takes the date as written with no conversion to UTC.
- **Cost is stored as a Decimal.** The ledger stores the cost as a
  `Decimal` made from the float's text, not as a float.
- **The recorder writes `userId`.** It names the user with the attribute
  `userId`. Both tables are keyed on `userArn` (see Findings).
- **No credential check or quota rejection.** Neither happens in any of
  these handlers. The lookup only reports usage next to the limit.
- **`decodeChunkBytes` is never called.** The relay handler does not use
  it. It is modelled on its own.
- **The relay does not validate or clamp.** It forwards the five request
  fields verbatim.

## Model

| member | source | states |
|---|---|---|
| `Common.Lookup` | functions/inference-logger-lambda/main.py:26-30 | `d.get(key)` gives the stored value for a present key and None for a missing one |
| `Common.LookupOr` | functions/inference-authorizer-lambda/main.py:29-32 | `d.get(key, default)` uses the default only for a missing key, not for a stored None |
| `Common.Or` | functions/inference-authorizer-lambda/main.py:21-22 | `a or b` is `a` when `a` is truthy, otherwise `b` |
| `Common.FloatOperand` | functions/inference-logger-lambda/main.py:17-19 | a float can be multiplied by a value exactly when it is a float, a bool or an int of magnitude below 2^1024 - 2^970, and the operand is the value's number; a larger int raises OverflowError, a Decimal or a non-number TypeError |
| `Common.AsNumber` | functions/inference-proxy-lambda/main.py:31 | `min` can compare a value with an int exactly when it is an int, float, Decimal or bool |
| `Calendar.DecimalString` | functions/inference-logger-lambda/main.py:33 | `%Y` prints a non-empty string of digits |
| `Calendar.Pad2` | functions/inference-logger-lambda/main.py:33 | `%m` prints exactly two digits |
| `Calendar.DecimalStringRoundTrip` | functions/inference-logger-lambda/main.py:32-33 | reading back the printed year gives the year |
| `Calendar.DecimalStringOfDigits` | functions/inference-logger-lambda/main.py:32-33 | a digit string with no leading zero is what printing its value gives back |
| `Calendar.DaysInMonth` | functions/inference-logger-lambda/main.py:32 | every month has 28 to 31 days |
| `Calendar.Cut` | functions/inference-logger-lambda/main.py:32 | splitting at a literal separator drops exactly one character |
| `Calendar.CutSplits` | functions/inference-logger-lambda/main.py:32 | the split is at the first separator, and the text rejoins to the input |
| `Calendar.CutOfJoin` | functions/inference-logger-lambda/main.py:32 | a field free of separators is recovered by splitting |
| `Calendar.FirstIndex` | functions/inference-authorizer-lambda/main.py:16 | the index found is the first `+` or `-` of the time part, or the end |
| `Store.Serialize` | functions/inference-logger-lambda/main.py:50 | boto3 stores a string as a string attribute and nothing else as one |
| `Store.SerializeItem` | functions/inference-logger-lambda/main.py:50 | an item is accepted exactly when it holds no float and no int of 39 or more digits; its attribute names are kept |
| `Store.KeyOf` | lib/blueprint_chat_cdk-stack.ts:20-26 | an item is keyed exactly when both key attributes are non-empty strings, and the key is their values (size limits are under Left out) |
| `Store.KeyArgument` | functions/inference-usage-lambda/main.py:22 | a `Key=` argument is accepted only with exactly the schema's two attributes as non-empty strings, and always then |
| `Store.Put` | functions/inference-logger-lambda/main.py:50 | `put_item` succeeds exactly when the item serialises, is keyed and has valid index keys (size limits are under Left out); it replaces the item under its key and leaves every other key alone |
| `Store.Added` | functions/inference-logger-lambda/main.py:54-56 | ADD grows each named number by its delta, a missing one counting as 0, and keeps the other attributes |
| `Store.Add` | functions/inference-logger-lambda/main.py:52-62 | `update_item` ADD fails on a bad key, on a key or index attribute, or on a non-number; otherwise it creates or grows the record under the key and changes no other record |
| `Store.Get` | functions/inference-usage-lambda/main.py:22-24 | `get_item` fails exactly on a bad key; otherwise it gives the stored item or none |
| `Store.AddedUnder` | functions/inference-logger-lambda/main.py:52-62 | after an ADD, every named attribute of the record equals its previous number (or 0) plus the delta, and other records are unchanged |
| `Store.PutKeepsWellKeyed` | functions/inference-logger-lambda/main.py:50 | after a put, every stored item still carries its own key |
| `Store.AddKeepsWellKeyed` | functions/inference-logger-lambda/main.py:52-62 | after an ADD, every stored item still carries its own key |
| `Store.StoredItemsNonEmpty` | functions/inference-usage-lambda/main.py:27 | a stored item is never empty, so Python finds it truthy |
| `Store.Table.constructor` | lib/blueprint_chat_cdk-stack.ts:15-53 | a table is created empty with its key schema |
| `Store.Table.PutItem` | functions/inference-logger-lambda/main.py:50 | the table afterwards is the put's result, or unchanged with the error reported |
| `Store.Table.GetItem` | functions/inference-usage-lambda/main.py:22-24 | `get_item` fails exactly on a bad key; otherwise it finds an item exactly when one is stored under the key, and returns that item |
| `Store.Table.UpdateItem` | functions/inference-logger-lambda/main.py:52-62 | the table afterwards is the ADD's result, or unchanged with the error reported |
| `UsageLedger.CalculateCost` | functions/inference-logger-lambda/main.py:15-21 | Haiku costs 25·in + 125·out and Sonnet 300·in + 1500·out (in 1e-8 USD); any other model costs 0 and never raises; for a priced model, the input count is tried first, and a count that is not an int, float or bool raises TypeError, an int beyond the float range OverflowError |
| `UsageLedger.CostMonotone` | functions/inference-logger-lambda/main.py:15-21 | for non-negative counts within the float range the cost is defined, non-negative and does not fall when either count grows |
| `UsageLedger.CostAdditive` | functions/inference-logger-lambda/main.py:16-19 | for counts within the float range, the cost of summed counts is the sum of the costs |
| `UsageLedger.ParseTimestamp` | functions/inference-logger-lambda/main.py:32 | every time `strptime` accepts is a valid date and time of day |
| `UsageLedger.MonthBucket` | functions/inference-logger-lambda/main.py:33 | the bucket is two digits spelling the month, `_`, then digits spelling the year |
| `UsageLedger.MonthYearOf` | functions/inference-logger-lambda/main.py:32-33 | a bucket exists exactly for a string `strptime` accepts; other strings raise ValueError, and non-strings raise TypeError |
| `UsageLedger.ParseFormatRoundTrip` | functions/inference-logger-lambda/main.py:32 | parsing the zero-padded text of a date and time with a four-digit year gives it back |
| `UsageLedger.BucketOfZeroPaddedTimestamp` | functions/inference-logger-lambda/main.py:32-33 | for an accepted `YYYY-MM-DDTHH:MM:SS` timestamp the bucket is its month digits, `_`, then its year digits |
| `UsageLedger.Plan` | functions/inference-logger-lambda/main.py:24-62 | the handler raises before any write exactly when the body is not an object, the timestamp is bad, or a priced model has counts that are not numbers or are beyond the float range; otherwise it builds the five-field transaction and the monthly key and amounts |
| `UsageLedger.TransactionStored` | functions/inference-logger-lambda/main.py:42-50 | a stored transaction lands under (userArn, timestamp), replacing any item there, carries the cost, and leaves every other transaction alone |
| `UsageLedger.OversizedCountNotStored` | functions/inference-logger-lambda/main.py:35-50 | a token count of 39 or more digits, which the plan accepts for an unpriced model, makes `put_item` refuse the transaction, so nothing is stored |
| `UsageLedger.MonthlyKeyOfPlan` | functions/inference-logger-lambda/main.py:53 | the monthly update names the caller's record for the bucket of the timestamp |
| `UsageLedger.PlanIncrements` | functions/inference-logger-lambda/main.py:55-61 | the update adds exactly one invocation and the cost, nothing else |
| `UsageLedger.MonthlyAccumulated` | functions/inference-logger-lambda/main.py:40-62 | the record's invocations grow by exactly 1 and its cost by exactly the cost stored in the transaction, from 0 when absent; no other month changes |
| `UsageLedger.CountedUnder` | functions/inference-logger-lambda/main.py:52-62 | an ADD of one invocation and a cost under a key accumulates both there and changes no other record |
| `UsageLedger.Handle` | functions/inference-logger-lambda/main.py:23-64 | nothing is written when the handler raises; the transaction is written first; the monthly record changes only after it; the handler answers `{"ok": true}` when both writes succeed |
| `InvocationRecorder.ReplaceZ` | functions/inference-authorizer-lambda/main.py:16 | replacing `Z` by `+00:00` never shortens the text |
| `InvocationRecorder.ReplaceZAppend` | functions/inference-authorizer-lambda/main.py:16 | the replacement works character by character over concatenation |
| `InvocationRecorder.ReplaceZKeepsPlain` | functions/inference-authorizer-lambda/main.py:16 | text without `Z` is unchanged |
| `InvocationRecorder.ReplaceZKeepsPrefix` | functions/inference-authorizer-lambda/main.py:16 | up to the first `+`, the replaced text equals the original |
| `InvocationRecorder.Digits` | functions/inference-authorizer-lambda/main.py:16 | a run of digits is read exactly when every character in it is an ASCII digit |
| `InvocationRecorder.DigitsValue` | functions/inference-authorizer-lambda/main.py:16 | digits read by the parser denote the number they spell |
| `InvocationRecorder.ScanFraction` | functions/inference-authorizer-lambda/main.py:16 | a fraction of a second is accepted only as exactly 3 or 6 ASCII digits; 3 digits are milliseconds, 6 are microseconds |
| `InvocationRecorder.ParseTimePart` | functions/inference-authorizer-lambda/main.py:16 | an accepted time part is non-empty; it has an offset exactly when it holds a `+` or `-`, and the offset text is then 6, 9 or 16 characters long |
| `InvocationRecorder.ScanFields` | functions/inference-authorizer-lambda/main.py:16 | a time field scan succeeds only after two digits |
| `InvocationRecorder.FromIsoFormat` | functions/inference-authorizer-lambda/main.py:16 | an accepted text starts with `YYYY-MM-DD` spelling a valid date, and the result carries that date |
| `InvocationRecorder.IsoToMonthYear` | functions/inference-authorizer-lambda/main.py:15-17 | a bucket exists exactly for a string `fromisoformat` accepts after the `Z` replacement; otherwise ValueError, or AttributeError for a non-string |
| `InvocationRecorder.MonthOfEventTime` | functions/inference-authorizer-lambda/main.py:15-17 | the bucket is the year and month digits as written, whatever the time and offset; no conversion to UTC |
| `InvocationRecorder.CloudTrailTimeAccepted` | functions/inference-authorizer-lambda/main.py:15-17 | a CloudTrail `YYYY-MM-DDTHH:MM:SSZ` time with valid fields is accepted, with the trailing `Z`, and buckets to `YYYY-MM` |
| `InvocationRecorder.UtcClockParsed` | functions/inference-authorizer-lambda/main.py:16 | `HH:MM:SS+00:00` parses as that time of day at offset zero |
| `InvocationRecorder.DigitPair` | functions/inference-authorizer-lambda/main.py:16 | two digits read as their two-digit number |
| `InvocationRecorder.FirstIndexAt` | functions/inference-authorizer-lambda/main.py:16 | the offset starts at the first `+` or `-` |
| `InvocationRecorder.PrincipalToUserId` | functions/inference-authorizer-lambda/main.py:20-22 | the result is `arn` if truthy, else `principalId` if truthy, else "unknown"; it is never empty; a missing or empty identity counts as `{}` |
| `InvocationRecorder.GetOrEmpty` | functions/inference-authorizer-lambda/main.py:21-34 | `d.get(key) or {}`: a truthy stored value is kept, and a missing or falsy one reads as `{}`; the handler reads `userIdentity`, `detail` and `requestParameters` this way |
| `InvocationRecorder.EventTime` | functions/inference-authorizer-lambda/main.py:28 | the event's own time when truthy, otherwise the current time |
| `InvocationRecorder.Recording` | functions/inference-authorizer-lambda/main.py:40-73 | the transaction holds the nine fields from the event, with zero usage; the monthly key names the same user and bucket |
| `InvocationRecorder.Plan` | functions/inference-authorizer-lambda/main.py:26-73 | the handler raises exactly when the event, or a truthy `detail`, `requestParameters` or `userIdentity`, is not a dict, or the event time is not ISO text; otherwise region, event name and model id default to "unknown", and event id and source IP to "" |
| `InvocationRecorder.AsWrittenStoresNothing` | functions/inference-authorizer-lambda/main.py:46-61 | with the key `userId`, both the put and the monthly ADD are refused for every event |
| `InvocationRecorder.TransactionRecorded` | functions/inference-authorizer-lambda/main.py:46-58 | with the deployed key, the put succeeds exactly when the user id is a string, no event field holds a float or an int of 39 or more digits, and the model id is a non-empty string; it replaces the item under (user, time) with zero usage and leaves other items alone |
| `InvocationRecorder.ZeroUsageStored` | functions/inference-authorizer-lambda/main.py:40-44 | the recorded usage is input = output = total = 0 |
| `InvocationRecorder.SerializableTransaction` | functions/inference-authorizer-lambda/main.py:46-58 | boto3 accepts the transaction exactly when the user id and the event's own fields hold no float and no int of 39 or more digits |
| `InvocationRecorder.MonthlyUpdateAccepted` | functions/inference-authorizer-lambda/main.py:60-74 | with the deployed key, the ADD succeeds exactly when the record's counters are numbers or absent |
| `InvocationRecorder.InvocationCounted` | functions/inference-authorizer-lambda/main.py:60-74 | invocations grow by exactly 1, token totals keep their values (0 for a new record), and no other month changes |
| `InvocationRecorder.CountedAmounts` | functions/inference-authorizer-lambda/main.py:68-73 | the ADD adds 1 to invocations and 0 to each token total |
| `InvocationRecorder.CountersAreNotKeys` | lib/blueprint_chat_cdk-stack.ts:20-26 | no counter the handler adds to is a key of the monthly table |
| `InvocationRecorder.MonthlyKeyOfShaped` | functions/inference-authorizer-lambda/main.py:61 | the update names the record of the user id and bucket |
| `InvocationRecorder.Handle` | functions/inference-authorizer-lambda/main.py:25-76 | nothing is written when the handler raises; the transaction is written first; the monthly record changes only after it; the handler answers `{"ok": true}` when both writes succeed |
| `UsageLookup.QueryOf` | functions/inference-usage-lambda/main.py:15 | the default `{}` applies only to a missing query; a None query raises AttributeError |
| `UsageLookup.Handle` | functions/inference-usage-lambda/main.py:14-42 | status is always 200; a stored record reports its `cost` value with the limit, both sent as text; no record reports 0 with the limit as a number; a bad key is refused |
| `UsageLookup.LimitOnlyReported` | functions/inference-usage-lambda/main.py:27-42 | the limit never changes the outcome or the reported usage, only the limit field |
| `UsageLookup.ReportsStoredCost` | functions/inference-usage-lambda/main.py:18-42 | a query for a user and month reads exactly that record: its stored cost, or 0 when absent |
| `LedgerReadBack.LedgerCostReported` | functions/inference-usage-lambda/main.py:18-37 | once the ledger's update is visible to reads, the lookup for the caller and bucket reports the previous cost (0 if none) plus the call's price |
| `CompletionProxy.Clamp` | functions/inference-proxy-lambda/main.py:31 | `min` gives the requested value unless the ceiling is smaller; the result never exceeds the ceiling; a non-number raises TypeError |
| `CompletionProxy.Payload` | functions/inference-proxy-lambda/main.py:33-38 | the payload wraps the messages as the content of one user turn, with the fixed version, the budget and the temperature |
| `CompletionProxy.First` | functions/inference-proxy-lambda/main.py:47 | `[0]` of a non-empty list is its first element, and succeeds only on a non-empty list or string |
| `CompletionProxy.ResultText` | functions/inference-proxy-lambda/main.py:47 | the result is `content[0].text` when present, otherwise the whole reply |
| `CompletionProxy.ClientErrorStatus` | functions/inference-proxy-lambda/main.py:55-80 | AccessDeniedException gives 403, ValidationException gives 400, any other code gives 500 |
| `CompletionProxy.Answer` | functions/inference-proxy-lambda/main.py:40-87 | 200 exactly for a reply whose text is extracted; a ClientError gets its code's status; any other failure gets 500; CORS headers always |
| `CompletionProxy.Handle` | functions/inference-proxy-lambda/main.py:16-87 | a missing or falsy modelId or messages gives 400 without a call; a dict body with both truthy and a comparable budget is always forwarded, and a call is made only then, with the clamped payload; every response has the CORS headers and a status in {200, 400, 403, 500} |
| `CompletionProxy.BudgetWithinCeiling` | functions/inference-proxy-lambda/main.py:31 | the budget sent never exceeds the ceiling; without a requested budget it is min(256, ceiling) |
| `CompletionProxy.OnlyTheCallMatters` | functions/inference-proxy-lambda/main.py:16-31 | a request answered before the call does not depend on the backend |
| `CompletionProxy.SameOutcomeSameResponse` | functions/inference-proxy-lambda/main.py:40-87 | two backends with the same outcome for the call made give the same response |
| `StreamRelay.Least` | functions/inference-proxy-lambda/index.ts:26 | the least element of a non-empty set of keys, which the numeric sort puts first |
| `StreamRelay.SortedKeys` | functions/inference-proxy-lambda/index.ts:25-26 | the keys come out in strictly increasing numeric order, one per key |
| `StreamRelay.SortedKeysCover` | functions/inference-proxy-lambda/index.ts:25-26 | no key is lost by the sort |
| `StreamRelay.ToUint8` | functions/inference-proxy-lambda/index.ts:29 | a Uint8Array element is below 256 and equals any value already in 0..255 |
| `StreamRelay.DecodeChunkBytes` | functions/inference-proxy-lambda/index.ts:21-29 | no bytes give nothing; otherwise one byte per key, in increasing key order |
| `StreamRelay.BytesInKeyOrder` | functions/inference-proxy-lambda/index.ts:24-29 | for keys 0..n-1, there are n bytes and byte i is the value at key i |
| `StreamRelay.RequestOf` | functions/inference-proxy-lambda/index.ts:37-52 | the five request fields are forwarded verbatim; only a `null` body fails to destructure |
| `StreamRelay.ResponseStream.constructor` | functions/inference-proxy-lambda/index.ts:35 | the response starts empty and open |
| `StreamRelay.ResponseStream.Write` | functions/inference-proxy-lambda/index.ts:63 | a write appends one piece of text to an open response |
| `StreamRelay.ResponseStream.End` | functions/inference-proxy-lambda/index.ts:68 | `end` closes an open response and adds nothing |
| `StreamRelay.Framed` | functions/inference-proxy-lambda/index.ts:61-65 | one line per event |
| `StreamRelay.FramedAt` | functions/inference-proxy-lambda/index.ts:63 | line i is the serialised event i followed by a newline |
| `StreamRelay.Transcript` | functions/inference-proxy-lambda/index.ts:37-73 | a body that fails to parse, a `null` body or a rejected call gives exactly the two error lines |
| `StreamRelay.Sent` | functions/inference-proxy-lambda/index.ts:37-54 | a request is sent exactly when the body parses and is not `null` |
| `StreamRelay.Completes` | functions/inference-proxy-lambda/index.ts:54-68 | the handler reaches its usage log only after a request was sent and the call was accepted |
| `StreamRelay.Thrown` | functions/inference-proxy-lambda/index.ts:69-72 | the `catch` block receives an error exactly when the relay does not complete |
| `StreamRelay.TranscriptLinesEndInNewline` | functions/inference-proxy-lambda/index.ts:63-72 | every line written ends in a newline |
| `StreamRelay.TranscriptShape` | functions/inference-proxy-lambda/index.ts:61-73 | the output is one line per event read, in order, followed, when an error was thrown, by "Internal Server Error" and then that error's message |
| `StreamRelay.Relay` | functions/inference-proxy-lambda/index.ts:34-75 | the output is the transcript, the stream is ended exactly once on every path, and a completed relay logs zero totals |
| `StreamRelay.EventUsage` | functions/inference-proxy-lambda/index.ts:56-59 | an event without `metadata` reports no tokens |
| `StreamRelay.MetadataEventUsage` | functions/inference-proxy-lambda/index.ts:56-59 | a metadata event reports its own input and output token counts |
| `StreamRelay.TotalUsage` | functions/inference-proxy-lambda/index.ts:56-59 | a stream whose events report no tokens totals zero |
| `StreamRelay.TotalUsageAppend` | functions/inference-proxy-lambda/index.ts:56-59 | the totals of a stream are the sum of the totals of any split of it |
| `StreamRelay.AsWrittenLogsZero` | functions/inference-proxy-lambda/index.ts:56-67 | a completed stream whose metadata reports 10 input and 20 output tokens still logs zero |
| `StreamRelay.RelayCountingUsage` | functions/inference-proxy-lambda/index.ts:34-75 | same output as the relay; a completed relay logs the sum of the tokens its metadata events report |

## Left out

- JSON: parsing and serialising are left out. The handlers take parsed
  bodies. `JSON.stringify` is a parameter, and response bodies are
  datatypes rather than JSON text.
- UTF-8: `TextDecoder` decoding in `decodeChunkBytes` is left out. The
  model stops at the ordered byte values.
- Floating point: Python float arithmetic, the `Decimal(str(...))` rounding
  of the cost and `float(MONTHLY_LIMIT)` are left out. Cost and limit are
  exact reals.
- `UsageLedger.CalculateCost`: the price is an exact `real` equal to
  integer 1e-8 USD units times the counts. The float result the handler
  produces is not modelled.
- Wall clock: the recorder's `datetime.now(timezone.utc).isoformat()` is
  the parameter `now`.
- Environment: the settings are constants or parameters.
  `GLOBAL_MAX_TOKENS_PER_CALL` is `ceiling`, `MONTHLY_LIMIT` is `limit`,
  and the table names are `Table` objects.
- Services: Bedrock and DynamoDB are abstracted. Bedrock is a function from
  the call to its outcome. DynamoDB is the `Table` class, with
  single-request semantics and no conditional writes or throttling. Reads
  are modelled as strongly consistent, while the lookup's `get_item`
  (functions/inference-usage-lambda/main.py:22) is eventually consistent
  and may return a record from before the latest ADD.
- `Store.Put`: DynamoDB's size limits are not modelled, here or in
  `Store.KeyOf`, `Store.KeyArgument`, `Store.Add` and `Store.Get`. It
  refuses a partition key over 2048 bytes, a sort key or index key over
  1024 bytes, and an item over 400 KB. The model accepts keys and items of
  any length, such as a long `userArn` taken from the ledger's request body.
- `Store.Serialize`: a Decimal is accepted whatever its digits and
  exponent. boto3 refuses a Decimal of more than 38 digits or with an
  exponent outside -128..126. The ledger's cost is the text of a float
  computed from ints of at most 38 digits, so it stays within both.
- `Store.Add`: DynamoDB refuses an ADD whose result has more than 38
  digits or is out of range. The model adds exact reals without bound.
- Logging: CloudWatch output (`console.log`, `console.error`) is left out.
  The relay returns the totals it would log.
- Text of values: the `str()` text of a Decimal (the lookup's
  `current_usage`), of a float limit and of an exception is left out. Replies carry the value or the exception kind.
- `CompletionProxy.Handle`: a body that `json.loads` refuses is reported as
  JsonDecodeError. A request with `"body": null` really raises TypeError
  there; both are answered with status 500.
- `InvocationRecorder.FromIsoFormat`: a NUL character inside the text and
  non-ASCII characters are not distinguished. CPython's parser stops at an
  embedded NUL.
- `UsageLedger.ParseTimestamp`: only ASCII digits are accepted. `strptime`
  also accepts other Unicode decimal digits.
- Concurrency: parallel Lambda invocations and the async streaming runtime
  (`streamifyResponse`, `for await`) are left out. The relay reads a fully
  known sequence of events one at a time.
- Infrastructure: `lib/blueprint_chat_cdk-stack.ts` and
  `bin/blueprint_chat_cdk.ts` are not part of this model. Only the key
  schemas of the two tables and their index keys are used.

## Findings

| source | as written | input that shows it | evidently intended | confidence | as-written member | corrected member |
|---|---|---|---|---|---|---|
| functions/inference-authorizer-lambda/main.py:46-61 | the transaction and the monthly key name the user `userId`, while both tables are keyed on `userArn` (lib/blueprint_chat_cdk-stack.ts:20-26, 40-46) | any event, e.g. one with `detail.userIdentity.arn = "arn:aws:iam::1:user/a"` and `eventTime = "2024-05-01T10:00:00Z"`: the put lacks the partition key and is refused, so the handler raises and records nothing | write the user under `userArn` so the invocation is stored and counted | not executed | `InvocationRecorder.AsWrittenStoresNothing` | `InvocationRecorder.TransactionRecorded`, `InvocationRecorder.InvocationCounted` (with `InvocationRecorder.Handle` given `DeployedUserKey`) |
| functions/inference-proxy-lambda/index.ts:56-67 | `usageTotals` is set to zero and never updated inside the loop, then logged | a stream whose metadata event reports 10 input and 20 output tokens logs `{inputTokens: 0, outputTokens: 0}` | add each metadata event's usage to the totals before logging | not executed | `StreamRelay.AsWrittenLogsZero` (with `StreamRelay.Relay`) | `StreamRelay.RelayCountingUsage` |
