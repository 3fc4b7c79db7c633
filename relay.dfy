/** The streaming relay (functions/inference-proxy-lambda/index.ts): forwards a
    Converse request to Bedrock and copies the event stream to the HTTP
    response one JSON line per event. The Bedrock client is the parameter
    `backend` and `JSON.stringify` the parameter `stringify`; the JSON text of
    the request is given already parsed. */
module StreamRelay {
  import opened Common

  /** The bytes of `chunk.bytes`, by position; None when `chunk.bytes` is
      missing or falsy. */
  type ByteMap = map<nat, int>

  /** A least element of a non-empty finite set of numbers. */
  lemma {:induction false} LeastOf(s: set<nat>) returns (m: nat)
    requires s != {}
    ensures m in s && forall x :: x in s ==> m <= x
    decreases |s|
  {
    var y :| y in s;
    var rest := s - {y};
    if rest == {} {
      m := y;
      forall x | x in s
        ensures m <= x
      {
        assert x !in rest;
      }
    } else {
      var least := LeastOf(rest);
      m := if y < least then y else least;
      forall x | x in s
        ensures m <= x
      {
        if x != y {
          assert x in rest;
        }
      }
    }
  }

  /** Every non-empty finite set of numbers has a least element. */
  lemma LeastExists(s: set<nat>)
    requires s != {}
    ensures exists m :: m in s && forall x :: x in s ==> m <= x
  {
    var m := LeastOf(s);
  }

  /** The smallest element of a non-empty finite set. */
  function Least(s: set<nat>): (m: nat)
    requires s != {}
    ensures m in s && forall x :: x in s ==> m <= x
  {
    LeastExists(s);
    var m :| m in s && forall x :: x in s ==> m <= x;
    m
  }

  /** `Object.keys(bytes).sort((a, b) => Number(a) - Number(b))`: the keys in
      increasing numeric order. */
  function SortedKeys(s: set<nat>): (r: seq<nat>)
    ensures |r| == |s|
    ensures forall i :: 0 <= i < |r| ==> r[i] in s
    ensures forall i, j :: 0 <= i < j < |r| ==> r[i] < r[j]
    decreases |s|
  {
    if s == {} then []
    else
      var m := Least(s);
      var rest := SortedKeys(s - {m});
      assert forall i :: 0 <= i < |rest| ==> rest[i] in s - {m};
      [m] + rest
  }

  /** No key is lost: every key of the set appears in the sorted sequence. */
  lemma {:induction false} SortedKeysCover(s: set<nat>)
    ensures forall x :: x in s ==> x in SortedKeys(s)
    decreases |s|
  {
    if s != {} {
      var m := Least(s);
      SortedKeysCover(s - {m});
      forall x | x in s
        ensures x in SortedKeys(s)
      {
        if x != m {
          assert x in s - {m};
          assert x in SortedKeys(s)[1..];
        }
      }
    }
  }

  /** `new Uint8Array(values)`: each integer reduced modulo 256. */
  function ToUint8(v: int): (b: nat)
    ensures b < 256 && (0 <= v < 256 ==> b == v)
  {
    v % 256
  }

  /** `decodeChunkBytes` up to the UTF-8 decoding: the bytes in increasing
      numeric key order; none when the chunk carries no bytes. */
  function DecodeChunkBytes(bytes: Option<ByteMap>): (r: seq<nat>)
    ensures bytes.None? ==> r == []
    ensures bytes.Some? ==> |r| == |bytes.value.Keys|
    ensures bytes.Some? ==> var keys := SortedKeys(bytes.value.Keys);
      forall i :: 0 <= i < |r| ==> r[i] == ToUint8(bytes.value[keys[i]])
  {
    match bytes
    case None => []
    case Some(m) =>
      var keys := SortedKeys(m.Keys);
      seq(|keys|, i requires 0 <= i < |keys| => ToUint8(m[keys[i]]))
  }

  /** A strictly increasing sequence of |r| numbers below |r| counts up from 0. */
  lemma {:induction false} IncreasingBelowLength(r: seq<nat>)
    requires forall i :: 0 <= i < |r| ==> r[i] < |r|
    requires forall i, j :: 0 <= i < j < |r| ==> r[i] < r[j]
    ensures forall i :: 0 <= i < |r| ==> r[i] == i
  {
    forall i | 0 <= i < |r|
      ensures r[i] == i
    {
      AtLeastIndex(r, i);
      AtMostIndex(r, i);
    }
  }

  lemma {:induction false} AtLeastIndex(r: seq<nat>, i: nat)
    requires i < |r| && forall a, b :: 0 <= a < b < |r| ==> r[a] < r[b]
    ensures r[i] >= i
  {
    if i > 0 {
      AtLeastIndex(r, i - 1);
    }
  }

  lemma {:induction false} AtMostIndex(r: seq<nat>, i: nat)
    requires i < |r| && forall a :: 0 <= a < |r| ==> r[a] < |r|
    requires forall a, b :: 0 <= a < b < |r| ==> r[a] < r[b]
    ensures r[i] <= i
    decreases |r| - i
  {
    if i < |r| - 1 {
      AtMostIndex(r, i + 1);
    }
  }

  /** A map whose keys are exactly 0..n-1 has n keys. */
  lemma {:induction false} KeyCount(m: ByteMap, n: nat)
    requires forall i: nat :: i in m <==> i < n
    ensures |m.Keys| == n
  {
    if n == 0 {
      assert m.Keys == {};
    } else {
      var shorter := m - {n - 1};
      assert shorter.Keys == m.Keys - {n - 1};
      KeyCount(shorter, n - 1);
    }
  }

  /** For the keys 0..n-1, as a serialised Uint8Array has them, byte i is the
      value at key i. */
  lemma BytesInKeyOrder(m: ByteMap, n: nat)
    requires forall i: nat :: i in m <==> i < n
    ensures |DecodeChunkBytes(Some(m))| == n
    ensures forall i :: 0 <= i < n ==> DecodeChunkBytes(Some(m))[i] == ToUint8(m[i])
  {
    KeyCount(m, n);
    IncreasingBelowLength(SortedKeys(m.Keys));
  }

  /** The fields a `ConverseStreamCommand` is built from, each forwarded as the
      request holds it (None for `undefined`). */
  datatype ConverseRequest = ConverseRequest(
    modelId: Option<Value>, messages: Option<Value>, system: Option<Value>,
    inferenceConfig: Option<Value>, additionalModelRequestFields: Option<Value>)

  /** A property read off the parsed body: present only on an object. */
  function Field(body: Value, name: string): Option<Value> {
    if body.Dict? && name in body.fields then Some(body.fields[name]) else None
  }

  /** Lines 38-52: destructuring the body; only `null` cannot be destructured. */
  function RequestOf(body: Value): (r: Result<ConverseRequest, string>)
    ensures r.Err? <==> body.Null?
    ensures r.Ok? ==> r.value.modelId == Field(body, "modelId") && r.value.messages == Field(body, "messages")
                      && r.value.system == Field(body, "system") && r.value.inferenceConfig == Field(body, "inferenceConfig")
                      && r.value.additionalModelRequestFields == Field(body, "additionalModelRequestFields")
  {
    if body.Null? then Err(NullDestructureMessage)
    else Ok(ConverseRequest(Field(body, "modelId"), Field(body, "messages"), Field(body, "system"),
                            Field(body, "inferenceConfig"), Field(body, "additionalModelRequestFields")))
  }

  const NullDestructureMessage := "Cannot destructure property 'modelId' of 'body' as it is null."

  /** The events of a response stream and, when iterating it throws after
      them, the error's message. */
  datatype EventStream = EventStream(events: seq<Value>, failure: Option<string>)

  /** How `client.send` settles: rejected with an error message, or resolved
      with a response whose `stream` may be absent. */
  datatype SendOutcome = Rejected(message: string) | Opened(stream: Option<EventStream>)

  /** The token counts the relay logs. */
  datatype Usage = Usage(inputTokens: int, outputTokens: int)

  /** The response stream of `awslambda.streamifyResponse`: what has been
      written, one element per `write` call, and whether it was ended. */
  class ResponseStream {
    var written: seq<string>
    var ended: bool

    constructor ()
      ensures written == [] && !ended
    {
      written := [];
      ended := false;
    }

    method Write(text: string)
      requires !ended
      modifies this
      ensures written == old(written) + [text] && !ended
    {
      written := written + [text];
    }

    method End()
      requires !ended
      modifies this
      ensures written == old(written) && ended
    {
      ended := true;
    }
  }

  /** One line per event, in arrival order. */
  function Framed(events: seq<Value>, stringify: Value -> string): (lines: seq<string>)
    ensures |lines| == |events|
  {
    if events == [] then [] else Framed(events[..|events| - 1], stringify) + [stringify(events[|events| - 1]) + "\n"]
  }

  lemma {:induction false} FramedAt(events: seq<Value>, stringify: Value -> string, i: nat)
    requires i < |events|
    ensures Framed(events, stringify)[i] == stringify(events[i]) + "\n"
  {
    if i < |events| - 1 {
      FramedAt(events[..|events| - 1], stringify, i);
    }
  }

  /** The two lines the `catch` block writes. */
  function ErrorLines(message: string): seq<string> {
    ["Internal Server Error\n", message + "\n"]
  }

  /** Everything the handler writes before ending the stream: the framed
      events, then, when the body cannot be parsed or destructured, the call
      is rejected or the stream fails, the two error lines. */
  function Transcript(body: Result<Value, string>, backend: ConverseRequest -> SendOutcome, stringify: Value -> string)
    : (lines: seq<string>)
    ensures body.Err? ==> lines == ErrorLines(body.error)
    ensures body.Ok? && body.value.Null? ==> lines == ErrorLines(NullDestructureMessage)
    ensures Sent(body).Some? && backend(Sent(body).value).Rejected? ==>
      lines == ErrorLines(backend(Sent(body).value).message)
  {
    match body
    case Err(message) => ErrorLines(message)
    case Ok(b) =>
      match RequestOf(b)
      case Err(message) => ErrorLines(message)
      case Ok(request) =>
        match backend(request)
        case Rejected(message) => ErrorLines(message)
        case Opened(None) => []
        case Opened(Some(stream)) =>
          Framed(stream.events, stringify) + (if stream.failure.Some? then ErrorLines(stream.failure.value) else [])
  }

  /** The request reaches the backend only when the body parses and
      destructures. */
  function Sent(body: Result<Value, string>): (r: Option<ConverseRequest>)
    ensures r.Some? <==> body.Ok? && !body.value.Null?
  {
    if body.Ok? && RequestOf(body.value).Ok? then Some(RequestOf(body.value).value) else None
  }

  /** Whether the handler reaches `console.log` of the usage totals. */
  predicate Completes(body: Result<Value, string>, backend: ConverseRequest -> SendOutcome)
    ensures Completes(body, backend) ==> Sent(body).Some? && backend(Sent(body).value).Opened?
  {
    match Sent(body)
    case None => false
    case Some(request) =>
      match backend(request)
      case Rejected(_) => false
      case Opened(None) => true
      case Opened(Some(stream)) => stream.failure.None?
  }

  /** Every line written ends in a newline. */
  lemma TranscriptLinesEndInNewline(body: Result<Value, string>, backend: ConverseRequest -> SendOutcome, stringify: Value -> string)
    ensures forall i :: 0 <= i < |Transcript(body, backend, stringify)| ==>
      var line := Transcript(body, backend, stringify)[i];
      |line| > 0 && line[|line| - 1] == '\n'
  {
    var t := Transcript(body, backend, stringify);
    forall i | 0 <= i < |t|
      ensures |t[i]| > 0 && t[i][|t[i]| - 1] == '\n'
    {
      if body.Ok? && Sent(body).Some? && backend(Sent(body).value).Opened? && backend(Sent(body).value).stream.Some? {
        var stream := backend(Sent(body).value).stream.value;
        if i < |stream.events| {
          FramedAt(stream.events, stringify, i);
        }
      }
    }
  }

  /** The events read from the backend before the relay stopped: the whole
      stream, or the part before it failed; none when no stream was opened. */
  function Delivered(body: Result<Value, string>, backend: ConverseRequest -> SendOutcome): seq<Value> {
    match Sent(body)
    case None => []
    case Some(request) =>
      match backend(request)
      case Opened(Some(stream)) => stream.events
      case _ => []
  }

  /** The message of the error the `catch` block receives, if any: the parse
      or destructuring error, the rejection of the call, or the failure of
      the stream. */
  function Thrown(body: Result<Value, string>, backend: ConverseRequest -> SendOutcome): (m: Option<string>)
    ensures m.None? <==> Completes(body, backend)
  {
    match body
    case Err(message) => Some(message)
    case Ok(b) =>
      match RequestOf(b)
      case Err(message) => Some(message)
      case Ok(request) =>
        match backend(request)
        case Rejected(message) => Some(message)
        case Opened(None) => None
        case Opened(Some(stream)) => stream.failure
  }

  /** The output is one line per event read, in order, followed, when an
      error was thrown, by "Internal Server Error" and the error's message. */
  lemma TranscriptShape(body: Result<Value, string>, backend: ConverseRequest -> SendOutcome, stringify: Value -> string)
    ensures Transcript(body, backend, stringify)
            == Framed(Delivered(body, backend), stringify)
               + (match Thrown(body, backend) case None => [] case Some(message) => ErrorLines(message))
  {
  }

  /** The handler as written: the lines of the transcript are written in
      order and the stream is ended once on every path. The usage totals it
      logs are never updated, so a completed relay always logs zero. */
  method Relay(body: Result<Value, string>, backend: ConverseRequest -> SendOutcome, stringify: Value -> string,
               out: ResponseStream)
    returns (sent: Option<ConverseRequest>, logged: Option<Usage>)
    requires out.written == [] && !out.ended
    modifies out
    ensures out.ended
    ensures out.written == Transcript(body, backend, stringify)
    ensures sent == Sent(body)
    ensures logged == (if Completes(body, backend) then Some(Usage(0, 0)) else None)
  {
    sent := Sent(body);
    logged := None;
    if sent.None? {
      var message := if body.Err? then body.error else RequestOf(body.value).error;
      out.Write("Internal Server Error\n");
      out.Write(message + "\n");
      out.End();
      return;
    }
    match backend(sent.value)
    case Rejected(message) =>
      out.Write("Internal Server Error\n");
      out.Write(message + "\n");
      out.End();
    case Opened(stream) =>
      var usageTotals := Usage(0, 0);
      if stream.Some? {
        var events := stream.value.events;
        for i := 0 to |events|
          invariant out.written == Framed(events[..i], stringify) && !out.ended
        {
          assert events[..i + 1][..i] == events[..i];
          out.Write(stringify(events[i]) + "\n");
        }
        assert events[..|events|] == events;
        if stream.value.failure.Some? {
          out.Write("Internal Server Error\n");
          out.Write(stream.value.failure.value + "\n");
          out.End();
          return;
        }
      }
      logged := Some(usageTotals);
      out.End();
  }

  /** An integer count from a stream event, 0 when it is missing or not an int. */
  function Count(v: Option<Value>): int {
    if v.Some? && v.value.Int? then v.value.i else 0
  }

  /** The token counts one event reports: those of a `metadata` event, zero
      for every other event. */
  function EventUsage(event: Value): (u: Usage)
    ensures Field(event, "metadata").None? ==> u == Usage(0, 0)
  {
    var metadata := Field(event, "metadata");
    var usage := if metadata.Some? then Field(metadata.value, "usage") else None;
    if usage.Some? then Usage(Count(Field(usage.value, "inputTokens")), Count(Field(usage.value, "outputTokens")))
    else Usage(0, 0)
  }

  /** The sum of the counts the events report. */
  function TotalUsage(events: seq<Value>): (total: Usage)
    ensures (forall i :: 0 <= i < |events| ==> EventUsage(events[i]) == Usage(0, 0)) ==> total == Usage(0, 0)
  {
    if events == [] then Usage(0, 0)
    else
      var before, last := TotalUsage(events[..|events| - 1]), EventUsage(events[|events| - 1]);
      Usage(before.inputTokens + last.inputTokens, before.outputTokens + last.outputTokens)
  }

  /** A metadata event reports its own token counts. */
  lemma MetadataEventUsage(inputTokens: int, outputTokens: int)
    ensures EventUsage(MetadataEvent(inputTokens, outputTokens)) == Usage(inputTokens, outputTokens)
  {
    assert Field(MetadataEvent(inputTokens, outputTokens), "metadata").Some?;
  }

  /** Totals split over any division of the stream. */
  lemma {:induction false} TotalUsageAppend(a: seq<Value>, b: seq<Value>)
    ensures TotalUsage(a + b).inputTokens == TotalUsage(a).inputTokens + TotalUsage(b).inputTokens
    ensures TotalUsage(a + b).outputTokens == TotalUsage(a).outputTokens + TotalUsage(b).outputTokens
    decreases |b|
  {
    if b != [] {
      assert (a + b)[..|a + b| - 1] == a + b[..|b| - 1];
      TotalUsageAppend(a, b[..|b| - 1]);
    } else {
      assert a + b == a;
    }
  }

  /** The metadata event Bedrock sends at the end of a Converse stream. */
  function MetadataEvent(inputTokens: int, outputTokens: int): Value {
    Dict(map["metadata" := Dict(map["usage" := Dict(map["inputTokens" := Int(inputTokens), "outputTokens" := Int(outputTokens)])])])
  }

  /** As written, a stream that reports tokens still logs zero totals: with
      one metadata event of 10 input and 20 output tokens the relay logs
      Usage(0, 0) where the stream's own totals are Usage(10, 20). */
  lemma AsWrittenLogsZero()
    ensures var events := [MetadataEvent(10, 20)];
      var backend := (r: ConverseRequest) => Opened(Some(EventStream(events, None)));
      var body := Ok(Dict(map[]));
      && Completes(body, backend)
      && TotalUsage(events) == Usage(10, 20)
  {
    var events := [MetadataEvent(10, 20)];
    assert events[..0] == [];
    assert Field(MetadataEvent(10, 20), "metadata").Some?;
  }

  /** The relay with the totals accumulated as the handler evidently
      intends: the same output, and a completed relay logs the sum of the
      counts the stream's metadata events report. */
  method RelayCountingUsage(body: Result<Value, string>, backend: ConverseRequest -> SendOutcome, stringify: Value -> string,
                            out: ResponseStream)
    returns (sent: Option<ConverseRequest>, logged: Option<Usage>)
    requires out.written == [] && !out.ended
    modifies out
    ensures out.ended
    ensures out.written == Transcript(body, backend, stringify)
    ensures sent == Sent(body)
    ensures logged.Some? <==> Completes(body, backend)
    ensures logged.Some? ==> logged.value == match backend(sent.value)
      case Opened(Some(stream)) => TotalUsage(stream.events)
      case _ => Usage(0, 0)
  {
    sent := Sent(body);
    logged := None;
    if sent.None? {
      var message := if body.Err? then body.error else RequestOf(body.value).error;
      out.Write("Internal Server Error\n");
      out.Write(message + "\n");
      out.End();
      return;
    }
    match backend(sent.value)
    case Rejected(message) =>
      out.Write("Internal Server Error\n");
      out.Write(message + "\n");
      out.End();
    case Opened(stream) =>
      var usageTotals := Usage(0, 0);
      if stream.Some? {
        var events := stream.value.events;
        for i := 0 to |events|
          invariant out.written == Framed(events[..i], stringify) && !out.ended
          invariant usageTotals == TotalUsage(events[..i])
        {
          assert events[..i + 1][..i] == events[..i];
          out.Write(stringify(events[i]) + "\n");
          var counted := EventUsage(events[i]);
          usageTotals := Usage(usageTotals.inputTokens + counted.inputTokens, usageTotals.outputTokens + counted.outputTokens);
        }
        assert events[..|events|] == events;
        if stream.value.failure.Some? {
          out.Write("Internal Server Error\n");
          out.Write(stream.value.failure.value + "\n");
          out.End();
          return;
        }
      }
      logged := Some(usageTotals);
      out.End();
  }
}
