/**
 * The CloudWatch side of cloud-watch/cloudwatch_journal_repeater.go: a
 * repeater that keeps the next sequence token, and WriteBatch, which turns
 * records into log events and delivers them, recovering from a missing
 * stream or group and from a stale token.
 *
 * The AWS client is a scripted oracle (LogsService): the n-th call of each
 * kind gets the script's n-th answer, and every call is logged. The closures
 * of WriteBatch are methods of the repeater, each proved equal to a pure
 * function over the delivery state (the sink's counters and log, and the
 * token); the properties of the protocol are lemmas about those functions.
 */
module CloudWatchRepeater {
  import opened Wrappers
  import opened Strconv
  import opened Config
  import opened Records

  /** An error from the AWS client: an awserr.Error with its code, or any other error. */
  datatype SinkError = AwsError(code: string, message: string) | PlainError(message: string)

  const ResourceNotFound := "ResourceNotFoundException"
  const DataAlreadyAccepted := "DataAlreadyAcceptedException"
  const InvalidSequenceToken := "InvalidSequenceTokenException"

  /** An InputLogEvent: the JSON payload is kept as the record it is made from. */
  datatype LogEvent = LogEvent(payload: Record, timestamp: int)

  /** A described log stream; the upload token is a pointer that is nil for a stream never written. */
  datatype StreamInfo = StreamInfo(uploadSequenceToken: Option<string>)

  datatype PutAnswer = PutOk(nextToken: string) | PutFailed(err: SinkError)
  datatype DescribeAnswer = Described(streams: seq<StreamInfo>) | DescribeFailed(err: SinkError)

  /** The requests WriteBatch sends, with the fields it fills in. */
  datatype SinkCall =
    | PutCall(group: string, stream: string, events: seq<LogEvent>, token: Option<string>)
    | DescribeCall(group: string, prefix: string, limit: int)
    | CreateStreamCall(group: string, stream: string)
    | CreateGroupCall(group: string)

  /** The answers the service gives to the n-th call of each kind. */
  datatype Script = Script(
    put: nat -> PutAnswer,
    describe: nat -> DescribeAnswer,
    createStream: nat -> Option<SinkError>,
    createGroup: nat -> Option<SinkError>)

  /** How many calls of each kind the service has answered, and all calls in order. */
  datatype Sink = Sink(puts: nat, describes: nat, streamCreates: nat, groupCreates: nat, calls: seq<SinkCall>)

  /** What WriteBatch's closures read and write: the service and the repeater's sequence token. */
  datatype Delivery = Delivery(sink: Sink, token: string)

  /** The log group and stream of a repeater. */
  datatype Target = Target(group: string, stream: string)

  /** What an error returned by fmt.Errorf or errors.New is made of. */
  datatype Failure =
    | ClientError(err: SinkError)
    | Plain(text: string)
    | Wrapped(prefix: string, cause: Failure)

  /** How WriteBatch ends: nil, an error, or a panic (a nil pointer or nil interface dereferenced). */
  datatype Outcome = Done | Failed(failure: Failure) | Panicked

  /** The token field of a PutLogEvents request: set only when the repeater has a token. */
  function TokenField(token: string): (field: Option<string>)
    ensures field.Some? <==> token != ""
    ensures field.Some? ==> field.value == token
  {
    if token != "" then Some(token) else None
  }

  /** putEvents */
  function PutEvents(sc: Script, t: Target, d: Delivery, events: seq<LogEvent>): (Delivery, Option<SinkError>) {
    var sink := d.sink.(puts := d.sink.puts + 1,
                        calls := d.sink.calls + [PutCall(t.group, t.stream, events, TokenField(d.token))]);
    match sc.put(d.sink.puts)
    case PutOk(next) => (Delivery(sink, next), None)
    case PutFailed(err) => (Delivery(sink, d.token), Some(err))
  }

  /** getNextToken: look the stream up, take its upload token and put the events again. */
  function GetNextToken(sc: Script, t: Target, d: Delivery, events: seq<LogEvent>): (Delivery, Outcome) {
    var sink := d.sink.(describes := d.sink.describes + 1,
                        calls := d.sink.calls + [DescribeCall(t.group, t.stream, 1)]);
    match sc.describe(d.sink.describes)
    case DescribeFailed(err) => (Delivery(sink, d.token), Failed(ClientError(err)))
    case Described(streams) =>
      if |streams| == 0 then
        (Delivery(sink, d.token), Failed(Plain("failed to put events after looking for next sequence")))
      else if streams[0].uploadSequenceToken.None? then
        (Delivery(sink, d.token), Panicked)
      else
        var (d', err) := PutEvents(sc, t, Delivery(sink, streams[0].uploadSequenceToken.value), events);
        if err.Some? then (d', Failed(Wrapped("failed to put events after sequence lookup: : ", ClientError(err.value))))
        else (d', Done)
  }

  /** createStream */
  function CreateStream(sc: Script, t: Target, d: Delivery): (Delivery, Option<SinkError>) {
    var sink := d.sink.(streamCreates := d.sink.streamCreates + 1,
                        calls := d.sink.calls + [CreateStreamCall(t.group, t.stream)]);
    (Delivery(sink, d.token), sc.createStream(d.sink.streamCreates))
  }

  /** createLogGroup */
  function CreateLogGroup(sc: Script, t: Target, d: Delivery): (Delivery, Option<SinkError>) {
    var sink := d.sink.(groupCreates := d.sink.groupCreates + 1,
                        calls := d.sink.calls + [CreateGroupCall(t.group)]);
    (Delivery(sink, d.token), sc.createGroup(d.sink.groupCreates))
  }

  /**
   * recoverResourceNotFound: create the stream, and when that fails because
   * the group is missing, create the group and then the stream; then put the
   * events once more. A create failure that is not an AWS error leaves a nil
   * awserr.Error whose Code() panics.
   */
  function RecoverResourceNotFound(sc: Script, t: Target, d: Delivery, events: seq<LogEvent>): (Delivery, Outcome) {
    var (d1, err1) := CreateStream(sc, t, d);
    if err1.Some? && err1.value.PlainError? then (d1, Panicked)
    else if err1.Some? && err1.value.code != ResourceNotFound then
      (d1, Failed(Wrapped("failed to create stream: ", ClientError(err1.value))))
    else
      var (d2, errGroup) := if err1.Some? then CreateLogGroup(sc, t, d1) else (d1, None);
      if errGroup.Some? then (d2, Failed(Wrapped("failed to create log group: ", ClientError(errGroup.value))))
      else
        var (d3, err2) := if err1.Some? then CreateStream(sc, t, d2) else (d2, None);
        if err2.Some? then (d3, Failed(Wrapped("failed to create stream after log group: ", ClientError(err2.value))))
        else
          var (d4, errPut) := PutEvents(sc, t, d3, events);
          if errPut.Some? then (d4, Failed(Wrapped("failed to put events: ", ClientError(errPut.value))))
          else (d4, Done)
  }

  /** The reaction to a failed put, by error code. */
  function OnPutError(sc: Script, t: Target, d: Delivery, events: seq<LogEvent>, err: SinkError): (Delivery, Outcome) {
    if err.PlainError? then (d, Done)
    else if err.code == ResourceNotFound then RecoverResourceNotFound(sc, t, d, events)
    else if err.code == DataAlreadyAccepted || err.code == InvalidSequenceToken then
      var (d', outcome) := GetNextToken(sc, t, d, events);
      if outcome.Failed? then (d', Failed(Wrapped(TokenRetryPrefix(err.code), outcome.failure)))
      else (d', outcome)
    else (d, Failed(Wrapped("failed to put events: : ", ClientError(err))))
  }

  function TokenRetryPrefix(code: string): string {
    if code == DataAlreadyAccepted then "Next token failed after DataAlreadyAcceptedException :  "
    else "Next token failed after InvalidSequenceTokenException : "
  }

  /**
   * The delivery part of WriteBatch: without a token, getNextToken first
   * (its error is ignored, its panic is not); then putEvents and the
   * reaction to its error.
   */
  function Deliver(sc: Script, t: Target, d: Delivery, events: seq<LogEvent>): (Delivery, Outcome) {
    var (d0, lookup) := if d.token == "" then GetNextToken(sc, t, d, events) else (d, Done);
    if lookup.Panicked? then (d0, Panicked)
    else
      var (d1, err) := PutEvents(sc, t, d0, events);
      if err.None? then (d1, Done) else OnPutError(sc, t, d1, events, err.value)
  }

  /** The PutLogEvents request a repeater with this token sends. */
  function PutRequest(t: Target, events: seq<LogEvent>, token: string): SinkCall {
    PutCall(t.group, t.stream, events, TokenField(token))
  }

  /**
   * putEvents sends one request, carrying the token exactly when there is
   * one; on success the token becomes the one the service returned, on
   * failure it is kept and the service's error is returned.
   */
  lemma PutEventsEffect(sc: Script, t: Target, d: Delivery, events: seq<LogEvent>)
    ensures var (d', err) := PutEvents(sc, t, d, events);
      && d'.sink.calls == d.sink.calls + [PutRequest(t, events, d.token)]
      && (PutRequest(t, events, d.token).token.Some? <==> d.token != "")
      && (err.None? <==> sc.put(d.sink.puts).PutOk?)
      && (err.None? ==> d'.token == sc.put(d.sink.puts).nextToken)
      && (err.Some? ==> d'.token == d.token && err.value == sc.put(d.sink.puts).err)
  {
  }

  /**
   * getNextToken: a describe error is returned as it is; no stream is an
   * error; otherwise the token is taken from the first stream and the events
   * are put with it, and the lookup succeeds iff that put does.
   */
  lemma GetNextTokenEffect(sc: Script, t: Target, d: Delivery, events: seq<LogEvent>)
    ensures var (d', outcome) := GetNextToken(sc, t, d, events);
      var lookup := DescribeCall(t.group, t.stream, 1);
      match sc.describe(d.sink.describes)
      case DescribeFailed(err) =>
        d'.sink.calls == d.sink.calls + [lookup] && d'.token == d.token && outcome == Failed(ClientError(err))
      case Described(streams) =>
        if |streams| == 0 then
          && d'.sink.calls == d.sink.calls + [lookup] && d'.token == d.token
          && outcome == Failed(Plain("failed to put events after looking for next sequence"))
        else if streams[0].uploadSequenceToken.None? then outcome == Panicked
        else
          && d'.sink.calls == d.sink.calls + [lookup, PutRequest(t, events, streams[0].uploadSequenceToken.value)]
          && (outcome == Done <==> sc.put(d.sink.puts).PutOk?)
          && (outcome != Done ==> outcome.Failed?)
  {
  }

  /** Every step of the protocol only appends to the calls made so far. */
  lemma CallsOnlyGrow(sc: Script, t: Target, d: Delivery, events: seq<LogEvent>, err: SinkError)
    ensures d.sink.calls <= PutEvents(sc, t, d, events).0.sink.calls
    ensures d.sink.calls <= GetNextToken(sc, t, d, events).0.sink.calls
    ensures d.sink.calls <= OnPutError(sc, t, d, events, err).0.sink.calls
  {
  }

  /** Without a token WriteBatch starts by looking the stream up; with one it starts by putting. */
  lemma DeliverStartsWithLookup(sc: Script, t: Target, d: Delivery, events: seq<LogEvent>)
    ensures var (d', _) := Deliver(sc, t, d, events);
      d.sink.calls + [if d.token == "" then DescribeCall(t.group, t.stream, 1) else PutRequest(t, events, d.token)] <= d'.sink.calls
  {
    var first := if d.token == "" then DescribeCall(t.group, t.stream, 1) else PutRequest(t, events, d.token);
    var (d0, lookup) := if d.token == "" then GetNextToken(sc, t, d, events) else (d, Done);
    if d.token == "" {
      var afterDescribe := d.sink.calls + [first];
      assert afterDescribe <= d0.sink.calls;
    }
    if !lookup.Panicked? {
      var (d1, err) := PutEvents(sc, t, d0, events);
      CallsOnlyGrow(sc, t, d, events, PlainError(""));
      CallsOnlyGrow(sc, t, d0, events, PlainError(""));
      if err.Some? {
        CallsOnlyGrow(sc, t, d1, events, err.value);
      }
    }
  }

  /**
   * One WriteBatch puts the batch at least once, unless the initial lookup
   * panics, and at most three times: the lookup's put, the put itself, and
   * one retry after recovery.
   */
  lemma {:induction false} DeliverPutsAtMostThree(sc: Script, t: Target, d: Delivery, events: seq<LogEvent>)
    ensures var (d', outcome) := Deliver(sc, t, d, events);
      && d'.sink.puts <= d.sink.puts + 3
      && (outcome.Panicked? || d'.sink.puts >= d.sink.puts + 1)
  {
    var (d0, lookup) := if d.token == "" then GetNextToken(sc, t, d, events) else (d, Done);
    assert d0.sink.puts <= d.sink.puts + 1;
    if !lookup.Panicked? {
      var (d1, err) := PutEvents(sc, t, d0, events);
      if err.Some? {
        OnPutErrorPuts(sc, t, d1, events, err.value);
      }
    }
  }

  /** The reaction to a failed put puts at most once more. */
  lemma OnPutErrorPuts(sc: Script, t: Target, d: Delivery, events: seq<LogEvent>, err: SinkError)
    ensures d.sink.puts <= OnPutError(sc, t, d, events, err).0.sink.puts <= d.sink.puts + 1
  {
  }

  /**
   * The reaction to ResourceNotFoundException, from any state: create the
   * stream, and the group and the stream again when the group is missing;
   * once the stream exists the events are put exactly once more, with the
   * token the failed put carried. Any other create failure is an error, or a
   * panic when it is not an AWS error.
   */
  lemma ResourceNotFoundReaction(sc: Script, t: Target, d: Delivery, events: seq<LogEvent>, message: string)
    ensures var (d', outcome) := OnPutError(sc, t, d, events, AwsError(ResourceNotFound, message));
      var put := PutRequest(t, events, d.token);
      var create := CreateStreamCall(t.group, t.stream);
      var firstCreate := sc.createStream(d.sink.streamCreates);
      var group := sc.createGroup(d.sink.groupCreates);
      var secondCreate := sc.createStream(d.sink.streamCreates + 1);
      && (firstCreate.None? ==>
            && d'.sink.calls == d.sink.calls + [create, put]
            && (outcome == Done <==> sc.put(d.sink.puts).PutOk?))
      && (firstCreate.Some? && firstCreate.value.PlainError? ==> outcome == Panicked)
      && (firstCreate.Some? && firstCreate.value.AwsError? && firstCreate.value.code != ResourceNotFound ==>
            && d'.sink.calls == d.sink.calls + [create]
            && outcome == Failed(Wrapped("failed to create stream: ", ClientError(firstCreate.value))))
      && (firstCreate.Some? && firstCreate.value.AwsError? && firstCreate.value.code == ResourceNotFound ==>
            if group.Some? then
              && d'.sink.calls == d.sink.calls + [create, CreateGroupCall(t.group)]
              && outcome == Failed(Wrapped("failed to create log group: ", ClientError(group.value)))
            else if secondCreate.Some? then
              && d'.sink.calls == d.sink.calls + [create, CreateGroupCall(t.group), create]
              && outcome == Failed(Wrapped("failed to create stream after log group: ", ClientError(secondCreate.value)))
            else
              && d'.sink.calls == d.sink.calls + [create, CreateGroupCall(t.group), create, put]
              && (outcome == Done <==> sc.put(d.sink.puts).PutOk?))
  {
  }

  /**
   * The reaction to DataAlreadyAcceptedException or
   * InvalidSequenceTokenException, from any state: one getNextToken, whose
   * success is success and whose error is returned wrapped.
   */
  lemma StaleTokenReaction(sc: Script, t: Target, d: Delivery, events: seq<LogEvent>, code: string, message: string)
    requires code == DataAlreadyAccepted || code == InvalidSequenceToken
    ensures var (d', outcome) := OnPutError(sc, t, d, events, AwsError(code, message));
      var (dLookup, lookup) := GetNextToken(sc, t, d, events);
      && d.sink.calls + [DescribeCall(t.group, t.stream, 1)] <= d'.sink.calls
      && d' == dLookup
      && (outcome == Done <==> lookup == Done)
      && (outcome == Panicked <==> lookup == Panicked)
      && (lookup.Failed? ==> outcome == Failed(Wrapped(TokenRetryPrefix(code), lookup.failure)))
  {
    GetNextTokenStartsWithLookup(sc, t, d, events);
  }

  /**
   * Any other error, from any state: another AWS code is returned wrapped and
   * a non-AWS error is swallowed; neither makes a further call.
   */
  lemma OtherErrorsReaction(sc: Script, t: Target, d: Delivery, events: seq<LogEvent>, err: SinkError)
    requires err.PlainError? || err.code !in {ResourceNotFound, DataAlreadyAccepted, InvalidSequenceToken}
    ensures var (d', outcome) := OnPutError(sc, t, d, events, err);
      && d' == d
      && outcome == (if err.PlainError? then Done else Failed(Wrapped("failed to put events: : ", ClientError(err))))
  {
  }

  /**
   * Without a token, WriteBatch first runs getNextToken. A panic there ends
   * it; any other result, an error included, is ignored, and the events are
   * then put with whatever token the lookup left (none when it made no put),
   * after which a failed put gets the reaction to its error code.
   */
  lemma DeliverWithoutToken(sc: Script, t: Target, d: Delivery, events: seq<LogEvent>)
    requires d.token == ""
    ensures var (d', outcome) := Deliver(sc, t, d, events);
      var (dLookup, lookup) := GetNextToken(sc, t, d, events);
      var (dPut, err) := PutEvents(sc, t, dLookup, events);
      && d.sink.calls + [DescribeCall(t.group, t.stream, 1)] <= dLookup.sink.calls
      && (dLookup.sink.puts == d.sink.puts ==> dLookup.token == "")
      && (lookup.Panicked? ==> outcome == Panicked && d' == dLookup)
      && (!lookup.Panicked? ==>
            && dPut.sink.calls == dLookup.sink.calls + [PutRequest(t, events, dLookup.token)]
            && (err.None? <==> sc.put(dLookup.sink.puts).PutOk?)
            && (err.None? ==> d' == dPut && outcome == Done)
            && (err.Some? ==> (d', outcome) == OnPutError(sc, t, dPut, events, err.value)))
  {
    GetNextTokenStartsWithLookup(sc, t, d, events);
    PutEventsEffect(sc, t, GetNextToken(sc, t, d, events).0, events);
  }

  /**
   * The first batch of a new stream: the lookup finds no stream, the put
   * without a token is rejected with ResourceNotFoundException, the stream
   * is created and the events are put once more without a token.
   */
  lemma FirstBatchCreatesStream(sc: Script, t: Target, d: Delivery, events: seq<LogEvent>, message: string)
    requires d.token == ""
    requires sc.describe(d.sink.describes) == Described([])
    requires sc.put(d.sink.puts) == PutFailed(AwsError(ResourceNotFound, message))
    requires sc.createStream(d.sink.streamCreates).None?
    ensures var (d', outcome) := Deliver(sc, t, d, events);
      var put := PutRequest(t, events, "");
      && d'.sink.calls == d.sink.calls + [DescribeCall(t.group, t.stream, 1), put, CreateStreamCall(t.group, t.stream), put]
      && put.token.None?
      && (outcome == Done <==> sc.put(d.sink.puts + 1).PutOk?)
  {
    var (dLookup, lookup) := GetNextToken(sc, t, d, events);
    assert dLookup.token == "" && dLookup.sink.puts == d.sink.puts;
    var (dPut, err) := PutEvents(sc, t, dLookup, events);
    assert err == Some(AwsError(ResourceNotFound, message));
    ResourceNotFoundReaction(sc, t, dPut, events, message);
  }

  /**
   * With a token, a put rejected with ResourceNotFoundException creates the
   * stream, and the group and the stream again when the group is missing;
   * once the stream exists the events are put exactly once more. Any other
   * create failure ends WriteBatch with an error, or a panic when it is not
   * an AWS error.
   */
  lemma ResourceNotFoundRecovery(sc: Script, t: Target, d: Delivery, events: seq<LogEvent>, message: string)
    requires d.token != "" && sc.put(d.sink.puts) == PutFailed(AwsError(ResourceNotFound, message))
    ensures var (d', outcome) := Deliver(sc, t, d, events);
      var put := PutRequest(t, events, d.token);
      var create := CreateStreamCall(t.group, t.stream);
      var firstCreate := sc.createStream(d.sink.streamCreates);
      var group := sc.createGroup(d.sink.groupCreates);
      var secondCreate := sc.createStream(d.sink.streamCreates + 1);
      && (firstCreate.None? ==>
            && d'.sink.calls == d.sink.calls + [put, create, put]
            && (outcome == Done <==> sc.put(d.sink.puts + 1).PutOk?))
      && (firstCreate.Some? && firstCreate.value.PlainError? ==> outcome == Panicked)
      && (firstCreate.Some? && firstCreate.value.AwsError? && firstCreate.value.code != ResourceNotFound ==>
            && d'.sink.calls == d.sink.calls + [put, create]
            && outcome == Failed(Wrapped("failed to create stream: ", ClientError(firstCreate.value))))
      && (firstCreate.Some? && firstCreate.value.AwsError? && firstCreate.value.code == ResourceNotFound ==>
            if group.Some? then
              && d'.sink.calls == d.sink.calls + [put, create, CreateGroupCall(t.group)]
              && outcome == Failed(Wrapped("failed to create log group: ", ClientError(group.value)))
            else if secondCreate.Some? then
              && d'.sink.calls == d.sink.calls + [put, create, CreateGroupCall(t.group), create]
              && outcome == Failed(Wrapped("failed to create stream after log group: ", ClientError(secondCreate.value)))
            else
              && d'.sink.calls == d.sink.calls + [put, create, CreateGroupCall(t.group), create, put]
              && (outcome == Done <==> sc.put(d.sink.puts + 1).PutOk?))
  {
  }

  /**
   * With a token, a put rejected with DataAlreadyAcceptedException or
   * InvalidSequenceTokenException triggers one getNextToken: WriteBatch
   * returns nil when it succeeds, and its error wrapped otherwise.
   */
  lemma StaleTokenRecovery(sc: Script, t: Target, d: Delivery, events: seq<LogEvent>, code: string, message: string)
    requires d.token != "" && sc.put(d.sink.puts) == PutFailed(AwsError(code, message))
    requires code == DataAlreadyAccepted || code == InvalidSequenceToken
    ensures var (d', outcome) := Deliver(sc, t, d, events);
      var afterPut := PutEvents(sc, t, d, events).0;
      var (dLookup, lookup) := GetNextToken(sc, t, afterPut, events);
      && d.sink.calls + [PutRequest(t, events, d.token), DescribeCall(t.group, t.stream, 1)] <= d'.sink.calls
      && d' == dLookup
      && (outcome == Done <==> lookup == Done)
      && (lookup.Failed? ==> outcome == Failed(Wrapped(TokenRetryPrefix(code), lookup.failure)))
  {
    var (d1, err) := PutEvents(sc, t, d, events);
    assert err == Some(AwsError(code, message));
    assert d1.sink.calls == d.sink.calls + [PutRequest(t, events, d.token)];
    assert Deliver(sc, t, d, events) == OnPutError(sc, t, d1, events, err.value);
    GetNextTokenStartsWithLookup(sc, t, d1, events);
  }

  /** getNextToken always begins with the DescribeLogStreams request. */
  lemma GetNextTokenStartsWithLookup(sc: Script, t: Target, d: Delivery, events: seq<LogEvent>)
    ensures d.sink.calls + [DescribeCall(t.group, t.stream, 1)] <= GetNextToken(sc, t, d, events).0.sink.calls
  {
  }

  /**
   * Any other AWS error code ends WriteBatch with an error and no retry; an
   * error that is not an AWS error is swallowed and WriteBatch returns nil.
   */
  lemma OtherErrorsNoRetry(sc: Script, t: Target, d: Delivery, events: seq<LogEvent>)
    requires d.token != "" && sc.put(d.sink.puts).PutFailed?
    requires var err := sc.put(d.sink.puts).err;
      err.PlainError? || err.code !in {ResourceNotFound, DataAlreadyAccepted, InvalidSequenceToken}
    ensures var (d', outcome) := Deliver(sc, t, d, events);
      var err := sc.put(d.sink.puts).err;
      && d'.sink.calls == d.sink.calls + [PutRequest(t, events, d.token)]
      && d'.token == d.token
      && outcome == (if err.PlainError? then Done else Failed(Wrapped("failed to put events: : ", ClientError(err))))
  {
  }

  /**
   * A batch can be put twice in one WriteBatch: without a token, the lookup
   * puts the events with the stream's token, and then WriteBatch puts them
   * again with the token that put returned.
   */
  lemma DoublePutWithoutToken(sc: Script, t: Target, d: Delivery, events: seq<LogEvent>, streamToken: string, next: string)
    requires d.token == "" && streamToken != "" && next != ""
    requires sc.describe(d.sink.describes).Described?
    requires |sc.describe(d.sink.describes).streams| > 0
    requires sc.describe(d.sink.describes).streams[0].uploadSequenceToken == Some(streamToken)
    requires sc.put(d.sink.puts) == PutOk(next) && sc.put(d.sink.puts + 1).PutOk?
    ensures var (d', outcome) := Deliver(sc, t, d, events);
      && d'.sink.calls == d.sink.calls + [DescribeCall(t.group, t.stream, 1), PutRequest(t, events, streamToken), PutRequest(t, events, next)]
      && d'.sink.puts == d.sink.puts + 2
      && outcome == Done
  {
  }

  /** Go's int64 increment: MaxInt64 + 1 wraps to MinInt64. */
  function Inc64(x: int): (y: int)
    requires IsInt64(x)
    ensures IsInt64(y)
    ensures x < MaxInt64 ==> y == x + 1
    ensures x == MaxInt64 ==> y == MinInt64
  {
    if x == MaxInt64 then MinInt64 else x + 1
  }

  /** The counter after n increments. */
  function Advance(x: int, n: nat): (y: int)
    requires IsInt64(x)
    ensures IsInt64(y)
  {
    if n == 0 then x else Inc64(Advance(x, n - 1))
  }

  /** Without passing MaxInt64, n increments add n. */
  lemma {:induction false} AdvanceNoWrap(x: int, n: nat)
    requires IsInt64(x) && x + n <= MaxInt64
    ensures Advance(x, n) == x + n
  {
    if n > 0 {
      AdvanceNoWrap(x, n - 1);
    }
  }

  /** The records of a batch after WriteBatch's loop: the k-th gets the counter's (k+1)-th next value as SeqId. */
  function WithSeqIds(records: seq<Record>, start: int): (stamped: seq<Record>)
    requires IsInt64(start)
    ensures |stamped| == |records|
    ensures forall k :: 0 <= k < |records| ==>
      stamped[k].seqId == Advance(start, k + 1) && stamped[k].(seqId := 0) == records[k].(seqId := 0)
  {
    seq(|records|, k requires 0 <= k < |records| => records[k].(seqId := Advance(start, k + 1)))
  }

  /** One event per record, in order, timestamped with the record's TimeUsec. */
  function EventsOf(records: seq<Record>): (events: seq<LogEvent>)
    ensures |events| == |records|
    ensures forall k :: 0 <= k < |records| ==> events[k] == LogEvent(records[k], records[k].timeUsec)
  {
    seq(|records|, k requires 0 <= k < |records| => LogEvent(records[k], records[k].timeUsec))
  }

  /** Unless the counter passes MaxInt64, the records of a batch get SeqIds start+1, start+2, ... */
  lemma SeqIdsConsecutive(records: seq<Record>, start: int, k: nat)
    requires IsInt64(start) && start + |records| <= MaxInt64
    requires k < |records|
    ensures WithSeqIds(records, start)[k].seqId == start + k + 1
  {
    AdvanceNoWrap(start, k + 1);
  }

  /** The AWS client, answering from a script and logging every request. */
  class LogsService {
    const script: Script
    var puts: nat
    var describes: nat
    var streamCreates: nat
    var groupCreates: nat
    ghost var calls: seq<SinkCall>

    ghost function View(): Sink
      reads this
    {
      Sink(puts, describes, streamCreates, groupCreates, calls)
    }

    constructor (script: Script)
      ensures this.script == script && View() == Sink(0, 0, 0, 0, [])
    {
      this.script := script;
      puts, describes, streamCreates, groupCreates := 0, 0, 0, 0;
      calls := [];
    }

    method PutLogEvents(group: string, stream: string, events: seq<LogEvent>, token: Option<string>) returns (answer: PutAnswer)
      modifies this
      ensures answer == script.put(old(puts))
      ensures View() == old(View()).(puts := old(puts) + 1, calls := old(calls) + [PutCall(group, stream, events, token)])
    {
      answer := script.put(puts);
      puts := puts + 1;
      calls := calls + [PutCall(group, stream, events, token)];
    }

    method DescribeLogStreams(group: string, prefix: string, limit: int) returns (answer: DescribeAnswer)
      modifies this
      ensures answer == script.describe(old(describes))
      ensures View() == old(View()).(describes := old(describes) + 1, calls := old(calls) + [DescribeCall(group, prefix, limit)])
    {
      answer := script.describe(describes);
      describes := describes + 1;
      calls := calls + [DescribeCall(group, prefix, limit)];
    }

    method CreateLogStream(group: string, stream: string) returns (err: Option<SinkError>)
      modifies this
      ensures err == script.createStream(old(streamCreates))
      ensures View() == old(View()).(streamCreates := old(streamCreates) + 1, calls := old(calls) + [CreateStreamCall(group, stream)])
    {
      err := script.createStream(streamCreates);
      streamCreates := streamCreates + 1;
      calls := calls + [CreateStreamCall(group, stream)];
    }

    method CreateLogGroup(group: string) returns (err: Option<SinkError>)
      modifies this
      ensures err == script.createGroup(old(groupCreates))
      ensures View() == old(View()).(groupCreates := old(groupCreates) + 1, calls := old(calls) + [CreateGroupCall(group)])
    {
      err := script.createGroup(groupCreates);
      groupCreates := groupCreates + 1;
      calls := calls + [CreateGroupCall(group)];
    }
  }

  /** The package-level messageId counter. */
  class MessageCounter {
    var value: int

    constructor ()
      ensures value == 0
    {
      value := 0;
    }
  }

  class CloudWatchJournalRepeater {
    const conn: LogsService
    const logGroupName: string
    const logStreamName: string
    var nextSequenceToken: string

    ghost function State(): Delivery
      reads this, conn
    {
      Delivery(conn.View(), nextSequenceToken)
    }

    function Names(): Target {
      Target(logGroupName, logStreamName)
    }

    /** NewCloudWatchJournalRepeater: group and stream from the configuration, no token yet. */
    constructor (conn: LogsService, config: Config)
      ensures this.conn == conn && logGroupName == config.logGroupName && logStreamName == config.logStreamName
      ensures nextSequenceToken == ""
    {
      this.conn := conn;
      logGroupName := config.logGroupName;
      logStreamName := config.logStreamName;
      nextSequenceToken := "";
    }

    method PutEventsStep(events: seq<LogEvent>) returns (err: Option<SinkError>)
      modifies this, conn
      ensures (State(), err) == PutEvents(conn.script, Names(), old(State()), events)
    {
      var token := if nextSequenceToken != "" then Some(nextSequenceToken) else None;
      var result := conn.PutLogEvents(logGroupName, logStreamName, events, token);
      match result
      case PutFailed(e) =>
        return Some(e);
      case PutOk(next) =>
        nextSequenceToken := next;
        return None;
    }

    method GetNextTokenStep(events: seq<LogEvent>) returns (outcome: Outcome)
      modifies this, conn
      ensures (State(), outcome) == GetNextToken(conn.script, Names(), old(State()), events)
    {
      var described := conn.DescribeLogStreams(logGroupName, logStreamName, 1);
      match described
      case DescribeFailed(e) =>
        return Failed(ClientError(e));
      case Described(streams) =>
        if |streams| > 0 {
          if streams[0].uploadSequenceToken.None? {
            return Panicked;
          }
          nextSequenceToken := streams[0].uploadSequenceToken.value;
          var err := PutEventsStep(events);
          if err.Some? {
            return Failed(Wrapped("failed to put events after sequence lookup: : ", ClientError(err.value)));
          }
          return Done;
        }
        return Failed(Plain("failed to put events after looking for next sequence"));
    }

    method CreateStreamStep() returns (err: Option<SinkError>)
      modifies conn
      ensures (State(), err) == CreateStream(conn.script, Names(), old(State()))
    {
      err := conn.CreateLogStream(logGroupName, logStreamName);
    }

    method CreateLogGroupStep() returns (err: Option<SinkError>)
      modifies conn
      ensures (State(), err) == CreateLogGroup(conn.script, Names(), old(State()))
    {
      err := conn.CreateLogGroup(logGroupName);
    }

    method RecoverResourceNotFoundStep(events: seq<LogEvent>) returns (outcome: Outcome)
      modifies this, conn
      ensures (State(), outcome) == RecoverResourceNotFound(conn.script, Names(), old(State()), events)
    {
      var err := CreateStreamStep();
      if err.Some? {
        if err.value.PlainError? {
          return Panicked;
        }
        if err.value.code == ResourceNotFound {
          var errGroup := CreateLogGroupStep();
          if errGroup.Some? {
            return Failed(Wrapped("failed to create log group: ", ClientError(errGroup.value)));
          }
          var errStream := CreateStreamStep();
          if errStream.Some? {
            return Failed(Wrapped("failed to create stream after log group: ", ClientError(errStream.value)));
          }
        } else {
          return Failed(Wrapped("failed to create stream: ", ClientError(err.value)));
        }
      }
      var errPut := PutEventsStep(events);
      if errPut.Some? {
        return Failed(Wrapped("failed to put events: ", ClientError(errPut.value)));
      }
      return Done;
    }

    /** WriteBatch's loop: each record gets the next messageId as SeqId and becomes one event. */
    method BuildEvents(records: array<Record>, counter: MessageCounter) returns (events: seq<LogEvent>)
      requires IsInt64(counter.value)
      modifies records, counter
      ensures records[..] == WithSeqIds(old(records[..]), old(counter.value))
      ensures counter.value == Advance(old(counter.value), records.Length)
      ensures events == EventsOf(records[..])
    {
      events := [];
      var i := 0;
      while i < records.Length
        invariant 0 <= i <= records.Length
        invariant counter.value == Advance(old(counter.value), i)
        invariant records[..i] == WithSeqIds(old(records[..]), old(counter.value))[..i]
        invariant records[i..] == old(records[..])[i..]
        invariant events == EventsOf(records[..i])
      {
        counter.value := Inc64(counter.value);
        records[i] := records[i].(seqId := counter.value);
        events := events + [LogEvent(records[i], records[i].timeUsec)];
        i := i + 1;
      }
    }

    /**
     * WriteBatch: stamps and converts the records, then delivers them as
     * Deliver says, leaving the token and the service where Deliver does.
     */
    method WriteBatch(records: array<Record>, counter: MessageCounter) returns (outcome: Outcome)
      requires IsInt64(counter.value)
      modifies this, conn, records, counter
      ensures records[..] == WithSeqIds(old(records[..]), old(counter.value))
      ensures counter.value == Advance(old(counter.value), records.Length)
      ensures (State(), outcome) == Deliver(conn.script, Names(), old(State()), EventsOf(records[..]))
    {
      var events := BuildEvents(records, counter);
      if nextSequenceToken == "" {
        var lookup := GetNextTokenStep(events);
        if lookup.Panicked? {
          return Panicked;
        }
      }
      var err := PutEventsStep(events);
      if err.None? {
        return Done;
      }
      var e := err.value;
      if e.PlainError? {
        return Done;
      }
      if e.code == ResourceNotFound {
        outcome := RecoverResourceNotFoundStep(events);
      } else if e.code == DataAlreadyAccepted || e.code == InvalidSequenceToken {
        outcome := GetNextTokenStep(events);
        if outcome.Failed? {
          outcome := Failed(Wrapped(TokenRetryPrefix(e.code), outcome.failure));
        }
      } else {
        outcome := Failed(Wrapped("failed to put events: : ", ClientError(e)));
      }
    }
  }
}
