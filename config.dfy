/**
 * The settings of cloud-watch/config.go after the HCL text has been decoded:
 * the allow/omit field policy, the priority threshold lookup and the defaults
 * that LoadConfigFromString fills in.
 */
module Config {
  import opened Wrappers
  import opened Priorities

  /**
   * The Go `Config` struct. `allowedFields`/`omitFields` are the lists read
   * from the file; `fieldSet`/`omitFieldSet` are the private key sets that
   * LoadConfigFromString derives from them and that AllowField consults.
   * The unsigned settings are `nat`, the signed ones `int`.
   */
  datatype Config = Config(
    awsRegion: string,
    ec2InstanceId: string,
    logGroupName: string,
    logStreamName: string,
    logPriority: string,
    journalDir: string,
    queueChannelSize: int,
    queuePollDurationMs: nat,
    flushLogEntries: nat,
    queueBatchSize: int,
    cloudWatchBufferSize: int,
    debug: bool,
    tail: bool,
    rewind: int,
    local: bool,
    allowedFields: seq<string>,
    omitFields: seq<string>,
    fieldSet: set<string>,
    omitFieldSet: set<string>,
    fieldLength: int,
    mockCloudWatch: bool)

  /** A configuration with every setting at its Go zero value, as `&Config{}` allocates it. */
  const ZeroConfig := Config("", "", "", "", "", "", 0, 0, 0, 0, 0, false, false, 0, false, [], [], {}, {}, 0, false)

  const DefaultCloudWatchBufferSize := 10
  const DefaultQueueChannelSize := 3
  const DefaultQueueBatchSize := 10000
  const DefaultFlushLogEntries := 100
  const DefaultQueuePollDurationMs := 10
  const DefaultFieldLength := 255
  const DefaultLogPriority := "debug"
  const DefaultRewind := 10

  /** The set of the elements of a list. */
  function Elements(s: seq<string>): set<string> {
    set x | x in s
  }

  /** The key sets agree with the lists they are built from, as after LoadConfigFromString. */
  predicate KeySetsBuilt(c: Config) {
    c.fieldSet == Elements(c.allowedFields) && c.omitFieldSet == Elements(c.omitFields)
  }

  /**
   * The allow/omit rule. The branch is chosen by the lengths of the lists;
   * membership is looked up in the derived key sets. When both lists are set
   * the source also logs a warning, which the model leaves out.
   */
  function AllowField(c: Config, fieldName: string): (allowed: bool)
    ensures |c.allowedFields| == 0 && |c.omitFields| == 0 ==> allowed
    ensures allowed == ((|c.omitFields| == 0 || fieldName !in c.omitFieldSet)
                        && (|c.allowedFields| == 0 || fieldName in c.fieldSet))
  {
    if |c.allowedFields| == 0 && |c.omitFields| == 0 then
      true
    else if |c.allowedFields| > 0 && |c.omitFields| == 0 then
      fieldName in c.fieldSet
    else if |c.allowedFields| == 0 && |c.omitFields| > 0 then
      fieldName !in c.omitFieldSet
    else
      if fieldName in c.omitFieldSet then false else fieldName in c.fieldSet
  }

  /**
   * Once the key sets are built, a field is allowed exactly when it is not
   * omitted and either there is no allow-list or it is on it: omission wins.
   */
  lemma AllowFieldByLists(c: Config, fieldName: string)
    requires KeySetsBuilt(c)
    ensures AllowField(c, fieldName) == (fieldName !in c.omitFields
                                         && (|c.allowedFields| == 0 || fieldName in c.allowedFields))
  {
    if |c.omitFields| == 0 {
      assert fieldName !in c.omitFields;
    }
  }

  /** arrayToMap: the loop that inserts every element of the list into a set. */
  method ArrayToMap(elements: seq<string>) returns (theMap: set<string>)
    ensures forall x :: x in theMap <==> x in elements
    ensures theMap == Elements(elements)
  {
    theMap := {};
    if |elements| > 0 {
      for i := 0 to |elements|
        invariant theMap == Elements(elements[..i])
      {
        assert elements[..i + 1] == elements[..i] + [elements[i]];
        theMap := theMap + {elements[i]};
      }
      assert elements[..|elements|] == elements;
    }
  }

  /** Whether `s` names level `p`, by its digit or its short name. */
  predicate NamesLevel(p: Priority, s: string)
    requires IsLevel(p)
  {
    s == NumericName(p) || s == ShortName(p)
  }

  /** Search the levels from `p` upward for one that `s` names; DEBUG when none does. */
  function FindLevel(s: string, p: Priority): (r: Priority)
    requires EMERGENCY <= p <= DEBUG + 1
    ensures IsLevel(r)
    ensures (exists q :: p <= q <= DEBUG && NamesLevel(q, s)) ==> p <= r && NamesLevel(r, s)
    ensures (forall q :: p <= q <= DEBUG ==> !NamesLevel(q, s)) ==> r == DEBUG
    decreases DEBUG + 1 - p
  {
    if p == DEBUG + 1 then DEBUG
    else if NamesLevel(p, s) then p
    else FindLevel(s, p + 1)
  }

  /**
   * GetJournalDLogPriority: the level whose digit or short name is the
   * configured `log_priority`, and DEBUG when no level matches. The source
   * scans a Go map in unspecified order; since at most one level matches any
   * string (NamesIdentifyLevel), the order does not change the result.
   */
  function GetJournalDLogPriority(c: Config): (p: Priority)
    ensures IsLevel(p)
    ensures forall q :: IsLevel(q) && NamesLevel(q, c.logPriority) ==> p == q
    ensures (forall q :: IsLevel(q) ==> !NamesLevel(q, c.logPriority)) ==> p == DEBUG
  {
    var r := FindLevel(c.logPriority, EMERGENCY);
    assert forall q :: IsLevel(q) && NamesLevel(q, c.logPriority) ==> r == q by {
      forall q | IsLevel(q) && NamesLevel(q, c.logPriority)
        ensures r == q
      {
        NamesLevel_Unique(r, q, c.logPriority);
      }
    }
    r
  }

  lemma NamesLevel_Unique(p: Priority, q: Priority, s: string)
    requires IsLevel(p) && IsLevel(q) && NamesLevel(q, s)
    requires (exists q' :: EMERGENCY <= q' <= DEBUG && NamesLevel(q', s)) ==> NamesLevel(p, s)
    ensures p == q
  {
    NamesIdentifyLevel(p, q, s);
  }

  /** Each default of LoadConfigFromString, one setting at a time. */
  function WithKeySets(c: Config): Config {
    c.(fieldSet := Elements(c.allowedFields), omitFieldSet := Elements(c.omitFields))
  }

  function WithBufferSize(c: Config): Config {
    c.(cloudWatchBufferSize := if c.cloudWatchBufferSize == 0 then DefaultCloudWatchBufferSize else c.cloudWatchBufferSize)
  }

  function WithChannelSize(c: Config): Config {
    c.(queueChannelSize := if c.queueChannelSize == 0 then DefaultQueueChannelSize else c.queueChannelSize)
  }

  function WithBatchSize(c: Config): Config {
    c.(queueBatchSize := if c.queueBatchSize == 0 then DefaultQueueBatchSize else c.queueBatchSize)
  }

  function WithFlush(c: Config): Config {
    c.(flushLogEntries := if c.flushLogEntries == 0 then DefaultFlushLogEntries else c.flushLogEntries)
  }

  function WithPollDuration(c: Config): Config {
    c.(queuePollDurationMs := if c.queuePollDurationMs == 0 then DefaultQueuePollDurationMs else c.queuePollDurationMs)
  }

  function WithFieldLength(c: Config): Config {
    c.(fieldLength := if c.fieldLength == 0 then DefaultFieldLength else c.fieldLength)
  }

  function WithLogPriority(c: Config): Config {
    c.(logPriority := if c.logPriority == "" then DefaultLogPriority else c.logPriority)
  }

  function WithRewind(c: Config): Config {
    c.(rewind := if c.tail && c.rewind == 0 then DefaultRewind else c.rewind)
  }

  /** The defaults LoadConfigFromString fills in after decoding, in the order it applies them. */
  function ApplyDefaults(c: Config): Config {
    WithRewind(WithLogPriority(WithFieldLength(WithPollDuration(WithFlush(
      WithBatchSize(WithChannelSize(WithBufferSize(WithKeySets(c)))))))))
  }

  /** One `if x == zero { x = default }` step of LoadConfigFromString. */
  method OrDefault<T(==)>(value: T, zero: T, default: T) returns (r: T)
    ensures r == if value == zero then default else value
  {
    r := value;
    if value == zero {
      r := default;
    }
  }

  /**
   * LoadConfigFromString after `hcl.Decode`: `decoded` is what the decoder
   * produced (or its error). The key sets are built and each zero setting is
   * replaced by its default, one field at a time.
   */
  method LoadConfigFromString(decoded: Result<Config, string>) returns (r: Result<Config, string>)
    ensures decoded.Err? ==> r == Err(decoded.error)
    ensures decoded.Ok? ==> r == Ok(ApplyDefaults(decoded.value))
  {
    if decoded.Err? {
      return Err(decoded.error);
    }
    var config := decoded.value;
    var fields := ArrayToMap(config.allowedFields);
    var omitFields := ArrayToMap(config.omitFields);
    config := config.(fieldSet := fields, omitFieldSet := omitFields);
    var bufferSize := OrDefault(config.cloudWatchBufferSize, 0, DefaultCloudWatchBufferSize);
    config := config.(cloudWatchBufferSize := bufferSize);
    var channelSize := OrDefault(config.queueChannelSize, 0, DefaultQueueChannelSize);
    config := config.(queueChannelSize := channelSize);
    var batchSize := OrDefault(config.queueBatchSize, 0, DefaultQueueBatchSize);
    config := config.(queueBatchSize := batchSize);
    var flush := OrDefault(config.flushLogEntries, 0, DefaultFlushLogEntries);
    config := config.(flushLogEntries := flush);
    var poll := OrDefault(config.queuePollDurationMs, 0, DefaultQueuePollDurationMs);
    config := config.(queuePollDurationMs := poll);
    var fieldLength := OrDefault(config.fieldLength, 0, DefaultFieldLength);
    config := config.(fieldLength := fieldLength);
    var logPriority := OrDefault(config.logPriority, "", DefaultLogPriority);
    config := config.(logPriority := logPriority);
    if config.tail {
      var rewind := OrDefault(config.rewind, 0, DefaultRewind);
      config := config.(rewind := rewind);
    }
    return Ok(config);
  }

  /**
   * Loading changes only the derived key sets and the settings that were zero;
   * every setting that was given keeps its value, and every list is kept.
   */
  lemma DefaultsReplaceOnlyZeros(c: Config)
    ensures var r := ApplyDefaults(c);
      && KeySetsBuilt(r)
      && r.allowedFields == c.allowedFields && r.omitFields == c.omitFields
      && (c.cloudWatchBufferSize != 0 ==> r.cloudWatchBufferSize == c.cloudWatchBufferSize)
      && (c.queueChannelSize != 0 ==> r.queueChannelSize == c.queueChannelSize)
      && (c.queueBatchSize != 0 ==> r.queueBatchSize == c.queueBatchSize)
      && (c.flushLogEntries != 0 ==> r.flushLogEntries == c.flushLogEntries)
      && (c.queuePollDurationMs != 0 ==> r.queuePollDurationMs == c.queuePollDurationMs)
      && (c.fieldLength != 0 ==> r.fieldLength == c.fieldLength)
      && (c.logPriority != "" ==> r.logPriority == c.logPriority)
      && (!c.tail || c.rewind != 0 ==> r.rewind == c.rewind)
      && r.awsRegion == c.awsRegion && r.ec2InstanceId == c.ec2InstanceId
      && r.logGroupName == c.logGroupName && r.logStreamName == c.logStreamName
      && r.journalDir == c.journalDir && r.debug == c.debug && r.tail == c.tail
      && r.local == c.local && r.mockCloudWatch == c.mockCloudWatch
  {
  }

  /** Each zero setting gets its documented default; `rewind` only when `tail` is set. */
  lemma DefaultValues(c: Config)
    ensures var r := ApplyDefaults(c);
      && (c.cloudWatchBufferSize == 0 ==> r.cloudWatchBufferSize == 10)
      && (c.queueChannelSize == 0 ==> r.queueChannelSize == 3)
      && (c.queueBatchSize == 0 ==> r.queueBatchSize == 10000)
      && (c.flushLogEntries == 0 ==> r.flushLogEntries == 100)
      && (c.queuePollDurationMs == 0 ==> r.queuePollDurationMs == 10)
      && (c.fieldLength == 0 ==> r.fieldLength == 255)
      && (c.logPriority == "" ==> r.logPriority == "debug")
      && (c.tail && c.rewind == 0 ==> r.rewind == 10)
  {
  }

  /** Loading fills every setting that has a default: none is left at zero. */
  lemma DefaultsLeaveNoZero(c: Config)
    ensures var r := ApplyDefaults(c);
      && r.cloudWatchBufferSize != 0 && r.queueChannelSize != 0 && r.queueBatchSize != 0
      && r.flushLogEntries != 0 && r.queuePollDurationMs != 0 && r.fieldLength != 0
      && r.logPriority != "" && (r.tail ==> r.rewind != 0)
  {
  }

  /** Applying the defaults twice gives the same configuration as applying them once. */
  lemma DefaultsIdempotent(c: Config)
    ensures ApplyDefaults(ApplyDefaults(c)) == ApplyDefaults(c)
  {
  }

  /** A loaded configuration decides AllowField purely from its two lists. */
  lemma LoadedAllowField(c: Config, fieldName: string)
    ensures AllowField(ApplyDefaults(c), fieldName)
            == (fieldName !in c.omitFields && (|c.allowedFields| == 0 || fieldName in c.allowedFields))
  {
    AllowFieldByLists(ApplyDefaults(c), fieldName);
  }

  /** The configuration of config_test.go's TestConfig: `fields=["Foo", "Bar"]` allows "Foo". */
  lemma AllowListAllowsFoo()
    ensures AllowField(ApplyDefaults(ZeroConfig.(allowedFields := ["Foo", "Bar"])), "Foo")
  {
    LoadedAllowField(ZeroConfig.(allowedFields := ["Foo", "Bar"]), "Foo");
  }

  /** The configuration of TestLogOmitField: `omit_fields=["Foo", "Bar"]` rejects "Foo". */
  lemma OmitListRejectsFoo()
    ensures !AllowField(ApplyDefaults(ZeroConfig.(omitFields := ["Foo", "Bar"])), "Foo")
  {
    LoadedAllowField(ZeroConfig.(omitFields := ["Foo", "Bar"]), "Foo");
  }

  /** `log_priority` "3" and "err" both select ERROR; an unknown name selects DEBUG. */
  lemma PriorityLookupExamples()
    ensures GetJournalDLogPriority(ZeroConfig.(logPriority := "3")) == ERROR
    ensures GetJournalDLogPriority(ZeroConfig.(logPriority := "err")) == ERROR
    ensures GetJournalDLogPriority(ZeroConfig.(logPriority := "verbose")) == DEBUG
  {
    assert NamesLevel(ERROR, "3");
    assert NamesLevel(ERROR, "err");
    forall q | IsLevel(q) ensures !NamesLevel(q, "verbose") {
      assert "verbose"[0] == 'v';
    }
  }
}
