# systemd-cloud-watch: the journal-to-CloudWatch path, in Dafny

This project models the core of systemd-cloud-watch. That Go service reads
entries from the systemd journal, turns each one into a `Record`, groups the
records into batches and sends each batch to Amazon CloudWatch Logs. It keeps
the CloudWatch sequence token as it goes and recovers from a missing log
stream or group and from a stale token.

The model follows the Go package file by file:

| Go file | Dafny module | form |
|---|---|---|
| cloud-watch/record.go (priorities) | `Priorities` (priorities.dfy) | pure |
| cloud-watch/config.go | `Config` (config.dfy) | pure functions, plus methods for `arrayToMap` and `LoadConfigFromString` |
| Go's `strconv` and integer conversions | `Strconv` (strconv.dfy) | pure |
| cloud-watch/Journal.go | `Journals` (journal.dfy) | a scripted journal class |
| cloud-watch/record.go | `Records`, `RecordScenarios` (records.dfy) | the decoding loop as methods, each proved equal to a function |
| cloud-watch/workers.go | `Workers` (workers.dfy) | reader and batcher as methods and classes over a channel object |
| cloud-watch/cloudwatch_journal_repeater.go | `CloudWatchRepeater` (repeater.dfy) | a repeater class over a scripted AWS client |
| cloud-watch/mock.go | `Mock` (mock.dfy) | `TestJournal` and `MockJournalRepeater` classes |
| cloud-watch/journal_linux.go | `SdJournals` (sdjournal.dfy) | `SdJournal` class wrapping the journal handle |

How the outside world is represented:

- **The journal.** The Go `Journal` interface is one class, `Journals.Journal`.
  - A script gives the answers to the coming `Next()` calls. Constants give the answers to the other cursor operations.
  - A ghost log records every call made on it.
  - `SdJournal` wraps such a class as its sd-journal handle. `TestJournal` is its own class with the counter of mock.go.
  - `TestJournal.AddLogFilters` (cloud-watch/mock.go:149-151) only logs. It is a method that may change nothing, so it has no contract to state.
- **CloudWatch Logs.** The AWS client is `LogsService`.
  - The n-th call of each kind gets the n-th answer of a script.
  - Every request is logged.
  - The closures inside `WriteBatch` are methods of the repeater. Each is proved equal to a pure function over the delivery state (the client's counters and log, plus the token). The recovery rules are lemmas about those functions.
- **Panics.** A panic in the Go code is the `Panicked` outcome, or `positioned == false` for `positionCursor`. The cases:
  - a nil upload token of a described stream;
  - a non-AWS error from `CreateLogStream`, whose nil `awserr.Error` is then asked for its `Code()`;
  - a failed seek at start-up.
- **Strings.** A Go string is a sequence of bytes, and `len` and slicing count bytes. A model string stands for those bytes, one `char` per byte (`Records.IsByteString`). A journal field that holds text holds its UTF-8 encoding, `Records.Utf8(text)`, so every length limit counts bytes.
- **Channels, the terminate signal and the timer.** These are sequences of events, described at `ReadRecords` and `BatchRecords` below.

## Model

| member | source | states |
|---|---|---|
| Priorities.JsonLabel | cloud-watch/record.go:23-32 | exactly the eight levels EMERGENCY..DEBUG have a label |
| Priorities.JsonLabelInjective | cloud-watch/record.go:23-32 | distinct levels have distinct labels |
| Priorities.NumericName | cloud-watch/config.go:35-44 | each level's numeric name is its single decimal digit |
| Priorities.NamesIdentifyLevel | cloud-watch/config.go:35-44 | no string names two different levels, so the map's iteration order cannot change the lookup |
| Config.AllowField | cloud-watch/config.go:55-77 | all four branches agree with one rule: a key is allowed iff it is not omitted and the allow-list is empty or holds it; with both lists empty every key is allowed |
| Config.AllowFieldByLists | cloud-watch/config.go:55-77 | once the key sets are built from the lists, the same rule holds over the lists themselves: omission wins |
| Config.ArrayToMap | cloud-watch/config.go:79-87 | the map's keys are exactly the array's elements: duplicates collapse, and an empty array gives an empty set |
| Config.FindLevel | cloud-watch/config.go:46-52 | the search returns a level that the string names when one exists, and DEBUG otherwise |
| Config.GetJournalDLogPriority | cloud-watch/config.go:33-53 | returns the level whose digit or short name equals `log_priority`, and DEBUG for any other value |
| Config.NamesLevel_Unique | cloud-watch/config.go:46-50 | the matching level is unique |
| Config.OrDefault | cloud-watch/config.go:103-136 | one defaulting step replaces a setting only when it is zero |
| Config.LoadConfigFromString | cloud-watch/config.go:89-147 | a decoding error is returned as it is; otherwise the result is the decoded configuration with its key sets built and its defaults applied |
| Config.DefaultsReplaceOnlyZeros | cloud-watch/config.go:100-143 | defaulting builds the key sets, changes no non-zero setting and leaves every other field alone; Rewind is kept unless Tail is set and Rewind is 0 |
| Config.DefaultValues | cloud-watch/config.go:103-143 | the defaults are buffer 10, channel 3, batch 10000, flush 100, poll 10, field length 255, priority "debug", and rewind 10 under Tail |
| Config.DefaultsLeaveNoZero | cloud-watch/config.go:103-143 | after defaulting none of the defaulted settings is zero |
| Config.DefaultsIdempotent | cloud-watch/config.go:100-143 | applying the defaults twice equals applying them once |
| Config.LoadedAllowField | cloud-watch/config.go:55-77 | after loading, AllowField follows the omit-wins rule over the decoded lists |
| Config.AllowListAllowsFoo | cloud-watch/config_test.go:41-44 | with `fields=["Foo","Bar"]`, "Foo" is allowed |
| Config.OmitListRejectsFoo | cloud-watch/config_test.go:52-59 | with `omit_fields=["Foo","Bar"]`, "Foo" is rejected |
| Config.PriorityLookupExamples | cloud-watch/config.go:33-53 | "3" and "err" give ERROR; an unknown name gives DEBUG |
| Strconv.ToUint64 | cloud-watch/workers.go:230 | Go's uint64 conversion: identity on non-negative values, plus 2^64 on negative ones |
| Strconv.ToInt64 | cloud-watch/mock.go:74 | Go's int64 conversion of a uint64: values above MaxInt64 wrap to negatives |
| Strconv.ConversionsInverse | cloud-watch/mock.go:72-76 | the two conversions are inverse bijections between int64 and uint64 |
| Strconv.ParseInt | cloud-watch/record.go:109-125 | strconv.Atoi/ParseInt: succeeds exactly on a sign and decimal digits whose value fits int64, and yields that value |
| Strconv.Digits | cloud-watch/journal_linux.go:49 | the shortest decimal numeral, with no leading zero, denoting n |
| Strconv.ParseItoa | cloud-watch/journal_linux.go:49 | parsing Itoa(n) gives n back |
| Strconv.ItoaParse | cloud-watch/record.go:110 | Itoa of a parsed value gives the text back exactly when it had no '+' and no leading zero, and for the value 0 exactly when the text is "0" (not "-0" or "00") |
| Strconv.Itoa | cloud-watch/journal_linux.go:49 | strconv.Itoa: a minus sign exactly for negative values, then the digits of the magnitude |
| Strconv.CanonicalDigits | cloud-watch/record.go:110 | a digit string without a leading zero is the Digits of its own value |
| Strconv.LeadingDigitPositive | cloud-watch/record.go:110 | a digit string starting with a non-zero digit denotes a positive value |
| Strconv.FloorDivBounds | cloud-watch/record.go:130 | for a non-negative dividend the quotient times the divisor lies within one divisor below it |
| Strconv.TimestampNumeral | cloud-watch/record_test.go:59 | the test timestamp 1480459022025952 prints as its own numeral |
| Strconv.DigitsSnoc | cloud-watch/journal_linux.go:49 | the numeral of 10·n + d is the numeral of n followed by the digit d |
| Strconv.TruncDiv | cloud-watch/record.go:130 | Go's division truncates toward zero, for negative timestamps too |
| Journals.DataValue | cloud-watch/Journal.go:31 | a field of the current entry reads as its value, and as an error when absent |
| Journals.Journal.Next | cloud-watch/Journal.go:16 | answers the head of the script; moves to the new entry only on a positive count; logs the call |
| Journals.Journal.constructor | cloud-watch/Journal.go:11-61 | a journal handle starts before its first entry, with no call made |
| Journals.Journal.NextSkip | cloud-watch/Journal.go:20 | answers the scripted skip result and logs the call with its argument |
| Journals.Journal.Previous | cloud-watch/Journal.go:23 | answers the scripted skip result and logs the call |
| Journals.Journal.PreviousSkip | cloud-watch/Journal.go:27 | answers the scripted skip result and logs the call with its argument |
| Journals.Journal.SeekHead | cloud-watch/Journal.go:47 | answers the scripted seek result and logs the call |
| Journals.Journal.SeekTail | cloud-watch/Journal.go:51 | answers the scripted seek result and logs the call |
| Journals.Journal.SeekCursor | cloud-watch/Journal.go:54 | answers the scripted seek result and logs the call with the cursor |
| Journals.Journal.Wait | cloud-watch/Journal.go:60 | answers the scripted status and logs the call with the timeout |
| Journals.Journal.AddMatch | cloud-watch/journal_linux.go:49 | logs the match expression |
| Journals.Journal.AddDisjunction | cloud-watch/journal_linux.go:52 | logs the call |
| Journals.Journal.Close | cloud-watch/Journal.go:13 | answers the scripted close result and logs the call |
| Records.FieldOrderIndexed | cloud-watch/record.go:34-60 | the field table lists each of the 23 journald-tagged fields exactly once, in struct order |
| Records.ZeroRecordIsZero | cloud-watch/record.go:63 | `&Record{}` holds the zero value of every field |
| Records.GetSet | cloud-watch/record.go:104-130 | writing one field changes that field and no other, and never the untagged InstanceId or SeqId |
| Records.TrimField | cloud-watch/record.go:140-151 | the result is a prefix of the value's bytes, of length min(len in bytes, limit), where a limit of 0 means 255; a value that fits is returned unchanged |
| Records.TrimSplitsCharacter | cloud-watch/record.go:146-147 | the limit counts bytes: 200 copies of 'é' (400 bytes in UTF-8) are cut to their first 255 bytes, ending in the lead byte of a split character |
| Records.FieldValue | cloud-watch/record.go:102-135 | the decoded value has the field's kind |
| Records.DecodeField | cloud-watch/record.go:86-135 | one iteration of the loop: skip a disallowed key, otherwise write the field's decoded value |
| Records.DecodeFields | cloud-watch/record.go:86-136 | the loop over the field table equals the fold of DecodeStep |
| Records.DecodeRecord | cloud-watch/record.go:81-139 | decodeRecord always returns nil, and the record is Decoded(entry) |
| Records.DecodeFromUntouched | cloud-watch/record.go:86-136 | fields not in the visited table keep their values |
| Records.DecodeFromKeepsUntagged | cloud-watch/record.go:93-96 | decoding never sets InstanceId or SeqId |
| Records.DecodeFromAt | cloud-watch/record.go:98-135 | each listed field ends as its decoded value when allowed, and unchanged otherwise |
| Records.DecodedField | cloud-watch/record.go:98-135 | every field of a decoded record is its decoded value when the key is allowed, and zero otherwise |
| Records.DecodedDisallowed | cloud-watch/record.go:98-100 | a disallowed key leaves its field at zero |
| Records.DecodedUntagged | cloud-watch/record.go:93-96 | a decoded record has an empty InstanceId and SeqId 0 |
| Records.NewRecord | cloud-watch/record.go:62-79 | never reports an error; returns NewRecordOf(entry) |
| Records.NewRecordTime | cloud-watch/record.go:67-76 | TimeUsec is the entry's own timestamp / 1000 when that is non-zero; otherwise GetRealtimeUsec()/1000, or wall-clock×1000 when that read fails |
| Records.DecodedTime | cloud-watch/record.go:123-131 | the decoded TimeUsec is the parsed timestamp truncated by 1000, or 0 |
| Records.NewRecordOtherFields | cloud-watch/record.go:62-79 | apart from TimeUsec, a new record is exactly the decoded one |
| RecordScenarios.NewRecordCommandLine | cloud-watch/record.go:118-121 | the command line comes from decoding alone |
| RecordScenarios.TestValuesParse | cloud-watch/record_test.go:59-62 | the test timestamp and pid parse; "", "abc" and "-" do not |
| RecordScenarios.TestConfigAllowsAll | cloud-watch/record_test.go:20-40 | the test configuration allows every key, with field length 255 |
| RecordScenarios.ShortStringKept | cloud-watch/record.go:146-150 | an allowed command line of at most 255 bytes is kept whole in the new record |
| RecordScenarios.TimestampKept | cloud-watch/record.go:123-131 | a parsed timestamp of at least 1000 becomes TimeUsec / 1000 |
| RecordScenarios.FieldValueFits | cloud-watch/record.go:118-121 | a string whose byte length is within the limit is decoded unchanged |
| RecordScenarios.TextKeptIffFits | cloud-watch/record.go:118-121 | a text field is decoded unchanged if and only if its UTF-8 encoding is within the limit in bytes |
| RecordScenarios.NewRecordScenario | cloud-watch/record_test.go:54-62 | the test entry decodes to the full command line "/usr/lib/systemd/systemd-journald" and TimeUsec 1480459022025 |
| RecordScenarios.DisallowedCommandLineEmpty | cloud-watch/record.go:98-100 | a disallowed _CMDLINE leaves CommandLine "" |
| RecordScenarios.LimitAndOmitScenario | cloud-watch/record_test.go:133-136 | with `fields=["__REALTIME_TIMESTAMP"]` or `omit_fields=["_CMDLINE"]`, CommandLine is "" and TimeUsec is still decoded |
| Workers.NewErrorRecord | cloud-watch/workers.go:166-173 | an error record carries the instance id, the message, command "journald-cloudwatch-logs" and priority ERROR, and every other field is zero |
| Workers.Channel.constructor | cloud-watch/workers.go:70-96 | a new channel has carried nothing and is open |
| Workers.Channel.Send | cloud-watch/workers.go:64 | a send on an open channel appends the value; sending on a closed channel, which panics in Go, is excluded |
| Workers.Channel.Close | cloud-watch/workers.go:82 | closing keeps what was sent and marks the channel closed; closing twice, which panics in Go, is excluded |
| Workers.ReadStepOutcomes | cloud-watch/workers.go:23-65 | a Next error emits exactly one error record "error reading from journal: …" and sleeps two seconds; count 0 emits nothing and waits two seconds; a positive count emits exactly one record stamped with the instance id |
| Workers.ReadOneRecord | cloud-watch/workers.go:18-68 | the journal calls, the records sent and the pause are those of the three outcomes above |
| Workers.ReadRecord | cloud-watch/workers.go:46-47 | the record is NewRecord's, stamped with the instance id |
| Workers.EmittedUnfold | cloud-watch/workers.go:89-95 | one loop step of the reader is the terminate check, then one Next() and the reaction to its answer |
| Workers.ReadStepEmitted | cloud-watch/workers.go:23-65 | what one read step sends, by outcome |
| Workers.ReadAccounted | cloud-watch/workers.go:94 | one read step sends exactly the next step's share of the records |
| Workers.ReadRecords | cloud-watch/workers.go:70-96 | the terminate check precedes every read step; the output is closed exactly once, only on the signal; the records sent are those the script yields over the steps taken |
| Workers.PositionCursor | cloud-watch/workers.go:219-248 | with Tail, SeekTail then PreviousSkip(uint64(Rewind)); otherwise only SeekHead; any failure leaves the cursor unpositioned and stops there |
| Workers.FlattenAppend | cloud-watch/workers.go:158 | emitting a batch appends it to everything emitted before |
| Workers.BatchSizes | cloud-watch/workers.go:134-153 | every emitted batch has between 1 and batchSize records, and the buffer never reaches batchSize |
| Workers.BatchOrder | cloud-watch/workers.go:134-162 | the emitted batches followed by the buffered records are exactly the records received, in order, before the input closed |
| Workers.BatchClosed | cloud-watch/workers.go:129-133 | the batcher has returned iff the input has closed |
| Workers.BatchFullWithoutTicks | cloud-watch/workers.go:136-145 | when the timer never fires, every batch is full: a smaller batch needs a tick |
| Workers.BatchEmitted | cloud-watch/workers.go:127-162 | each event leaves the batches already sent unchanged and sends at most one more: a full one on an arriving record, the pending records on a tick, none on close |
| Workers.ShortBatchesFromTicks | cloud-watch/workers.go:136-160 | every batch shorter than the batch size was sent by a timer tick: for batch k there is a tick with exactly k batches sent before it and k + 1 after it |
| Workers.BatchClosedStays | cloud-watch/workers.go:129-133 | after the input closes, later events change nothing |
| Workers.Batcher.constructor | cloud-watch/workers.go:111-125 | two buffers of batchSize records, buffer 0 current, count 0, timer stopped |
| Workers.Batcher.WakeUp | cloud-watch/workers.go:150-162 | the timer is stopped; a non-empty buffer is emitted whole, the current buffer flips and the count resets; an empty one emits nothing |
| Workers.Batcher.Store | cloud-watch/workers.go:134-135 | the record is written at the count's index of the current buffer and the count grows by one |
| Workers.Batcher.OnRecord | cloud-watch/workers.go:129-145 | a record joins the buffer and arms the timer if it is the first; a full buffer is emitted at once |
| Workers.Batcher.OnTimer | cloud-watch/workers.go:146-162 | a tick emits the partial buffer if it is not empty |
| Workers.Batcher.OnClose | cloud-watch/workers.go:129-133 | closing the input closes the output; the partial buffer is not emitted |
| Workers.Batcher.Handle | cloud-watch/workers.go:128-162 | one turn of the select loop moves the batcher's state by exactly one BatchStep on the event it woke up on |
| Workers.BatchRecords | cloud-watch/workers.go:105-164 | the batches the double-buffered loop emits, and whether it returned, are those of RunBatcher over the events |
| Workers.RunBatcherSnoc | cloud-watch/workers.go:127-162 | running one more event of the loop is one more step of the batcher |
| CloudWatchRepeater.TokenField | cloud-watch/cloudwatch_journal_repeater.go:78-80 | the request carries a token iff the repeater's token is non-empty |
| CloudWatchRepeater.PutEventsEffect | cloud-watch/cloudwatch_journal_repeater.go:72-88 | one request, with the token iff non-empty; on success the token becomes the returned one; on failure it is unchanged and the error returned |
| CloudWatchRepeater.GetNextTokenEffect | cloud-watch/cloudwatch_journal_repeater.go:90-119 | a describe error is returned as is; no stream is an error; a stream without a token panics; otherwise the first stream's token is used for one put, and the lookup succeeds iff that put does |
| CloudWatchRepeater.GetNextTokenStartsWithLookup | cloud-watch/cloudwatch_journal_repeater.go:92-97 | getNextToken always starts with DescribeLogStreams(group, stream, limit 1) |
| CloudWatchRepeater.CallsOnlyGrow | cloud-watch/cloudwatch_journal_repeater.go:72-177 | every closure only appends requests |
| CloudWatchRepeater.DeliverStartsWithLookup | cloud-watch/cloudwatch_journal_repeater.go:179-184 | without a token WriteBatch looks the stream up first; with one it puts first |
| CloudWatchRepeater.DeliverPutsAtMostThree | cloud-watch/cloudwatch_journal_repeater.go:179-218 | one WriteBatch puts the batch at least once unless it panics, and at most three times |
| CloudWatchRepeater.OnPutErrorPuts | cloud-watch/cloudwatch_journal_repeater.go:185-210 | the reaction to a failed put puts at most once more |
| CloudWatchRepeater.ResourceNotFoundReaction | cloud-watch/cloudwatch_journal_repeater.go:148-192 | from any state, with or without a token: ResourceNotFound creates the stream, and on ResourceNotFound the group and then the stream; once the stream exists the put is retried exactly once with the same token; any other create failure is an error with no put; a non-AWS create failure panics |
| CloudWatchRepeater.StaleTokenReaction | cloud-watch/cloudwatch_journal_repeater.go:193-205 | from any state: DataAlreadyAccepted and InvalidSequenceToken trigger one getNextToken; the result is nil iff it succeeds, a panic iff it panics, and its error wrapped otherwise |
| CloudWatchRepeater.OtherErrorsReaction | cloud-watch/cloudwatch_journal_repeater.go:185-218 | from any state: any other AWS code is an error and a non-AWS error falls through to nil, with no further request and the state unchanged |
| CloudWatchRepeater.DeliverWithoutToken | cloud-watch/cloudwatch_journal_repeater.go:179-218 | without a token: the lookup comes first and only its panic stops WriteBatch; the put then carries the token the lookup left (none when the lookup made no put), and a failed put gets the reaction to its code |
| CloudWatchRepeater.FirstBatchCreatesStream | cloud-watch/cloudwatch_journal_repeater.go:148-192 | the first batch for a missing stream: lookup, put without a token, create the stream, put again without a token; nil iff the second put succeeds |
| CloudWatchRepeater.ResourceNotFoundRecovery | cloud-watch/cloudwatch_journal_repeater.go:148-192 | the whole WriteBatch when a token is held (the tokenless case is DeliverWithoutToken with ResourceNotFoundReaction): ResourceNotFound creates the stream, and on ResourceNotFound the group and then the stream; once the stream exists the put is retried exactly once; any other create failure is an error with no put; a non-AWS create failure panics |
| CloudWatchRepeater.StaleTokenRecovery | cloud-watch/cloudwatch_journal_repeater.go:193-205 | the whole WriteBatch when a token is held (the tokenless case is DeliverWithoutToken with StaleTokenReaction): DataAlreadyAccepted and InvalidSequenceToken trigger one getNextToken; the result is nil iff it succeeds, and its error wrapped otherwise |
| CloudWatchRepeater.OtherErrorsNoRetry | cloud-watch/cloudwatch_journal_repeater.go:185-218 | the whole WriteBatch when a token is held (the tokenless case is DeliverWithoutToken with OtherErrorsReaction): any other AWS code is an error with no further request and the token unchanged; a non-AWS error falls through to nil |
| CloudWatchRepeater.DoublePutWithoutToken | cloud-watch/cloudwatch_journal_repeater.go:179-184 | without a token, the lookup's put and the main put send the same batch twice in one WriteBatch |
| CloudWatchRepeater.Inc64 | cloud-watch/cloudwatch_journal_repeater.go:57 | messageId++ on an int64: +1, wrapping from MaxInt64 to MinInt64 |
| CloudWatchRepeater.Advance | cloud-watch/cloudwatch_journal_repeater.go:55-58 | the counter after n increments stays an int64 |
| CloudWatchRepeater.AdvanceNoWrap | cloud-watch/cloudwatch_journal_repeater.go:55-58 | without passing MaxInt64, n increments add exactly n |
| CloudWatchRepeater.WithSeqIds | cloud-watch/cloudwatch_journal_repeater.go:55-58 | the k-th record gets the counter's (k+1)-th next value as SeqId and is otherwise unchanged |
| CloudWatchRepeater.EventsOf | cloud-watch/cloudwatch_journal_repeater.go:54-70 | one event per record, in order, timestamped with its TimeUsec |
| CloudWatchRepeater.SeqIdsConsecutive | cloud-watch/cloudwatch_journal_repeater.go:55-58 | without wrap-around a batch gets SeqIds start+1, start+2, … |
| CloudWatchRepeater.LogsService.PutLogEvents | cloud-watch/cloudwatch_journal_repeater.go:81 | the n-th put gets the n-th scripted answer and is logged |
| CloudWatchRepeater.LogsService.constructor | cloud-watch/cloudwatch_journal_repeater.go:26 | a new client has answered no request |
| CloudWatchRepeater.LogsService.DescribeLogStreams | cloud-watch/cloudwatch_journal_repeater.go:97 | the n-th lookup gets the n-th scripted answer and is logged with group, prefix and limit |
| CloudWatchRepeater.LogsService.CreateLogStream | cloud-watch/cloudwatch_journal_repeater.go:131 | the n-th stream creation gets the n-th scripted answer and is logged |
| CloudWatchRepeater.LogsService.CreateLogGroup | cloud-watch/cloudwatch_journal_repeater.go:144 | the n-th group creation gets the n-th scripted answer and is logged |
| CloudWatchRepeater.MessageCounter.constructor | cloud-watch/cloudwatch_journal_repeater.go:14 | the package-level messageId starts at 0 |
| CloudWatchRepeater.CloudWatchJournalRepeater.constructor | cloud-watch/cloudwatch_journal_repeater.go:25-43 | a new repeater takes group and stream from the configuration and has an empty token |
| CloudWatchRepeater.CloudWatchJournalRepeater.PutEventsStep | cloud-watch/cloudwatch_journal_repeater.go:72-88 | the closure's effect on the token and the client is PutEvents |
| CloudWatchRepeater.CloudWatchJournalRepeater.GetNextTokenStep | cloud-watch/cloudwatch_journal_repeater.go:90-119 | the closure's effect is GetNextToken |
| CloudWatchRepeater.CloudWatchJournalRepeater.CreateStreamStep | cloud-watch/cloudwatch_journal_repeater.go:121-133 | the closure's effect is CreateStream |
| CloudWatchRepeater.CloudWatchJournalRepeater.CreateLogGroupStep | cloud-watch/cloudwatch_journal_repeater.go:135-146 | the closure's effect is CreateLogGroup |
| CloudWatchRepeater.CloudWatchJournalRepeater.RecoverResourceNotFoundStep | cloud-watch/cloudwatch_journal_repeater.go:148-177 | the closure's effect is RecoverResourceNotFound |
| CloudWatchRepeater.CloudWatchJournalRepeater.BuildEvents | cloud-watch/cloudwatch_journal_repeater.go:54-70 | the loop stamps the records in place with successive counter values, advances the counter by their number and builds EventsOf them |
| CloudWatchRepeater.CloudWatchJournalRepeater.WriteBatch | cloud-watch/cloudwatch_journal_repeater.go:49-219 | records stamped and counter advanced as above; the token, the client and the outcome are those of Deliver |
| Mock.NextStep | cloud-watch/mock.go:98-110 | Next on a positive count decrements it and returns 1; otherwise it returns 0 and leaves the count; a non-negative count stays non-negative |
| Mock.NextsYieldCount | cloud-watch/mock.go:98-110 | from count c ≥ 0, n calls return 1 exactly c times and then 0, and leave max(c − n, 0) |
| Mock.TestScript | cloud-watch/mock.go:83-110 | a TestJournal of `count` entries, as a journal script: `count` answers that each move one entry forward onto the fixed field values |
| Mock.TestScriptMatchesNexts | cloud-watch/mock.go:98-110 | the script gives, call after call, the very counts the TestJournal's Next() returns |
| Mock.ExhaustedEmitsNothing | cloud-watch/workers.go:23-47 | once the journal has nothing new, any number of read steps send no record |
| Mock.TestJournalStep | cloud-watch/workers.go:23-64 | reading a TestJournal with entries left sends the stamped fixed entry first, and the remaining steps read a TestJournal with one entry fewer |
| Mock.CountStaysNonNegative | cloud-watch/mock.go:72-76 | with every SetCount argument ≤ MaxInt64 the count never goes negative, so GetDataValue's panic is unreachable |
| Mock.LargeSetCountGoesNegative | cloud-watch/mock.go:72-76 | a SetCount argument above MaxInt64 makes the count negative |
| Mock.TestJournal.NewJournalWithMap | cloud-watch/mock.go:83-90 | 113 entries carrying the given map, no error stored |
| Mock.TestJournal.SetCount | cloud-watch/mock.go:72-76 | stores int64(count) |
| Mock.TestJournal.SetError | cloud-watch/mock.go:78-81 | stores the error |
| Mock.TestJournal.Close | cloud-watch/mock.go:92-95 | always succeeds |
| Mock.TestJournal.Next | cloud-watch/mock.go:98-110 | follows NextStep and never fails, whatever SetError stored |
| Mock.TestJournal.NextSkip | cloud-watch/mock.go:114-117 | returns uint64(count), which converts back to the count |
| Mock.TestJournal.Previous | cloud-watch/mock.go:120-123 | returns uint64(count) |
| Mock.TestJournal.PreviousSkip | cloud-watch/mock.go:127-130 | returns uint64(count) |
| Mock.TestJournal.GetMonotonicUsec | cloud-watch/mock.go:154-157 | returns uint64(count) |
| Mock.TestJournal.GetDataValue | cloud-watch/mock.go:134-140 | panics iff the count is negative; otherwise the map's value, "" for a missing key, never an error |
| Mock.TestJournal.GetRealtimeUsec | cloud-watch/mock.go:144-147 | always 1480549576015 |
| Mock.TestJournal.GetCursor | cloud-watch/mock.go:160-163 | always "abc-123" |
| Mock.TestJournal.SeekHead | cloud-watch/mock.go:167-169 | succeeds and changes nothing |
| Mock.TestJournal.SeekTail | cloud-watch/mock.go:173-175 | always succeeds |
| Mock.TestJournal.SeekCursor | cloud-watch/mock.go:178-180 | always succeeds, whatever the cursor |
| Mock.TestJournal.Wait | cloud-watch/mock.go:186-188 | returns 5 |
| Mock.LevelFollowsPriority | cloud-watch/mock.go:36-62 | EMERGENCY..ERROR log at error level, WARNING and NOTICE at warn, INFO at info, DEBUG and unknown priorities at debug; a more severe level never logs lower |
| Mock.LineCarriesMessage | cloud-watch/mock.go:34-60 | every line ends with the message; unknown priorities are marked "?????" with an empty label |
| Mock.MockJournalRepeater.WriteBatch | cloud-watch/mock.go:30-66 | logs one line per record, in order, and always returns nil |
| Mock.MockJournalRepeater.constructor | cloud-watch/mock.go:68-70 | a new mock repeater has logged nothing |
| Mock.MockJournalRepeater.Close | cloud-watch/mock.go:26-28 | always succeeds |
| SdJournals.SourceFor | cloud-watch/journal_linux.go:27-39 | the default journal when there is no configuration or JournalDir is empty, the configured directory otherwise |
| SdJournals.DebugFor | cloud-watch/journal_linux.go:19-25 | debug is on without a configuration, and as configured otherwise |
| SdJournals.PriorityMatchParses | cloud-watch/journal_linux.go:49 | a match expression is "PRIORITY=" followed by the level's numeral, which parses back to the level |
| SdJournals.PriorityMatchInjective | cloud-watch/journal_linux.go:49 | distinct levels get distinct matches |
| SdJournals.LevelsBelow | cloud-watch/journal_linux.go:47 | the keys of PriorityJsonMap are the levels 0..7 |
| SdJournals.MatchCalls | cloud-watch/journal_linux.go:47-51 | one AddMatch call per listed level, in the listed order |
| SdJournals.MatchCallsSnoc | cloud-watch/journal_linux.go:49 | installing one more match appends exactly its call |
| SdJournals.ProgressStart | cloud-watch/journal_linux.go:47 | before the loop every level 0..threshold is pending |
| SdJournals.ProgressDone | cloud-watch/journal_linux.go:47-51 | once every key is visited the listed levels are exactly 0..threshold |
| SdJournals.EachLevelUpToMeans | cloud-watch/journal_linux.go:47-51 | the installed matches name each level 0..threshold exactly once and nothing else: threshold+1 matches |
| SdJournals.ProgressStep | cloud-watch/journal_linux.go:47-51 | visiting one key of the map keeps the listed and pending levels together equal to 0..threshold |
| SdJournals.SdJournal.NewJournal | cloud-watch/journal_linux.go:15-41 | the journal is opened on SourceFor(config), debug is DebugFor(config), and the open error is returned as is |
| SdJournals.SdJournal.Wrap | cloud-watch/journal_linux.go:15-41 | the wrapper keeps the handle, the source and the debug flag |
| SdJournals.SdJournal.AddLogFilters | cloud-watch/journal_linux.go:43-54 | below DEBUG: one AddMatch per level ≤ threshold, in some order, then exactly one AddDisjunction; at DEBUG: no call at all |
| SdJournals.SdJournal.AddMatches | cloud-watch/journal_linux.go:47-51 | the loop over the map's keys in an arbitrary order installs exactly the matches of the levels ≤ threshold |
| SdJournals.SdJournal.VisitLevel | cloud-watch/journal_linux.go:48-50 | one loop iteration: a visited key ≤ threshold adds its match; a larger key adds nothing |
| SdJournals.SdJournal.Next | cloud-watch/journal_linux.go:61-68 | forwards to the handle and returns its result unchanged |
| SdJournals.SdJournal.NextSkip | cloud-watch/journal_linux.go:72-74 | forwards to the handle |
| SdJournals.SdJournal.Previous | cloud-watch/journal_linux.go:77-79 | forwards to the handle |
| SdJournals.SdJournal.PreviousSkip | cloud-watch/journal_linux.go:83-85 | forwards to the handle |
| SdJournals.SdJournal.GetDataValue | cloud-watch/journal_linux.go:89-91 | forwards to the handle |
| SdJournals.SdJournal.GetRealtimeUsec | cloud-watch/journal_linux.go:95-97 | forwards to the handle |
| SdJournals.SdJournal.GetMonotonicUsec | cloud-watch/journal_linux.go:100-102 | forwards to the handle |
| SdJournals.SdJournal.GetCursor | cloud-watch/journal_linux.go:105-107 | forwards to the handle |
| SdJournals.SdJournal.SeekHead | cloud-watch/journal_linux.go:111-113 | forwards to the handle |
| SdJournals.SdJournal.SeekTail | cloud-watch/journal_linux.go:117-119 | forwards to the handle |
| SdJournals.SdJournal.SeekCursor | cloud-watch/journal_linux.go:122-124 | forwards to the handle |
| SdJournals.SdJournal.Wait | cloud-watch/journal_linux.go:130-132 | forwards to the handle |
| SdJournals.SdJournal.Close | cloud-watch/journal_linux.go:56-58 | forwards to the handle |

## Left out

- Goroutines, channels, `select`, timers and OS signals are not modelled as concurrency.
  - `ReadRecords` reads until a terminate signal that arrives after `stepsBeforeSignal` checks.
  - `BatchRecords` consumes a sequence of events: a record arrives, the timer fires, the input closes.
  - A timer tick may arrive at any time, including a stale tick from an earlier arming, because `timer.Stop` does not drain the channel.
- `time.Sleep` and the `Wait` duration are recorded as values, not as waiting.
- `time.Now()` is a parameter `nowUnix`.
- Workers.ReadRecords: one wall-clock reading `nowUnix` serves every read step. Go reads the clock afresh in each `NewRecord` that needs the fallback timestamp, so records whose entries lack a realtime timestamp may carry later times there.
- `RunWorkers`, `makeTerminateChannel`, `CreateConfig`, `CreateJournal` and `CreateRepeater` (cloud-watch/workers.go:12-16, 175-275) are not part of this model. They wire the workers together and panic on failure.
- The batch size is a parameter `batchSize >= 1`. cloud-watch/workers.go:111 reads `config.BufferSize`, a field `Config` does not have; only `CloudWatchBufferSize` exists.
- `hcl.Decode` is not modelled: `LoadConfigFromString` takes its result (a configuration or an error) as a parameter.
- `LoadConfig`, which reads a file, is not part of this model.
- `json.MarshalIndent` is not modelled.
  - A log event's payload is the record it is made from.
  - The marshalling error branch of `WriteBatch` (cloud-watch/cloudwatch_journal_repeater.go:60-63) is absent, because a `Record` of strings and integers always marshals.
- The AWS SDK, cloud-watch/aws.go, cloud-watch/logger.go, cloud-watch/creators.go and main.go are not part of this model.
- Logging is left out, and so is the warning `AllowField` logs when both lists are set. `MockJournalRepeater` is the exception: its logging is its behaviour, so the lines it logs are kept.
- Error messages are structured values, not text. A `fmt.Errorf("prefix %s %v", err.Error(), err)` is `Wrapped(prefix, cause)`, and an AWS error is its code and message.
- Workers.ReadOneRecord: the "error unmarshalling record" branch (cloud-watch/workers.go:49-57) is absent, because `NewRecord` never returns an error (`decodeRecord` always returns nil).
- CloudWatchRepeater.PutEventsEffect: a successful PutLogEvents always carries a next token (`PutOk(nextToken)`). A nil `NextSequenceToken` on success, which would panic in Go, is not modelled.
- Records.TrimField: a negative `FieldLength` is excluded by a precondition. Go panics on the slice bound there.
- Journals.Entry: the byte-string convention is not enforced by the type. An entry may hold field values with chars of 0x100 and above, and on those TrimField, FieldValueFits and ShortStringKept count chars. The realtime timestamp is an unbounded `nat`, where Go returns a uint64.
- `Record.Priority` and the other Go `int` fields are unbounded integers. Go's `int` is taken to be 64-bit, so `strconv.Atoi` accepts the int64 range.
- The JSON tags, including `Errno`'s reuse of the "machineId" key (cloud-watch/record.go:51), belong to JSON encoding and are not modelled.
- The `sync/atomic` operations of cloud-watch/mock.go are plain field updates.
- Mock.TestJournalStep: reading a TestJournal is stated one step at a time, with ExhaustedEmitsNothing for the steps after the last entry. The closed form "min(count, steps) records" is not stated as one lemma.
- The Darwin build stubs (cloud-watch/Journal_darwin.go, cloud-watch/journal_darwin.go) are not part of this model.
- `Close` of `CloudWatchJournalRepeater` (cloud-watch/cloudwatch_journal_repeater.go:45-47) always returns nil and is not modelled.
- `SdJournal`'s debug trace of each `Next()` result is not modelled.
