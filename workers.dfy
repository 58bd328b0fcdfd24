/**
 * The reading and batching workers of cloud-watch/workers.go. Goroutines,
 * channels and timers become sequential steps: a Channel object records what
 * was sent on it, the terminate signal is the number of read steps before it
 * arrives, and the batch builder reacts to one event at a time (a record
 * arrives, the timer fires, the input is closed).
 */
module Workers {
  import opened Wrappers
  import opened Priorities
  import opened Config
  import opened Journals
  import opened Strconv
  import opened Records

  /** An unbuffered Go channel seen from the sending side: what was sent, and whether it is closed. */
  class Channel<T> {
    var sent: seq<T>
    var closed: bool

    constructor ()
      ensures sent == [] && !closed
    {
      sent := [];
      closed := false;
    }

    /** Sending on a closed channel panics in Go, so the sender must not have closed it. */
    method Send(x: T)
      requires !closed
      modifies this
      ensures sent == old(sent) + [x] && !closed
    {
      sent := sent + [x];
    }

    /** Closing a closed channel panics in Go. */
    method Close()
      requires !closed
      modifies this
      ensures sent == old(sent) && closed
    {
      closed := true;
    }
  }

  /** The pause after a failed read and the wait for new entries, in milliseconds. */
  const TwoSecondsMs: nat := 2000

  const ErrorRecordCommand := "journald-cloudwatch-logs"

  /** newErrorRecord: a record reporting `message` as an ERROR of this program. */
  function NewErrorRecord(instanceId: string, message: string): (r: Record)
    ensures r.instanceId == instanceId && r.message == message
    ensures r.command == ErrorRecordCommand && r.priority == ERROR
    ensures r.(instanceId := "", message := "", command := "", priority := 0) == ZeroRecord
  {
    ZeroRecord.(instanceId := instanceId, command := ErrorRecordCommand, priority := ERROR, message := message)
  }

  /** What one ReadOneRecord does besides calling Next(): records sent, Wait() timeout, pause. */
  datatype ReadEffect = ReadEffect(emitted: seq<Record>, waitMs: Option<nat>, sleepMs: nat)

  /** ReadOneRecord's reaction to the answer of Next(). */
  function ReadStep(a: NextAnswer, c: Config, instanceId: string, nowUnix: int): ReadEffect
    requires c.fieldLength >= 0
  {
    match a
    case NextFailed(err) =>
      ReadEffect([NewErrorRecord(instanceId, "error reading from journal: " + err)], None, TwoSecondsMs)
    case NextCount(count, e) =>
      if count == 0 then ReadEffect([], Some(TwoSecondsMs), 0)
      else ReadEffect([Stamped(e, c, instanceId, nowUnix)], None, 0)
  }

  /** The record NewRecord makes of an entry, stamped with the instance id. */
  function Stamped(e: Entry, c: Config, instanceId: string, nowUnix: int): Record
    requires c.fieldLength >= 0
  {
    NewRecordOf(e, c, nowUnix).(instanceId := instanceId)
  }

  /**
   * The three outcomes of Next(): an error sends exactly one error record and
   * pauses two seconds; no new entry waits on the journal and sends nothing;
   * a new entry sends exactly that entry's record, stamped with the instance id.
   */
  lemma ReadStepOutcomes(a: NextAnswer, c: Config, instanceId: string, nowUnix: int)
    requires c.fieldLength >= 0
    ensures var eff := ReadStep(a, c, instanceId, nowUnix);
      && |eff.emitted| <= 1
      && (a.NextFailed? ==>
            && |eff.emitted| == 1 && eff.waitMs == None && eff.sleepMs == TwoSecondsMs
            && eff.emitted[0].priority == ERROR && eff.emitted[0].command == ErrorRecordCommand
            && eff.emitted[0].instanceId == instanceId
            && eff.emitted[0].message == "error reading from journal: " + a.err)
      && (a.NextCount? && a.count == 0 ==> eff.emitted == [] && eff.waitMs == Some(TwoSecondsMs) && eff.sleepMs == 0)
      && (a.NextCount? && a.count > 0 ==>
            && |eff.emitted| == 1 && eff.waitMs == None && eff.sleepMs == 0
            && eff.emitted[0].instanceId == instanceId
            && eff.emitted[0].(instanceId := "") == NewRecordOf(a.entry, c, nowUnix))
  {
    if a.NextCount? && a.count > 0 {
      NewRecordOtherFields(a.entry, c, nowUnix);
    }
  }

  /** The calls ReadOneRecord makes on the journal for an answer: Next, and Wait when nothing is new. */
  function ReadCalls(eff: ReadEffect): seq<JournalCall> {
    [NextCall] + (if eff.waitMs.Some? then [WaitCall(eff.waitMs.value)] else [])
  }

  /**
   * ReadOneRecord: one Next() on the journal and the reaction to it. The
   * unmarshalling-error branch is absent: NewRecord never reports an error.
   * Returns the pause the caller takes.
   */
  method ReadOneRecord(journal: Journal, out: Channel<Record>, config: Config, instanceId: string, nowUnix: int)
    returns (sleepMs: nat)
    requires config.fieldLength >= 0 && !out.closed
    modifies journal, out
    ensures var a := NextHead(old(journal.script), old(journal.current));
      && journal.current == EntryAfter(a, old(journal.current))
      && journal.script == (if old(journal.script) == [] then [] else old(journal.script)[1..])
      && !out.closed
      && (a.NextFailed? ==>
            && out.sent == old(out.sent) + [NewErrorRecord(instanceId, "error reading from journal: " + a.err)]
            && sleepMs == TwoSecondsMs && journal.calls == old(journal.calls) + [NextCall])
      && (a.NextCount? && a.count == 0 ==>
            && out.sent == old(out.sent)
            && sleepMs == 0 && journal.calls == old(journal.calls) + [NextCall, WaitCall(TwoSecondsMs)])
      && (a.NextCount? && a.count > 0 ==>
            && out.sent == old(out.sent) + [Stamped(a.entry, config, instanceId, nowUnix)]
            && sleepMs == 0 && journal.calls == old(journal.calls) + [NextCall])
  {
    var count := journal.Next();
    sleepMs := 0;
    match count {
      case Err(err) =>
        out.Send(NewErrorRecord(instanceId, "error reading from journal: " + err));
        sleepMs := TwoSecondsMs;
      case Ok(n) =>
        if n == 0 {
          var _ := journal.Wait(TwoSecondsMs);
        } else {
          var record := ReadRecord(journal.current, config, instanceId, nowUnix);
          out.Send(record);
        }
    }
  }

  /** NewRecord followed by stamping the instance id. */
  method ReadRecord(e: Entry, config: Config, instanceId: string, nowUnix: int) returns (record: Record)
    requires config.fieldLength >= 0
    ensures record == Stamped(e, config, instanceId, nowUnix)
  {
    var err;
    record, err := NewRecord(e, config, nowUnix);
    record := record.(instanceId := instanceId);
  }

  /**
   * The records `steps` consecutive read steps send, starting from a script
   * and an entry. The three functions follow the three phases of one step of
   * readRecords' loop: the terminate check, the call to Next(), the reaction.
   */
  function Emitted(script: seq<NextAnswer>, current: Entry, c: Config, instanceId: string, nowUnix: int, steps: nat): seq<Record>
    requires c.fieldLength >= 0
    decreases steps, 2
  {
    if steps == 0 then [] else EmittedNext(script, current, c, instanceId, nowUnix, steps)
  }

  /** The records of `steps` read steps (at least one), from the first call to Next() on. */
  function EmittedNext(script: seq<NextAnswer>, current: Entry, c: Config, instanceId: string, nowUnix: int, steps: nat): seq<Record>
    requires c.fieldLength >= 0 && steps > 0
    decreases steps, 1
  {
    EmittedFrom(NextHead(script, current), script, current, c, instanceId, nowUnix, steps)
  }

  /** The records of `steps` read steps whose first Next() answered `a`. */
  function EmittedFrom(a: NextAnswer, script: seq<NextAnswer>, current: Entry, c: Config, instanceId: string, nowUnix: int, steps: nat): seq<Record>
    requires c.fieldLength >= 0 && steps > 0
    decreases steps, 0
  {
    ReadStep(a, c, instanceId, nowUnix).emitted
      + Emitted(if script == [] then [] else script[1..], EntryAfter(a, current), c, instanceId, nowUnix, steps - 1)
  }

  /** One more read step: the records of a step whose Next() gives the script's next answer. */
  lemma EmittedUnfold(script: seq<NextAnswer>, current: Entry, c: Config, instanceId: string, nowUnix: int, steps: nat)
    requires c.fieldLength >= 0 && steps > 0
    ensures Emitted(script, current, c, instanceId, nowUnix, steps)
         == EmittedFrom(NextHead(script, current), script, current, c, instanceId, nowUnix, steps)
  {
    assert Emitted(script, current, c, instanceId, nowUnix, steps) == EmittedNext(script, current, c, instanceId, nowUnix, steps);
  }

  /** The records of a read step, case by case. */
  lemma ReadStepEmitted(a: NextAnswer, c: Config, instanceId: string, nowUnix: int)
    requires c.fieldLength >= 0
    ensures ReadStep(a, c, instanceId, nowUnix).emitted ==
      if a.NextFailed? then [NewErrorRecord(instanceId, "error reading from journal: " + a.err)]
      else if a.count == 0 then []
      else [Stamped(a.entry, c, instanceId, nowUnix)]
  {
  }

  /**
   * The output so far plus what the remaining `left` steps from the journal's
   * current position emit is what all `steps` steps from the start emit.
   */
  predicate SentSoFar(sent: seq<Record>, script: seq<NextAnswer>, current: Entry,
                      sent0: seq<Record>, script0: seq<NextAnswer>, current0: Entry,
                      c: Config, instanceId: string, nowUnix: int, left: nat, steps: nat)
    requires c.fieldLength >= 0
  {
    sent + Emitted(script, current, c, instanceId, nowUnix, left)
      == sent0 + Emitted(script0, current0, c, instanceId, nowUnix, steps)
  }

  /**
   * ReadOneRecord seen from ReadRecords: after it, the output plus what the
   * remaining `left` steps emit is what the output plus `left + 1` steps
   * from before it would have emitted.
   */
  method ReadAccounted(journal: Journal, out: Channel<Record>, config: Config, instanceId: string, nowUnix: int, ghost left: nat)
    requires config.fieldLength >= 0 && !out.closed
    modifies journal, out
    ensures !out.closed
    ensures out.sent + Emitted(journal.script, journal.current, config, instanceId, nowUnix, left)
      == old(out.sent) + Emitted(old(journal.script), old(journal.current), config, instanceId, nowUnix, left + 1)
  {
    ghost var a := NextHead(journal.script, journal.current);
    ghost var sentBefore := out.sent;
    EmittedUnfold(journal.script, journal.current, config, instanceId, nowUnix, left + 1);
    ReadStepEmitted(a, config, instanceId, nowUnix);
    var _ := ReadOneRecord(journal, out, config, instanceId, nowUnix);
    assert (sentBefore + ReadStep(a, config, instanceId, nowUnix).emitted)
        + Emitted(journal.script, journal.current, config, instanceId, nowUnix, left)
      == sentBefore + (ReadStep(a, config, instanceId, nowUnix).emitted
        + Emitted(journal.script, journal.current, config, instanceId, nowUnix, left));
  }

  /** What ReadRecords' loop does, in order. */
  datatype ReaderEvent = CheckedTerminate(terminate: bool) | ReadStepDone | OutputClosed

  /** `steps` read steps, each preceded by a negative terminate check, then the check that ends it and the close. */
  function ReaderTrace(steps: nat): seq<ReaderEvent> {
    if steps == 0 then [CheckedTerminate(true), OutputClosed]
    else [CheckedTerminate(false), ReadStepDone] + ReaderTrace(steps - 1)
  }

  /**
   * ReadRecords: until the terminate signal, checks it and then reads one
   * record; on the signal closes the output. The signal arrives after
   * `stepsBeforeSignal` checks have found nothing.
   */
  method ReadRecords(journal: Journal, out: Channel<Record>, config: Config, stepsBeforeSignal: nat, nowUnix: int)
    returns (ghost trace: seq<ReaderEvent>)
    requires config.fieldLength >= 0 && !out.closed
    modifies journal, out
    ensures trace == ReaderTrace(stepsBeforeSignal)
    ensures out.closed
    ensures out.sent == old(out.sent)
      + Emitted(old(journal.script), old(journal.current), config, config.ec2InstanceId, nowUnix, stepsBeforeSignal)
  {
    var instanceId := config.ec2InstanceId;
    var checks := 0;
    trace := [];
    ghost var sent0, script0, current0 := out.sent, journal.script, journal.current;
    while true
      invariant checks <= stepsBeforeSignal && !out.closed
      invariant trace + ReaderTrace(stepsBeforeSignal - checks) == ReaderTrace(stepsBeforeSignal)
      invariant SentSoFar(out.sent, journal.script, journal.current, sent0, script0, current0,
                          config, instanceId, nowUnix, stepsBeforeSignal - checks, stepsBeforeSignal)
      decreases stepsBeforeSignal - checks
    {
      var terminate := checks == stepsBeforeSignal;
      trace := trace + [CheckedTerminate(terminate)];
      if terminate {
        out.Close();
        trace := trace + [OutputClosed];
        return;
      }
      checks := checks + 1;
      ReadAccounted(journal, out, config, instanceId, nowUnix, stepsBeforeSignal - checks);
      trace := trace + [ReadStepDone];
    }
  }

  /**
   * positionCursor: with `tail`, seeks to the end and steps back `rewind`
   * entries; otherwise seeks to the head. Any failure is a panic, reported
   * here as `positioned == false`.
   */
  method PositionCursor(journal: Journal, config: Config) returns (positioned: bool)
    modifies journal`calls
    ensures config.tail ==>
      && (journal.answers.seekTail.Some? ==> !positioned && journal.calls == old(journal.calls) + [SeekTailCall])
      && (journal.answers.seekTail.None? ==>
            && journal.calls == old(journal.calls) + [SeekTailCall, PreviousSkipCall(ToUint64(config.rewind))]
            && positioned == journal.answers.skip.Ok?)
    ensures !config.tail ==>
      && journal.calls == old(journal.calls) + [SeekHeadCall]
      && positioned == journal.answers.seekHead.None?
  {
    if config.tail {
      var err := journal.SeekTail();
      if err.Some? {
        return false;
      }
      var count := journal.PreviousSkip(ToUint64(config.rewind));
      positioned := count.Ok?;
    } else {
      var err := journal.SeekHead();
      positioned := err.None?;
    }
  }

  /*
   * BatchRecords: a double-buffered batch builder. The select loop becomes
   * one method per event it can wake up on.
   */

  /** What BatchRecords' select loop can wake up on. */
  datatype BatchEvent = Arrive(record: Record) | Tick | InputClosed

  /** All records of a sequence of batches, batch after batch. */
  function Flatten(batches: seq<seq<Record>>): seq<Record>
    decreases |batches|
  {
    if batches == [] then [] else Flatten(batches[..|batches| - 1]) + batches[|batches| - 1]
  }

  lemma FlattenAppend(batches: seq<seq<Record>>, batch: seq<Record>)
    ensures Flatten(batches + [batch]) == Flatten(batches) + batch
  {
    assert (batches + [batch])[..|batches|] == batches;
  }

  /** The records that arrived before the input channel was closed. */
  function Arrivals(events: seq<BatchEvent>): seq<Record>
    decreases |events|
  {
    if events == [] then []
    else
      var last := events[|events| - 1];
      Arrivals(events[..|events| - 1])
        + if last.Arrive? && !ClosedIn(events[..|events| - 1]) then [last.record] else []
  }

  predicate ClosedIn(events: seq<BatchEvent>) {
    exists k :: 0 <= k < |events| && events[k].InputClosed?
  }

  predicate HasTick(events: seq<BatchEvent>) {
    exists k :: 0 <= k < |events| && events[k].Tick?
  }

  /** The batcher seen as a value: batches sent so far, the records buffered, and whether it returned. */
  datatype BatchState = BatchState(batches: seq<seq<Record>>, pending: seq<Record>, closed: bool)

  /** One event of the select loop; once the output is closed the batcher has returned and ignores everything. */
  function BatchStep(s: BatchState, ev: BatchEvent, batchSize: nat): BatchState {
    if s.closed then s
    else
      match ev
      case Arrive(r) =>
        if |s.pending| + 1 < batchSize then s.(pending := s.pending + [r])
        else BatchState(s.batches + [s.pending + [r]], [], false)
      case Tick =>
        if s.pending == [] then s else BatchState(s.batches + [s.pending], [], false)
      case InputClosed =>
        s.(closed := true)
  }

  /** The batcher's state after a sequence of events, starting with no batch and an empty buffer. */
  function RunBatcher(events: seq<BatchEvent>, batchSize: nat): BatchState
    decreases |events|
  {
    if events == [] then BatchState([], [], false)
    else BatchStep(RunBatcher(events[..|events| - 1], batchSize), events[|events| - 1], batchSize)
  }

  /**
   * Every batch holds between 1 and batchSize records, and fewer than
   * batchSize records are ever left waiting in the buffer.
   */
  lemma {:induction false} BatchSizes(events: seq<BatchEvent>, batchSize: nat)
    requires batchSize >= 1
    ensures var s := RunBatcher(events, batchSize);
      && |s.pending| < batchSize
      && forall k :: 0 <= k < |s.batches| ==> 1 <= |s.batches[k]| <= batchSize
    decreases |events|
  {
    if events != [] {
      BatchSizes(events[..|events| - 1], batchSize);
    }
  }

  /**
   * No reordering, loss or duplication: the batches sent, followed by the
   * records still buffered, are exactly the records that arrived, in order.
   */
  lemma {:induction false} BatchOrder(events: seq<BatchEvent>, batchSize: nat)
    ensures var s := RunBatcher(events, batchSize);
      Flatten(s.batches) + s.pending == Arrivals(events)
    decreases |events|
  {
    if events != [] {
      var prefix := events[..|events| - 1];
      var s := RunBatcher(prefix, batchSize);
      BatchOrder(prefix, batchSize);
      BatchClosed(prefix, batchSize);
      var ev := events[|events| - 1];
      if !s.closed {
        match ev
        case Arrive(r) =>
          if |s.pending| + 1 >= batchSize {
            FlattenAppend(s.batches, s.pending + [r]);
          }
        case Tick =>
          if s.pending != [] {
            FlattenAppend(s.batches, s.pending);
          }
        case InputClosed =>
      }
    }
  }

  /** The batcher returns, closing its output, exactly when the input has been closed. */
  lemma {:induction false} BatchClosed(events: seq<BatchEvent>, batchSize: nat)
    ensures RunBatcher(events, batchSize).closed <==> ClosedIn(events)
    decreases |events|
  {
    if events != [] {
      var prefix := events[..|events| - 1];
      BatchClosed(prefix, batchSize);
      if ClosedIn(prefix) {
        var k :| 0 <= k < |prefix| && prefix[k].InputClosed?;
        assert events[k].InputClosed?;
      }
      if ClosedIn(events) && !events[|events| - 1].InputClosed? {
        var k :| 0 <= k < |events| && events[k].InputClosed?;
        assert prefix[k].InputClosed?;
      }
    }
  }

  /** Without timer ticks, only full batches are sent. */
  lemma {:induction false} BatchFullWithoutTicks(events: seq<BatchEvent>, batchSize: nat)
    requires batchSize >= 1 && !HasTick(events)
    ensures forall k :: 0 <= k < |RunBatcher(events, batchSize).batches| ==> |RunBatcher(events, batchSize).batches[k]| == batchSize
    decreases |events|
  {
    if events != [] {
      var prefix := events[..|events| - 1];
      assert !HasTick(prefix) by {
        forall k | 0 <= k < |prefix| ensures !prefix[k].Tick? {
          assert prefix[k] == events[k];
        }
      }
      BatchFullWithoutTicks(prefix, batchSize);
      BatchSizes(prefix, batchSize);
    }
  }

  /**
   * One event at a time: batches already sent never change and at most one
   * more is sent. A batch sent on an arriving record is full; one sent on a
   * timer tick is whatever was pending; closing the input sends nothing.
   */
  lemma BatchEmitted(events: seq<BatchEvent>, ev: BatchEvent, batchSize: nat)
    requires batchSize >= 1
    ensures var s := RunBatcher(events, batchSize);
      var s' := RunBatcher(events + [ev], batchSize);
      && s.batches <= s'.batches
      && |s'.batches| <= |s.batches| + 1
      && (|s'.batches| == |s.batches| + 1 ==>
            && !ev.InputClosed?
            && (ev.Arrive? ==> |s'.batches[|s.batches|]| == batchSize)
            && (ev.Tick? ==> s'.batches[|s.batches|] == s.pending))
  {
    assert (events + [ev])[..|events|] == events;
    BatchSizes(events, batchSize);
  }

  /**
   * Every batch shorter than the batch size was sent by a timer tick: some
   * tick found exactly k batches sent before it and k + 1 after it.
   */
  lemma {:induction false} ShortBatchesFromTicks(events: seq<BatchEvent>, batchSize: nat)
    requires batchSize >= 1
    ensures var batches := RunBatcher(events, batchSize).batches;
      forall k :: 0 <= k < |batches| && |batches[k]| < batchSize ==>
        exists i :: 0 <= i < |events| && events[i].Tick?
          && |RunBatcher(events[..i], batchSize).batches| == k
          && |RunBatcher(events[..i + 1], batchSize).batches| == k + 1
    decreases |events|
  {
    if events != [] {
      var n := |events| - 1;
      var prefix := events[..n];
      ShortBatchesFromTicks(prefix, batchSize);
      BatchEmitted(prefix, events[n], batchSize);
      assert prefix + [events[n]] == events;
      var before := RunBatcher(prefix, batchSize).batches;
      var batches := RunBatcher(events, batchSize).batches;
      forall k | 0 <= k < |batches| && |batches[k]| < batchSize
        ensures exists i ::
                  && 0 <= i < |events| && events[i].Tick?
                  && |RunBatcher(events[..i], batchSize).batches| == k
                  && |RunBatcher(events[..i + 1], batchSize).batches| == k + 1
      {
        if k < |before| {
          assert before[k] == batches[k];
          var i :| 0 <= i < |prefix| && prefix[i].Tick?
            && |RunBatcher(prefix[..i], batchSize).batches| == k
            && |RunBatcher(prefix[..i + 1], batchSize).batches| == k + 1;
          assert prefix[..i] == events[..i];
          assert prefix[..i + 1] == events[..i + 1];
        } else {
          assert events[n].Tick? && events[..n] == prefix;
          assert events[..n + 1] == events;
        }
      }
    }
  }

  /**
   * The two buffers of BatchRecords and its loop variables. `sent` is what
   * went out on the output channel, each batch as it was when sent; `closed`
   * says the output channel was closed and the loop returned.
   */
  class Batcher {
    const batchSize: nat
    const buf0: array<Record>
    const buf1: array<Record>
    var currentBuf: nat
    var countOfRecords: nat
    var timerArmed: bool
    var sent: seq<seq<Record>>
    var closed: bool
    ghost var received: seq<Record>

    function Current(): array<Record>
      reads this
    {
      if currentBuf == 0 then buf0 else buf1
    }

    function Other(): array<Record>
      reads this
    {
      if currentBuf == 0 then buf1 else buf0
    }

    /** The records of the batch being built. */
    function Pending(): seq<Record>
      reads this, buf0, buf1
      requires countOfRecords <= Current().Length
    {
      Current()[..countOfRecords]
    }

    /**
     * Everything but the timer and the room left: the batches sent plus the
     * batch being built are the records received; each batch holds 1 to
     * batchSize records; and the last batch sent is still intact in the
     * other buffer, which is not written until the next batch goes out.
     */
    ghost predicate Sound()
      reads this, buf0, buf1
    {
      && batchSize >= 1 && buf0 != buf1
      && buf0.Length == batchSize && buf1.Length == batchSize
      && currentBuf < 2 && countOfRecords <= batchSize
      && Flatten(sent) + Pending() == received
      && (forall k :: 0 <= k < |sent| ==> 1 <= |sent[k]| <= batchSize)
      && (|sent| > 0 ==> |sent[|sent| - 1]| <= batchSize && Other()[..|sent[|sent| - 1]|] == sent[|sent| - 1])
    }

    /** Between events: the buffer has room, and the timer runs exactly while a batch is being built. */
    ghost predicate Valid()
      reads this, buf0, buf1
    {
      Sound() && countOfRecords < batchSize && (timerArmed <==> countOfRecords > 0)
    }

    constructor (batchSize: nat)
      requires batchSize >= 1
      ensures Valid() && fresh(buf0) && fresh(buf1)
      ensures this.batchSize == batchSize && sent == [] && Pending() == [] && !closed && received == []
    {
      this.batchSize := batchSize;
      buf0 := new Record[batchSize](_ => ZeroRecord);
      buf1 := new Record[batchSize](_ => ZeroRecord);
      currentBuf := 0;
      countOfRecords := 0;
      timerArmed := false;
      sent := [];
      closed := false;
      received := [];
    }

    /**
     * The code after the select: stop the timer, and unless the buffer is
     * empty send its records, switch buffers and start a new batch.
     */
    method WakeUp()
      requires Sound() && !closed
      modifies this
      ensures Valid() && !closed && received == old(received)
      ensures old(countOfRecords) == 0 ==> sent == old(sent) && currentBuf == old(currentBuf)
      ensures old(countOfRecords) > 0 ==>
        sent == old(sent) + [old(Pending())] && currentBuf == 1 - old(currentBuf)
      ensures countOfRecords == 0 && !timerArmed
    {
      timerArmed := false;
      if countOfRecords == 0 {
        return;
      }
      FlattenAppend(sent, Pending());
      sent := sent + [Current()[0..countOfRecords]];
      currentBuf := (currentBuf + 1) % 2;
      countOfRecords := 0;
    }

    /**
     * A record arrives: it goes into the current buffer; the first record
     * of a batch starts the timer, and a full buffer is sent at once.
     */
    method OnRecord(record: Record)
      requires Valid() && !closed
      modifies this, Current()
      ensures Valid() && !closed && received == old(received) + [record]
      ensures old(countOfRecords) + 1 < batchSize ==>
        sent == old(sent) && currentBuf == old(currentBuf) && Pending() == old(Pending()) + [record]
      ensures old(countOfRecords) + 1 == batchSize ==>
        sent == old(sent) + [old(Pending()) + [record]] && currentBuf == 1 - old(currentBuf) && Pending() == []
    {
      Store(record);
      if countOfRecords < batchSize {
        if countOfRecords == 1 {
          timerArmed := true;
        }
        return;
      }
      WakeUp();
    }

    /** bufs[currentBuf][countOfRecords] = record; countOfRecords++ */
    method Store(record: Record)
      requires Valid() && !closed
      modifies this, Current()
      ensures Sound() && !closed && received == old(received) + [record]
      ensures sent == old(sent) && currentBuf == old(currentBuf) && timerArmed == old(timerArmed)
      ensures countOfRecords == old(countOfRecords) + 1 && Pending() == old(Pending()) + [record]
    {
      var buf := Current();
      buf[countOfRecords] := record;
      assert buf[..countOfRecords + 1] == old(Pending()) + [record];
      countOfRecords := countOfRecords + 1;
      received := received + [record];
    }

    /**
     * The timer fires. A tick can also be one left over from a timer that
     * fired just before it was stopped, so it may come at any time.
     */
    method OnTimer()
      requires Valid() && !closed
      modifies this
      ensures Valid() && !closed && received == old(received)
      ensures old(countOfRecords) == 0 ==> sent == old(sent) && currentBuf == old(currentBuf) && Pending() == []
      ensures old(countOfRecords) > 0 ==>
        sent == old(sent) + [old(Pending())] && currentBuf == 1 - old(currentBuf) && Pending() == []
    {
      WakeUp();
    }

    /** The batcher seen as a value. */
    ghost function State(): BatchState
      reads this, buf0, buf1
      requires countOfRecords <= Current().Length
    {
      BatchState(sent, Pending(), closed)
    }

    /** One turn of the select loop: dispatch the event it woke up on. */
    method Handle(ev: BatchEvent)
      requires Valid() && !closed
      modifies this, buf0, buf1
      ensures Valid() && State() == BatchStep(old(State()), ev, batchSize)
    {
      match ev {
        case Arrive(r) => OnRecord(r);
        case Tick => OnTimer();
        case InputClosed => OnClose();
      }
    }

    /** The input channel is closed: close the output and return, dropping the records buffered. */
    method OnClose()
      requires Valid() && !closed
      modifies this
      ensures Valid() && closed
      ensures sent == old(sent) && Pending() == old(Pending()) && received == old(received)
    {
      closed := true;
    }
  }

  /**
   * BatchRecords over a sequence of events, up to the closing of its input:
   * the batches it sends and whether it closed its output are those of
   * RunBatcher.
   */
  method BatchRecords(events: seq<BatchEvent>, batchSize: nat) returns (batches: seq<seq<Record>>, closedOut: bool)
    requires batchSize >= 1
    ensures batches == RunBatcher(events, batchSize).batches
    ensures closedOut == RunBatcher(events, batchSize).closed
  {
    var batcher := new Batcher(batchSize);
    var i := 0;
    while i < |events| && !batcher.closed
      invariant 0 <= i <= |events|
      invariant batcher.Valid() && fresh(batcher.buf0) && fresh(batcher.buf1) && batcher.batchSize == batchSize
      invariant RunBatcher(events[..i], batchSize) == batcher.State()
      decreases |events| - i
    {
      RunBatcherSnoc(events, i, batchSize);
      batcher.Handle(events[i]);
      i := i + 1;
    }
    BatchClosedStays(events, i, batchSize);
    batches, closedOut := batcher.sent, batcher.closed;
  }

  /** Running one more event is one more step. */
  lemma RunBatcherSnoc(events: seq<BatchEvent>, i: nat, batchSize: nat)
    requires i < |events|
    ensures RunBatcher(events[..i + 1], batchSize) == BatchStep(RunBatcher(events[..i], batchSize), events[i], batchSize)
  {
    assert events[..i + 1][..i] == events[..i];
  }

  /** Once the batcher has returned, later events change nothing. */
  lemma {:induction false} BatchClosedStays(events: seq<BatchEvent>, i: nat, batchSize: nat)
    requires i <= |events|
    requires i == |events| || RunBatcher(events[..i], batchSize).closed
    ensures RunBatcher(events, batchSize) == RunBatcher(events[..i], batchSize)
    decreases |events| - i
  {
    if i < |events| {
      assert events[..i + 1][..i] == events[..i];
      BatchClosedStays(events, i + 1, batchSize);
    } else {
      assert events[..i] == events;
    }
  }
}
