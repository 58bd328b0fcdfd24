/**
 * The test doubles of cloud-watch/mock.go: TestJournal, a journal that yields
 * `count` entries, all with the same field values, and MockJournalRepeater, a
 * sink that only logs each record at a level chosen by its priority.
 */
module Mock {
  import opened Wrappers
  import opened Strconv
  import opened Priorities
  import opened Config
  import opened Records
  import opened Journals
  import opened Workers

  /** What `1480549576015541 / 1000` evaluates to in Go (integer constant division). */
  const FixedRealtimeUsec: nat := 1480549576015

  /** The pure step of TestJournal.Next: the new count and the result. */
  function NextStep(count: int): (r: (int, nat))
    ensures count > 0 ==> r == (count - 1, 1)
    ensures count <= 0 ==> r == (count, 0)
    ensures r.0 >= 0 <== count >= 0
  {
    if count > 0 then (count - 1, 1) else (count, 0)
  }

  /** The results of n successive Next() calls from `count`, and the count they leave. */
  function Nexts(count: int, n: nat): (int, seq<nat>)
    decreases n
  {
    if n == 0 then (count, [])
    else
      var (c, r) := NextStep(count);
      var (last, rest) := Nexts(c, n - 1);
      (last, [r] + rest)
  }

  /**
   * A TestJournal holding `count` >= 0 yields exactly `count` entries: the
   * first `count` calls return 1 and every later one 0, and the count ends at
   * zero or at what the calls did not consume.
   */
  lemma {:induction false} NextsYieldCount(count: int, n: nat)
    requires count >= 0
    ensures Nexts(count, n).0 == if n <= count then count - n else 0
    ensures |Nexts(count, n).1| == n
    ensures forall i :: 0 <= i < n ==> Nexts(count, n).1[i] == if i < count then 1 else 0
  {
    if n > 0 {
      NextsYieldCount(NextStep(count).0, n - 1);
    }
  }

  /**
   * A TestJournal holding `count` entries seen as a journal script: each of
   * the first `count` calls to Next() moves one entry forward onto an entry
   * with the fixed values `e`, and later calls find nothing new.
   */
  function TestScript(count: nat, e: Entry): (script: seq<NextAnswer>)
    ensures |script| == count
    ensures forall i :: 0 <= i < count ==> script[i] == NextCount(1, e)
  {
    if count == 0 then [] else [NextCount(1, e)] + TestScript(count - 1, e)
  }

  /** The script answers the counts NewJournalWithMap's Next() returns, call after call. */
  lemma TestScriptMatchesNexts(count: nat, n: nat, e: Entry)
    ensures |Nexts(count, n).1| == n
    ensures forall i :: 0 <= i < n ==>
      NextHead(TestScript(count, e)[(if i < count then i else count)..], e) == NextCount(Nexts(count, n).1[i], e)
  {
    NextsYieldCount(count, n);
  }

  /** Once a TestJournal is used up, read steps send nothing. */
  lemma {:induction false} ExhaustedEmitsNothing(current: Entry, c: Config, instanceId: string, nowUnix: int, steps: nat)
    requires c.fieldLength >= 0
    ensures Emitted([], current, c, instanceId, nowUnix, steps) == []
    decreases steps
  {
    if steps > 0 {
      EmittedUnfold([], current, c, instanceId, nowUnix, steps);
      ReadStepEmitted(NextCount(0, current), c, instanceId, nowUnix);
      ExhaustedEmitsNothing(current, c, instanceId, nowUnix, steps - 1);
    }
  }

  /**
   * While entries remain, a read step sends the stamped fixed entry, and the
   * remaining steps read a TestJournal with one entry fewer.
   */
  lemma TestJournalStep(count: nat, e: Entry, current: Entry, c: Config, instanceId: string, nowUnix: int, steps: nat)
    requires c.fieldLength >= 0 && count > 0 && steps > 0
    ensures Emitted(TestScript(count, e), current, c, instanceId, nowUnix, steps)
      == [Stamped(e, c, instanceId, nowUnix)] + Emitted(TestScript(count - 1, e), e, c, instanceId, nowUnix, steps - 1)
  {
    var script := TestScript(count, e);
    EmittedUnfold(script, current, c, instanceId, nowUnix, steps);
    ReadStepEmitted(NextCount(1, e), c, instanceId, nowUnix);
    assert script[1..] == TestScript(count - 1, e);
  }

  /** One call a test makes on a TestJournal that changes it. */
  datatype Mutation = CallNext | CallSetCount(value: nat)

  /** The count after a sequence of Next() and SetCount() calls. */
  function CountAfter(count: int, ops: seq<Mutation>): int
    requires forall i :: 0 <= i < |ops| ==> ops[i].CallSetCount? ==> ops[i].value < 0x1_0000_0000_0000_0000
    decreases |ops|
  {
    if ops == [] then count
    else
      var next := match ops[0]
        case CallNext => NextStep(count).0
        case CallSetCount(v) => ToInt64(v);
      CountAfter(next, ops[1..])
  }

  /**
   * The count never goes negative as long as every SetCount argument fits an
   * int64, so the panic in GetDataValue is then unreachable.
   */
  lemma {:induction false} CountStaysNonNegative(count: int, ops: seq<Mutation>)
    requires count >= 0
    requires forall i :: 0 <= i < |ops| ==> ops[i].CallSetCount? ==> ops[i].value <= MaxInt64
    ensures CountAfter(count, ops) >= 0
    decreases |ops|
  {
    if ops != [] {
      var next := match ops[0]
        case CallNext => NextStep(count).0
        case CallSetCount(v) => ToInt64(v);
      CountStaysNonNegative(next, ops[1..]);
    }
  }

  /** A SetCount argument above MaxInt64 makes the count negative, and GetDataValue then panics. */
  lemma LargeSetCountGoesNegative(value: nat)
    requires MaxInt64 < value < 0x1_0000_0000_0000_0000
    ensures CountAfter(113, [CallSetCount(value)]) < 0
  {
  }

  class TestJournal {
    var values: map<string, string>
    var count: int
    /** Set by SetError and never read back. */
    var err: Option<string>

    /** NewJournalWithMap: 113 entries, all carrying `values`. */
    constructor NewJournalWithMap(values: map<string, string>)
      ensures this.values == values && count == 113 && err == None
    {
      this.values := values;
      count := 113;
      err := None;
    }

    /** SetCount stores a uint64 into the int64 count, wrapping as Go's conversion does. */
    method SetCount(value: nat)
      requires value < 0x1_0000_0000_0000_0000
      modifies this`count
      ensures count == ToInt64(value)
      ensures value <= MaxInt64 ==> count == value
    {
      count := ToInt64(value);
    }

    method SetError(e: string)
      modifies this`err
      ensures err == Some(e)
    {
      err := Some(e);
    }

    method Close() returns (r: Option<string>)
      ensures r == None
    {
      r := None;
    }

    /** Next consumes one entry while any remain; it never fails, whatever SetError stored. */
    method Next() returns (r: Result<nat, string>)
      modifies this`count
      ensures (count, r) == (NextStep(old(count)).0, Ok(NextStep(old(count)).1))
      ensures old(count) >= 0 ==> count >= 0
    {
      var c := count;
      if c > 0 {
        count := count - 1;
        r := Ok(1);
      } else {
        r := Ok(0);
      }
    }

    /** NextSkip, Previous, PreviousSkip and GetMonotonicUsec all answer uint64(count). */
    function NextSkip(skip: nat): (r: Result<nat, string>)
      requires IsInt64(count)
      reads this
      ensures r.Ok? && r.value < 0x1_0000_0000_0000_0000
      ensures ToInt64(r.value) == count
    {
      Ok(ToUint64(count))
    }

    function Previous(): (r: Result<nat, string>)
      requires IsInt64(count)
      reads this
      ensures r.Ok? && r.value < 0x1_0000_0000_0000_0000 && ToInt64(r.value) == count
    {
      Ok(ToUint64(count))
    }

    function PreviousSkip(skip: nat): (r: Result<nat, string>)
      requires IsInt64(count)
      reads this
      ensures r.Ok? && r.value < 0x1_0000_0000_0000_0000 && ToInt64(r.value) == count
    {
      Ok(ToUint64(count))
    }

    function GetMonotonicUsec(): (r: Result<nat, string>)
      requires IsInt64(count)
      reads this
      ensures r.Ok? && r.value < 0x1_0000_0000_0000_0000 && ToInt64(r.value) == count
    {
      Ok(ToUint64(count))
    }

    /**
     * GetDataValue panics (None) when the count is negative; otherwise it
     * answers the map's value, "" for a missing key, and never an error.
     */
    function GetDataValue(field: string): (r: Option<Result<string, string>>)
      reads this
      ensures r.None? <==> count < 0
      ensures r.Some? ==> r.value.Ok?
      ensures r.Some? && field in values ==> r.value.value == values[field]
      ensures r.Some? && field !in values ==> r.value.value == ""
    {
      if count < 0 then None
      else Some(Ok(if field in values then values[field] else ""))
    }

    function GetRealtimeUsec(): (r: Result<nat, string>)
      ensures r == Ok(FixedRealtimeUsec)
    {
      Ok(1480549576015541 / 1000)
    }

    function GetCursor(): (r: Result<string, string>)
      ensures r == Ok("abc-123")
    {
      Ok("abc-123")
    }

    /** AddLogFilters installs nothing on the test journal. */
    method AddLogFilters(config: Config)
    {
    }

    method SeekHead() returns (r: Option<string>)
      ensures r == None
    {
      r := None;
    }

    method SeekTail() returns (r: Option<string>)
      ensures r == None
    {
      r := None;
    }

    method SeekCursor(cursor: string) returns (r: Option<string>)
      ensures r == None
    {
      r := None;
    }

    method Wait(timeoutMs: nat) returns (status: int)
      ensures status == 5
    {
      status := 5;
    }
  }

  /** The logger levels MockJournalRepeater writes at. */
  datatype Level = ErrorLevel | WarnLevel | InfoLevel | DebugLevel

  /** The severity order of the levels, ErrorLevel highest. */
  function Rank(l: Level): nat {
    match l
    case ErrorLevel => 3
    case WarnLevel => 2
    case InfoLevel => 1
    case DebugLevel => 0
  }

  /** One line written to the logger: its level and the values logged. */
  datatype LogLine = LogLine(level: Level, parts: seq<string>)

  /** The line WriteBatch logs for one record: the switch on its priority. */
  function LineFor(r: Record): LogLine {
    var name := JsonLabelText(r.priority);
    if r.priority == EMERGENCY || r.priority == ALERT || r.priority == CRITICAL || r.priority == ERROR then
      LogLine(ErrorLevel, [name, "------", r.message])
    else if r.priority == NOTICE || r.priority == WARNING then LogLine(WarnLevel, [name, "------", r.message])
    else if r.priority == INFO then LogLine(InfoLevel, [name, "------", r.message])
    else if r.priority == DEBUG then LogLine(DebugLevel, [name, "------", r.message])
    else LogLine(DebugLevel, ["?????", name, "------", r.message])
  }

  /**
   * The level follows the priority: the four most severe levels log as
   * errors, WARNING and NOTICE as warnings, INFO as info, DEBUG and anything
   * unknown as debug; a more severe priority never logs at a lower level.
   */
  lemma LevelFollowsPriority(r: Record, q: Record)
    ensures LineFor(r).level == ErrorLevel <==> EMERGENCY <= r.priority <= ERROR
    ensures LineFor(r).level == WarnLevel <==> WARNING <= r.priority <= NOTICE
    ensures LineFor(r).level == InfoLevel <==> r.priority == INFO
    ensures LineFor(r).level == DebugLevel <==> !(EMERGENCY <= r.priority <= INFO)
    ensures IsLevel(r.priority) && IsLevel(q.priority) && r.priority <= q.priority ==>
      Rank(LineFor(r).level) >= Rank(LineFor(q).level)
  {
  }

  /** Every line carries the record's message last; unknown priorities are marked "?????" with an empty label. */
  lemma LineCarriesMessage(r: Record)
    ensures var l := LineFor(r); |l.parts| >= 3 && l.parts[|l.parts| - 1] == r.message
    ensures LineFor(r).parts[0] == "?????" <==> !IsLevel(r.priority)
    ensures !IsLevel(r.priority) ==> LineFor(r).parts[1] == ""
  {
  }

  class MockJournalRepeater {
    /** What the repeater has logged, oldest first. */
    var log: seq<LogLine>

    /** NewMockJournalRepeater. */
    constructor ()
      ensures log == []
    {
      log := [];
    }

    method Close() returns (r: Option<string>)
      ensures r == None
    {
      r := None;
    }

    /** WriteBatch logs one line per record, in order, and always succeeds. */
    method WriteBatch(records: seq<Record>) returns (err: Option<string>)
      modifies this
      ensures err == None
      ensures |log| == |old(log)| + |records| && log[..|old(log)|] == old(log)
      ensures forall i :: 0 <= i < |records| ==> log[|old(log)| + i] == LineFor(records[i])
    {
      ghost var log0 := log;
      for i := 0 to |records|
        invariant |log| == |log0| + i && log[..|log0|] == log0
        invariant forall k :: 0 <= k < i ==> log[|log0| + k] == LineFor(records[k])
      {
        log := log + [LineFor(records[i])];
      }
      err := None;
    }
  }
}
