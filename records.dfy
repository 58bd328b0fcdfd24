/**
 * The log record of cloud-watch/record.go and its decoding from the fields of
 * the current journal entry. Go walks the struct by reflection, reading the
 * `journald` tag and the kind of each field; here that walk is the list
 * FieldOrder of the tagged fields in struct order, with Key and KindOf giving
 * each one's tag and kind.
 */
module Records {
  import opened Wrappers
  import opened Priorities
  import opened Strconv
  import opened Config
  import opened Journals

  /** The Go struct Record, field for field. */
  datatype Record = Record(
    instanceId: string,
    timeUsec: int,
    pid: int,
    uid: int,
    gid: int,
    command: string,
    executable: string,
    commandLine: string,
    systemdUnit: string,
    bootId: string,
    machineId: string,
    hostname: string,
    transport: string,
    priority: Priority,
    message: string,
    messageId: string,
    errno: int,
    seqId: int,
    facility: int,
    identifier: string,
    sysPid: int,
    device: string,
    subsystem: string,
    sysName: string,
    devNode: string)

  /** `&Record{}`: every field at its zero value. */
  const ZeroRecord := Record("", 0, 0, 0, 0, "", "", "", "", "", "", "", "", 0, "", "", 0, 0, 0, "", 0, "", "", "", "")

  /** The fields that carry a `journald` tag. */
  datatype Attr =
    | TimeUsec | Pid | Uid | Gid | Command | Executable | CommandLine | SystemdUnit | BootId
    | MachineId | Hostname | Transport | PriorityField | Message | MessageId | Errno | Facility
    | Identifier | SysPid | Device | Subsystem | SysName | DevNode

  /** The reflect kinds decodeRecord distinguishes. */
  datatype Kind = IntKind | Int64Kind | StringKind

  /** The `journald` tag of a field. */
  function Key(a: Attr): string {
    match a
    case TimeUsec => "__REALTIME_TIMESTAMP"
    case Pid => "_PID"
    case Uid => "_UID"
    case Gid => "_GID"
    case Command => "_COMM"
    case Executable => "_EXE"
    case CommandLine => "_CMDLINE"
    case SystemdUnit => "_SYSTEMD_UNIT"
    case BootId => "_BOOT_ID"
    case MachineId => "_MACHINE_ID"
    case Hostname => "_HOSTNAME"
    case Transport => "_TRANSPORT"
    case PriorityField => "PRIORITY"
    case Message => "MESSAGE"
    case MessageId => "MESSAGE_ID"
    case Errno => "ERRNO"
    case Facility => "SYSLOG_FACILITY"
    case Identifier => "SYSLOG_IDENTIFIER"
    case SysPid => "SYSLOG_PID"
    case Device => "_KERNEL_DEVICE"
    case Subsystem => "_KERNEL_SUBSYSTEM"
    case SysName => "_UDEV_SYSNAME"
    case DevNode => "_UDEV_DEVNODE"
  }

  /** The reflect kind of a field: TimeUsec is int64, the numeric others int, the rest string. */
  function KindOf(a: Attr): Kind {
    match a
    case TimeUsec => Int64Kind
    case Pid | Uid | Gid | PriorityField | Errno | Facility | SysPid => IntKind
    case _ => StringKind
  }

  /** The tagged fields of Record in declaration order. */
  const FieldOrder: seq<Attr> := [
    TimeUsec, Pid, Uid, Gid, Command, Executable, CommandLine, SystemdUnit, BootId, MachineId,
    Hostname, Transport, PriorityField, Message, MessageId, Errno, Facility, Identifier, SysPid,
    Device, Subsystem, SysName, DevNode
  ]

  /** The position of an attribute in FieldOrder. */
  function AttrIndex(a: Attr): nat {
    match a
    case TimeUsec => 0 case Pid => 1 case Uid => 2 case Gid => 3 case Command => 4
    case Executable => 5 case CommandLine => 6 case SystemdUnit => 7 case BootId => 8
    case MachineId => 9 case Hostname => 10 case Transport => 11 case PriorityField => 12
    case Message => 13 case MessageId => 14 case Errno => 15 case Facility => 16
    case Identifier => 17 case SysPid => 18 case Device => 19 case Subsystem => 20
    case SysName => 21 case DevNode => 22
  }

  /** Every tagged field appears exactly once in FieldOrder, at the position AttrIndex names. */
  lemma FieldOrderIndexed()
    ensures forall k :: 0 <= k < |FieldOrder| ==> AttrIndex(FieldOrder[k]) == k
    ensures forall a: Attr :: AttrIndex(a) < |FieldOrder| && FieldOrder[AttrIndex(a)] == a
    ensures forall j, k :: 0 <= j < k < |FieldOrder| ==> FieldOrder[j] != FieldOrder[k]
  {
  }

  /** The zero record holds the zero value in every tagged field. */
  lemma ZeroRecordIsZero(a: Attr)
    ensures Get(ZeroRecord, a) == Zero(KindOf(a))
  {
  }

  /** A field value: Go int and int64 are both integers here. */
  datatype Value = IntValue(i: int) | StringValue(s: string)

  predicate Fits(k: Kind, v: Value) {
    if k == StringKind then v.StringValue? else v.IntValue?
  }

  /** `reflect.Zero` of a field of kind k. */
  function Zero(k: Kind): (v: Value)
    ensures Fits(k, v)
  {
    if k == StringKind then StringValue("") else IntValue(0)
  }

  /** Reads one tagged field. */
  function Get(r: Record, a: Attr): Value {
    match a
    case TimeUsec => IntValue(r.timeUsec)
    case Pid => IntValue(r.pid)
    case Uid => IntValue(r.uid)
    case Gid => IntValue(r.gid)
    case Command => StringValue(r.command)
    case Executable => StringValue(r.executable)
    case CommandLine => StringValue(r.commandLine)
    case SystemdUnit => StringValue(r.systemdUnit)
    case BootId => StringValue(r.bootId)
    case MachineId => StringValue(r.machineId)
    case Hostname => StringValue(r.hostname)
    case Transport => StringValue(r.transport)
    case PriorityField => IntValue(r.priority)
    case Message => StringValue(r.message)
    case MessageId => StringValue(r.messageId)
    case Errno => IntValue(r.errno)
    case Facility => IntValue(r.facility)
    case Identifier => StringValue(r.identifier)
    case SysPid => IntValue(r.sysPid)
    case Device => StringValue(r.device)
    case Subsystem => StringValue(r.subsystem)
    case SysName => StringValue(r.sysName)
    case DevNode => StringValue(r.devNode)
  }

  /** Writes one tagged field (fieldVal.Set / SetInt / SetString); every other field is kept. */
  function Set(r: Record, a: Attr, v: Value): Record
    requires Fits(KindOf(a), v)
  {
    Record(
      r.instanceId,
      if a == TimeUsec then v.i else r.timeUsec,
      if a == Pid then v.i else r.pid,
      if a == Uid then v.i else r.uid,
      if a == Gid then v.i else r.gid,
      if a == Command then v.s else r.command,
      if a == Executable then v.s else r.executable,
      if a == CommandLine then v.s else r.commandLine,
      if a == SystemdUnit then v.s else r.systemdUnit,
      if a == BootId then v.s else r.bootId,
      if a == MachineId then v.s else r.machineId,
      if a == Hostname then v.s else r.hostname,
      if a == Transport then v.s else r.transport,
      if a == PriorityField then v.i else r.priority,
      if a == Message then v.s else r.message,
      if a == MessageId then v.s else r.messageId,
      if a == Errno then v.i else r.errno,
      r.seqId,
      if a == Facility then v.i else r.facility,
      if a == Identifier then v.s else r.identifier,
      if a == SysPid then v.i else r.sysPid,
      if a == Device then v.s else r.device,
      if a == Subsystem then v.s else r.subsystem,
      if a == SysName then v.s else r.sysName,
      if a == DevNode then v.s else r.devNode)
  }

  /** Set writes the field it names, and no other field, tagged or not. */
  lemma GetSet(r: Record, a: Attr, v: Value, b: Attr)
    requires Fits(KindOf(a), v)
    ensures Get(Set(r, a, v), b) == if a == b then v else Get(r, b)
    ensures Set(r, a, v).instanceId == r.instanceId && Set(r, a, v).seqId == r.seqId
  {
  }

  /**
   * A Go string is a sequence of bytes: `len` and slicing count bytes. A
   * model string stands for those bytes, one char per byte, so every value
   * read from the journal is a byte string, and a field holding text holds
   * the UTF-8 encoding Utf8(text) of it.
   */
  predicate IsByteString(s: string) {
    forall i :: 0 <= i < |s| ==> s[i] as int < 0x100
  }

  /** The UTF-8 encoding of one code point: one byte below 0x80, else a lead byte and continuation bytes. */
  function Utf8Char(c: char): (bytes: string)
    ensures 1 <= |bytes| <= 4 && IsByteString(bytes)
    ensures |bytes| == 1 <==> c as int < 0x80
  {
    var n := c as int;
    if n < 0x80 then [c]
    else if n < 0x800 then [(0xC0 + n / 0x40) as char, (0x80 + n % 0x40) as char]
    else if n < 0x1_0000 then
      [(0xE0 + n / 0x1000) as char, (0x80 + n / 0x40 % 0x40) as char, (0x80 + n % 0x40) as char]
    else
      [(0xF0 + n / 0x4_0000) as char, (0x80 + n / 0x1000 % 0x40) as char,
       (0x80 + n / 0x40 % 0x40) as char, (0x80 + n % 0x40) as char]
  }

  /** The UTF-8 encoding of a text: as many bytes as characters exactly when the text is ASCII. */
  function Utf8(text: string): (bytes: string)
    ensures IsByteString(bytes)
    ensures |text| <= |bytes| <= 4 * |text|
    ensures |bytes| == |text| <==> forall i :: 0 <= i < |text| ==> text[i] as int < 0x80
  {
    if text == [] then []
    else
      var rest := Utf8(text[1..]);
      assert forall i :: 1 <= i < |text| ==> text[i] == text[1..][i - 1];
      Utf8Char(text[0]) + rest
  }

  /**
   * trimField: a field length of 0 stands for 255; a longer value is cut to
   * that many bytes (which may split a multi-byte character).
   */
  function TrimField(value: string, fieldLength: int): (trimmed: string)
    requires fieldLength >= 0
    ensures var limit := if fieldLength == 0 then 255 else fieldLength;
      && trimmed <= value
      && |trimmed| == (if |value| <= limit then |value| else limit)
      && (|value| <= limit ==> trimmed == value)
  {
    var limit := if fieldLength == 0 then 255 else fieldLength;
    if limit < |value| then value[0..limit] else value
  }

  /** The encoding of k copies of 'é' (U+00E9): k two-byte pairs 0xC3 0xA9. */
  lemma {:induction false} RepeatedAccentBytes(k: nat)
    ensures var bytes := Utf8(seq(k, _ => 'é'));
      && |bytes| == 2 * k
      && forall i :: 0 <= i < k ==> bytes[2 * i] == 0xC3 as char && bytes[2 * i + 1] == 0xA9 as char
  {
    if k > 0 {
      var text := seq(k, _ => 'é');
      assert text[1..] == seq(k - 1, _ => 'é');
      RepeatedAccentBytes(k - 1);
      assert Utf8Char('é') == [0xC3 as char, 0xA9 as char];
      var bytes := Utf8(text);
      assert bytes == [0xC3 as char, 0xA9 as char] + Utf8(seq(k - 1, _ => 'é'));
      forall i | 1 <= i < k
        ensures bytes[2 * i] == 0xC3 as char && bytes[2 * i + 1] == 0xA9 as char
      {
        assert bytes[2 * i] == Utf8(seq(k - 1, _ => 'é'))[2 * (i - 1)];
        assert bytes[2 * i + 1] == Utf8(seq(k - 1, _ => 'é'))[2 * (i - 1) + 1];
      }
    }
  }

  /**
   * The limit counts bytes, not characters: 200 copies of 'é' are 400 bytes,
   * cut to the first 255, whose last byte is the lead byte of a split 'é'.
   */
  lemma TrimSplitsCharacter()
    ensures var bytes := Utf8(seq(200, _ => 'é'));
      && |bytes| == 400
      && TrimField(bytes, 0) == bytes[..255]
      && TrimField(bytes, 0)[254] == 0xC3 as char
  {
    RepeatedAccentBytes(200);
    var bytes := Utf8(seq(200, _ => 'é'));
    assert bytes[2 * 127] == 0xC3 as char;
  }

  /** The value decodeRecord stores for an allowed field: zero when absent, empty or unparsable. */
  function FieldValue(a: Attr, e: Entry, fieldLength: int): (v: Value)
    requires fieldLength >= 0
    ensures Fits(KindOf(a), v)
  {
    var raw := DataValue(e, Key(a));
    if raw.Err? || raw.value == "" then Zero(KindOf(a))
    else
      match KindOf(a)
      case StringKind => StringValue(TrimField(raw.value, fieldLength))
      case IntKind => (match ParseInt(raw.value) case Some(n) => IntValue(n) case None => Zero(IntKind))
      case Int64Kind => (match ParseInt(raw.value) case Some(n) => IntValue(TruncDiv(n, 1000)) case None => Zero(Int64Kind))
  }

  /** One iteration of decodeRecord's loop: a field the configuration does not allow is skipped. */
  function DecodeStep(r: Record, a: Attr, e: Entry, c: Config): Record
    requires c.fieldLength >= 0
  {
    if !AllowField(c, Key(a)) then r else Set(r, a, FieldValue(a, e, c.fieldLength))
  }

  /** The rest of decodeRecord's loop, over the fields `attrs`. */
  function DecodeFrom(r: Record, attrs: seq<Attr>, e: Entry, c: Config): Record
    requires c.fieldLength >= 0
    decreases |attrs|
  {
    if attrs == [] then r else DecodeFrom(DecodeStep(r, attrs[0], e, c), attrs[1..], e, c)
  }

  /** The record decodeRecord fills in from a zero record. */
  function Decoded(e: Entry, c: Config): Record
    requires c.fieldLength >= 0
  {
    DecodeFrom(ZeroRecord, FieldOrder, e, c)
  }

  /** The body of decodeRecord's loop for one field. */
  method DecodeField(r: Record, a: Attr, e: Entry, config: Config) returns (r': Record)
    requires config.fieldLength >= 0
    ensures r' == DecodeStep(r, a, e, config)
  {
    r' := r;
    if !AllowField(config, Key(a)) {
      return;
    }
    var raw := DataValue(e, Key(a));
    var v: Value;
    if raw.Err? || raw.value == "" {
      v := Zero(KindOf(a));
    } else if KindOf(a) == StringKind {
      v := StringValue(TrimField(raw.value, config.fieldLength));
    } else {
      var n := ParseInt(raw.value);
      if n.None? {
        v := Zero(KindOf(a));
      } else if KindOf(a) == IntKind {
        v := IntValue(n.value);
      } else {
        v := IntValue(TruncDiv(n.value, 1000));
      }
    }
    FieldValueCases(a, e, config.fieldLength);
    r' := Set(r, a, v);
  }

  /** decodeRecord's loop over the fields `attrs`, in order. */
  method DecodeFields(r0: Record, attrs: seq<Attr>, e: Entry, config: Config) returns (r: Record)
    requires config.fieldLength >= 0
    ensures r == DecodeFrom(r0, attrs, e, config)
  {
    r := r0;
    var i := 0;
    while i < |attrs|
      invariant 0 <= i <= |attrs|
      invariant DecodeFrom(r, attrs[i..], e, config) == DecodeFrom(r0, attrs, e, config)
    {
      assert attrs[i..][1..] == attrs[i + 1..];
      r := DecodeField(r, attrs[i], e, config);
      i := i + 1;
    }
  }

  /**
   * decodeRecord: reads every tagged field the configuration allows from the
   * current entry into a zero record; it never reports an error.
   */
  method DecodeRecord(e: Entry, config: Config) returns (r: Record, err: Option<string>)
    requires config.fieldLength >= 0
    ensures err == None
    ensures r == Decoded(e, config)
  {
    r := DecodeFields(ZeroRecord, FieldOrder, e, config);
    err := None;
  }

  /** Fields none of `attrs` names come out of the loop as they went in. */
  lemma {:induction false} DecodeFromUntouched(r: Record, attrs: seq<Attr>, e: Entry, c: Config, b: Attr)
    requires c.fieldLength >= 0
    requires forall k :: 0 <= k < |attrs| ==> attrs[k] != b
    ensures Get(DecodeFrom(r, attrs, e, c), b) == Get(r, b)
    decreases |attrs|
  {
    if attrs != [] {
      var a := attrs[0];
      if AllowField(c, Key(a)) {
        GetSet(r, a, FieldValue(a, e, c.fieldLength), b);
      }
      DecodeFromUntouched(DecodeStep(r, a, e, c), attrs[1..], e, c, b);
    }
  }

  /** The loop never writes InstanceId or SeqId. */
  lemma {:induction false} DecodeFromKeepsUntagged(r: Record, attrs: seq<Attr>, e: Entry, c: Config)
    requires c.fieldLength >= 0
    ensures DecodeFrom(r, attrs, e, c).instanceId == r.instanceId
    ensures DecodeFrom(r, attrs, e, c).seqId == r.seqId
    decreases |attrs|
  {
    if attrs != [] {
      var a := attrs[0];
      if AllowField(c, Key(a)) {
        GetSet(r, a, FieldValue(a, e, c.fieldLength), a);
      }
      DecodeFromKeepsUntagged(DecodeStep(r, a, e, c), attrs[1..], e, c);
    }
  }

  /** The one position of `attrs` that names a field decides it. */
  lemma {:induction false} DecodeFromAt(r: Record, attrs: seq<Attr>, e: Entry, c: Config, k: nat)
    requires c.fieldLength >= 0 && k < |attrs|
    requires forall j :: 0 <= j < |attrs| && j != k ==> attrs[j] != attrs[k]
    ensures Get(DecodeFrom(r, attrs, e, c), attrs[k]) ==
      if AllowField(c, Key(attrs[k])) then FieldValue(attrs[k], e, c.fieldLength) else Get(r, attrs[k])
    decreases |attrs|
  {
    var a := attrs[0];
    var b := attrs[k];
    var r' := DecodeStep(r, a, e, c);
    if AllowField(c, Key(a)) {
      GetSet(r, a, FieldValue(a, e, c.fieldLength), b);
    }
    if k == 0 {
      DecodeFromUntouched(r', attrs[1..], e, c, b);
    } else {
      DecodeFromAt(r', attrs[1..], e, c, k - 1);
    }
  }

  /**
   * What decodeRecord stores in each tagged field: the zero value when the
   * configuration does not allow the field, otherwise the value FieldValue
   * reads from the entry.
   */
  lemma DecodedField(e: Entry, c: Config, a: Attr)
    requires c.fieldLength >= 0
    ensures Get(Decoded(e, c), a) == if AllowField(c, Key(a)) then FieldValue(a, e, c.fieldLength) else Zero(KindOf(a))
  {
    FieldOrderIndexed();
    ZeroRecordIsZero(a);
    DecodeFromAt(ZeroRecord, FieldOrder, e, c, AttrIndex(a));
  }

  /** A field the configuration does not allow keeps its zero value. */
  lemma DecodedDisallowed(e: Entry, c: Config, a: Attr)
    requires c.fieldLength >= 0 && !AllowField(c, Key(a))
    ensures Get(Decoded(e, c), a) == Zero(KindOf(a))
  {
    DecodedField(e, c, a);
  }

  /**
   * The value of an allowed field: zero when the entry lacks it or has it
   * empty, or when it does not parse; otherwise the trimmed string, the
   * parsed int, or the parsed int64 divided by 1000 with truncation.
   */
  lemma FieldValueCases(a: Attr, e: Entry, fieldLength: int)
    requires fieldLength >= 0
    ensures var got := FieldValue(a, e, fieldLength);
      var raw := DataValue(e, Key(a));
      && (raw.Err? || raw.value == "" ==> got == Zero(KindOf(a)))
      && (raw.Ok? && raw.value != "" ==>
            match KindOf(a)
            case StringKind => got == StringValue(TrimField(raw.value, fieldLength))
            case IntKind => got == IntValue(if ParseInt(raw.value).Some? then ParseInt(raw.value).value else 0)
            case Int64Kind => got == IntValue(if ParseInt(raw.value).Some? then TruncDiv(ParseInt(raw.value).value, 1000) else 0))
  {
  }

  /** decodeRecord never writes the untagged fields InstanceId and SeqId. */
  lemma DecodedUntagged(e: Entry, c: Config)
    requires c.fieldLength >= 0
    ensures Decoded(e, c).instanceId == "" && Decoded(e, c).seqId == 0
  {
    DecodeFromKeepsUntagged(ZeroRecord, FieldOrder, e, c);
  }

  /** The timestamp NewRecord falls back on: the entry's realtime clock in milliseconds, else the wall clock. */
  function BackfillTime(e: Entry, nowUnix: int): int {
    match e.realtimeUsec
    case Ok(ts) => ts / 1000
    case Err(_) => nowUnix * 1000
  }

  /** The record NewRecord returns; `nowUnix` is time.Now().Unix() at the call. */
  function NewRecordOf(e: Entry, c: Config, nowUnix: int): Record
    requires c.fieldLength >= 0
  {
    var d := Decoded(e, c);
    if d.timeUsec == 0 then d.(timeUsec := BackfillTime(e, nowUnix)) else d
  }

  /**
   * NewRecord: decodes the current entry and, when that left TimeUsec zero,
   * fills it in from the entry's realtime clock or the wall clock.
   */
  method NewRecord(e: Entry, config: Config, nowUnix: int) returns (r: Record, err: Option<string>)
    requires config.fieldLength >= 0
    ensures err == None
    ensures r == NewRecordOf(e, config, nowUnix)
  {
    r, err := DecodeRecord(e, config);
    if r.timeUsec == 0 {
      match e.realtimeUsec {
        case Err(_) =>
          r := r.(timeUsec := nowUnix * 1000);
        case Ok(timestamp) =>
          r := r.(timeUsec := timestamp / 1000);
      }
    }
  }

  /** The timestamp decodeRecord reads: `__REALTIME_TIMESTAMP` in milliseconds, or 0 when it cannot. */
  function EntryTime(e: Entry, c: Config): int {
    var raw := DataValue(e, Key(TimeUsec));
    if AllowField(c, Key(TimeUsec)) && raw.Ok? && ParseInt(raw.value).Some?
    then TruncDiv(ParseInt(raw.value).value, 1000)
    else 0
  }

  /**
   * A new record's TimeUsec is the entry's own timestamp when that is
   * readable and non-zero, and the backfilled time otherwise.
   */
  lemma NewRecordTime(e: Entry, c: Config, nowUnix: int)
    requires c.fieldLength >= 0
    ensures NewRecordOf(e, c, nowUnix).timeUsec ==
      if EntryTime(e, c) != 0 then EntryTime(e, c) else BackfillTime(e, nowUnix)
  {
    DecodedTime(e, c);
  }

  /** decodeRecord's TimeUsec is EntryTime. */
  lemma DecodedTime(e: Entry, c: Config)
    requires c.fieldLength >= 0
    ensures Decoded(e, c).timeUsec == EntryTime(e, c)
  {
    GetTimeUsec(Decoded(e, c));
    DecodedField(e, c, TimeUsec);
    TimeFieldValue(e, c.fieldLength);
  }

  /** The TimeUsec value read from an entry: its parsed timestamp divided by 1000, or 0. */
  lemma TimeFieldValue(e: Entry, fieldLength: int)
    requires fieldLength >= 0
    ensures var raw := DataValue(e, Key(TimeUsec));
      FieldValue(TimeUsec, e, fieldLength)
        == IntValue(if raw.Ok? && ParseInt(raw.value).Some? then TruncDiv(ParseInt(raw.value).value, 1000) else 0)
  {
    FieldValueCases(TimeUsec, e, fieldLength);
  }

  lemma GetTimeUsec(r: Record)
    ensures Get(r, TimeUsec) == IntValue(r.timeUsec)
  {
  }

  /** Apart from TimeUsec a new record is the decoded one, with InstanceId and SeqId left empty. */
  lemma NewRecordOtherFields(e: Entry, c: Config, nowUnix: int)
    requires c.fieldLength >= 0
    ensures var r := NewRecordOf(e, c, nowUnix);
      && r.(timeUsec := 0) == Decoded(e, c).(timeUsec := 0)
      && r.instanceId == "" && r.seqId == 0
  {
    DecodedUntagged(e, c);
  }
}

/** The record_test.go scenarios: the test journal's entry read under three configurations. */
module RecordScenarios {
  import opened Wrappers
  import opened Priorities
  import opened Strconv
  import opened Config
  import opened Journals
  import opened Records

  /** The entry NewJournalWithMap(testMap) presents: absent fields read as "", the clock as 1480549576015. */
  const TestEntry := Entry(map[
    "__REALTIME_TIMESTAMP" := "1480459022025952",
    "_BOOT_ID" := "923def0648b1422aa28a8846072481f2",
    "PRIORITY" := "6",
    "_TRANSPORT" := "driver",
    "_PID" := "712",
    "_UID" := "0",
    "_GID" := "0",
    "_COMM" := "systemd-journal",
    "_EXE" := "/usr/lib/systemd/systemd-journald",
    "_CMDLINE" := "/usr/lib/systemd/systemd-journald",
    "_MACHINE_ID" := "5125015c46bb4bf6a686b5e692492075",
    "_HOSTNAME" := "f5076731cfdb",
    "MESSAGE" := "Journal started",
    "MESSAGE_ID" := "f77379a8490b408bbe5f6940505a777b",
    "SYSLOG_FACILITY" := "5"
  ], Ok(1480549576015541 / 1000))

  /** The configuration the tests decode: a log group, log_priority=3 and debug=true. */
  const TestSettings := ZeroConfig.(logGroupName := "dcos-logstream-test", logPriority := "3", debug := true)

  /** The timestamp and the pid of the test entry parse; empty and non-numeric text does not. */
  lemma TestValuesParse()
    ensures ParseInt("1480459022025952") == Some(1480459022025952)
    ensures ParseInt("712") == Some(712)
    ensures ParseInt("") == None && ParseInt("abc") == None && ParseInt("-") == None
  {
    TimestampNumeral();
    ParseItoa(1480459022025952);
    assert Digits(71) == "71";
    assert Itoa(712) == "712";
    ParseItoa(712);
    assert !IsDigit("abc"[0]);
  }

  /** The test configuration after defaults: field length 255 and every field allowed. */
  lemma TestConfigAllowsAll(key: string)
    ensures ApplyDefaults(TestSettings).fieldLength == 255
    ensures AllowField(ApplyDefaults(TestSettings), key)
  {
    DefaultValues(TestSettings);
    LoadedAllowField(TestSettings, key);
  }

  /** An allowed string field short enough for the field length comes through whole. */
  lemma ShortStringKept(e: Entry, c: Config, nowUnix: int, value: string)
    requires c.fieldLength == 255 && AllowField(c, Key(CommandLine))
    requires DataValue(e, Key(CommandLine)) == Ok(value) && value != "" && |value| <= 255
    ensures NewRecordOf(e, c, nowUnix).commandLine == value
  {
    FieldValueFits(CommandLine, e, c.fieldLength, value);
    DecodedField(e, c, CommandLine);
    GetCommandLine(Decoded(e, c));
    NewRecordCommandLine(e, c, nowUnix);
  }

  /** A readable timestamp in microseconds becomes TimeUsec in milliseconds. */
  lemma TimestampKept(e: Entry, c: Config, nowUnix: int, usec: int)
    requires c.fieldLength >= 0 && AllowField(c, Key(TimeUsec))
    requires DataValue(e, Key(TimeUsec)).Ok?
    requires ParseInt(DataValue(e, Key(TimeUsec)).value) == Some(usec) && usec >= 1000
    ensures NewRecordOf(e, c, nowUnix).timeUsec == usec / 1000
  {
    NewRecordTime(e, c, nowUnix);
  }

  /** A non-empty string value within the field length is stored unchanged. */
  lemma FieldValueFits(a: Attr, e: Entry, fieldLength: int, value: string)
    requires KindOf(a) == StringKind && fieldLength >= 0
    requires DataValue(e, Key(a)) == Ok(value) && value != ""
    requires |value| <= (if fieldLength == 0 then 255 else fieldLength)
    ensures FieldValue(a, e, fieldLength) == StringValue(value)
  {
  }

  /** A text field comes through whole exactly when its UTF-8 encoding is within the limit in bytes. */
  lemma TextKeptIffFits(a: Attr, e: Entry, fieldLength: int, text: string)
    requires KindOf(a) == StringKind && fieldLength >= 0
    requires DataValue(e, Key(a)) == Ok(Utf8(text)) && text != ""
    ensures FieldValue(a, e, fieldLength) == StringValue(Utf8(text))
      <==> |Utf8(text)| <= (if fieldLength == 0 then 255 else fieldLength)
  {
  }

  lemma GetCommandLine(r: Record)
    ensures Get(r, CommandLine) == StringValue(r.commandLine)
  {
  }

  /** Backfilling leaves the command line as decoded. */
  lemma NewRecordCommandLine(e: Entry, c: Config, nowUnix: int)
    requires c.fieldLength >= 0
    ensures NewRecordOf(e, c, nowUnix).commandLine == Decoded(e, c).commandLine
  {
    NewRecordOtherFields(e, c, nowUnix);
  }

  /** TestNewRecord: the command line is read in full and the timestamp is in milliseconds. */
  lemma NewRecordScenario(nowUnix: int)
    ensures NewRecordOf(TestEntry, ApplyDefaults(TestSettings), nowUnix).commandLine == "/usr/lib/systemd/systemd-journald"
    ensures NewRecordOf(TestEntry, ApplyDefaults(TestSettings), nowUnix).timeUsec == 1480459022025
  {
    var c := ApplyDefaults(TestSettings);
    TestConfigAllowsAll(Key(CommandLine));
    TestConfigAllowsAll(Key(TimeUsec));
    assert DataValue(TestEntry, Key(CommandLine)) == Ok("/usr/lib/systemd/systemd-journald");
    assert DataValue(TestEntry, Key(TimeUsec)) == Ok("1480459022025952");
    TestValuesParse();
    ShortStringKept(TestEntry, c, nowUnix, "/usr/lib/systemd/systemd-journald");
    TimestampKept(TestEntry, c, nowUnix, 1480459022025952);
  }

  /** A field the configuration does not allow is left empty. */
  lemma DisallowedCommandLineEmpty(e: Entry, c: Config, nowUnix: int)
    requires c.fieldLength >= 0 && !AllowField(c, Key(CommandLine))
    ensures NewRecordOf(e, c, nowUnix).commandLine == ""
  {
    NewRecordCommandLine(e, c, nowUnix);
    DecodedDisallowed(e, c, CommandLine);
    GetCommandLine(Decoded(e, c));
  }

  /** TestLimitFields and TestOmitFields: the command line is left out, the timestamp still read. */
  lemma LimitAndOmitScenario(nowUnix: int)
    ensures var limited := ApplyDefaults(TestSettings.(allowedFields := [Key(TimeUsec)]));
      && NewRecordOf(TestEntry, limited, nowUnix).commandLine == ""
      && NewRecordOf(TestEntry, limited, nowUnix).timeUsec == 1480459022025
    ensures var omitting := ApplyDefaults(TestSettings.(omitFields := [Key(CommandLine)]));
      && NewRecordOf(TestEntry, omitting, nowUnix).commandLine == ""
      && NewRecordOf(TestEntry, omitting, nowUnix).timeUsec == 1480459022025
  {
    var limitedSettings := TestSettings.(allowedFields := [Key(TimeUsec)]);
    var omittingSettings := TestSettings.(omitFields := [Key(CommandLine)]);
    DefaultValues(limitedSettings);
    DefaultValues(omittingSettings);
    LoadedAllowField(limitedSettings, Key(CommandLine));
    LoadedAllowField(limitedSettings, Key(TimeUsec));
    LoadedAllowField(omittingSettings, Key(CommandLine));
    LoadedAllowField(omittingSettings, Key(TimeUsec));
    assert Key(CommandLine) != Key(TimeUsec);
    assert DataValue(TestEntry, Key(TimeUsec)) == Ok("1480459022025952");
    TestValuesParse();
    DisallowedCommandLineEmpty(TestEntry, ApplyDefaults(limitedSettings), nowUnix);
    DisallowedCommandLineEmpty(TestEntry, ApplyDefaults(omittingSettings), nowUnix);
    TimestampKept(TestEntry, ApplyDefaults(limitedSettings), nowUnix, 1480459022025952);
    TimestampKept(TestEntry, ApplyDefaults(omittingSettings), nowUnix, 1480459022025952);
  }
}
