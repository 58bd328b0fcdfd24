/**
 * The journal capability of cloud-watch/Journal.go. Go reaches it through an
 * interface; here it is one oracle class whose answers are fixed in advance
 * (a script for Next(), constants for the other operations) and which keeps a
 * ghost log of every call made on it. The same class stands for the
 * sd-journal handle that cloud-watch/journal_linux.go wraps.
 */
module Journals {
  import opened Wrappers

  /** The entry under the read pointer: its fields and its realtime clock (microseconds). */
  datatype Entry = Entry(fields: map<string, string>, realtimeUsec: Result<nat, string>)

  /** An entry with no fields at all. */
  const EmptyEntry := Entry(map[], Err("no entry"))

  /** GetDataValue: the value of a field of the entry, an error when the entry lacks it. */
  function DataValue(e: Entry, field: string): (r: Result<string, string>)
    ensures r.Ok? <==> field in e.fields
    ensures r.Ok? ==> r.value == e.fields[field]
  {
    if field in e.fields then Ok(e.fields[field]) else Err("no such field: " + field)
  }

  /** What the journal answers to one Next(): an error, or how far it moved and the entry it reached. */
  datatype NextAnswer = NextFailed(err: string) | NextCount(count: nat, entry: Entry)

  /** The answers to the cursor operations other than Next(). */
  datatype CursorAnswers = CursorAnswers(
    seekHead: Option<string>,
    seekTail: Option<string>,
    seekCursor: Option<string>,
    skip: Result<nat, string>,
    monotonicUsec: Result<nat, string>,
    cursor: Result<string, string>,
    wait: int,
    close: Option<string>)

  /** One call made on the journal, as recorded in its log. */
  datatype JournalCall =
    | NextCall
    | NextSkipCall(skip: nat)
    | PreviousCall
    | PreviousSkipCall(skip: nat)
    | SeekHeadCall
    | SeekTailCall
    | SeekCursorCall(cursor: string)
    | WaitCall(timeoutMs: nat)
    | AddMatchCall(expr: string)
    | AddDisjunctionCall
    | CloseCall

  /** The answer the next Next() gives: the head of the script, or "no new entry" once it is used up. */
  function NextHead(script: seq<NextAnswer>, current: Entry): NextAnswer {
    if script == [] then NextCount(0, current) else script[0]
  }

  /** The Go `(count, err)` pair of an answer. */
  function NextResult(a: NextAnswer): Result<nat, string> {
    match a
    case NextFailed(e) => Err(e)
    case NextCount(n, _) => Ok(n)
  }

  /** The entry under the read pointer after an answer: it moves only when the count is positive. */
  function EntryAfter(a: NextAnswer, current: Entry): Entry {
    if a.NextCount? && a.count > 0 then a.entry else current
  }

  class Journal {
    /** Answers to the coming Next() calls, first one first. */
    var script: seq<NextAnswer>
    /** The entry under the read pointer. */
    var current: Entry
    const answers: CursorAnswers
    /** Every call made on this journal, oldest first. */
    ghost var calls: seq<JournalCall>

    constructor (script: seq<NextAnswer>, answers: CursorAnswers)
      ensures this.script == script && this.answers == answers
      ensures current == EmptyEntry && calls == []
    {
      this.script := script;
      this.answers := answers;
      current := EmptyEntry;
      calls := [];
    }

    /** Next advances the read pointer by one entry. */
    method Next() returns (r: Result<nat, string>)
      modifies this
      ensures var a := NextHead(old(script), old(current));
        && r == NextResult(a)
        && current == EntryAfter(a, old(current))
        && script == (if old(script) == [] then [] else old(script)[1..])
      ensures calls == old(calls) + [NextCall]
    {
      var a := NextHead(script, current);
      r := NextResult(a);
      current := EntryAfter(a, current);
      if script != [] {
        script := script[1..];
      }
      calls := calls + [NextCall];
    }

    method NextSkip(skip: nat) returns (r: Result<nat, string>)
      modifies this`calls
      ensures r == answers.skip && calls == old(calls) + [NextSkipCall(skip)]
    {
      r := answers.skip;
      calls := calls + [NextSkipCall(skip)];
    }

    method Previous() returns (r: Result<nat, string>)
      modifies this`calls
      ensures r == answers.skip && calls == old(calls) + [PreviousCall]
    {
      r := answers.skip;
      calls := calls + [PreviousCall];
    }

    method PreviousSkip(skip: nat) returns (r: Result<nat, string>)
      modifies this`calls
      ensures r == answers.skip && calls == old(calls) + [PreviousSkipCall(skip)]
    {
      r := answers.skip;
      calls := calls + [PreviousSkipCall(skip)];
    }

    /** GetDataValue reads a field of the current entry. */
    function GetDataValue(field: string): Result<string, string>
      reads this
    {
      DataValue(current, field)
    }

    /** GetRealtimeUsec reads the realtime clock of the current entry. */
    function GetRealtimeUsec(): Result<nat, string>
      reads this
    {
      current.realtimeUsec
    }

    function GetMonotonicUsec(): Result<nat, string> {
      answers.monotonicUsec
    }

    function GetCursor(): Result<string, string> {
      answers.cursor
    }

    method SeekHead() returns (err: Option<string>)
      modifies this`calls
      ensures err == answers.seekHead && calls == old(calls) + [SeekHeadCall]
    {
      err := answers.seekHead;
      calls := calls + [SeekHeadCall];
    }

    method SeekTail() returns (err: Option<string>)
      modifies this`calls
      ensures err == answers.seekTail && calls == old(calls) + [SeekTailCall]
    {
      err := answers.seekTail;
      calls := calls + [SeekTailCall];
    }

    method SeekCursor(cursor: string) returns (err: Option<string>)
      modifies this`calls
      ensures err == answers.seekCursor && calls == old(calls) + [SeekCursorCall(cursor)]
    {
      err := answers.seekCursor;
      calls := calls + [SeekCursorCall(cursor)];
    }

    /** Wait blocks until the journal changes or the timeout passes; the model only records it. */
    method Wait(timeoutMs: nat) returns (status: int)
      modifies this`calls
      ensures status == answers.wait && calls == old(calls) + [WaitCall(timeoutMs)]
    {
      status := answers.wait;
      calls := calls + [WaitCall(timeoutMs)];
    }

    /** AddMatch of the sd-journal handle: restricts reading to entries matching `expr`. */
    method AddMatch(expr: string)
      modifies this`calls
      ensures calls == old(calls) + [AddMatchCall(expr)]
    {
      calls := calls + [AddMatchCall(expr)];
    }

    /** AddDisjunction of the sd-journal handle: the matches added so far are alternatives. */
    method AddDisjunction()
      modifies this`calls
      ensures calls == old(calls) + [AddDisjunctionCall]
    {
      calls := calls + [AddDisjunctionCall];
    }

    method Close() returns (err: Option<string>)
      modifies this`calls
      ensures err == answers.close && calls == old(calls) + [CloseCall]
    {
      err := answers.close;
      calls := calls + [CloseCall];
    }
  }
}
