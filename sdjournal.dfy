/**
 * The systemd journal adapter of cloud-watch/journal_linux.go: SdJournal
 * wraps an sd-journal handle (the scripted Journals.Journal), chooses which
 * journal to open from the configuration, installs the priority filter, and
 * forwards every cursor operation to the handle.
 */
module SdJournals {
  import opened Wrappers
  import opened Strconv
  import opened Priorities
  import opened Config
  import opened Journals

  /** Which journal NewJournal opens. */
  datatype JournalSource = DefaultJournal | JournalDirectory(dir: string)

  /** NewJournal opens the system's journal unless a journal directory is configured. */
  function SourceFor(config: Option<Config>): (s: JournalSource)
    ensures s.DefaultJournal? <==> config.None? || config.value.journalDir == ""
    ensures s.JournalDirectory? ==> s.dir == config.value.journalDir && s.dir != ""
  {
    if config.None? || config.value.journalDir == "" then DefaultJournal
    else JournalDirectory(config.value.journalDir)
  }

  /** Debug output is on when there is no configuration, and as configured otherwise. */
  function DebugFor(config: Option<Config>): (debug: bool)
    ensures config.None? ==> debug
    ensures config.Some? ==> debug == config.value.debug
  {
    match config
    case None => true
    case Some(c) => c.debug
  }

  /** The sd-journal match expression that selects entries of priority `p`. */
  function PriorityMatch(p: Priority): string {
    "PRIORITY=" + Itoa(p)
  }

  /** A match expression names its level: the level parses back from the text after "PRIORITY=". */
  lemma PriorityMatchParses(p: Priority)
    requires IsInt64(p)
    ensures |PriorityMatch(p)| > 9 && PriorityMatch(p)[..9] == "PRIORITY="
    ensures ParseInt(PriorityMatch(p)[9..]) == Some(p)
  {
    ParseItoa(p);
    assert PriorityMatch(p)[9..] == Itoa(p);
  }

  /** Distinct levels get distinct match expressions. */
  lemma PriorityMatchInjective(p: Priority, q: Priority)
    requires IsInt64(p) && IsInt64(q)
    requires PriorityMatch(p) == PriorityMatch(q)
    ensures p == q
  {
    PriorityMatchParses(p);
    PriorityMatchParses(q);
    assert PriorityMatch(p)[9..] == PriorityMatch(q)[9..];
  }

  /** The AddMatch calls that install the matches of `order`, in that order. */
  function MatchCalls(order: seq<Priority>): (calls: seq<JournalCall>)
    ensures |calls| == |order|
    ensures forall i :: 0 <= i < |order| ==> calls[i] == AddMatchCall(PriorityMatch(order[i]))
  {
    seq(|order|, i requires 0 <= i < |order| => AddMatchCall(PriorityMatch(order[i])))
  }

  /** The levels 0 .. n - 1 as a set. */
  function LevelsBelow(n: nat): (levels: set<Priority>)
    ensures forall p :: p in levels <==> 0 <= p < n
    ensures |levels| == n
  {
    if n == 0 then {} else LevelsBelow(n - 1) + {n - 1}
  }

  /** The levels 0 .. threshold, each exactly once, in some order. */
  predicate EachLevelUpTo(order: seq<Priority>, threshold: Priority)
    requires EMERGENCY <= threshold
  {
    multiset(order) == multiset(LevelsBelow(threshold + 1))
  }

  /** Such a listing names every level up to the threshold once and nothing else, so it has threshold + 1 entries. */
  lemma EachLevelUpToMeans(order: seq<Priority>, threshold: Priority)
    requires EMERGENCY <= threshold && EachLevelUpTo(order, threshold)
    ensures |order| == threshold + 1
    ensures forall p :: multiset(order)[p] == if EMERGENCY <= p <= threshold then 1 else 0
  {
    assert |multiset(order)| == |multiset(LevelsBelow(threshold + 1))|;
  }

  /** The levels of `remaining` at or below the threshold. */
  function Pending(remaining: set<Priority>, threshold: Priority): set<Priority> {
    set q | q in remaining && q <= threshold
  }

  /**
   * Part way through the loop over the levels: the levels listed so far and
   * the levels at or below the threshold still to be visited are together
   * each level 0 .. threshold once.
   */
  predicate Progress(remaining: set<Priority>, order: seq<Priority>, threshold: Priority)
    requires EMERGENCY <= threshold
  {
    multiset(order) + multiset(Pending(remaining, threshold)) == multiset(LevelsBelow(threshold + 1))
  }

  /** Before the loop: nothing listed, every level still to visit. */
  lemma ProgressStart(threshold: Priority)
    requires IsLevel(threshold)
    ensures Progress(LevelsBelow(DEBUG + 1), [], threshold)
  {
    assert Pending(LevelsBelow(DEBUG + 1), threshold) == LevelsBelow(threshold + 1);
  }

  /** Visiting one more level keeps the loop's progress. */
  lemma ProgressStep(remaining: set<Priority>, order: seq<Priority>, threshold: Priority, p: Priority)
    requires EMERGENCY <= threshold && Progress(remaining, order, threshold) && p in remaining
    ensures Progress(remaining - {p}, if p <= threshold then order + [p] else order, threshold)
  {
    if p <= threshold {
      assert Pending(remaining, threshold) == Pending(remaining - {p}, threshold) + {p};
      assert multiset(order + [p]) == multiset(order) + multiset{p};
    } else {
      assert Pending(remaining, threshold) == Pending(remaining - {p}, threshold);
    }
  }

  /** Once every level is visited, the listing is complete. */
  lemma ProgressDone(order: seq<Priority>, threshold: Priority)
    requires EMERGENCY <= threshold && Progress({}, order, threshold)
    ensures EachLevelUpTo(order, threshold)
  {
    assert Pending({}, threshold) == {};
  }

  /** Installing one more match appends its call. */
  lemma MatchCallsSnoc(order: seq<Priority>, p: Priority)
    ensures MatchCalls(order + [p]) == MatchCalls(order) + [AddMatchCall(PriorityMatch(p))]
  {
    assert MatchCalls(order + [p]) == MatchCalls(order) + [AddMatchCall(PriorityMatch(p))];
  }

  class SdJournal {
    /** The sd-journal handle. */
    const journal: Journal
    /** Which journal the handle was opened on. */
    const source: JournalSource
    const debug: bool

    /**
     * NewJournal: `handle` is the handle sd-journal opened on SourceFor(config)
     * and `openError` the error it reported; both are returned as they are.
     */
    static method NewJournal(config: Option<Config>, handle: Journal, openError: Option<string>)
      returns (j: SdJournal, err: Option<string>)
      ensures fresh(j) && j.journal == handle && err == openError
      ensures j.source == SourceFor(config) && j.debug == DebugFor(config)
    {
      j := new SdJournal.Wrap(handle, SourceFor(config), DebugFor(config));
      err := openError;
    }

    constructor Wrap(journal: Journal, source: JournalSource, debug: bool)
      ensures this.journal == journal && this.source == source && this.debug == debug
    {
      this.journal := journal;
      this.source := source;
      this.debug := debug;
    }

    /**
     * AddLogFilters: below DEBUG, one AddMatch per level at or below the
     * configured threshold, in the unspecified order of Go's map iteration,
     * then one AddDisjunction; at DEBUG, nothing.
     */
    method AddLogFilters(config: Config) returns (ghost order: seq<Priority>)
      modifies journal
      ensures var threshold := GetJournalDLogPriority(config);
        if threshold < DEBUG then
          && EachLevelUpTo(order, threshold)
          && journal.calls == old(journal.calls) + MatchCalls(order) + [AddDisjunctionCall]
        else journal.calls == old(journal.calls)
      ensures journal.script == old(journal.script) && journal.current == old(journal.current)
    {
      order := [];
      var threshold := GetJournalDLogPriority(config);
      if threshold < DEBUG {
        order := AddMatches(threshold);
        journal.AddDisjunction();
      }
    }

    /** The loop of AddLogFilters over the keys of PriorityJsonMap. */
    method AddMatches(threshold: Priority) returns (ghost order: seq<Priority>)
      requires IsLevel(threshold)
      modifies journal
      ensures EachLevelUpTo(order, threshold)
      ensures journal.calls == old(journal.calls) + MatchCalls(order)
      ensures journal.script == old(journal.script) && journal.current == old(journal.current)
    {
      order := [];
      var remaining := LevelsBelow(DEBUG + 1);
      ProgressStart(threshold);
      while remaining != {}
        invariant Progress(remaining, order, threshold)
        invariant journal.calls == old(journal.calls) + MatchCalls(order)
        invariant journal.script == old(journal.script) && journal.current == old(journal.current)
        decreases |remaining|
      {
        var p :| p in remaining;
        order := VisitLevel(remaining, order, threshold, p, old(journal.calls));
        remaining := remaining - {p};
      }
      ProgressDone(order, threshold);
    }

    /** One iteration of AddMatches: install the match of `p` when it is at or below the threshold. */
    method VisitLevel(remaining: set<Priority>, ghost order: seq<Priority>, threshold: Priority, p: Priority, ghost calls0: seq<JournalCall>)
      returns (ghost order': seq<Priority>)
      requires IsLevel(threshold) && Progress(remaining, order, threshold) && p in remaining
      requires journal.calls == calls0 + MatchCalls(order)
      modifies journal
      ensures Progress(remaining - {p}, order', threshold)
      ensures journal.calls == calls0 + MatchCalls(order')
      ensures journal.script == old(journal.script) && journal.current == old(journal.current)
    {
      ProgressStep(remaining, order, threshold, p);
      order' := order;
      if p <= threshold {
        MatchCallsSnoc(order, p);
        journal.AddMatch(PriorityMatch(p));
        order' := order + [p];
        assert (calls0 + MatchCalls(order)) + [AddMatchCall(PriorityMatch(p))] == calls0 + (MatchCalls(order) + [AddMatchCall(PriorityMatch(p))]);
      }
    }

    /** Next forwards to the handle; the debug trace of the result is not modelled. */
    method Next() returns (r: Result<nat, string>)
      modifies journal
      ensures r == NextResult(NextHead(old(journal.script), old(journal.current)))
      ensures journal.current == EntryAfter(NextHead(old(journal.script), old(journal.current)), old(journal.current))
      ensures journal.calls == old(journal.calls) + [NextCall]
    {
      r := journal.Next();
    }

    method NextSkip(skip: nat) returns (r: Result<nat, string>)
      modifies journal`calls
      ensures r == journal.answers.skip && journal.calls == old(journal.calls) + [NextSkipCall(skip)]
    {
      r := journal.NextSkip(skip);
    }

    method Previous() returns (r: Result<nat, string>)
      modifies journal`calls
      ensures r == journal.answers.skip && journal.calls == old(journal.calls) + [PreviousCall]
    {
      r := journal.Previous();
    }

    method PreviousSkip(skip: nat) returns (r: Result<nat, string>)
      modifies journal`calls
      ensures r == journal.answers.skip && journal.calls == old(journal.calls) + [PreviousSkipCall(skip)]
    {
      r := journal.PreviousSkip(skip);
    }

    function GetDataValue(field: string): (r: Result<string, string>)
      reads journal
      ensures r.Ok? <==> field in journal.current.fields
      ensures r.Ok? ==> r.value == journal.current.fields[field]
    {
      journal.GetDataValue(field)
    }

    function GetRealtimeUsec(): (r: Result<nat, string>)
      reads journal
      ensures r == journal.current.realtimeUsec
    {
      journal.GetRealtimeUsec()
    }

    function GetMonotonicUsec(): (r: Result<nat, string>)
      ensures r == journal.answers.monotonicUsec
    {
      journal.GetMonotonicUsec()
    }

    function GetCursor(): (r: Result<string, string>)
      ensures r == journal.answers.cursor
    {
      journal.GetCursor()
    }

    method SeekHead() returns (err: Option<string>)
      modifies journal`calls
      ensures err == journal.answers.seekHead && journal.calls == old(journal.calls) + [SeekHeadCall]
    {
      err := journal.SeekHead();
    }

    method SeekTail() returns (err: Option<string>)
      modifies journal`calls
      ensures err == journal.answers.seekTail && journal.calls == old(journal.calls) + [SeekTailCall]
    {
      err := journal.SeekTail();
    }

    method SeekCursor(cursor: string) returns (err: Option<string>)
      modifies journal`calls
      ensures err == journal.answers.seekCursor && journal.calls == old(journal.calls) + [SeekCursorCall(cursor)]
    {
      err := journal.SeekCursor(cursor);
    }

    method Wait(timeoutMs: nat) returns (status: int)
      modifies journal`calls
      ensures status == journal.answers.wait && journal.calls == old(journal.calls) + [WaitCall(timeoutMs)]
    {
      status := journal.Wait(timeoutMs);
    }

    method Close() returns (err: Option<string>)
      modifies journal`calls
      ensures err == journal.answers.close && journal.calls == old(journal.calls) + [CloseCall]
    {
      err := journal.Close();
    }
  }
}
