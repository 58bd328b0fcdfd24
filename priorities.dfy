/**
 * The journald priority levels of cloud-watch/record.go: `Priority` is a Go
 * `int`, so a record may carry any integer; the eight named levels run from
 * EMERGENCY = 0 (most severe) to DEBUG = 7.
 */
module Priorities {
  import opened Wrappers

  type Priority = int

  const EMERGENCY: Priority := 0
  const ALERT: Priority := 1
  const CRITICAL: Priority := 2
  const ERROR: Priority := 3
  const WARNING: Priority := 4
  const NOTICE: Priority := 5
  const INFO: Priority := 6
  const DEBUG: Priority := 7

  /** One of the eight named levels, i.e. a key of `PriorityJsonMap`. */
  predicate IsLevel(p: Priority) {
    EMERGENCY <= p <= DEBUG
  }

  /** The serialized label of `PriorityJsonMap`; a Go map lookup of any other key yields nothing. */
  function JsonLabel(p: Priority): (name: Option<string>)
    ensures name.Some? <==> IsLevel(p)
  {
    if p == EMERGENCY then Some("\"EMERG\"")
    else if p == ALERT then Some("\"ALERT\"")
    else if p == CRITICAL then Some("\"CRITICAL\"")
    else if p == ERROR then Some("\"ERROR\"")
    else if p == WARNING then Some("\"WARNING\"")
    else if p == NOTICE then Some("\"NOTICE\"")
    else if p == INFO then Some("\"INFO\"")
    else if p == DEBUG then Some("\"DEBUG\"")
    else None
  }

  /** The label is what a Go `string(PriorityJsonMap[p])` gives: the empty string for a missing key. */
  function JsonLabelText(p: Priority): string {
    match JsonLabel(p)
    case Some(l) => l
    case None => ""
  }

  /** The journal's own encoding of a level: its decimal digit ("0" .. "7"). */
  function NumericName(p: Priority): (s: string)
    requires IsLevel(p)
    ensures |s| == 1 && '0' <= s[0] <= '7' && s[0] as int - '0' as int == p
  {
    [('0' as int + p) as char]
  }

  /** The short name syslog and journalctl use for a level. */
  function ShortName(p: Priority): string
    requires IsLevel(p)
  {
    if p == EMERGENCY then "emerg"
    else if p == ALERT then "alert"
    else if p == CRITICAL then "crit"
    else if p == ERROR then "err"
    else if p == WARNING then "warning"
    else if p == NOTICE then "notice"
    else if p == INFO then "info"
    else "debug"
  }

  /** Distinct levels have distinct labels, so a label identifies its level. */
  lemma JsonLabelInjective(p: Priority, q: Priority)
    requires IsLevel(p) && IsLevel(q) && JsonLabel(p) == JsonLabel(q)
    ensures p == q
  {
  }

  /** A numeric name and a short name never coincide, and neither do two names of different levels. */
  lemma NamesIdentifyLevel(p: Priority, q: Priority, s: string)
    requires IsLevel(p) && IsLevel(q)
    requires s == NumericName(p) || s == ShortName(p)
    requires s == NumericName(q) || s == ShortName(q)
    ensures p == q
  {
  }
}
