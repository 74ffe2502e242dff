/**
 * What the connection manager does, as a word of events, and which words are
 * possible. The rules speak about one event and the events before it; the
 * lemmas draw the consequences for whole outages and refusals.
 */
module ManagerLogs {
  import opened Backoff

  /** The two reconnect settings, in nanoseconds. */
  datatype Durations = Durations(reconnectInterval: int, maxReconnectDelay: int)

  predicate ValidConfig(c: Durations) {
    Duration(c.reconnectInterval) && Duration(c.maxReconnectDelay)
  }

  type Config = c: Durations | ValidConfig(c) witness Durations(1, 1)

  const DEFAULT_INTERVAL := 5_000_000_000
  const DEFAULT_MAX_DELAY := 300_000_000_000

  /** NewClient replaces unset settings by the defaults, so every client runs with positive durations. */
  function FillDefaults(reconnectInterval: Nanos, maxReconnectDelay: Nanos): (c: Config)
    ensures reconnectInterval > 0 ==> c.reconnectInterval == reconnectInterval
    ensures reconnectInterval <= 0 ==> c.reconnectInterval == 5_000_000_000
    ensures maxReconnectDelay > 0 ==> c.maxReconnectDelay == maxReconnectDelay
    ensures maxReconnectDelay <= 0 ==> c.maxReconnectDelay == 300_000_000_000
  {
    var interval := if reconnectInterval <= 0 then DEFAULT_INTERVAL else reconnectInterval;
    var max := if maxReconnectDelay <= 0 then DEFAULT_MAX_DELAY else maxReconnectDelay;
    Durations(interval, max)
  }

  datatype Entry =
    | DialStarted
    | DialFailed
    | Connected(id: nat)
    | LoopLeft
    | ReasonTaken(text: string)
    | Slept(duration: int)

  function Last(log: seq<Entry>): Entry
    requires log != []
  {
    log[|log| - 1]
  }

  function Front(log: seq<Entry>): seq<Entry>
    requires log != []
  {
    log[..|log| - 1]
  }

  /** Consecutive dial failures up to the end of the log. */
  function Failures(log: seq<Entry>): nat {
    if log == [] then 0
    else match Last(log)
      case DialFailed => Failures(Front(log)) + 1
      case DialStarted => Failures(Front(log))
      case Slept(_) => Failures(Front(log))
      case _ => 0
  }

  lemma FailuresAppend(log: seq<Entry>, e: Entry)
    ensures Failures(log + [e])
         == match e
            case DialFailed => Failures(log) + 1
            case DialStarted => Failures(log)
            case Slept(_) => Failures(log)
            case _ => 0
  {
    assert Front(log + [e]) == log;
  }

  /** Dials started since the last connection or refusal. */
  function Attempts(log: seq<Entry>): nat {
    if log == [] then 0
    else match Last(log)
      case DialStarted => Attempts(Front(log)) + 1
      case DialFailed => Attempts(Front(log))
      case Slept(_) => Attempts(Front(log))
      case _ => 0
  }

  /** Time slept between those dials. */
  function Outage(log: seq<Entry>): int {
    if log == [] then 0
    else match Last(log)
      case Slept(d) =>
        var before := Front(log);
        if before != [] && Last(before).DialFailed? then Outage(before) + d else 0
      case DialStarted => Outage(Front(log))
      case DialFailed => Outage(Front(log))
      case _ => 0
  }

  function Dials(log: seq<Entry>): nat {
    if log == [] then 0
    else Dials(Front(log)) + (if Last(log).DialStarted? then 1 else 0)
  }

  /** May `e` come next? */
  ghost predicate Follows(c: Config, before: seq<Entry>, e: Entry)
  {
    match e
    case DialStarted =>
      before == [] || Last(before).Slept? || Last(before) == ReasonTaken("")
    case DialFailed =>
      before != [] && Last(before).DialStarted?
    case Connected(_) =>
      before != [] && Last(before).DialStarted?
    case LoopLeft =>
      before != [] && Last(before).Connected?
    case ReasonTaken(_) =>
      before != [] && Last(before).LoopLeft?
    case Slept(d) =>
      && before != []
      && (Last(before).DialFailed? ==>
            d == Delay(c.reconnectInterval, c.maxReconnectDelay, Failures(before) - 1))
      && (!Last(before).DialFailed? ==>
            Last(before).ReasonTaken? && Last(before).text != "" && d == c.maxReconnectDelay)
  }

  ghost predicate Legal(c: Config, log: seq<Entry>)
  {
    log == [] || (Legal(c, Front(log)) && Follows(c, Front(log), Last(log)))
  }

  lemma Extend(c: Config, log: seq<Entry>, e: Entry)
    requires Legal(c, log) && Follows(c, log, e)
    ensures Legal(c, log + [e])
    ensures Front(log + [e]) == log && Last(log + [e]) == e
  {
    assert Front(log + [e]) == log;
  }

  lemma {:induction false} LegalAt(c: Config, log: seq<Entry>, i: nat)
    requires Legal(c, log) && i < |log|
    ensures Legal(c, log[..i]) && Follows(c, log[..i], log[i])
  {
    if i == |log| - 1 {
      assert log[..i] == Front(log);
    } else {
      LegalAt(c, Front(log), i);
      assert Front(log)[..i] == log[..i];
    }
  }

  /** Completed waits of the current outage. */
  function Waits(log: seq<Entry>): int {
    if log != [] && Last(log).DialFailed? then Failures(log) - 1 else Failures(log)
  }

  /** The time slept in an outage is exactly the total of the first waits of the backoff. */
  lemma {:induction false} OutageIsTotalWait(c: Config, log: seq<Entry>)
    requires Legal(c, log)
    ensures 0 <= Waits(log)
    ensures Outage(log) == TotalWait(c.reconnectInterval, c.maxReconnectDelay, Waits(log))
  {
    if log != [] {
      var before := Front(log);
      OutageIsTotalWait(c, before);
      if Last(log).Slept? && !Last(before).DialFailed? {
        assert Failures(before) == 0;
      }
    }
  }

  lemma {:induction false} AttemptsCountFailures(c: Config, log: seq<Entry>)
    requires Legal(c, log)
    ensures Attempts(log) == Failures(log) + (if log != [] && Last(log).DialStarted? then 1 else 0)
  {
    if log != [] {
      AttemptsCountFailures(c, Front(log));
    }
  }

  /** In an outage during which the manager slept T, it dialled at most cap + 1 + T/max times. */
  lemma OutageAttempts(c: Config, log: seq<Entry>, cap: nat)
    requires Legal(c, log)
    requires SafeDurations(c.reconnectInterval, c.maxReconnectDelay)
    requires c.reconnectInterval <= c.maxReconnectDelay
    requires CapReachedAt(c.reconnectInterval, c.maxReconnectDelay, cap)
    requires 0 <= Outage(log)
    ensures Attempts(log) <= cap + 1 + Outage(log) / c.maxReconnectDelay
  {
    OutageIsTotalWait(c, log);
    AttemptsCountFailures(c, log);
    OutageBound(c.reconnectInterval, c.maxReconnectDelay, cap, Waits(log), Outage(log));
  }

  lemma {:induction false} OutageNonNegative(c: Config, log: seq<Entry>)
    requires Legal(c, log)
    requires SafeDurations(c.reconnectInterval, c.maxReconnectDelay)
    ensures 0 <= Outage(log)
  {
    if log != [] {
      OutageNonNegative(c, Front(log));
      if Last(log).Slept? && Last(Front(log)).DialFailed? {
        DelayIsCapped(c.reconnectInterval, c.maxReconnectDelay, Failures(Front(log)) - 1);
      }
    }
  }

  /** A taken refusal is followed by a full wait, and an empty reason by an immediate dial. */
  lemma AfterReason(c: Config, log: seq<Entry>, i: nat)
    requires Legal(c, log)
    requires i + 1 < |log| && log[i].ReasonTaken?
    ensures log[i + 1] == if log[i].text != "" then Slept(c.maxReconnectDelay) else DialStarted
  {
    LegalAt(c, log, i + 1);
    assert log[..i + 1] != [] && Last(log[..i + 1]) == log[i];
  }

  /** Every later dial comes behind that wait. */
  lemma DialAfterRefusal(c: Config, log: seq<Entry>, i: nat, j: nat)
    requires Legal(c, log)
    requires i < j < |log| && log[i].ReasonTaken? && log[i].text != "" && log[j].DialStarted?
    ensures i + 1 < j && log[i + 1] == Slept(c.maxReconnectDelay)
  {
    AfterReason(c, log, i);
  }
}
