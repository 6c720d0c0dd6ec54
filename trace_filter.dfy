/**
 * TraceTelemetryFilter, the telemetry processor that drops trace records below a severity
 * threshold. A configuration string sets the threshold; until it is set, every trace is
 * dropped, and anything that is not a trace always passes.
 */
module Processor {
  import opened Wrappers
  import opened JavaRuntime
  import opened Telemetry

  /** The table setFromTraceLevel looks a trimmed, upper-cased name up in. */
  const SeverityLevels: map<string, SeverityLevel> :=
    map["TRACE" := Verbose, "INFO" := Information, "WARN" := Warning, "ERROR" := Error, "CRITICAL" := Critical]

  /** The configuration name of each threshold. */
  function ConfigName(level: SeverityLevel): string {
    match level
    case Verbose => "TRACE"
    case Information => "INFO"
    case Warning => "WARN"
    case Error => "ERROR"
    case Critical => "CRITICAL"
  }

  /** `severityLevels.get(name)`: the threshold a name stands for, or null. */
  function LevelNamed(name: string): (level: Option<SeverityLevel>)
    ensures level.Some? ==> ConfigName(level.value) == name
    ensures level.None? ==> forall l :: ConfigName(l) != name
  {
    if name in SeverityLevels then Some(SeverityLevels[name]) else None
  }

  /** The one name per threshold, and nothing else, is understood. */
  lemma LevelNameRoundTrip(level: SeverityLevel, name: string)
    ensures LevelNamed(ConfigName(level)) == Some(level)
    ensures LevelNamed(name) == Some(level) ==> name == ConfigName(level)
  {
  }

  /** The name as setFromTraceLevel compares it: trimmed, then upper-cased. */
  function Token(argument: string): string {
    ToUpperCase(Trim(argument))
  }

  /** The threshold setFromTraceLevel leaves behind, and whether it threw. */
  datatype SetOutcome = SetOutcome(threshold: Option<SeverityLevel>, thrown: bool)

  /** setFromTraceLevel(argument) on a filter whose threshold is `threshold`. */
  function AfterSet(threshold: Option<SeverityLevel>, argument: Option<string>): (r: SetOutcome)
    ensures r.thrown <==> argument.None? || (Token(argument.value) != "OFF" && LevelNamed(Token(argument.value)).None?)
    ensures r.thrown ==> r.threshold == Some(Verbose)
    ensures !r.thrown && Token(argument.value) != "OFF" ==> r.threshold == LevelNamed(Token(argument.value))
    ensures !r.thrown && Token(argument.value) == "OFF" ==> r.threshold == threshold
    ensures r.threshold.None? ==> threshold.None?
  {
    match argument
    case None => SetOutcome(Some(Verbose), true)
    case Some(s) =>
      if Token(s) == "OFF" then SetOutcome(threshold, false)
      else match LevelNamed(Token(s))
        case Some(level) => SetOutcome(Some(level), false)
        case None => SetOutcome(Some(Verbose), true)
  }

  /** Upper-casing never turns a trimmable character into one that is not, or back. */
  lemma UpperKeepsTrimmable(c: char)
    ensures IsTrimmable(UpperChar(c)) <==> IsTrimmable(c)
  {
  }

  /**
   * Blanks around a name and the case of its letters do not matter: every spelling of a
   * threshold's name, with any control characters or spaces around it, sets that threshold.
   */
  lemma {:induction false} NameIgnoresCaseAndBlanks(threshold: Option<SeverityLevel>, pre: string, s: string,
                                                    post: string, level: SeverityLevel)
    requires AllTrimmable(pre) && AllTrimmable(post)
    requires ToUpperCase(s) == ConfigName(level)
    ensures LevelNamed(Token(pre + s + post)) == Some(level)
    ensures AfterSet(threshold, Some(pre + s + post)) == SetOutcome(Some(level), false)
  {
    var name := ConfigName(level);
    assert |s| == |name| > 0 && !IsTrimmable(name[0]) && !IsTrimmable(name[|name| - 1]) by {
      match level
      case Verbose =>
      case Information =>
      case Warning =>
      case Error =>
      case Critical =>
    }
    assert UpperChar(s[0]) == name[0];
    assert UpperChar(s[|s| - 1]) == name[|name| - 1];
    UpperKeepsTrimmable(s[0]);
    UpperKeepsTrimmable(s[|s| - 1]);
    TrimSurrounded(pre, s, post);
    assert Token(pre + s + post) == name;
    LevelNameRoundTrip(level, name);
  }

  /** "OFF", in any case and with any blanks around it, leaves the threshold as it was. */
  lemma {:induction false} OffKeepsThreshold(threshold: Option<SeverityLevel>, pre: string, s: string, post: string)
    requires AllTrimmable(pre) && AllTrimmable(post)
    requires ToUpperCase(s) == "OFF"
    ensures AfterSet(threshold, Some(pre + s + post)) == SetOutcome(threshold, false)
  {
    assert |s| == 3 && UpperChar(s[0]) == 'O' && UpperChar(s[2]) == 'F';
    UpperKeepsTrimmable(s[0]);
    UpperKeepsTrimmable(s[2]);
    TrimSurrounded(pre, s, post);
  }

  class TraceTelemetryFilter {
    /** The threshold; None (null) until it is set, which drops every trace. */
    var fromTraceLevel: Option<SeverityLevel>

    constructor ()
      ensures fromTraceLevel == None
    {
      fromTraceLevel := None;
    }

    /**
     * process(telemetry): true keeps the item. Only a trace with a message and a severity
     * is compared with the threshold, by the severities' declaration order.
     */
    function Process(telemetry: Option<TelemetryItem>): (keep: bool)
      reads this
      ensures telemetry.None? || !telemetry.value.TraceItem? ==> keep
      ensures telemetry.Some? && telemetry.value.TraceItem? && fromTraceLevel.None? ==> !keep
      ensures telemetry.Some? && telemetry.value.TraceItem? && fromTraceLevel.Some? ==>
                var trace := telemetry.value.trace;
                (keep <==> IsNullOrEmpty(trace.message) || trace.severityLevel.None?
                           || trace.severityLevel.value.Ordinal() >= fromTraceLevel.value.Ordinal())
    {
      match telemetry
      case None => true
      case Some(item) =>
        if !item.TraceItem? then true
        else if fromTraceLevel.None? then false
        else
          var trace := item.trace;
          if IsNullOrEmpty(trace.message) then true
          else if trace.severityLevel.None? then true
          else !(trace.severityLevel.value.Ordinal() < fromTraceLevel.value.Ordinal())
    }

    /**
     * setFromTraceLevel(fromTraceLevel): trim, upper-case and look the name up. A null
     * argument or an unknown name stores Verbose and throws; "OFF" stores nothing.
     */
    method SetFromTraceLevel(fromTraceLevel: Option<string>) returns (thrown: bool)
      modifies this
      ensures SetOutcome(this.fromTraceLevel, thrown) == AfterSet(old(this.fromTraceLevel), fromTraceLevel)
    {
      if fromTraceLevel.None? {
        // trim() on null throws; the catch block stores Verbose and rethrows
        this.fromTraceLevel := Some(Verbose);
        return true;
      }
      var trimmed := Trim(fromTraceLevel.value);
      if ToUpperCase(trimmed) == "OFF" {
        // OFF clears only the local parameter, so the stored threshold is left as it was
      } else {
        var severityLevels := SeverityLevels;
        var upper := ToUpperCase(trimmed);
        if upper !in severityLevels {
          // IllegalArgumentException: the catch block stores Verbose and rethrows
          this.fromTraceLevel := Some(Verbose);
          return true;
        }
        this.fromTraceLevel := Some(severityLevels[upper]);
      }
      return false;
    }
  }

  /** With a higher threshold, a filter keeps no trace that a lower one drops. */
  lemma RaisingThresholdDropsMore(lower: TraceTelemetryFilter, higher: TraceTelemetryFilter,
                                  telemetry: Option<TelemetryItem>)
    requires lower.fromTraceLevel.Some? && higher.fromTraceLevel.Some?
    requires higher.fromTraceLevel.value.AtLeast(lower.fromTraceLevel.value)
    ensures higher.Process(telemetry) ==> lower.Process(telemetry)
  {
  }

  /** A Verbose threshold, which every failed set leaves, keeps everything. */
  lemma VerboseKeepsEverything(filter: TraceTelemetryFilter, telemetry: Option<TelemetryItem>)
    requires filter.fromTraceLevel == Some(Verbose)
    ensures filter.Process(telemetry)
  {
  }

  /** A threshold, once set, only returns to "drop every trace" by being null from the start. */
  lemma {:induction false} ThresholdNeverCleared(threshold: Option<SeverityLevel>, arguments: seq<Option<string>>)
    requires threshold.Some?
    ensures Replay(threshold, arguments).Some?
    decreases |arguments|
  {
    if arguments != [] {
      ThresholdNeverCleared(AfterSet(threshold, arguments[0]).threshold, arguments[1..]);
    }
  }

  /** The threshold after a series of setFromTraceLevel calls. */
  function Replay(threshold: Option<SeverityLevel>, arguments: seq<Option<string>>): Option<SeverityLevel>
    decreases |arguments|
  {
    if arguments == [] then threshold
    else Replay(AfterSet(threshold, arguments[0]).threshold, arguments[1..])
  }
}
