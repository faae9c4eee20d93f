/** What the handlers receive from Go's log/slog: levels and their names,
    attribute values, records, and a stand-in for the downstream handler
    that the metrics wrappers forward to. */
module Slog {
  import opened SourcePath

  datatype Option<T> = None | Some(value: T)

  /** slog.Level is an integer; the four predefined levels are 4 apart. */
  type Level = int

  const LevelDebug: Level := -4
  const LevelInfo: Level := 0
  const LevelWarn: Level := 4
  const LevelError: Level := 8

  /** The standard levels in ascending order of severity. */
  const PredefinedLevels: seq<Level> := [LevelDebug, LevelInfo, LevelWarn, LevelError]

  function DigitChar(d: nat): (c: char)
    requires d < 10
    ensures '0' <= c <= '9'
  {
    ('0' as int + d) as char
  }

  /** The decimal digits of a natural number. */
  function NatDecimal(n: nat): (s: string)
    ensures |s| >= 1
    ensures forall i :: 0 <= i < |s| ==> '0' <= s[i] <= '9'
    ensures n < 10 <==> |s| == 1
  {
    if n < 10 then [DigitChar(n)] else NatDecimal(n / 10) + [DigitChar(n % 10)]
  }

  /** `%d` of an integer. */
  function IntDecimal(n: int): (s: string)
    ensures |s| >= 1
    ensures n < 0 <==> s[0] == '-'
  {
    if n < 0 then "-" + NatDecimal(-n) else NatDecimal(n)
  }

  /** `%+d` of an integer: always signed. */
  function SignedDecimal(n: int): (s: string)
    ensures |s| >= 2
    ensures s[0] == (if n < 0 then '-' else '+')
  {
    if n < 0 then "-" + NatDecimal(-n) else "+" + NatDecimal(n)
  }

  function Named(base: string, offset: int): string {
    if offset == 0 then base else base + SignedDecimal(offset)
  }

  /** slog.Level.String: the name of the nearest predefined level at or
      below, followed by the signed distance from it when that is not 0. */
  function LevelString(l: Level): string {
    if l < LevelInfo then Named("DEBUG", l - LevelDebug)
    else if l < LevelWarn then Named("INFO", l - LevelInfo)
    else if l < LevelError then Named("WARN", l - LevelWarn)
    else Named("ERROR", l - LevelError)
  }

  lemma PredefinedLevelNames()
    ensures LevelString(LevelDebug) == "DEBUG"
    ensures LevelString(LevelInfo) == "INFO"
    ensures LevelString(LevelWarn) == "WARN"
    ensures LevelString(LevelError) == "ERROR"
  {
  }

  /** The level name starts with the name of the predefined level at or
      below it, so no two bands share a name. */
  lemma LevelStringBand(l: Level)
    ensures l < LevelInfo ==> LevelString(l)[..5] == "DEBUG"
    ensures LevelInfo <= l < LevelWarn ==> LevelString(l)[..4] == "INFO"
    ensures LevelWarn <= l < LevelError ==> LevelString(l)[..4] == "WARN"
    ensures LevelError <= l ==> LevelString(l)[..5] == "ERROR"
  {
  }

  /** An attribute value. Its text (`%v` and Value.String agree for these
      kinds) is what both the text renderer and the metrics labels use. */
  datatype Value =
    | StringValue(str: string)
    | IntValue(num: int)
    | BoolValue(flag: bool)
    | OtherValue(text: string)

  function ValueString(v: Value): string {
    match v
    case StringValue(s) => s
    case IntValue(n) => IntDecimal(n)
    case BoolValue(b) => if b then "true" else "false"
    case OtherValue(t) => t
  }

  datatype Attr = Attr(key: string, value: Value)

  /** Where the log call was made, when the record knows it. */
  datatype Source = Source(file: Path, line: int)

  /** A log record; `time` is the timestamp already formatted, `attrs` is in
      insertion order. */
  datatype Record = Record(time: string, level: Level, message: string, attrs: seq<Attr>, source: Option<Source>)

  /** The text of the last attribute whose key is `key`, or "" if none has it:
      iterating the attributes in order and overwriting on every match. */
  function LastValue(attrs: seq<Attr>, key: string): string {
    if attrs == [] then ""
    else if attrs[|attrs| - 1].key == key then ValueString(attrs[|attrs| - 1].value)
    else LastValue(attrs[..|attrs| - 1], key)
  }

  ghost predicate IsLastMatch(attrs: seq<Attr>, key: string, j: int) {
    && 0 <= j < |attrs|
    && attrs[j].key == key
    && forall k :: j < k < |attrs| ==> attrs[k].key != key
  }

  /** LastValue against its meaning: "" when no attribute has the key,
      otherwise the value of the last one that has it. */
  lemma {:induction false} LastValueSpec(attrs: seq<Attr>, key: string)
    ensures (forall j :: 0 <= j < |attrs| ==> attrs[j].key != key) ==> LastValue(attrs, key) == ""
    ensures forall j :: IsLastMatch(attrs, key, j) ==> LastValue(attrs, key) == ValueString(attrs[j].value)
  {
    if attrs != [] {
      var init := attrs[..|attrs| - 1];
      LastValueSpec(init, key);
      forall j | IsLastMatch(attrs, key, j)
        ensures LastValue(attrs, key) == ValueString(attrs[j].value)
      {
        if j < |attrs| - 1 {
          assert IsLastMatch(init, key, j);
        }
      }
    }
  }

  /** An attribute with another key, inserted anywhere, changes nothing. */
  lemma {:induction false} LastValueIgnoresOtherKeys(s: seq<Attr>, a: Attr, t: seq<Attr>, key: string)
    requires a.key != key
    ensures LastValue(s + [a] + t, key) == LastValue(s + t, key)
  {
    if t == [] {
      assert (s + [a] + t)[..|s + [a] + t| - 1] == s;
      assert s + t == s;
    } else {
      var t' := t[..|t| - 1];
      assert (s + [a] + t)[..|s + [a] + t| - 1] == s + [a] + t';
      assert (s + t)[..|s + t| - 1] == s + t';
      LastValueIgnoresOtherKeys(s, a, t', key);
    }
  }

  /** What the downstream handler was given, and what it answered. */
  datatype Forwarded = Forwarded(record: Record, failed: bool)

  /** A stand-in for the downstream slog.Handler the metrics wrappers embed:
      enabled at and above a fixed threshold, deriving fresh handlers that
      carry the added attributes or group, and logging every record it is
      handed, answering with an error or not, as it pleases. */
  class BaseHandler {
    const threshold: Level
    const bound: seq<Attr>
    const groups: seq<string>
    var log: seq<Forwarded>

    constructor (threshold: Level)
      ensures this.threshold == threshold && bound == [] && groups == [] && log == []
    {
      this.threshold := threshold;
      bound := [];
      groups := [];
      log := [];
    }

    constructor Derived(threshold: Level, bound: seq<Attr>, groups: seq<string>)
      ensures this.threshold == threshold && this.bound == bound && this.groups == groups && log == []
    {
      this.threshold := threshold;
      this.bound := bound;
      this.groups := groups;
      log := [];
    }

    predicate Enabled(level: Level) {
      level >= threshold
    }

    method Handle(r: Record) returns (failed: bool)
      modifies this
      ensures log == old(log) + [Forwarded(r, failed)]
    {
      failed :| true;
      log := log + [Forwarded(r, failed)];
    }

    method WithAttrs(attrs: seq<Attr>) returns (d: BaseHandler)
      ensures fresh(d) && d.threshold == threshold && d.bound == bound + attrs && d.groups == groups && d.log == []
    {
      d := new BaseHandler.Derived(threshold, bound + attrs, groups);
    }

    method WithGroup(name: string) returns (d: BaseHandler)
      ensures fresh(d) && d.threshold == threshold && d.bound == bound && d.groups == groups + [name] && d.log == []
    {
      d := new BaseHandler.Derived(threshold, bound, groups + [name]);
    }
  }
}
