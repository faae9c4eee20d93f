/** The Prometheus wrapper: a slog.Handler that counts every record at or
    above a minimum level in a counter vector labelled by the level name and
    by chosen record attributes, then hands the record to the handler it
    wraps. */
module PromMetrics {
  import opened Slog
  import Counters

  /** MinLevel and LabelAttributes. */
  datatype Options = Options(minLevel: Level, labelAttributes: seq<string>)

  /** Info and above, no attribute labels. */
  function DefaultOptions(): (o: Options)
    ensures o.minLevel == LevelInfo && o.labelAttributes == []
    ensures !Counted(o, LevelDebug) && Counted(o, LevelInfo)
  {
    Options(LevelInfo, [])
  }

  /** Whether a record at `level` is counted. */
  predicate Counted(opts: Options, level: Level) {
    level >= opts.minLevel
  }

  /** The zero value of Options has MinLevel 0, which is LevelInfo: Debug
      records are not counted under it. */
  lemma ZeroOptionsSkipDebug()
    ensures !Counted(Options(0, []), LevelDebug)
    ensures Options(0, []).minLevel == DefaultOptions().minLevel
  {
  }

  // ---------------------------------------------------------------------
  // The label tuples

  /** The label values a counted record is counted under: its level name,
      then for each label attribute the value of the last record attribute
      with that key, or "" if none has it. */
  function LabelTuple(opts: Options, r: Record): (t: seq<string>)
    ensures |t| == |opts.labelAttributes| + 1
  {
    [LevelString(r.level)] + seq(|opts.labelAttributes|, i requires 0 <= i < |opts.labelAttributes| => LastValue(r.attrs, opts.labelAttributes[i]))
  }

  /** The tuple a level is registered under before any record arrives: its
      name, then "" for every label attribute. */
  function ZeroTuple(opts: Options, level: Level): (t: seq<string>)
    ensures |t| == |opts.labelAttributes| + 1
  {
    [LevelString(level)] + seq(|opts.labelAttributes|, _ => "")
  }

  /** The tuple against the labels it stands for: position 0 is the level
      name, position i + 1 is "" when no record attribute has key
      LabelAttributes[i] and otherwise the value of the last one that has. */
  lemma LabelTupleMeaning(opts: Options, r: Record, i: int)
    requires 0 <= i < |opts.labelAttributes|
    ensures LabelTuple(opts, r)[0] == LevelString(r.level)
    ensures (forall j :: 0 <= j < |r.attrs| ==> r.attrs[j].key != opts.labelAttributes[i])
      ==> LabelTuple(opts, r)[i + 1] == ""
    ensures forall j :: (IsLastMatch(r.attrs, opts.labelAttributes[i], j)
      ==> LabelTuple(opts, r)[i + 1] == ValueString(r.attrs[j].value))
  {
    LastValueSpec(r.attrs, opts.labelAttributes[i]);
  }

  /** A record attribute whose key is not a label attribute does not change
      the tuple, wherever it sits among the others. */
  lemma LabelTupleIgnoresUnlistedAttrs(opts: Options, r: Record, s: seq<Attr>, a: Attr, t: seq<Attr>)
    requires a.key !in opts.labelAttributes
    requires r.attrs == s + [a] + t
    ensures LabelTuple(opts, r) == LabelTuple(opts, r.(attrs := s + t))
  {
    var r' := r.(attrs := s + t);
    var u, u' := LabelTuple(opts, r), LabelTuple(opts, r');
    forall k | 1 <= k < |u|
      ensures u[k] == u'[k]
    {
      LastValueIgnoresOtherKeys(s, a, t, opts.labelAttributes[k - 1]);
    }
    assert u[0] == u'[0];
  }

  /** Without label attributes the tuple is the level name alone, the same
      one the level was registered under. */
  lemma LevelOnlyTuple(opts: Options, r: Record)
    requires opts.labelAttributes == []
    ensures LabelTuple(opts, r) == ZeroTuple(opts, r.level) == [LevelString(r.level)]
  {
  }

  /** The tuples registered at construction: one per predefined level at or
      above the minimum, among the first `n` predefined levels. */
  function InitialTuplesUpTo(opts: Options, n: nat): set<seq<string>>
    requires n <= |PredefinedLevels|
  {
    set j | 0 <= j < n && Counted(opts, PredefinedLevels[j]) :: ZeroTuple(opts, PredefinedLevels[j])
  }

  /** One more predefined level adds its tuple exactly when it is counted. */
  lemma InitialTuplesStep(opts: Options, n: nat)
    requires n < |PredefinedLevels|
    ensures Counted(opts, PredefinedLevels[n]) ==>
      InitialTuplesUpTo(opts, n + 1) == InitialTuplesUpTo(opts, n) + {ZeroTuple(opts, PredefinedLevels[n])}
    ensures !Counted(opts, PredefinedLevels[n]) ==> InitialTuplesUpTo(opts, n + 1) == InitialTuplesUpTo(opts, n)
  {
    var s, s' := InitialTuplesUpTo(opts, n), InitialTuplesUpTo(opts, n + 1);
    forall t | t in s'
      ensures t in s || (Counted(opts, PredefinedLevels[n]) && t == ZeroTuple(opts, PredefinedLevels[n]))
    {
      var j :| 0 <= j < n + 1 && Counted(opts, PredefinedLevels[j]) && t == ZeroTuple(opts, PredefinedLevels[j]);
      if j < n {
        assert t in s;
      }
    }
    if Counted(opts, PredefinedLevels[n]) {
      assert ZeroTuple(opts, PredefinedLevels[n]) in s';
    }
  }

  function InitialTuples(opts: Options): set<seq<string>> {
    InitialTuplesUpTo(opts, |PredefinedLevels|)
  }

  /** Exactly the counted predefined levels are registered. */
  lemma InitialTuplesMeaning(opts: Options, t: seq<string>)
    ensures t in InitialTuples(opts) <==>
      exists j :: 0 <= j < |PredefinedLevels| && Counted(opts, PredefinedLevels[j]) && t == ZeroTuple(opts, PredefinedLevels[j])
  {
  }

  /** The default options register INFO, WARN and ERROR, and not DEBUG. */
  lemma DefaultInitialTuples()
    ensures InitialTuples(DefaultOptions()) == {["INFO"], ["WARN"], ["ERROR"]}
  {
    var o := DefaultOptions();
    PredefinedLevelNames();
    assert ZeroTuple(o, LevelInfo) == ["INFO"];
    assert ZeroTuple(o, LevelWarn) == ["WARN"];
    assert ZeroTuple(o, LevelError) == ["ERROR"];
    assert ZeroTuple(o, LevelDebug) == ["DEBUG"];
    assert PredefinedLevels[1] == LevelInfo && PredefinedLevels[2] == LevelWarn && PredefinedLevels[3] == LevelError;
    assert ["DEBUG"] !in InitialTuples(o);
  }

  // ---------------------------------------------------------------------
  // What one record and a run of records do to the counters

  /** The counters after one record: unchanged below the minimum level,
      otherwise one more at the record's tuple. */
  function Count(m: map<seq<string>, nat>, opts: Options, r: Record): (m': map<seq<string>, nat>)
    ensures !Counted(opts, r.level) ==> m' == m
    ensures Counted(opts, r.level) ==>
      && m'.Keys == m.Keys + {LabelTuple(opts, r)}
      && Counters.Get(m', LabelTuple(opts, r)) == Counters.Get(m, LabelTuple(opts, r)) + 1
    ensures forall t :: t != LabelTuple(opts, r) ==> Counters.Get(m', t) == Counters.Get(m, t)
  {
    if Counted(opts, r.level) then Counters.Add(m, LabelTuple(opts, r), 1) else m
  }

  /** The counters after the records, handled in order. */
  function CountAll(m: map<seq<string>, nat>, opts: Options, rs: seq<Record>): map<seq<string>, nat> {
    if rs == [] then m else Count(CountAll(m, opts, rs[..|rs| - 1]), opts, rs[|rs| - 1])
  }

  /** How many of the records are counted under tuple `t`. */
  function Hits(opts: Options, rs: seq<Record>, t: seq<string>): nat {
    if rs == [] then 0
    else Hits(opts, rs[..|rs| - 1], t) + (if Counted(opts, rs[|rs| - 1].level) && LabelTuple(opts, rs[|rs| - 1]) == t then 1 else 0)
  }

  /** Each series grows by the number of records counted under it. */
  lemma {:induction false} CountAllHits(m: map<seq<string>, nat>, opts: Options, rs: seq<Record>, t: seq<string>)
    ensures Counters.Get(CountAll(m, opts, rs), t) == Counters.Get(m, t) + Hits(opts, rs, t)
  {
    if rs != [] {
      CountAllHits(m, opts, rs[..|rs| - 1], t);
    }
  }

  /** N counted records at one level, with no label attributes, are N hits
      of that level's tuple. */
  lemma {:induction false} HitsAtOneLevel(opts: Options, rs: seq<Record>, level: Level)
    requires opts.labelAttributes == [] && Counted(opts, level)
    requires forall i :: 0 <= i < |rs| ==> rs[i].level == level
    ensures Hits(opts, rs, [LevelString(level)]) == |rs|
  {
    if rs != [] {
      HitsAtOneLevel(opts, rs[..|rs| - 1], level);
    }
  }

  /** After N records at a counted level L, without label attributes, the
      series (L) has grown by N. */
  lemma CountNRecords(m: map<seq<string>, nat>, opts: Options, rs: seq<Record>, level: Level)
    requires opts.labelAttributes == [] && Counted(opts, level)
    requires forall i :: 0 <= i < |rs| ==> rs[i].level == level
    ensures Counters.Get(CountAll(m, opts, rs), [LevelString(level)]) == Counters.Get(m, [LevelString(level)]) + |rs|
  {
    CountAllHits(m, opts, rs, [LevelString(level)]);
    HitsAtOneLevel(opts, rs, level);
  }

  /** Records below the minimum level leave the counters as they were. */
  lemma {:induction false} UncountedRecordsChangeNothing(m: map<seq<string>, nat>, opts: Options, rs: seq<Record>)
    requires forall i :: 0 <= i < |rs| ==> !Counted(opts, rs[i].level)
    ensures CountAll(m, opts, rs) == m
  {
    if rs != [] {
      UncountedRecordsChangeNothing(m, opts, rs[..|rs| - 1]);
    }
  }

  /** When every counted record falls under an already registered tuple,
      no new series appears. */
  lemma {:induction false} CountAllKeepsKeys(m: map<seq<string>, nat>, opts: Options, rs: seq<Record>)
    requires forall i :: 0 <= i < |rs| && Counted(opts, rs[i].level) ==> LabelTuple(opts, rs[i]) in m
    ensures CountAll(m, opts, rs).Keys == m.Keys
  {
    if rs != [] {
      CountAllKeepsKeys(m, opts, rs[..|rs| - 1]);
    }
  }

  function Rec(level: Level, message: string): Record {
    Record("", level, message, [], None)
  }

  /** The records of the package's documented usage: one at each level, then
      one more INFO and one more ERROR. */
  function ScenarioRecords(): seq<Record> {
    [Rec(LevelDebug, "Debug message"), Rec(LevelInfo, "Info message"),
     Rec(LevelWarn, "Warning message"), Rec(LevelError, "Error message"),
     Rec(LevelInfo, "Another info message"), Rec(LevelError, "Another error message")]
  }

  lemma HitsSnoc(opts: Options, rs: seq<Record>, r: Record, t: seq<string>)
    ensures Hits(opts, rs + [r], t) == Hits(opts, rs, t) + (if Counted(opts, r.level) && LabelTuple(opts, r) == t then 1 else 0)
  {
    assert (rs + [r])[..|rs|] == rs;
  }

  /** Under the default options the scenario's records hit INFO twice, WARN
      once, ERROR twice. */
  lemma ScenarioHits()
    ensures Hits(DefaultOptions(), ScenarioRecords(), ["INFO"]) == 2
    ensures Hits(DefaultOptions(), ScenarioRecords(), ["WARN"]) == 1
    ensures Hits(DefaultOptions(), ScenarioRecords(), ["ERROR"]) == 2
  {
    var o := DefaultOptions();
    var rs := ScenarioRecords();
    PredefinedLevelNames();
    forall k | 0 <= k < |rs|
      ensures LabelTuple(o, rs[k]) == [LevelString(rs[k].level)]
    {
      LevelOnlyTuple(o, rs[k]);
    }
    var ts := [["INFO"], ["WARN"], ["ERROR"]];
    forall n | 0 <= n < 3
      ensures Hits(o, rs, ts[n]) == [2, 1, 2][n]
    {
      var t := ts[n];
      assert Hits(o, [], t) == 0;
      HitsSnoc(o, [], rs[0], t);
      assert [] + [rs[0]] == rs[..1];
      HitsSnoc(o, rs[..1], rs[1], t);
      assert rs[..1] + [rs[1]] == rs[..2];
      HitsSnoc(o, rs[..2], rs[2], t);
      assert rs[..2] + [rs[2]] == rs[..3];
      HitsSnoc(o, rs[..3], rs[3], t);
      assert rs[..3] + [rs[3]] == rs[..4];
      HitsSnoc(o, rs[..4], rs[4], t);
      assert rs[..4] + [rs[4]] == rs[..5];
      HitsSnoc(o, rs[..5], rs[5], t);
      assert rs[..5] + [rs[5]] == rs;
    }
    assert ts[0] == ["INFO"] && ts[1] == ["WARN"] && ts[2] == ["ERROR"];
  }

  /** The documented usage end to end: after construction with the default
      options and the scenario's records, INFO counts 2, WARN 1, ERROR 2,
      and DEBUG has no series at all. */
  lemma DefaultScenario()
    ensures var o := DefaultOptions();
            var end := CountAll(Counters.Registered(map[], InitialTuples(o)), o, ScenarioRecords());
            && end.Keys == {["INFO"], ["WARN"], ["ERROR"]}
            && Counters.Get(end, ["INFO"]) == 2
            && Counters.Get(end, ["WARN"]) == 1
            && Counters.Get(end, ["ERROR"]) == 2
  {
    var o := DefaultOptions();
    DefaultInitialTuples();
    PredefinedLevelNames();
    var start := Counters.Registered(map[], InitialTuples(o));
    var rs := ScenarioRecords();
    forall k | 0 <= k < |rs| && Counted(o, rs[k].level)
      ensures LabelTuple(o, rs[k]) in start
    {
      LevelOnlyTuple(o, rs[k]);
    }
    CountAllKeepsKeys(start, o, rs);
    ScenarioHits();
    CountAllHits(start, o, rs, ["INFO"]);
    CountAllHits(start, o, rs, ["WARN"]);
    CountAllHits(start, o, rs, ["ERROR"]);
  }

  // ---------------------------------------------------------------------
  // The counter vector and the handler

  /** The Prometheus counter vector: a count per tuple of label values. */
  class CounterVec {
    var values: map<seq<string>, nat>

    constructor ()
      ensures values == map[]
    {
      values := map[];
    }

    /** WithLabelValues(labels...).Add(n); Inc is Add(1). */
    method Add(labels: seq<string>, n: nat)
      modifies this
      ensures values == Counters.Add(old(values), labels, n)
    {
      values := Counters.Add(values, labels, n);
    }
  }

  class SlogHandler {
    const base: BaseHandler
    const counter: CounterVec
    const options: Options

    constructor (base: BaseHandler, counter: CounterVec, options: Options)
      ensures this.base == base && this.counter == counter && this.options == options
    {
      this.base := base;
      this.counter := counter;
      this.options := options;
    }

    /** Not overridden: the wrapped handler's threshold decides, whatever
        MinLevel is, so records below MinLevel still reach Handle. */
    predicate Enabled(level: Level): (r: bool)
      ensures r <==> level >= base.threshold
    {
      base.Enabled(level)
    }

    /** Counts the record when its level is at least the minimum, under its
        label tuple, then forwards it unchanged and returns the wrapped
        handler's result. */
    method Handle(r: Record) returns (failed: bool)
      modifies counter, base
      ensures counter.values == Count(old(counter.values), options, r)
      ensures base.log == old(base.log) + [Forwarded(r, failed)]
    {
      if r.level < options.minLevel {
        failed := base.Handle(r);
        return;
      }
      var l := |options.labelAttributes|;
      if l == 0 {
        LevelOnlyTuple(options, r);
        counter.Add([LevelString(r.level)], 1);
      } else {
        var labels := FillLabels(options, r);
        counter.Add(labels[..], 1);
      }
      failed := base.Handle(r);
    }

    /** Not overridden: the wrapped handler's own WithAttrs, which does not
        count. */
    method WithAttrs(attrs: seq<Attr>) returns (d: BaseHandler)
      ensures fresh(d) && d.threshold == base.threshold && d.bound == base.bound + attrs && d.groups == base.groups && d.log == []
    {
      d := base.WithAttrs(attrs);
    }

    /** Not overridden: the wrapped handler's own WithGroup, which does not
        count. */
    method WithGroup(name: string) returns (d: BaseHandler)
      ensures fresh(d) && d.threshold == base.threshold && d.bound == base.bound && d.groups == base.groups + [name] && d.log == []
    {
      d := base.WithGroup(name);
    }
  }

  /** The labels slice of Handle: the level name, "" everywhere else, then
      for each label attribute every record attribute with its key
      overwriting the slot in turn. */
  method FillLabels(opts: Options, r: Record) returns (labels: array<string>)
    requires |opts.labelAttributes| > 0
    ensures labels[..] == LabelTuple(opts, r)
  {
    var la := opts.labelAttributes;
    var l := |la|;
    labels := new string[l + 1];
    labels[0] := LevelString(r.level);
    for i := 1 to labels.Length
      invariant labels[0] == LevelString(r.level)
      invariant forall k :: 1 <= k < i ==> labels[k] == ""
    {
      labels[i] := "";
    }
    for i := 0 to l
      invariant labels[0] == LevelString(r.level)
      invariant forall k :: 1 <= k <= i ==> labels[k] == LastValue(r.attrs, la[k - 1])
      invariant forall k :: i < k <= l ==> labels[k] == ""
    {
      var attr := la[i];
      assert r.attrs[..0] == [];
      for j := 0 to |r.attrs|
        invariant labels[0] == LevelString(r.level)
        invariant forall k :: 1 <= k <= i ==> labels[k] == LastValue(r.attrs, la[k - 1])
        invariant forall k :: i + 1 < k <= l ==> labels[k] == ""
        invariant labels[i + 1] == LastValue(r.attrs[..j], attr)
      {
        assert r.attrs[..j + 1][..j] == r.attrs[..j];
        if r.attrs[j].key == attr {
          labels[i + 1] := ValueString(r.attrs[j].value);
        }
      }
      assert r.attrs[..|r.attrs|] == r.attrs;
    }
    assert labels[..] == LabelTuple(opts, r);
  }

  /** NewHandlerWithOptions: registers each predefined level at or above
      the minimum at zero, under the level name followed by "" for every
      label attribute, and wraps `base`. No other series is touched. */
  method NewHandlerWithOptions(base: BaseHandler, counter: CounterVec, opts: Options) returns (h: SlogHandler)
    modifies counter
    ensures fresh(h) && h.base == base && h.counter == counter && h.options == opts
    ensures counter.values == Counters.Registered(old(counter.values), InitialTuples(opts))
  {
    ghost var before := counter.values;
    assert InitialTuplesUpTo(opts, 0) == {};
    for n := 0 to |PredefinedLevels|
      invariant counter.values == Counters.Registered(before, InitialTuplesUpTo(opts, n))
    {
      var l := PredefinedLevels[n];
      if l >= opts.minLevel {
        var t;
        if |opts.labelAttributes| == 0 {
          t := [LevelString(l)];
        } else {
          var labels := new string[|opts.labelAttributes| + 1];
          labels[0] := LevelString(l);
          for i := 1 to labels.Length
            modifies labels
            invariant labels[0] == LevelString(l)
            invariant forall k :: 1 <= k < i ==> labels[k] == ""
          {
            labels[i] := "";
          }
          t := labels[..];
        }
        assert t == ZeroTuple(opts, l);
        Counters.RegisteredAddZero(before, InitialTuplesUpTo(opts, n), t);
        counter.Add(t, 0);
      }
      InitialTuplesStep(opts, n);
    }
    h := new SlogHandler(base, counter, opts);
  }

  /** NewHandler: NewHandlerWithOptions with the default options. */
  method NewHandler(base: BaseHandler, counter: CounterVec) returns (h: SlogHandler)
    modifies counter
    ensures fresh(h) && h.base == base && h.counter == counter && h.options == DefaultOptions()
    ensures counter.values == Counters.Registered(old(counter.values), InitialTuples(DefaultOptions()))
  {
    h := NewHandlerWithOptions(base, counter, DefaultOptions());
  }
}
