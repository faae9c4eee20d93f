/** The OpenTelemetry wrapper: a slog.Handler that adds 1 to an Int64Counter
    for every record at or above a minimum level, with a "level" attribute
    and one attribute per chosen record attribute, then hands the record to
    the handler it wraps. */
module OtelMetrics {
  import opened Slog
  import Counters

  /** MinLevel and LabelAttributes. */
  datatype Options = Options(minLevel: Level, labelAttributes: seq<string>)

  /** Info and above, no attribute labels. */
  function DefaultOptions(): (o: Options)
    ensures o.minLevel == LevelInfo && o.labelAttributes == []
    ensures !Counted(o, LevelDebug) && Counted(o, LevelInfo)
  {
    Options(LevelInfo, [])
  }

  /** Whether a record at `level` is counted. */
  predicate Counted(opts: Options, level: Level) {
    level >= opts.minLevel
  }

  /** attribute.String(key, value). */
  datatype KeyValue = KeyValue(key: string, value: string)

  // ---------------------------------------------------------------------
  // The attribute lists

  /** The attributes a counted record is added under: "level" with its level
      name, then each label attribute with the value of the last record
      attribute that has its key, or "". */
  function AttrSet(opts: Options, r: Record): (s: seq<KeyValue>)
    ensures |s| == |opts.labelAttributes| + 1
  {
    [KeyValue("level", LevelString(r.level))]
      + seq(|opts.labelAttributes|, i requires 0 <= i < |opts.labelAttributes| =>
              KeyValue(opts.labelAttributes[i], LastValue(r.attrs, opts.labelAttributes[i])))
  }

  /** The attributes a level is registered under before any record arrives:
      "level" with its name, then every label attribute with "". */
  function ZeroSet(opts: Options, level: Level): (s: seq<KeyValue>)
    ensures |s| == |opts.labelAttributes| + 1
  {
    [KeyValue("level", LevelString(level))]
      + seq(|opts.labelAttributes|, i requires 0 <= i < |opts.labelAttributes| => KeyValue(opts.labelAttributes[i], ""))
  }

  /** The list against what it stands for: "level" with the level name first,
      then at position i + 1 the key LabelAttributes[i] with "" when no record
      attribute has that key, and otherwise the value of the last one that has. */
  lemma AttrSetMeaning(opts: Options, r: Record, i: int)
    requires 0 <= i < |opts.labelAttributes|
    ensures AttrSet(opts, r)[0] == KeyValue("level", LevelString(r.level))
    ensures AttrSet(opts, r)[i + 1].key == opts.labelAttributes[i]
    ensures (forall j :: 0 <= j < |r.attrs| ==> r.attrs[j].key != opts.labelAttributes[i])
      ==> AttrSet(opts, r)[i + 1].value == ""
    ensures forall j :: (IsLastMatch(r.attrs, opts.labelAttributes[i], j)
      ==> AttrSet(opts, r)[i + 1].value == ValueString(r.attrs[j].value))
  {
    LastValueSpec(r.attrs, opts.labelAttributes[i]);
  }

  /** A record attribute whose key is not a label attribute does not change
      the list, wherever it sits among the others. */
  lemma AttrSetIgnoresUnlistedAttrs(opts: Options, r: Record, s: seq<Attr>, a: Attr, t: seq<Attr>)
    requires a.key !in opts.labelAttributes
    requires r.attrs == s + [a] + t
    ensures AttrSet(opts, r) == AttrSet(opts, r.(attrs := s + t))
  {
    var r' := r.(attrs := s + t);
    var u, u' := AttrSet(opts, r), AttrSet(opts, r');
    forall k | 1 <= k < |u|
      ensures u[k] == u'[k]
    {
      LastValueIgnoresOtherKeys(s, a, t, opts.labelAttributes[k - 1]);
    }
    assert u[0] == u'[0];
  }

  /** Without label attributes the list is the level alone, the same one the
      level was registered under. */
  lemma LevelOnlySet(opts: Options, r: Record)
    requires opts.labelAttributes == []
    ensures AttrSet(opts, r) == ZeroSet(opts, r.level) == [KeyValue("level", LevelString(r.level))]
  {
  }

  /** The lists registered at construction among the first `n` predefined
      levels: one per level at or above the minimum. */
  function InitialSetsUpTo(opts: Options, n: nat): set<seq<KeyValue>>
    requires n <= |PredefinedLevels|
  {
    set j | 0 <= j < n && Counted(opts, PredefinedLevels[j]) :: ZeroSet(opts, PredefinedLevels[j])
  }

  /** One more predefined level adds its list exactly when it is counted. */
  lemma InitialSetsStep(opts: Options, n: nat)
    requires n < |PredefinedLevels|
    ensures Counted(opts, PredefinedLevels[n]) ==>
      InitialSetsUpTo(opts, n + 1) == InitialSetsUpTo(opts, n) + {ZeroSet(opts, PredefinedLevels[n])}
    ensures !Counted(opts, PredefinedLevels[n]) ==> InitialSetsUpTo(opts, n + 1) == InitialSetsUpTo(opts, n)
  {
    var s, s' := InitialSetsUpTo(opts, n), InitialSetsUpTo(opts, n + 1);
    forall t | t in s'
      ensures t in s || (Counted(opts, PredefinedLevels[n]) && t == ZeroSet(opts, PredefinedLevels[n]))
    {
      var j :| 0 <= j < n + 1 && Counted(opts, PredefinedLevels[j]) && t == ZeroSet(opts, PredefinedLevels[j]);
      if j < n {
        assert t in s;
      }
    }
    if Counted(opts, PredefinedLevels[n]) {
      assert ZeroSet(opts, PredefinedLevels[n]) in s';
    }
  }

  function InitialSets(opts: Options): set<seq<KeyValue>> {
    InitialSetsUpTo(opts, |PredefinedLevels|)
  }

  /** Exactly the counted predefined levels are registered. */
  lemma InitialSetsMeaning(opts: Options, t: seq<KeyValue>)
    ensures t in InitialSets(opts) <==>
      exists j :: 0 <= j < |PredefinedLevels| && Counted(opts, PredefinedLevels[j]) && t == ZeroSet(opts, PredefinedLevels[j])
  {
  }

  // ---------------------------------------------------------------------
  // What one record and a run of records do to the counter

  /** The counter after one record: unchanged below the minimum level,
      otherwise one more under the record's attributes. */
  function Count(m: map<seq<KeyValue>, nat>, opts: Options, r: Record): (m': map<seq<KeyValue>, nat>)
    ensures !Counted(opts, r.level) ==> m' == m
    ensures Counted(opts, r.level) ==>
      && m'.Keys == m.Keys + {AttrSet(opts, r)}
      && Counters.Get(m', AttrSet(opts, r)) == Counters.Get(m, AttrSet(opts, r)) + 1
    ensures forall t :: t != AttrSet(opts, r) ==> Counters.Get(m', t) == Counters.Get(m, t)
  {
    if Counted(opts, r.level) then Counters.Add(m, AttrSet(opts, r), 1) else m
  }

  /** The counter after the records, handled in order. */
  function CountAll(m: map<seq<KeyValue>, nat>, opts: Options, rs: seq<Record>): map<seq<KeyValue>, nat> {
    if rs == [] then m else Count(CountAll(m, opts, rs[..|rs| - 1]), opts, rs[|rs| - 1])
  }

  /** How many of the records are added under the list `t`. */
  function Hits(opts: Options, rs: seq<Record>, t: seq<KeyValue>): nat {
    if rs == [] then 0
    else Hits(opts, rs[..|rs| - 1], t) + (if Counted(opts, rs[|rs| - 1].level) && AttrSet(opts, rs[|rs| - 1]) == t then 1 else 0)
  }

  /** Each series grows by the number of records added under it. */
  lemma {:induction false} CountAllHits(m: map<seq<KeyValue>, nat>, opts: Options, rs: seq<Record>, t: seq<KeyValue>)
    ensures Counters.Get(CountAll(m, opts, rs), t) == Counters.Get(m, t) + Hits(opts, rs, t)
  {
    if rs != [] {
      CountAllHits(m, opts, rs[..|rs| - 1], t);
    }
  }

  /** N counted records at one level, with no label attributes, are N hits
      of that level's list. */
  lemma {:induction false} HitsAtOneLevel(opts: Options, rs: seq<Record>, level: Level)
    requires opts.labelAttributes == [] && Counted(opts, level)
    requires forall i :: 0 <= i < |rs| ==> rs[i].level == level
    ensures Hits(opts, rs, [KeyValue("level", LevelString(level))]) == |rs|
  {
    if rs != [] {
      HitsAtOneLevel(opts, rs[..|rs| - 1], level);
    }
  }

  /** After N records at a counted level L, without label attributes, the
      series {level=L} has grown by N. */
  lemma CountNRecords(m: map<seq<KeyValue>, nat>, opts: Options, rs: seq<Record>, level: Level)
    requires opts.labelAttributes == [] && Counted(opts, level)
    requires forall i :: 0 <= i < |rs| ==> rs[i].level == level
    ensures Counters.Get(CountAll(m, opts, rs), [KeyValue("level", LevelString(level))])
         == Counters.Get(m, [KeyValue("level", LevelString(level))]) + |rs|
  {
    CountAllHits(m, opts, rs, [KeyValue("level", LevelString(level))]);
    HitsAtOneLevel(opts, rs, level);
  }

  /** Records below the minimum level leave the counter as it was. */
  lemma {:induction false} UncountedRecordsChangeNothing(m: map<seq<KeyValue>, nat>, opts: Options, rs: seq<Record>)
    requires forall i :: 0 <= i < |rs| ==> !Counted(opts, rs[i].level)
    ensures CountAll(m, opts, rs) == m
  {
    if rs != [] {
      UncountedRecordsChangeNothing(m, opts, rs[..|rs| - 1]);
    }
  }

  // ---------------------------------------------------------------------
  // The counter and the handler

  /** The Int64Counter: a running sum per attribute list. */
  class Int64Counter {
    var values: map<seq<KeyValue>, nat>

    constructor ()
      ensures values == map[]
    {
      values := map[];
    }

    /** Add(ctx, n, metric.WithAttributes(attrs...)). */
    method Add(n: nat, attrs: seq<KeyValue>)
      modifies this
      ensures values == Counters.Add(old(values), attrs, n)
    {
      values := Counters.Add(values, attrs, n);
    }
  }

  class SlogHandler {
    const base: BaseHandler
    const counter: Int64Counter
    const options: Options

    constructor (base: BaseHandler, counter: Int64Counter, options: Options)
      ensures this.base == base && this.counter == counter && this.options == options
    {
      this.base := base;
      this.counter := counter;
      this.options := options;
    }

    /** Not overridden: the wrapped handler's threshold decides, whatever
        MinLevel is, so records below MinLevel still reach Handle. */
    predicate Enabled(level: Level): (r: bool)
      ensures r <==> level >= base.threshold
    {
      base.Enabled(level)
    }

    /** Adds 1 under the record's attributes when its level is at least the
        minimum, then forwards the record unchanged and returns the wrapped
        handler's result. */
    method Handle(r: Record) returns (failed: bool)
      modifies counter, base
      ensures counter.values == Count(old(counter.values), options, r)
      ensures base.log == old(base.log) + [Forwarded(r, failed)]
    {
      if r.level < options.minLevel {
        failed := base.Handle(r);
        return;
      }
      if |options.labelAttributes| == 0 {
        LevelOnlySet(options, r);
        counter.Add(1, [KeyValue("level", LevelString(r.level))]);
      } else {
        var attrs := FillAttrs(options, r);
        counter.Add(1, attrs[..]);
      }
      failed := base.Handle(r);
    }

    /** Not overridden: the wrapped handler's own WithAttrs, which does not
        count. */
    method WithAttrs(attrs: seq<Attr>) returns (d: BaseHandler)
      ensures fresh(d) && d.threshold == base.threshold && d.bound == base.bound + attrs && d.groups == base.groups && d.log == []
    {
      d := base.WithAttrs(attrs);
    }

    /** Not overridden: the wrapped handler's own WithGroup, which does not
        count. */
    method WithGroup(name: string) returns (d: BaseHandler)
      ensures fresh(d) && d.threshold == base.threshold && d.bound == base.bound && d.groups == base.groups + [name] && d.log == []
    {
      d := base.WithGroup(name);
    }
  }

  /** The attrs slice of Handle: "level" first, every label attribute with ""
      after it, then for each label attribute every record attribute with its
      key overwriting the slot in turn. */
  method FillAttrs(opts: Options, r: Record) returns (attrs: array<KeyValue>)
    requires |opts.labelAttributes| > 0
    ensures attrs[..] == AttrSet(opts, r)
  {
    var la := opts.labelAttributes;
    var l := |la|;
    attrs := new KeyValue[l + 1](_ => KeyValue("", ""));
    attrs[0] := KeyValue("level", LevelString(r.level));
    for i := 0 to l
      invariant attrs[0] == KeyValue("level", LevelString(r.level))
      invariant forall k :: 1 <= k <= i ==> attrs[k] == KeyValue(la[k - 1], "")
    {
      attrs[i + 1] := KeyValue(la[i], "");
    }
    for i := 0 to l
      invariant attrs[0] == KeyValue("level", LevelString(r.level))
      invariant forall k :: 1 <= k <= i ==> attrs[k] == KeyValue(la[k - 1], LastValue(r.attrs, la[k - 1]))
      invariant forall k :: i < k <= l ==> attrs[k] == KeyValue(la[k - 1], "")
    {
      var attrName := la[i];
      assert r.attrs[..0] == [];
      for j := 0 to |r.attrs|
        invariant attrs[0] == KeyValue("level", LevelString(r.level))
        invariant forall k :: 1 <= k <= i ==> attrs[k] == KeyValue(la[k - 1], LastValue(r.attrs, la[k - 1]))
        invariant forall k :: i + 1 < k <= l ==> attrs[k] == KeyValue(la[k - 1], "")
        invariant attrs[i + 1] == KeyValue(attrName, LastValue(r.attrs[..j], attrName))
      {
        assert r.attrs[..j + 1][..j] == r.attrs[..j];
        if r.attrs[j].key == attrName {
          attrs[i + 1] := KeyValue(attrName, ValueString(r.attrs[j].value));
        }
      }
      assert r.attrs[..|r.attrs|] == r.attrs;
    }
    assert attrs[..] == AttrSet(opts, r);
  }

  /** NewHandlerWithOptions: adds 0 for each predefined level at or above
      the minimum, under "level" with its name followed by every label
      attribute with "", and wraps `base`. No other series is touched. */
  method NewHandlerWithOptions(base: BaseHandler, counter: Int64Counter, opts: Options) returns (h: SlogHandler)
    modifies counter
    ensures fresh(h) && h.base == base && h.counter == counter && h.options == opts
    ensures counter.values == Counters.Registered(old(counter.values), InitialSets(opts))
  {
    ghost var before := counter.values;
    assert InitialSetsUpTo(opts, 0) == {};
    for n := 0 to |PredefinedLevels|
      invariant counter.values == Counters.Registered(before, InitialSetsUpTo(opts, n))
    {
      var l := PredefinedLevels[n];
      if l >= opts.minLevel {
        var t;
        if |opts.labelAttributes| == 0 {
          t := [KeyValue("level", LevelString(l))];
        } else {
          var la := opts.labelAttributes;
          var attrs := new KeyValue[|la| + 1](_ => KeyValue("", ""));
          attrs[0] := KeyValue("level", LevelString(l));
          for i := 0 to |la|
            modifies attrs
            invariant attrs[0] == KeyValue("level", LevelString(l))
            invariant forall k :: 1 <= k <= i ==> attrs[k] == KeyValue(la[k - 1], "")
          {
            attrs[i + 1] := KeyValue(la[i], "");
          }
          t := attrs[..];
        }
        assert t == ZeroSet(opts, l);
        Counters.RegisteredAddZero(before, InitialSetsUpTo(opts, n), t);
        counter.Add(0, t);
      }
      InitialSetsStep(opts, n);
    }
    h := new SlogHandler(base, counter, opts);
  }

  /** NewHandler: NewHandlerWithOptions with the default options. */
  method NewHandler(base: BaseHandler, counter: Int64Counter) returns (h: SlogHandler)
    modifies counter
    ensures fresh(h) && h.base == base && h.counter == counter && h.options == DefaultOptions()
    ensures counter.values == Counters.Registered(old(counter.values), InitialSets(DefaultOptions()))
  {
    h := NewHandlerWithOptions(base, counter, DefaultOptions());
  }
}
