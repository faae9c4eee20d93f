/** The two metrics wrappers make the same decisions: with the same options
    they count the same records, and the OpenTelemetry attribute list of a
    record is the Prometheus label tuple paired with the label names
    ("level" followed by the label attributes). */
module MetricsAgreement {
  import opened Slog
  import PromMetrics
  import OtelMetrics

  /** The same settings, for the other package. */
  function ToOtel(o: PromMetrics.Options): OtelMetrics.Options {
    OtelMetrics.Options(o.minLevel, o.labelAttributes)
  }

  /** The label names of a Prometheus counter set up for these options. */
  function LabelNames(o: PromMetrics.Options): seq<string> {
    ["level"] + o.labelAttributes
  }

  /** Names and values paired position by position. */
  function Zip(keys: seq<string>, values: seq<string>): (s: seq<OtelMetrics.KeyValue>)
    requires |keys| == |values|
    ensures |s| == |keys|
    ensures forall i :: 0 <= i < |s| ==> s[i].key == keys[i] && s[i].value == values[i]
  {
    seq(|keys|, i requires 0 <= i < |keys| => OtelMetrics.KeyValue(keys[i], values[i]))
  }

  /** Pairing with fixed names loses nothing: different tuples give different
      attribute lists. */
  lemma ZipInjective(keys: seq<string>, a: seq<string>, b: seq<string>)
    requires |keys| == |a| == |b|
    ensures Zip(keys, a) == Zip(keys, b) <==> a == b
  {
    if Zip(keys, a) == Zip(keys, b) {
      forall i | 0 <= i < |a|
        ensures a[i] == b[i]
      {
        assert Zip(keys, a)[i].value == a[i];
      }
    }
  }

  /** Both wrappers count a record at the same levels, and their defaults
      are the same settings. */
  lemma SameGate(o: PromMetrics.Options, level: Level)
    ensures PromMetrics.Counted(o, level) <==> OtelMetrics.Counted(ToOtel(o), level)
    ensures ToOtel(PromMetrics.DefaultOptions()) == OtelMetrics.DefaultOptions()
  {
  }

  /** A record's attribute list is its label tuple under the label names. */
  lemma AttrSetIsLabelTuple(o: PromMetrics.Options, r: Record)
    ensures OtelMetrics.AttrSet(ToOtel(o), r) == Zip(LabelNames(o), PromMetrics.LabelTuple(o, r))
  {
    var a, z := OtelMetrics.AttrSet(ToOtel(o), r), Zip(LabelNames(o), PromMetrics.LabelTuple(o, r));
    forall k | 1 <= k < |a|
      ensures a[k] == z[k]
    {
      assert LabelNames(o)[k] == o.labelAttributes[k - 1];
    }
  }

  /** The lists registered at construction are the registered tuples under
      the label names. */
  lemma ZeroSetIsZeroTuple(o: PromMetrics.Options, level: Level)
    ensures OtelMetrics.ZeroSet(ToOtel(o), level) == Zip(LabelNames(o), PromMetrics.ZeroTuple(o, level))
  {
    var a, z := OtelMetrics.ZeroSet(ToOtel(o), level), Zip(LabelNames(o), PromMetrics.ZeroTuple(o, level));
    forall k | 1 <= k < |a|
      ensures a[k] == z[k]
    {
      assert LabelNames(o)[k] == o.labelAttributes[k - 1];
    }
  }

  /** Over any run of records, every series of the OpenTelemetry counter
      grows exactly as much as the matching Prometheus series. */
  lemma {:induction false} SameHits(o: PromMetrics.Options, rs: seq<Record>, t: seq<string>)
    requires |t| == |o.labelAttributes| + 1
    ensures OtelMetrics.Hits(ToOtel(o), rs, Zip(LabelNames(o), t)) == PromMetrics.Hits(o, rs, t)
  {
    if rs != [] {
      var r := rs[|rs| - 1];
      SameHits(o, rs[..|rs| - 1], t);
      AttrSetIsLabelTuple(o, r);
      ZipInjective(LabelNames(o), PromMetrics.LabelTuple(o, r), t);
    }
  }
}
