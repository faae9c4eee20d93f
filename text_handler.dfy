/** The human-readable text handler: one line per record, timestamp, level
    tag, bound attributes, record attributes, message; optionally coloured
    as a whole by level. Also the source-location shortener that keeps a
    per-handler cache of shortened paths. */
module TextHandler {
  import opened SourcePath
  import opened Slog

  /** The print function chosen for a line, named by the colour it applies. */
  datatype Printer = Plain | DebugColored | InfoColored | WarnColored | ErrorColored

  /** The handler options: the minimum level of the embedded
      slog.HandlerOptions (a Leveler, which may be nil), the colour switch,
      and how many parent directories a source path keeps. */
  datatype HandlerOptions = HandlerOptions(level: Option<Level>, color: bool, sourceDepth: int)

  // ---------------------------------------------------------------------
  // Enabled

  /** What `Enabled` does as written: it asks the Leveler for its level,
      which panics when the Leveler is nil. */
  datatype EnabledOutcome = Answer(enabled: bool) | NilLevelerPanic

  function EnabledAsWritten(opts: HandlerOptions, level: Level): (r: EnabledOutcome)
    ensures r.NilLevelerPanic? <==> opts.level.None?
    ensures opts.level.Some? ==> (r.enabled <==> level >= opts.level.value)
  {
    match opts.level
    case None => NilLevelerPanic
    case Some(min) => Answer(level >= min)
  }

  /** Options built without a Level make every `Enabled` call panic. */
  lemma NilLevelerPanics(level: Level)
    ensures EnabledAsWritten(HandlerOptions(None, false, 0), level) == NilLevelerPanic
  {
  }

  /** The level below which records are dropped; slog documents a nil
      Leveler as meaning LevelInfo. */
  function MinLevel(opts: HandlerOptions): Level {
    match opts.level
    case None => LevelInfo
    case Some(l) => l
  }

  /** Whether records at `level` are handled: the same answer as the code
      whenever a Level is set, and LevelInfo's answer when none is. */
  function Enabled(opts: HandlerOptions, level: Level): (r: bool)
    ensures opts.level.Some? ==> EnabledAsWritten(opts, level) == Answer(r)
    ensures opts.level.None? ==> (r <==> level >= LevelInfo)
  {
    level >= MinLevel(opts)
  }

  /** Enabled is a threshold: true at the minimum level, false just below it,
      and true at every level above an enabled one. */
  lemma EnabledThreshold(opts: HandlerOptions, level: Level, higher: Level)
    ensures Enabled(opts, MinLevel(opts)) && !Enabled(opts, MinLevel(opts) - 1)
    ensures Enabled(opts, level) && level <= higher ==> Enabled(opts, higher)
  {
  }

  // ---------------------------------------------------------------------
  // FprintFunc

  /** The print function for a level. `infoColor` is the InfoColor package
      variable, read on every call; 0 means no colour. The decision table,
      each entry in both directions: */
  function FprintFunc(opts: HandlerOptions, level: Level, infoColor: int): (p: Printer)
    ensures !opts.color ==> p == Plain
    ensures p == DebugColored <==> opts.color && level == LevelDebug
    ensures p == InfoColored <==> opts.color && level == LevelInfo && infoColor != 0
    ensures p == WarnColored <==> opts.color && level == LevelWarn
    ensures p == ErrorColored <==> opts.color && level == LevelError
  {
    if opts.color then
      if level == LevelDebug then DebugColored
      else if level == LevelInfo && infoColor != 0 then InfoColored
      else if level == LevelWarn then WarnColored
      else if level == LevelError then ErrorColored
      else Plain
    else Plain
  }

  // ---------------------------------------------------------------------
  // The line

  /** One attribute: " [key:value]", or " [value]" when the key is empty. */
  function RenderAttr(a: Attr): string {
    if a.key == "" then " [" + ValueString(a.value) + "]"
    else " [" + a.key + ":" + ValueString(a.value) + "]"
  }

  /** The attributes rendered one after the other, in order. */
  function RenderAttrs(attrs: seq<Attr>): string {
    if attrs == [] then ""
    else RenderAttrs(attrs[..|attrs| - 1]) + RenderAttr(attrs[|attrs| - 1])
  }

  /** One more attribute rendered after the ones before it. */
  lemma RenderAttrsSnoc(attrs: seq<Attr>, i: nat)
    requires i < |attrs|
    ensures RenderAttrs(attrs[..i + 1]) == RenderAttrs(attrs[..i]) + RenderAttr(attrs[i])
  {
    assert attrs[..i + 1][..i] == attrs[..i];
  }

  lemma ConcatAssoc(a: string, b: string, c: string)
    ensures a + b + c == a + (b + c)
  {
  }

  /** Where the pieces of one attribute sit, for every value: " [" first and
      "]" last; with a key, the key and a colon right after " ["; without
      one, the value text fills everything in between. */
  lemma RenderAttrShape(a: Attr)
    ensures |RenderAttr(a)| >= 3 && RenderAttr(a)[..2] == " [" && RenderAttr(a)[|RenderAttr(a)| - 1] == ']'
    ensures a.key != "" ==> RenderAttr(a)[..3 + |a.key|] == " [" + a.key + ":"
    ensures a.key != "" ==> RenderAttr(a)[3 + |a.key|..|RenderAttr(a)| - 1] == ValueString(a.value)
    ensures a.key == "" ==> RenderAttr(a)[2..|RenderAttr(a)| - 1] == ValueString(a.value)
  {
    var v := ValueString(a.value);
    var s := RenderAttr(a);
    if a.key == "" {
      assert s == " [" + v + "]";
      assert s[2..|s| - 1] == v;
    } else {
      var head := " [" + a.key + ":";
      assert s == head + v + "]";
      assert s[..|head|] == head;
      assert s[|head|..|s| - 1] == v;
    }
  }

  /** For a value whose text has no colon, the colon is there exactly when
      the key is. */
  lemma RenderAttrColon(a: Attr)
    requires ':' !in ValueString(a.value)
    ensures ':' in RenderAttr(a) <==> a.key != ""
  {
    var v := ValueString(a.value);
    if a.key == "" {
      assert RenderAttr(a) == " [" + v + "]";
      assert forall i :: 0 <= i < |RenderAttr(a)| ==> RenderAttr(a)[i] != ':' by {
        forall i | 0 <= i < |RenderAttr(a)|
          ensures RenderAttr(a)[i] != ':'
        {
          if 2 <= i < 2 + |v| {
            assert RenderAttr(a)[i] == v[i - 2];
          }
        }
      }
    } else {
      assert RenderAttr(a)[2 + |a.key|] == ':';
    }
  }

  /** Rendering distributes over concatenation of attribute lists. */
  lemma {:induction false} RenderAttrsAppend(s: seq<Attr>, t: seq<Attr>)
    ensures RenderAttrs(s + t) == RenderAttrs(s) + RenderAttrs(t)
  {
    if t == [] {
      assert s + t == s;
    } else {
      var t', last := t[..|t| - 1], t[|t| - 1];
      assert (s + t)[..|s + t| - 1] == s + t';
      assert (s + t)[|s + t| - 1] == last;
      RenderAttrsAppend(s, t');
      calc {
        RenderAttrs(s + t);
        RenderAttrs(s + t') + RenderAttr(last);
        RenderAttrs(s) + RenderAttrs(t') + RenderAttr(last);
        { ConcatAssoc(RenderAttrs(s), RenderAttrs(t'), RenderAttr(last)); }
        RenderAttrs(s) + (RenderAttrs(t') + RenderAttr(last));
        RenderAttrs(s) + RenderAttrs(t);
      }
    }
  }

  /** " [LEVEL]". */
  function LevelTag(level: Level): string {
    " [" + LevelString(level) + "]"
  }

  /** Timestamp and level tag. */
  function Header(time: string, level: Level): string {
    time + LevelTag(level)
  }

  /** " message\n". */
  function MessageTail(message: string): string {
    " " + message + "\n"
  }

  /** The line `Handle` builds: header, bound prefix, record attributes,
      then a space, the message and one newline. */
  function Line(time: string, level: Level, prefix: string, attrs: seq<Attr>, message: string): string {
    Header(time, level) + prefix + RenderAttrs(attrs) + MessageTail(message)
  }

  /** The line ends in a single newline right after the message, and starts
      with the timestamp and level tag. */
  lemma LineFrame(time: string, level: Level, prefix: string, attrs: seq<Attr>, message: string)
    ensures var line := Line(time, level, prefix, attrs, message);
      && |line| >= |Header(time, level)| + |message| + 2
      && line[..|Header(time, level)|] == Header(time, level)
      && line[|line| - |message| - 2..] == " " + message + "\n"
  {
    var line := Line(time, level, prefix, attrs, message);
    var head := Header(time, level) + prefix + RenderAttrs(attrs);
    assert line == head + MessageTail(message);
    assert line[..|Header(time, level)|] == (Header(time, level) + (prefix + RenderAttrs(attrs) + MessageTail(message)))[..|Header(time, level)|];
  }

  /** A prefix rendered from bound attributes sits between the level tag and
      the record's own attributes: the line is that of a record carrying the
      bound attributes first. An empty prefix adds nothing. */
  lemma BoundAttrsPrecedeRecordAttrs(time: string, level: Level, bound: seq<Attr>, attrs: seq<Attr>, message: string)
    ensures Line(time, level, RenderAttrs(bound), attrs, message) == Line(time, level, "", bound + attrs, message)
  {
    var h, tail := Header(time, level), MessageTail(message);
    var rb, ra := RenderAttrs(bound), RenderAttrs(attrs);
    RenderAttrsAppend(bound, attrs);
    calc {
      Line(time, level, rb, attrs, message);
      h + rb + ra + tail;
      { assert h + rb + ra == h + "" + (rb + ra); }
      h + "" + (rb + ra) + tail;
      Line(time, level, "", bound + attrs, message);
    }
  }

  /** As written, the prefix of a handler derived twice holds only the second
      call's attributes: the first binding disappears from its lines. */
  lemma NestedWithAttrsDropsParent(time: string, message: string)
    ensures var parent := [Attr("k1", StringValue("v1"))];
            var child := [Attr("k2", IntValue(42))];
            Line(time, LevelInfo, RenderAttrs(child), [], message)
              != Line(time, LevelInfo, "", parent + child, message)
  {
    var parent := [Attr("k1", StringValue("v1"))];
    var child := [Attr("k2", IntValue(42))];
    RenderAttrsAppend(parent, child);
    assert |RenderAttrs(parent + child)| > |RenderAttrs(child)|;
  }

  /** With the receiver's prefix carried over, a handler derived twice renders
      both bindings, in the order they were made, before the record's own. */
  lemma AccumulatedPrefixLine(time: string, level: Level, parent: seq<Attr>, child: seq<Attr>, attrs: seq<Attr>, message: string)
    ensures Line(time, level, RenderAttrs(parent) + RenderAttrs(child), attrs, message)
         == Line(time, level, "", parent + child + attrs, message)
  {
    RenderAttrsAppend(parent, child);
    BoundAttrsPrecedeRecordAttrs(time, level, parent + child, attrs, message);
  }

  /** The source suffix: " [file:line]" when the record knows its source. */
  function SourceSuffix(src: Option<Source>, depth: int): string {
    match src
    case None => ""
    case Some(s) => " [" + ShortPath(s.file, depth) + ":" + IntDecimal(s.line) + "]"
  }

  // ---------------------------------------------------------------------
  // The output sink

  /** One write to the sink: the print function used, the bytes that made it
      out, and whether the write reported an error. */
  datatype Chunk = Chunk(printer: Printer, text: string, failed: bool)

  /** The io.Writer the handler writes to. Its behaviour is not part of this
      model: a write may stop short, and then it reports an error. */
  class Writer {
    var chunks: seq<Chunk>

    constructor ()
      ensures chunks == []
    {
      chunks := [];
    }

    method Write(p: Printer, text: string) returns (n: nat, failed: bool)
      modifies this
      ensures n <= |text| && (n < |text| ==> failed)
      ensures chunks == old(chunks) + [Chunk(p, text[..n], failed)]
    {
      n :| n <= |text|;
      failed :| n < |text| ==> failed;
      chunks := chunks + [Chunk(p, text[..n], failed)];
    }
  }

  /** The lock shared by a handler and every handler derived from it. */
  class Mutex {
    constructor () {
    }
  }

  /** The source cache is keyed by the path and the depth as configured,
      before a negative depth is clamped. */
  datatype CacheKey = CacheKey(path: Path, depth: int)

  class LogHandler {
    const opts: HandlerOptions
    const preformatted: string
    const mu: Mutex
    const w: Writer
    var sourceCache: map<CacheKey, string>

    /** Every cached entry is the shortened path for its key. */
    ghost predicate CacheValid()
      reads this
    {
      forall k :: k in sourceCache ==> sourceCache[k] == ShortPath(k.path, k.depth)
    }

    /** NewLogHandler: no bound attributes, a new lock, an empty cache. */
    constructor (w: Writer, opts: HandlerOptions)
      ensures this.w == w && this.opts == opts && preformatted == []
      ensures fresh(mu) && sourceCache == map[] && CacheValid()
    {
      this.w := w;
      this.opts := opts;
      preformatted := [];
      mu := new Mutex();
      sourceCache := map[];
    }

    constructor Derived(opts: HandlerOptions, preformatted: string, mu: Mutex, w: Writer)
      ensures this.opts == opts && this.preformatted == preformatted && this.mu == mu && this.w == w
      ensures sourceCache == map[] && CacheValid()
    {
      this.opts := opts;
      this.preformatted := preformatted;
      this.mu := mu;
      this.w := w;
      sourceCache := map[];
    }

    /** The first half of Handle: the line, built piece by piece into a
        private buffer. */
    method FormatRecord(r: Record) returns (buf: string)
      ensures buf == Line(r.time, r.level, preformatted, r.attrs, r.message)
    {
      buf := r.time;
      buf := buf + (" [" + LevelString(r.level) + "]");
      assert buf == Header(r.time, r.level);
      if |preformatted| > 0 {
        buf := buf + preformatted;
      }
      ghost var start := Header(r.time, r.level) + preformatted;
      assert buf == start;
      assert r.attrs[..0] == [];
      for i := 0 to |r.attrs|
        invariant buf == start + RenderAttrs(r.attrs[..i])
      {
        RenderAttrsSnoc(r.attrs, i);
        ConcatAssoc(start, RenderAttrs(r.attrs[..i]), RenderAttr(r.attrs[i]));
        buf := buf + RenderAttr(r.attrs[i]);
      }
      assert r.attrs[..|r.attrs|] == r.attrs;
      buf := buf + (" " + r.message + "\n");
    }

    /** Builds the line, then writes it in one piece: through the level's
        print function when colour is on (whose error is dropped), raw
        otherwise (whose error is returned). */
    method Handle(r: Record, infoColor: int) returns (failed: bool)
      modifies w
      ensures |w.chunks| == |old(w.chunks)| + 1 && w.chunks[..|old(w.chunks)|] == old(w.chunks)
      ensures var c := w.chunks[|old(w.chunks)|];
              var line := Line(r.time, r.level, preformatted, r.attrs, r.message);
        && c.printer == (if opts.color then FprintFunc(opts, r.level, infoColor) else Plain)
        && c.text <= line
        && (c.text != line ==> c.failed)
        && failed == (!opts.color && c.failed)
    {
      var buf := FormatRecord(r);
      if opts.color {
        var fprint := FprintFunc(opts, r.level, infoColor);
        var _, _ := w.Write(fprint, buf);
        failed := false;
      } else {
        var _, err := w.Write(Plain, buf);
        failed := err;
      }
    }

    /** A handler sharing options, lock and writer whose prefix is the given
        attributes rendered in order; the receiver's own prefix is not
        carried over. */
    method WithAttrs(attrs: seq<Attr>) returns (h: LogHandler)
      ensures fresh(h) && h.opts == opts && h.mu == mu && h.w == w
      ensures h.preformatted == RenderAttrs(attrs)
      ensures h.sourceCache == map[] && h.CacheValid()
    {
      var pre := RenderAttrsInOrder(attrs);
      h := new LogHandler.Derived(opts, pre, mu, w);
    }

    /** WithAttrs as the slog.Handler contract asks: the receiver's prefix
        followed by the given attributes. */
    method WithAttrsAccumulating(attrs: seq<Attr>) returns (h: LogHandler)
      ensures fresh(h) && h.opts == opts && h.mu == mu && h.w == w
      ensures h.preformatted == preformatted + RenderAttrs(attrs)
      ensures h.sourceCache == map[] && h.CacheValid()
    {
      var pre := RenderAttrsInOrder(attrs);
      h := new LogHandler.Derived(opts, preformatted + pre, mu, w);
    }

    /** Groups are not supported: the receiver itself. */
    method WithGroup(group: string) returns (h: LogHandler)
      ensures h == this
    {
      h := this;
    }

    /** The shortened source path for the configured depth, from the cache
        when present, otherwise computed by walking up the parent
        directories and then stored. Entries are never removed. */
    method GetFilePath(path: Path) returns (r: string)
      requires CacheValid()
      modifies this`sourceCache
      ensures CacheValid()
      ensures r == ShortPath(path, opts.sourceDepth)
      ensures CacheKey(path, opts.sourceDepth) in old(sourceCache) ==> r == old(sourceCache)[CacheKey(path, opts.sourceDepth)]
      ensures sourceCache == old(sourceCache)[CacheKey(path, opts.sourceDepth) := r]
    {
      var key := CacheKey(path, opts.sourceDepth);
      if key in sourceCache {
        r := sourceCache[key];
        return;
      }
      var depth := opts.sourceDepth;
      if depth < 0 {
        depth := 0;
      }
      if depth == 0 {
        r := Base(path);
        assert ShortParts(path, opts.sourceDepth) == [r];
        sourceCache := sourceCache[key := r];
        return;
      }
      var parts := WalkParents(path, depth);
      assert parts == ShortParts(path, opts.sourceDepth);
      r := Join(parts);
      sourceCache := sourceCache[key := r];
    }

    /** Appends " [file:line]" when the record knows its source; what the
        buffer already held is kept. */
    method PrintSource(buf: string, r: Record) returns (out: string)
      requires CacheValid()
      modifies this`sourceCache
      ensures CacheValid()
      ensures out == buf + SourceSuffix(r.source, opts.sourceDepth)
      ensures r.source.None? ==> sourceCache == old(sourceCache)
      ensures r.source.Some? ==> sourceCache == old(sourceCache)[CacheKey(r.source.value.file, opts.sourceDepth) := ShortPath(r.source.value.file, opts.sourceDepth)]
    {
      out := buf;
      if r.source.Some? {
        var s := r.source.value;
        var file := GetFilePath(s.file);
        out := out + (" [" + file + ":" + IntDecimal(s.line) + "]");
      }
    }
  }

  /** The loop of getFilePath: starting from the file name, prepend the
      name of the current directory and move to its parent, at most `depth`
      times, stopping at ".", at the root, or where Dir changes nothing. */
  method WalkParents(path: Path, depth: nat) returns (parts: seq<string>)
    requires depth > 0
    ensures parts == ShortParts(path, depth)
  {
    var n := |path.segments|;
    parts := [Base(path)];
    var current := Dir(path);
    if n > 0 {
      WalkStep(path, n);
    }
    var i := 0;
    while i < depth && current != Dot && current != Root && Dir(current) != current
      invariant 0 <= i <= depth
      invariant n == 0 ==> current == path && parts == [Base(path)]
      invariant n > 0 ==> i < n && current == Path(path.absolute, path.segments[..n - 1 - i])
      invariant n > 0 ==> parts == path.segments[n - 1 - i..]
    {
      WalkStep(path, n - 1 - i);
      parts := [Base(current)] + parts;
      current := Dir(current);
      i := i + 1;
    }
  }

  /** One step of the walk: the current directory's name is the segment
      before the ones already collected, and its parent drops that segment. */
  lemma WalkStep(path: Path, m: nat)
    requires 1 <= m <= |path.segments|
    ensures Base(Path(path.absolute, path.segments[..m])) == path.segments[m - 1]
    ensures Dir(Path(path.absolute, path.segments[..m])) == Path(path.absolute, path.segments[..m - 1])
    ensures [path.segments[m - 1]] + path.segments[m..] == path.segments[m - 1..]
    ensures path.segments[..|path.segments|] == path.segments
  {
    assert path.segments[..m][..m - 1] == path.segments[..m - 1];
  }

  /** The loop of WithAttrs: each attribute appended to the prefix in turn. */
  method RenderAttrsInOrder(attrs: seq<Attr>) returns (pre: string)
    ensures pre == RenderAttrs(attrs)
  {
    pre := [];
    for i := 0 to |attrs|
      invariant pre == RenderAttrs(attrs[..i])
    {
      RenderAttrsSnoc(attrs, i);
      pre := pre + RenderAttr(attrs[i]);
    }
    assert attrs[..|attrs|] == attrs;
  }
}
