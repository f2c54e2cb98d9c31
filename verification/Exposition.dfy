/** The text exposition of the registry as a list of structured lines, whole or for one subdomain, and the registry
    itself with its per-subdomain statistics. */
module Exposition {
  import opened Tally
  import opened Services
  import opened LabelKeys
  import opened Metrics
  import opened StringOrder

  datatype Bound = UpTo(b: real) | Infinite

  datatype Value = Num(r: real) | Cnt(n: nat)

  datatype Line =
    | Help(name: string, help: string)
    | Type(name: string, kind: string)
    | Sample(name: string, labels: Labels, le: Option<Bound>, value: Value)

  /** What writeTo reads of a metric and of a histogram. */
  datatype MetricView = MetricView(name: string, help: string, kind: MetricKind, names: seq<string>, values: map<string, real>)

  datatype HistogramView = HistogramView(name: string, help: string, names: seq<string>, buckets: seq<real>, tables: Tables)

  function KindName(k: MetricKind): string {
    match k case CounterKind => "counter" case GaugeKind => "gauge"
  }

  /** A bound too large to print as a number is printed as infinity. */
  function Le(b: real): Bound {
    if b > 1000000000000000.0 then Infinite else UpTo(b)
  }

  predicate Skipped(names: seq<string>, sub: string) {
    sub != "" && SUBDOMAIN !in names
  }

  predicate Wanted(names: seq<string>, k: string, sub: string) {
    sub == "" || SubdomainOf(names, k) == sub
  }

  /** The sample of each wanted series, in key order. */
  function SeriesLines(m: MetricView, keys: seq<string>, sub: string): seq<Line> {
    if keys == [] then []
    else
      var k := keys[|keys| - 1];
      SeriesLines(m, keys[..|keys| - 1], sub) +
      if Wanted(m.names, k, sub) then [Sample(m.name, ParseKey(m.names, k), None, Num(Get(m.values, k, 0.0)))] else []
  }

  /** The buckets of one series, in bound order. */
  function BucketLines(h: HistogramView, k: string, n: nat): seq<Line>
    requires n <= |h.buckets|
  {
    if n == 0 then []
    else
      var row := Get(h.tables.rows, k, []);
      BucketLines(h, k, n - 1) +
      [Sample(h.name + "_bucket", ParseKey(h.names, k), Some(Le(h.buckets[n - 1])), Cnt(if n <= |row| then row[n - 1] else 0))]
  }

  function HistogramSeries(h: HistogramView, k: string): seq<Line> {
    var labels := ParseKey(h.names, k);
    BucketLines(h, k, |h.buckets|) +
    [Sample(h.name + "_bucket", labels, Some(Infinite), Cnt(Get(h.tables.counts, k, 0))),
     Sample(h.name + "_sum", labels, None, Num(Get(h.tables.sums, k, 0.0))),
     Sample(h.name + "_count", labels, None, Cnt(Get(h.tables.counts, k, 0)))]
  }

  function HistogramLines(h: HistogramView, keys: seq<string>, sub: string): seq<Line> {
    if keys == [] then []
    else
      var k := keys[|keys| - 1];
      HistogramLines(h, keys[..|keys| - 1], sub) + if Wanted(h.names, k, sub) then HistogramSeries(h, k) else []
  }

  function MetricBody(m: MetricView, keys: seq<string>, sub: string): seq<Line> {
    [Help(m.name, m.help), Type(m.name, KindName(m.kind))] +
    if keys == [] then (if m.names == [] then [Sample(m.name, map[], None, Num(0.0))] else [])
    else SeriesLines(m, keys, sub)
  }

  function HistogramBody(h: HistogramView, keys: seq<string>, sub: string): seq<Line> {
    [Help(h.name, h.help), Type(h.name, "histogram")] + HistogramLines(h, keys, sub)
  }

  /** What is printed for one metric and for one histogram; the keys are listed in sorted order. */
  ghost function MetricText(m: MetricView, sub: string): seq<Line> {
    if Skipped(m.names, sub) then [] else MetricBody(m, Listing(m.values.Keys), sub)
  }

  ghost function HistogramText(h: HistogramView, sub: string): seq<Line> {
    if Skipped(h.names, sub) then [] else HistogramBody(h, Listing(h.tables.counts.Keys), sub)
  }

  ghost function MetricsText(ms: seq<MetricView>, sub: string): seq<Line> {
    if ms == [] then [] else MetricsText(ms[..|ms| - 1], sub) + MetricText(ms[|ms| - 1], sub)
  }

  ghost function HistogramsText(hs: seq<HistogramView>, sub: string): seq<Line> {
    if hs == [] then [] else HistogramsText(hs[..|hs| - 1], sub) + HistogramText(hs[|hs| - 1], sub)
  }

  /** Everything, in registration order: first the metrics, then the histograms. */
  ghost function Text(ms: seq<MetricView>, hs: seq<HistogramView>, sub: string): seq<Line> {
    MetricsText(ms, sub) + HistogramsText(hs, sub)
  }

  // ---- the filter ----

  predicate Carries(line: Line, sub: string) {
    line.Sample? && Get(line.labels, "subdomain", "") == sub
  }

  /** The samples that carry a subdomain, in order. */
  function Keep(lines: seq<Line>, sub: string): seq<Line> {
    if lines == [] then []
    else
      var n := |lines| - 1;
      Keep(lines[..n], sub) + if Carries(lines[n], sub) then [lines[n]] else []
  }

  /** All samples, in order. */
  function Samples(lines: seq<Line>): seq<Line> {
    if lines == [] then []
    else
      var n := |lines| - 1;
      Samples(lines[..n]) + if lines[n].Sample? then [lines[n]] else []
  }

  lemma {:induction false} KeepJoined(a: seq<Line>, b: seq<Line>, sub: string)
    ensures Keep(a + b, sub) == Keep(a, sub) + Keep(b, sub)
  {
    if b == [] {
      assert a + b == a;
    } else {
      KeepJoined(a, b[..|b| - 1], sub);
      assert (a + b)[..|a + b| - 1] == a + b[..|b| - 1];
    }
  }

  lemma {:induction false} SamplesJoined(a: seq<Line>, b: seq<Line>)
    ensures Samples(a + b) == Samples(a) + Samples(b)
  {
    if b == [] {
      assert a + b == a;
    } else {
      SamplesJoined(a, b[..|b| - 1]);
      assert (a + b)[..|a + b| - 1] == a + b[..|b| - 1];
    }
  }

  lemma Joined(a: seq<Line>, b: seq<Line>, sub: string)
    ensures Keep(a + b, sub) == Keep(a, sub) + Keep(b, sub) && Samples(a + b) == Samples(a) + Samples(b)
  {
    KeepJoined(a, b, sub);
    SamplesJoined(a, b);
  }

  lemma KeepMore(front: seq<Line>, last: Line, sub: string)
    ensures Keep(front + [last], sub) == Keep(front, sub) + if Carries(last, sub) then [last] else []
  {
    assert (front + [last])[..|front|] == front;
  }

  lemma {:induction false} AllKept(lines: seq<Line>, sub: string)
    requires forall l | l in lines :: Carries(l, sub)
    ensures Keep(lines, sub) == lines
  {
    if lines != [] {
      var front, last := lines[..|lines| - 1], lines[|lines| - 1];
      assert last in lines;
      AllKept(front, sub);
      KeepMore(front, last, sub);
      assert lines == front + [last];
    }
  }

  lemma {:induction false} NoneKept(lines: seq<Line>, sub: string)
    requires forall l | l in lines :: !Carries(l, sub)
    ensures Keep(lines, sub) == []
  {
    if lines != [] {
      var front, last := lines[..|lines| - 1], lines[|lines| - 1];
      assert last in lines;
      NoneKept(front, sub);
      KeepMore(front, last, sub);
      assert lines == front + [last];
    }
  }

  lemma {:induction false} UniformSamples(lines: seq<Line>)
    requires forall l | l in lines :: l.Sample?
    ensures Samples(lines) == lines
  {
    if lines != [] {
      var front, last := lines[..|lines| - 1], lines[|lines| - 1];
      assert last in lines && forall l | l in front :: l in lines;
      UniformSamples(front);
      assert lines == front + [last];
    }
  }

  /** Lines that are all samples with the same verdict. */
  lemma Uniform(lines: seq<Line>, sub: string, keep: bool)
    requires forall l | l in lines :: l.Sample? && Carries(l, sub) == keep
    ensures Keep(lines, sub) == (if keep then lines else []) && Samples(lines) == lines
  {
    if keep {
      AllKept(lines, sub);
    } else {
      NoneKept(lines, sub);
    }
    UniformSamples(lines);
  }

  lemma {:induction false} SeriesFilter(m: MetricView, keys: seq<string>, sub: string)
    requires sub != ""
    ensures Keep(SeriesLines(m, keys, ""), sub) == SeriesLines(m, keys, sub) == Samples(SeriesLines(m, keys, sub))
  {
    if keys != [] {
      var before, k := keys[..|keys| - 1], keys[|keys| - 1];
      SeriesFilter(m, before, sub);
      var one := [Sample(m.name, ParseKey(m.names, k), None, Num(Get(m.values, k, 0.0)))];
      Uniform(one, sub, SubdomainOf(m.names, k) == sub);
      Joined(SeriesLines(m, before, ""), one, sub);
      Joined(SeriesLines(m, before, sub), one, sub);
      assert SeriesLines(m, before, sub) + [] == SeriesLines(m, before, sub);
    }
  }

  lemma {:induction false} BucketLabels(h: HistogramView, k: string, n: nat)
    requires n <= |h.buckets|
    ensures forall l | l in BucketLines(h, k, n) :: l.Sample? && l.labels == ParseKey(h.names, k)
  {
    if n > 0 { BucketLabels(h, k, n - 1); }
  }

  /** The lines of one histogram series are kept or dropped together. */
  lemma SeriesTogether(h: HistogramView, k: string, sub: string)
    requires sub != ""
    ensures var some := HistogramSeries(h, k);
            && Samples(some) == some
            && Keep(some, sub) == if Get(ParseKey(h.names, k), SUBDOMAIN, "") == sub then some else []
  {
    BucketLabels(h, k, |h.buckets|);
    Uniform(HistogramSeries(h, k), sub, Get(ParseKey(h.names, k), SUBDOMAIN, "") == sub);
  }

  /** More samples, all of which are kept, or none. */
  lemma FilterMore(all: seq<Line>, kept: seq<Line>, more: seq<Line>, sub: string, keep: bool)
    requires Keep(all, sub) == kept == Samples(kept)
    requires Samples(more) == more && Keep(more, sub) == if keep then more else []
    ensures var some := if keep then more else []; Keep(all + more, sub) == kept + some == Samples(kept + some)
  {
    Joined(all, more, sub);
    Joined(kept, more, sub);
    assert kept + [] == kept;
  }

  lemma {:induction false} HistogramFilter(h: HistogramView, keys: seq<string>, sub: string)
    requires sub != ""
    ensures Keep(HistogramLines(h, keys, ""), sub) == HistogramLines(h, keys, sub) == Samples(HistogramLines(h, keys, sub))
  {
    if keys != [] {
      var before, k := keys[..|keys| - 1], keys[|keys| - 1];
      HistogramFilter(h, before, sub);
      SeriesTogether(h, k, sub);
      FilterMore(HistogramLines(h, before, ""), HistogramLines(h, before, sub), HistogramSeries(h, k), sub,
                 Wanted(h.names, k, sub));
    }
  }

  /** Without a subdomain label nothing can carry a subdomain. */
  lemma {:induction false} NothingCarried(names: seq<string>, parts: seq<string>)
    requires SUBDOMAIN !in names
    ensures SUBDOMAIN !in Assign(names, parts)
  {
    if names != [] { NothingCarried(names[..|names| - 1], parts); }
  }

  lemma NoSubdomain(names: seq<string>, k: string, sub: string)
    requires SUBDOMAIN !in names && sub != ""
    ensures Get(ParseKey(names, k), SUBDOMAIN, "") != sub
  {
    NothingCarried(names, Parts(k));
  }

  lemma {:induction false} SeriesNotCarried(m: MetricView, keys: seq<string>, sub: string)
    requires SUBDOMAIN !in m.names && sub != ""
    ensures Keep(SeriesLines(m, keys, ""), sub) == []
  {
    if keys != [] {
      SeriesNotCarried(m, keys[..|keys| - 1], sub);
      NoSubdomain(m.names, keys[|keys| - 1], sub);
      var one := [Sample(m.name, ParseKey(m.names, keys[|keys| - 1]), None, Num(Get(m.values, keys[|keys| - 1], 0.0)))];
      Uniform(one, sub, false);
      Joined(SeriesLines(m, keys[..|keys| - 1], ""), one, sub);
    }
  }

  lemma {:induction false} HistogramNotCarried(h: HistogramView, keys: seq<string>, sub: string)
    requires SUBDOMAIN !in h.names && sub != ""
    ensures Keep(HistogramLines(h, keys, ""), sub) == []
  {
    if keys != [] {
      var k := keys[|keys| - 1];
      HistogramNotCarried(h, keys[..|keys| - 1], sub);
      NoSubdomain(h.names, k, sub);
      SeriesTogether(h, k, sub);
      Joined(HistogramLines(h, keys[..|keys| - 1], ""), HistogramSeries(h, k), sub);
    }
  }

  /** Header lines are no samples. */
  lemma Headed(a: Line, b: Line, rest: seq<Line>, sub: string)
    requires !a.Sample? && !b.Sample?
    ensures Keep([a, b] + rest, sub) == Keep(rest, sub) && Samples([a, b] + rest) == Samples(rest)
  {
    Joined([a, b], rest, sub);
    assert [a, b][..1] == [a] && [a][..0] == [];
    assert Keep([a], sub) == [] && Samples([a]) == [];
    assert Keep([a, b], sub) == [] && Samples([a, b]) == [];
  }

  lemma MetricFiltered(m: MetricView, sub: string)
    requires sub != ""
    ensures Keep(MetricText(m, ""), sub) == Samples(MetricText(m, sub))
  {
    var keys := Listing(m.values.Keys);
    var head, typ := Help(m.name, m.help), Type(m.name, KindName(m.kind));
    var zero := Sample(m.name, map[], None, Num(0.0));
    Uniform([zero], sub, false);
    Uniform([], sub, false);
    Headed(head, typ, if keys == [] then (if m.names == [] then [zero] else []) else SeriesLines(m, keys, ""), sub);
    if Skipped(m.names, sub) {
      SeriesNotCarried(m, keys, sub);
    } else {
      Headed(head, typ, if keys == [] then (if m.names == [] then [zero] else []) else SeriesLines(m, keys, sub), sub);
      SeriesFilter(m, keys, sub);
    }
  }

  lemma HistogramFiltered(h: HistogramView, sub: string)
    requires sub != ""
    ensures Keep(HistogramText(h, ""), sub) == Samples(HistogramText(h, sub))
  {
    var keys := Listing(h.tables.counts.Keys);
    var head, typ := Help(h.name, h.help), Type(h.name, "histogram");
    Headed(head, typ, HistogramLines(h, keys, ""), sub);
    if Skipped(h.names, sub) {
      HistogramNotCarried(h, keys, sub);
    } else {
      Headed(head, typ, HistogramLines(h, keys, sub), sub);
      HistogramFilter(h, keys, sub);
    }
  }

  lemma {:induction false} MetricsFiltered(ms: seq<MetricView>, sub: string)
    requires sub != ""
    ensures Keep(MetricsText(ms, ""), sub) == Samples(MetricsText(ms, sub))
  {
    if ms != [] {
      var before, last := ms[..|ms| - 1], ms[|ms| - 1];
      MetricsFiltered(before, sub);
      MetricFiltered(last, sub);
      Joined(MetricsText(before, ""), MetricText(last, ""), sub);
      Joined(MetricsText(before, sub), MetricText(last, sub), sub);
    }
  }

  lemma {:induction false} HistogramsFiltered(hs: seq<HistogramView>, sub: string)
    requires sub != ""
    ensures Keep(HistogramsText(hs, ""), sub) == Samples(HistogramsText(hs, sub))
  {
    if hs != [] {
      var before, last := hs[..|hs| - 1], hs[|hs| - 1];
      HistogramsFiltered(before, sub);
      HistogramFiltered(last, sub);
      Joined(HistogramsText(before, ""), HistogramText(last, ""), sub);
      Joined(HistogramsText(before, sub), HistogramText(last, sub), sub);
    }
  }

  /** The filtered output is a filter: for a non-empty subdomain its samples are exactly the full output's samples
      that carry that subdomain, in the same order. */
  lemma FilteredIsFilter(ms: seq<MetricView>, hs: seq<HistogramView>, sub: string)
    requires sub != ""
    ensures Keep(Text(ms, hs, ""), sub) == Samples(Text(ms, hs, sub))
  {
    MetricsFiltered(ms, sub);
    HistogramsFiltered(hs, sub);
    Joined(MetricsText(ms, ""), HistogramsText(hs, ""), sub);
    Joined(MetricsText(ms, sub), HistogramsText(hs, sub), sub);
  }

  // ---- what is printed ----

  lemma {:induction false} SeriesAt(m: MetricView, keys: seq<string>)
    ensures |SeriesLines(m, keys, "")| == |keys|
    ensures forall i | 0 <= i < |keys| :: SeriesLines(m, keys, "")[i] ==
              Sample(m.name, ParseKey(m.names, keys[i]), None, Num(Get(m.values, keys[i], 0.0)))
  {
    if keys != [] { SeriesAt(m, keys[..|keys| - 1]); }
  }

  /** Every series of a metric is printed exactly once: the label set of each change occurs on exactly one line,
      which shows the value its log gives. */
  lemma {:induction false} EachSeriesOnce(m: MetricView, log: seq<Change>, c: Change) returns (i: nat)
    requires m.values.Keys == ChangedKeys(m.names, log) && forall k | k in m.values :: m.values[k] == Replay(m.names, log, k)
    requires c in log && forall d | d in log :: Storable(m.names, d.labels)
    ensures var lines := SeriesLines(m, Listing(m.values.Keys), "");
            && i < |lines|
            && lines[i] == Sample(m.name, Restrict(m.names, c.labels), None, Num(Replay(m.names, log, Key(m.names, c.labels))))
            && forall j | 0 <= j < |lines| && j != i :: lines[j].Sample? && lines[j].labels != Restrict(m.names, c.labels)
  {
    var keys := Listing(m.values.Keys);
    var lines := SeriesLines(m, keys, "");
    var key := Key(m.names, c.labels);
    SeriesAt(m, keys);
    KeyRoundTrip(m.names, c.labels);
    assert key in keys;
    i :| 0 <= i < |keys| && keys[i] == key;
    forall j | 0 <= j < |lines| && j != i
      ensures lines[j].Sample? && lines[j].labels != Restrict(m.names, c.labels)
    {
      assert keys[j] in m.values.Keys;
      var d :| d in log && Key(m.names, d.labels) == keys[j];
      OtherLabels(m.names, keys, m.values.Keys, i, j, c.labels, d.labels);
    }
  }

  /** Two places in a key listing never show the same labels. */
  lemma OtherLabels(names: seq<string>, keys: seq<string>, ks: set<string>, i: nat, j: nat, here: Labels, there: Labels)
    requires Lists(keys, ks) && Storable(names, here) && Storable(names, there)
    requires i < |keys| && keys[i] == Key(names, here) && j < |keys| && keys[j] == Key(names, there) && i != j
    ensures ParseKey(names, keys[j]) != Restrict(names, here)
  {
    KeyRoundTrip(names, there);
    KeyInjective(names, there, here);
    LessTotal(keys[i], keys[j]);
    LessTotal(keys[j], keys[j]);
    assert if i < j then Less(keys[i], keys[j]) else Less(keys[j], keys[i]);
  }

  /** One block of lines after the other. */
  function Concat(blocks: seq<seq<Line>>): seq<Line> {
    if blocks == [] then [] else Concat(blocks[..|blocks| - 1]) + blocks[|blocks| - 1]
  }

  /** The lines of a histogram, series by series. */
  function Blocks(h: HistogramView, keys: seq<string>): seq<seq<Line>> {
    seq(|keys|, i requires 0 <= i < |keys| => HistogramSeries(h, keys[i]))
  }

  lemma {:induction false} BlocksAreLines(h: HistogramView, keys: seq<string>)
    ensures Concat(Blocks(h, keys)) == HistogramLines(h, keys, "")
  {
    if keys != [] {
      var front := keys[..|keys| - 1];
      BlocksAreLines(h, front);
      assert Blocks(h, keys)[..|keys| - 1] == Blocks(h, front);
    }
  }

  lemma {:induction false} BucketsAt(h: HistogramView, k: string, n: nat)
    requires n <= |h.buckets|
    ensures |BucketLines(h, k, n)| == n
    ensures forall i | 0 <= i < n :: BucketLines(h, k, n)[i] ==
              Sample(h.name + "_bucket", ParseKey(h.names, k), Some(Le(h.buckets[i])),
                     Cnt(if i < |Get(h.tables.rows, k, [])| then Get(h.tables.rows, k, [])[i] else 0))
  {
    if n > 0 { BucketsAt(h, k, n - 1); }
  }

  ghost predicate AllLabelled(lines: seq<Line>, labels: Labels) {
    forall l | l in lines :: l.Sample? && l.labels == labels
  }

  ghost predicate NoneLabelled(lines: seq<Line>, labels: Labels) {
    forall l | l in lines :: l.Sample? && l.labels != labels
  }

  /** The two lines at the end of a series. */
  function Totals(name: string, labels: Labels, sum: real, count: nat): seq<Line> {
    [Sample(name + "_sum", labels, None, Num(sum)), Sample(name + "_count", labels, None, Cnt(count))]
  }

  ghost predicate EndsWith(lines: seq<Line>, end: seq<Line>) {
    exists front: seq<Line> :: lines == front + end
  }

  lemma SeriesLabelled(h: HistogramView, k: string)
    ensures AllLabelled(HistogramSeries(h, k), ParseKey(h.names, k))
  {
    BucketLabels(h, k, |h.buckets|);
  }

  lemma SeriesEnds(h: HistogramView, log: seq<Observation>, k: string)
    requires h.tables == Replayed(h.names, h.buckets, log) && k in h.tables.counts
    ensures EndsWith(HistogramSeries(h, k),
                     Totals(h.name, ParseKey(h.names, k), SumIn(h.names, log, {k}), CountIn(h.names, log, {k})))
  {
    KeysAgree(h.names, h.buckets, log);
    SeriesAgrees(h.names, h.buckets, log, k, 0);
    var labels := ParseKey(h.names, k);
    var infinite := Sample(h.name + "_bucket", labels, Some(Infinite), Cnt(Get(h.tables.counts, k, 0)));
    var front := BucketLines(h, k, |h.buckets|) + [infinite];
    assert HistogramSeries(h, k) ==
           front + Totals(h.name, labels, SumIn(h.names, log, {k}), CountIn(h.names, log, {k}));
  }

  lemma OtherBlocks(h: HistogramView, log: seq<Observation>, o: Observation, keys: seq<string>, i: nat, j: nat)
    requires keys == Listing(h.tables.counts.Keys) && h.tables.counts.Keys == ObservedKeys(h.names, log)
    requires o in log && StorableLog(h.names, log)
    requires i < |keys| && keys[i] == Key(h.names, o.labels) && j < |keys| && i != j
    ensures NoneLabelled(HistogramSeries(h, keys[j]), Restrict(h.names, o.labels))
  {
    assert keys[j] in h.tables.counts.Keys;
    var d :| d in log && Key(h.names, d.labels) == keys[j];
    OtherLabels(h.names, keys, h.tables.counts.Keys, i, j, o.labels, d.labels);
    SeriesLabelled(h, keys[j]);
  }

  /** Every series of a histogram is printed exactly once: the label set of each observation is on the lines of one block and
      on no other line, and the block ends with the sum and the number of the observations made with it. */
  lemma {:induction false} EachHistogramOnce(h: HistogramView, log: seq<Observation>, o: Observation)
    returns (blocks: seq<seq<Line>>, i: nat)
    requires h.tables == Replayed(h.names, h.buckets, log) && o in log && StorableLog(h.names, log)
    ensures Concat(blocks) == HistogramLines(h, Listing(h.tables.counts.Keys), "") && i < |blocks|
    ensures AllLabelled(blocks[i], Restrict(h.names, o.labels))
    ensures forall j | 0 <= j < |blocks| && j != i :: NoneLabelled(blocks[j], Restrict(h.names, o.labels))
    ensures var key := Key(h.names, o.labels);
            EndsWith(blocks[i], Totals(h.name, Restrict(h.names, o.labels), SumIn(h.names, log, {key}),
                                       CountIn(h.names, log, {key})))
  {
    var keys, key := Listing(h.tables.counts.Keys), Key(h.names, o.labels);
    blocks := Blocks(h, keys);
    BlocksAreLines(h, keys);
    KeysAgree(h.names, h.buckets, log);
    KeyRoundTrip(h.names, o.labels);
    assert key in h.tables.counts.Keys;
    i :| 0 <= i < |keys| && keys[i] == key;
    SeriesLabelled(h, key);
    SeriesEnds(h, log, key);
    forall j | 0 <= j < |blocks| && j != i
      ensures NoneLabelled(blocks[j], Restrict(h.names, o.labels))
    {
      OtherBlocks(h, log, o, keys, i, j);
    }
  }

  /** The bucket lines of a series, the last of them infinite: with ascending bounds their numbers never decrease, line
      i shows how many observations are at most bound i, and the infinite one shows all of them. */
  lemma BucketLinesCumulative(h: HistogramView, log: seq<Observation>, k: string, i: nat, j: nat)
    requires h.tables == Replayed(h.names, h.buckets, log) && k in h.tables.counts
    requires i < j <= |h.buckets|
    requires forall a, b | 0 <= a < b < |h.buckets| :: h.buckets[a] <= h.buckets[b]
    ensures var lines := HistogramSeries(h, k);
            && |lines| == |h.buckets| + 3
            && lines[i].Sample? && lines[i].value == Cnt(AtMost(h.names, log, k, h.buckets[i]))
            && lines[|h.buckets|].Sample? && lines[|h.buckets|].value == Cnt(CountIn(h.names, log, {k}))
            && lines[j].Sample? && lines[j].value.Cnt? && lines[i].value.n <= lines[j].value.n
  {
    BucketsAt(h, k, |h.buckets|);
    KeysAgree(h.names, h.buckets, log);
    SeriesAgrees(h.names, h.buckets, log, k, i);
    SeriesAgrees(h.names, h.buckets, log, k, j);
    BucketsCumulative(h.names, log, k, h.buckets[i], if j < |h.buckets| then h.buckets[j] else h.buckets[i]);
  }

  // ---- the whole output ----

  /** The series line of a change: its labels, and the value that all changes of the series come to. */
  ghost function LineOf(m: MetricView, log: seq<Change>, c: Change): Line {
    Sample(m.name, Restrict(m.names, c.labels), None, Num(Replay(m.names, log, Key(m.names, c.labels))))
  }

  /** `line` is there once, and no other line has its labels. */
  ghost predicate ShownOnce(lines: seq<Line>, line: Line)
    requires line.Sample?
  {
    exists i: nat :: i < |lines| && lines[i] == line && OnlyAt(lines, line.labels, i)
  }

  ghost predicate OnlyAt(lines: seq<Line>, labels: Labels, i: nat) {
    forall j | 0 <= j < |lines| && j != i :: lines[j].Sample? && lines[j].labels != labels
  }

  /** The lines are ordered by the keys of their labels. */
  ghost predicate InKeyOrder(names: seq<string>, lines: seq<Line>) {
    forall i, j | 0 <= i < j < |lines| ::
      lines[i].Sample? && lines[j].Sample? && Less(Key(names, lines[i].labels), Key(names, lines[j].labels))
  }

  /** One line for every label set that was changed and for no other, in key order. */
  ghost predicate SeriesOfLog(m: MetricView, log: seq<Change>, lines: seq<Line>) {
    && (forall c | c in log :: ShownOnce(lines, LineOf(m, log, c)))
    && (forall i | 0 <= i < |lines| :: exists c | c in log :: lines[i] == LineOf(m, log, c))
    && InKeyOrder(m.names, lines)
  }

  /** What has to be printed for a metric with the changes in `log`: its help and its type, then one line for every label set
      that was ever changed and for no other, in key order; a metric without labels and without changes shows zero. */
  ghost predicate MetricBlock(m: MetricView, log: seq<Change>, block: seq<Line>) {
    && |block| >= 2
    && block[0] == Help(m.name, m.help)
    && block[1] == Type(m.name, if m.kind == CounterKind then "counter" else "gauge")
    && if log == [] then block[2..] == if m.names == [] then [Sample(m.name, map[], None, Num(0.0))] else []
       else SeriesOfLog(m, log, block[2..])
  }

  /** The lines of one histogram series: for each bound how many observations are at most that, then all of them, their sum
      and once more their number. */
  ghost predicate SeriesBlock(h: HistogramView, log: seq<Observation>, o: Observation, part: seq<Line>) {
    var labels, key, n := Restrict(h.names, o.labels), Key(h.names, o.labels), |h.buckets|;
    && |part| == n + 3
    && (forall i | 0 <= i < n ::
          part[i] == Sample(h.name + "_bucket", labels,
                            Some(if h.buckets[i] > 1000000000000000.0 then Infinite else UpTo(h.buckets[i])),
                            Cnt(AtMost(h.names, log, key, h.buckets[i]))))
    && part[n] == Sample(h.name + "_bucket", labels, Some(Infinite), Cnt(CountIn(h.names, log, {key})))
    && part[n + 1] == Sample(h.name + "_sum", labels, None, Num(SumIn(h.names, log, {key})))
    && part[n + 2] == Sample(h.name + "_count", labels, None, Cnt(CountIn(h.names, log, {key})))
  }

  /** Part `i` is that of the observation, and no other part has its labels. */
  ghost predicate PartOnce(h: HistogramView, log: seq<Observation>, o: Observation, parts: seq<seq<Line>>, i: nat) {
    && i < |parts| && SeriesBlock(h, log, o, parts[i])
    && (forall j | 0 <= j < |parts| && j != i :: NoneLabelled(parts[j], Restrict(h.names, o.labels)))
  }

  ghost predicate EachHasPart(h: HistogramView, log: seq<Observation>, parts: seq<seq<Line>>) {
    forall o | o in log :: exists i: nat :: PartOnce(h, log, o, parts, i)
  }

  ghost predicate EachIsPart(h: HistogramView, log: seq<Observation>, parts: seq<seq<Line>>) {
    forall i | 0 <= i < |parts| :: exists o | o in log :: SeriesBlock(h, log, o, parts[i])
  }

  /** One part for every label set that was observed and for no other. */
  ghost predicate PartsOfLog(h: HistogramView, log: seq<Observation>, lines: seq<Line>, parts: seq<seq<Line>>) {
    Concat(parts) == lines && EachHasPart(h, log, parts) && EachIsPart(h, log, parts)
  }

  /** What has to be printed for a histogram: its help and its type, then one part for every observed label set. */
  ghost predicate HistogramBlock(h: HistogramView, log: seq<Observation>, block: seq<Line>) {
    && |block| >= 2
    && block[0] == Help(h.name, h.help)
    && block[1] == Type(h.name, "histogram")
    && exists parts :: PartsOfLog(h, log, block[2..], parts)
  }

  ghost predicate MetricLogged(m: MetricView, log: seq<Change>) {
    Replays(m.values, m.names, log) && forall c | c in log :: Storable(m.names, c.labels)
  }

  ghost predicate HistogramLogged(h: HistogramView, log: seq<Observation>) {
    h.tables == Replayed(h.names, h.buckets, log) && StorableLog(h.names, log)
  }

  lemma KeyOfRestricted(names: seq<string>, labels: Labels)
    ensures Key(names, Restrict(names, labels)) == Key(names, labels)
  {
    ValuesAt(names, labels);
    ValuesAt(names, Restrict(names, labels));
    assert Values(names, Restrict(names, labels)) == Values(names, labels);
  }

  lemma NoKeys(ks: set<string>)
    ensures Listing(ks) == [] <==> ks == {}
  {
    HeadIsMember(Listing(ks));
    if ks != {} {
      var k :| k in ks;
      assert k in Listing(ks);
    }
  }

  /** Every line of a metric stands for a change. */
  lemma LineAt(m: MetricView, log: seq<Change>, i: nat) returns (c: Change)
    requires MetricLogged(m, log) && i < |Listing(m.values.Keys)|
    ensures var keys := Listing(m.values.Keys);
            && c in log && Key(m.names, c.labels) == keys[i] && |SeriesLines(m, keys, "")| == |keys|
            && SeriesLines(m, keys, "")[i] == LineOf(m, log, c)
  {
    var keys := Listing(m.values.Keys);
    SeriesAt(m, keys);
    assert keys[i] in m.values.Keys;
    c :| c in log && Key(m.names, c.labels) == keys[i];
    KeyRoundTrip(m.names, c.labels);
  }

  lemma LinesInOrder(m: MetricView, log: seq<Change>)
    requires MetricLogged(m, log)
    ensures InKeyOrder(m.names, SeriesLines(m, Listing(m.values.Keys), ""))
  {
    var keys := Listing(m.values.Keys);
    var lines := SeriesLines(m, keys, "");
    SeriesAt(m, keys);
    forall i, j | 0 <= i < j < |lines|
      ensures lines[i].Sample? && lines[j].Sample? && Less(Key(m.names, lines[i].labels), Key(m.names, lines[j].labels))
    {
      var c := LineAt(m, log, i);
      var d := LineAt(m, log, j);
      KeyOfRestricted(m.names, c.labels);
      KeyOfRestricted(m.names, d.labels);
      assert Less(keys[i], keys[j]);
    }
  }

  lemma SeriesShownOnce(m: MetricView, log: seq<Change>, c: Change)
    requires MetricLogged(m, log) && c in log
    ensures ShownOnce(SeriesLines(m, Listing(m.values.Keys), ""), LineOf(m, log, c))
  {
    var lines := SeriesLines(m, Listing(m.values.Keys), "");
    var i := EachSeriesOnce(m, log, c);
    assert lines[i] == LineOf(m, log, c) && OnlyAt(lines, LineOf(m, log, c).labels, i);
  }

  lemma LinesPrinted(m: MetricView, log: seq<Change>)
    requires MetricLogged(m, log)
    ensures SeriesOfLog(m, log, SeriesLines(m, Listing(m.values.Keys), ""))
  {
    var lines := SeriesLines(m, Listing(m.values.Keys), "");
    SeriesAt(m, Listing(m.values.Keys));
    forall c | c in log ensures ShownOnce(lines, LineOf(m, log, c)) { SeriesShownOnce(m, log, c); }
    forall i | 0 <= i < |lines| ensures exists c | c in log :: lines[i] == LineOf(m, log, c) {
      var c := LineAt(m, log, i);
    }
    LinesInOrder(m, log);
  }

  /** The text of a metric is the block that its log calls for. */
  lemma MetricPrinted(m: MetricView, log: seq<Change>)
    requires MetricLogged(m, log)
    ensures MetricBlock(m, log, MetricText(m, ""))
  {
    NoKeys(m.values.Keys);
    if log == [] {
      assert m.values.Keys == {};
    } else {
      assert log[0] in log && Key(m.names, log[0].labels) in m.values.Keys;
      LinesPrinted(m, log);
      assert MetricText(m, "")[2..] == SeriesLines(m, Listing(m.values.Keys), "");
    }
  }

  /** The lines of a series in terms of its observations. */
  lemma SeriesPrinted(h: HistogramView, log: seq<Observation>, o: Observation)
    requires HistogramLogged(h, log) && o in log
    ensures SeriesBlock(h, log, o, HistogramSeries(h, Key(h.names, o.labels)))
  {
    var key, part := Key(h.names, o.labels), HistogramSeries(h, Key(h.names, o.labels));
    KeysAgree(h.names, h.buckets, log);
    KeyRoundTrip(h.names, o.labels);
    BucketsAt(h, key, |h.buckets|);
    SeriesAgrees(h.names, h.buckets, log, key, 0);
    assert key in h.tables.counts;
    forall i | 0 <= i < |h.buckets|
      ensures part[i] == Sample(h.name + "_bucket", Restrict(h.names, o.labels),
                                Some(if h.buckets[i] > 1000000000000000.0 then Infinite else UpTo(h.buckets[i])),
                                Cnt(AtMost(h.names, log, key, h.buckets[i])))
    {
      SeriesAgrees(h.names, h.buckets, log, key, i);
    }
  }

  lemma PartShownOnce(h: HistogramView, log: seq<Observation>, o: Observation) returns (i: nat)
    requires HistogramLogged(h, log) && o in log
    ensures PartOnce(h, log, o, Blocks(h, Listing(h.tables.counts.Keys)), i)
  {
    var keys := Listing(h.tables.counts.Keys);
    KeysAgree(h.names, h.buckets, log);
    assert Key(h.names, o.labels) in keys;
    i :| 0 <= i < |keys| && keys[i] == Key(h.names, o.labels);
    SeriesPrinted(h, log, o);
    forall j | 0 <= j < |keys| && j != i
      ensures NoneLabelled(Blocks(h, keys)[j], Restrict(h.names, o.labels))
    {
      OtherBlocks(h, log, o, keys, i, j);
    }
  }

  lemma EachHasItsPart(h: HistogramView, log: seq<Observation>)
    requires HistogramLogged(h, log)
    ensures EachHasPart(h, log, Blocks(h, Listing(h.tables.counts.Keys)))
  {
    forall o | o in log
      ensures exists i: nat :: PartOnce(h, log, o, Blocks(h, Listing(h.tables.counts.Keys)), i)
    {
      var i := PartShownOnce(h, log, o);
    }
  }

  lemma EachPartIsObserved(h: HistogramView, log: seq<Observation>)
    requires HistogramLogged(h, log)
    ensures EachIsPart(h, log, Blocks(h, Listing(h.tables.counts.Keys)))
  {
    var keys := Listing(h.tables.counts.Keys);
    KeysAgree(h.names, h.buckets, log);
    forall i | 0 <= i < |keys|
      ensures exists o | o in log :: SeriesBlock(h, log, o, Blocks(h, keys)[i])
    {
      assert keys[i] in h.tables.counts.Keys;
      var o :| o in log && Key(h.names, o.labels) == keys[i];
      SeriesPrinted(h, log, o);
    }
  }

  lemma PartsPrinted(h: HistogramView, log: seq<Observation>)
    requires HistogramLogged(h, log)
    ensures var keys := Listing(h.tables.counts.Keys); PartsOfLog(h, log, HistogramLines(h, keys, ""), Blocks(h, keys))
  {
    BlocksAreLines(h, Listing(h.tables.counts.Keys));
    EachHasItsPart(h, log);
    EachPartIsObserved(h, log);
  }

  lemma HistogramTail(h: HistogramView)
    ensures |HistogramText(h, "")| >= 2 && HistogramText(h, "")[2..] == HistogramLines(h, Listing(h.tables.counts.Keys), "")
    ensures HistogramText(h, "")[0] == Help(h.name, h.help) && HistogramText(h, "")[1] == Type(h.name, "histogram")
  {
  }

  lemma Partitioned(h: HistogramView, log: seq<Observation>, block: seq<Line>, parts: seq<seq<Line>>)
    requires |block| >= 2 && block[0] == Help(h.name, h.help) && block[1] == Type(h.name, "histogram")
    requires PartsOfLog(h, log, block[2..], parts)
    ensures HistogramBlock(h, log, block)
  {
  }

  /** The text of a histogram is the block that its log calls for. */
  lemma HistogramPrinted(h: HistogramView, log: seq<Observation>)
    requires HistogramLogged(h, log)
    ensures HistogramBlock(h, log, HistogramText(h, ""))
  {
    PartsPrinted(h, log);
    HistogramTail(h);
    Partitioned(h, log, HistogramText(h, ""), Blocks(h, Listing(h.tables.counts.Keys)));
  }

  // Block by block

  ghost function MetricBlocks(ms: seq<MetricView>, sub: string): seq<seq<Line>> {
    seq(|ms|, i requires 0 <= i < |ms| => MetricText(ms[i], sub))
  }

  ghost function HistogramBlocks(hs: seq<HistogramView>, sub: string): seq<seq<Line>> {
    seq(|hs|, i requires 0 <= i < |hs| => HistogramText(hs[i], sub))
  }

  lemma {:induction false} MetricBlocksAreText(ms: seq<MetricView>, sub: string)
    ensures Concat(MetricBlocks(ms, sub)) == MetricsText(ms, sub)
  {
    if ms != [] {
      MetricBlocksAreText(ms[..|ms| - 1], sub);
      assert MetricBlocks(ms, sub)[..|ms| - 1] == MetricBlocks(ms[..|ms| - 1], sub);
    }
  }

  lemma {:induction false} HistogramBlocksAreText(hs: seq<HistogramView>, sub: string)
    ensures Concat(HistogramBlocks(hs, sub)) == HistogramsText(hs, sub)
  {
    if hs != [] {
      HistogramBlocksAreText(hs[..|hs| - 1], sub);
      assert HistogramBlocks(hs, sub)[..|hs| - 1] == HistogramBlocks(hs[..|hs| - 1], sub);
    }
  }

  lemma {:induction false} ConcatJoin(a: seq<seq<Line>>, b: seq<seq<Line>>)
    ensures Concat(a + b) == Concat(a) + Concat(b)
  {
    if b == [] {
      assert a + b == a;
    } else {
      ConcatJoin(a, b[..|b| - 1]);
      assert (a + b)[..|a + b| - 1] == a + b[..|b| - 1];
    }
  }

  lemma BlocksAreText(ms: seq<MetricView>, hs: seq<HistogramView>, sub: string)
    ensures Concat(MetricBlocks(ms, sub) + HistogramBlocks(hs, sub)) == Text(ms, hs, sub)
  {
    MetricBlocksAreText(ms, sub);
    HistogramBlocksAreText(hs, sub);
    ConcatJoin(MetricBlocks(ms, sub), HistogramBlocks(hs, sub));
  }

  /** The metrics' blocks are those that their logs call for. */
  ghost predicate MetricBlocksOfLogs(ms: seq<MetricView>, logs: seq<seq<Change>>, blocks: seq<seq<Line>>) {
    |blocks| == |logs| == |ms| && forall i | 0 <= i < |ms| :: MetricBlock(ms[i], logs[i], blocks[i])
  }

  ghost predicate HistogramBlocksOfLogs(hs: seq<HistogramView>, logs: seq<seq<Observation>>, blocks: seq<seq<Line>>) {
    |blocks| == |logs| == |hs| && forall i | 0 <= i < |hs| :: HistogramBlock(hs[i], logs[i], blocks[i])
  }

  ghost predicate AllMetricsLogged(ms: seq<MetricView>, logs: seq<seq<Change>>) {
    |logs| == |ms| && forall i | 0 <= i < |ms| :: MetricLogged(ms[i], logs[i])
  }

  ghost predicate AllHistogramsLogged(hs: seq<HistogramView>, logs: seq<seq<Observation>>) {
    |logs| == |hs| && forall i | 0 <= i < |hs| :: HistogramLogged(hs[i], logs[i])
  }

  lemma MetricsPrinted(ms: seq<MetricView>, logs: seq<seq<Change>>)
    requires AllMetricsLogged(ms, logs)
    ensures MetricBlocksOfLogs(ms, logs, MetricBlocks(ms, ""))
  {
    forall i | 0 <= i < |ms| ensures MetricBlock(ms[i], logs[i], MetricBlocks(ms, "")[i]) { MetricPrinted(ms[i], logs[i]); }
  }

  lemma HistogramsPrinted(hs: seq<HistogramView>, logs: seq<seq<Observation>>)
    requires AllHistogramsLogged(hs, logs)
    ensures HistogramBlocksOfLogs(hs, logs, HistogramBlocks(hs, ""))
  {
    forall i | 0 <= i < |hs| ensures HistogramBlock(hs[i], logs[i], HistogramBlocks(hs, "")[i]) {
      HistogramPrinted(hs[i], logs[i]);
    }
  }

  /** A filtered block: nothing if the labels have no subdomain, or else the header and the samples that carry it. */
  function FilteredBlock(names: seq<string>, block: seq<Line>, sub: string): seq<Line>
    requires |block| >= 2
  {
    if "subdomain" !in names then [] else block[..2] + Keep(block, sub)
  }

  /** Each block filtered by itself. */
  ghost predicate Filters(names: seq<seq<string>>, blocks: seq<seq<Line>>, sub: string, filtered: seq<seq<Line>>) {
    && |filtered| == |blocks| == |names|
    && forall i | 0 <= i < |blocks| :: |blocks[i]| >= 2 && filtered[i] == FilteredBlock(names[i], blocks[i], sub)
  }

  function NamesOf(ms: seq<MetricView>): seq<seq<string>> {
    seq(|ms|, i requires 0 <= i < |ms| => ms[i].names)
  }

  function HistogramNames(hs: seq<HistogramView>): seq<seq<string>> {
    seq(|hs|, i requires 0 <= i < |hs| => hs[i].names)
  }

  lemma {:induction false} AllSamples(m: MetricView, keys: seq<string>, sub: string)
    ensures forall l | l in SeriesLines(m, keys, sub) :: l.Sample?
  {
    if keys != [] { AllSamples(m, keys[..|keys| - 1], sub); }
  }

  lemma MetricFilteredBlock(m: MetricView, sub: string)
    requires sub != ""
    ensures |MetricText(m, "")| >= 2
    ensures MetricText(m, sub) == FilteredBlock(m.names, MetricText(m, ""), sub)
  {
    MetricFiltered(m, sub);
    if SUBDOMAIN in m.names {
      var keys, head := Listing(m.values.Keys), [Help(m.name, m.help), Type(m.name, KindName(m.kind))];
      AllSamples(m, keys, sub);
      var rest := if keys == [] then [] else SeriesLines(m, keys, sub);
      UniformSamples(rest);
      Headed(head[0], head[1], rest, sub);
      assert MetricText(m, sub) == head + rest && MetricText(m, "")[..2] == head;
    }
  }

  lemma {:induction false} AllHistogramSamples(h: HistogramView, keys: seq<string>, sub: string)
    ensures forall l | l in HistogramLines(h, keys, sub) :: l.Sample?
  {
    if keys != [] {
      AllHistogramSamples(h, keys[..|keys| - 1], sub);
      BucketLabels(h, keys[|keys| - 1], |h.buckets|);
    }
  }

  lemma HistogramFilteredBlock(h: HistogramView, sub: string)
    requires sub != ""
    ensures |HistogramText(h, "")| >= 2
    ensures HistogramText(h, sub) == FilteredBlock(h.names, HistogramText(h, ""), sub)
  {
    HistogramFiltered(h, sub);
    if SUBDOMAIN in h.names {
      var keys, head := Listing(h.tables.counts.Keys), [Help(h.name, h.help), Type(h.name, "histogram")];
      AllHistogramSamples(h, keys, sub);
      UniformSamples(HistogramLines(h, keys, sub));
      Headed(head[0], head[1], HistogramLines(h, keys, sub), sub);
      assert HistogramText(h, sub) == head + HistogramLines(h, keys, sub) && HistogramText(h, "")[..2] == head;
    }
  }

  lemma MetricsFilter(ms: seq<MetricView>, sub: string)
    requires sub != ""
    ensures Filters(NamesOf(ms), MetricBlocks(ms, ""), sub, MetricBlocks(ms, sub))
  {
    forall i | 0 <= i < |ms|
      ensures |MetricBlocks(ms, "")[i]| >= 2
      ensures MetricBlocks(ms, sub)[i] == FilteredBlock(ms[i].names, MetricBlocks(ms, "")[i], sub)
    {
      MetricFilteredBlock(ms[i], sub);
    }
  }

  lemma HistogramsFilter(hs: seq<HistogramView>, sub: string)
    requires sub != ""
    ensures Filters(HistogramNames(hs), HistogramBlocks(hs, ""), sub, HistogramBlocks(hs, sub))
  {
    forall i | 0 <= i < |hs|
      ensures |HistogramBlocks(hs, "")[i]| >= 2
      ensures HistogramBlocks(hs, sub)[i] == FilteredBlock(hs[i].names, HistogramBlocks(hs, "")[i], sub)
    {
      HistogramFilteredBlock(hs[i], sub);
    }
  }

  /** The blocks of an output, the metrics' first, and what a filter makes of them. */
  datatype Layout = Layout(metrics: seq<seq<Line>>, histograms: seq<seq<Line>>) {
    function Lines(): seq<Line> { Concat(metrics + histograms) }
  }

  /** What the output has to be: the full one has the blocks that the logs call for, in registration order; the one for a
      subdomain has each of them filtered. */
  ghost predicate IsOutput(ms: seq<MetricView>, changes: seq<seq<Change>>, hs: seq<HistogramView>,
                           observations: seq<seq<Observation>>, sub: string, full: Layout, out: Layout) {
    && MetricBlocksOfLogs(ms, changes, full.metrics) && HistogramBlocksOfLogs(hs, observations, full.histograms)
    && if sub == "" then out == full
       else
         && Filters(NamesOf(ms), full.metrics, sub, out.metrics)
         && Filters(HistogramNames(hs), full.histograms, sub, out.histograms)
  }

  /** The text is the output that everything ever added, set and observed calls for. */
  lemma TextIsOutput(ms: seq<MetricView>, changes: seq<seq<Change>>, hs: seq<HistogramView>, observations: seq<seq<Observation>>,
                     sub: string)
    returns (full: Layout, out: Layout)
    requires AllMetricsLogged(ms, changes) && AllHistogramsLogged(hs, observations)
    ensures IsOutput(ms, changes, hs, observations, sub, full, out) && Text(ms, hs, sub) == out.Lines()
  {
    full, out := Layout(MetricBlocks(ms, ""), HistogramBlocks(hs, "")), Layout(MetricBlocks(ms, sub), HistogramBlocks(hs, sub));
    BlocksAreText(ms, hs, sub);
    MetricsPrinted(ms, changes);
    HistogramsPrinted(hs, observations);
    if sub != "" {
      MetricsFilter(ms, sub);
      HistogramsFilter(hs, sub);
    }
  }

  // ---- the printing loops ----

  /** Every series has its sum and its row of buckets, so the printing loop indexes within range. */
  ghost predicate Printable(h: HistogramView) {
    && h.tables.sums.Keys == h.tables.rows.Keys == h.tables.counts.Keys
    && (forall k | k in h.tables.rows :: |h.tables.rows[k]| == |h.buckets|)
  }

  lemma ReplayedIsPrintable(h: HistogramView, log: seq<Observation>)
    requires h.tables == Replayed(h.names, h.buckets, log)
    ensures Printable(h)
  {
    KeysAgree(h.names, h.buckets, log);
    forall k | k in h.tables.rows ensures |h.tables.rows[k]| == |h.buckets| {
      SeriesAgrees(h.names, h.buckets, log, k, 0);
    }
  }

  method WriteMetric(m: MetricView, sub: string) returns (out: seq<Line>)
    ensures out == MetricText(m, sub)
  {
    if sub != "" && SUBDOMAIN !in m.names {
      return [];
    }
    out := [Help(m.name, m.help), Type(m.name, KindName(m.kind))];
    if |m.values| == 0 {
      assert m.values.Keys == {};
      if |m.names| == 0 {
        out := out + [Sample(m.name, map[], None, Num(0.0))];
      }
      return;
    }
    var keys := SortedKeys(m.values.Keys);
    var series := WriteSeries(m, keys, sub);
    out := out + series;
  }

  method WriteSeries(m: MetricView, keys: seq<string>, sub: string) returns (out: seq<Line>)
    requires forall k | k in keys :: k in m.values
    ensures out == SeriesLines(m, keys, sub)
  {
    out := [];
    for i := 0 to |keys|
      invariant out == SeriesLines(m, keys[..i], sub)
    {
      assert keys[..i + 1][..i] == keys[..i];
      var k := keys[i];
      var labels := ParseKeyLoop(m.names, k);
      if sub != "" && Get(labels, SUBDOMAIN, "") != sub {
        continue;
      }
      out := out + [Sample(m.name, labels, None, Num(m.values[k]))];
    }
    assert keys[..|keys|] == keys;
  }

  method WriteHistogram(h: HistogramView, sub: string) returns (out: seq<Line>)
    requires Printable(h)
    ensures out == HistogramText(h, sub)
  {
    if sub != "" && SUBDOMAIN !in h.names {
      return [];
    }
    out := [Help(h.name, h.help), Type(h.name, "histogram")];
    var keys := SortedKeys(h.tables.counts.Keys);
    var series := WriteAllSeries(h, keys, sub);
    out := out + series;
  }

  method WriteAllSeries(h: HistogramView, keys: seq<string>, sub: string) returns (out: seq<Line>)
    requires Printable(h) && forall k | k in keys :: k in h.tables.counts
    ensures out == HistogramLines(h, keys, sub)
  {
    out := [];
    for i := 0 to |keys|
      invariant out == HistogramLines(h, keys[..i], sub)
    {
      assert keys[..i + 1][..i] == keys[..i];
      var k := keys[i];
      var labels := ParseKeyLoop(h.names, k);
      if sub != "" && Get(labels, SUBDOMAIN, "") != sub {
        continue;
      }
      assert k in keys;
      var series := WriteHistogramSeries(h, k, labels);
      out := out + series;
    }
    assert keys[..|keys|] == keys;
  }

  method WriteHistogramSeries(h: HistogramView, k: string, labels: Labels) returns (out: seq<Line>)
    requires Printable(h) && k in h.tables.counts && labels == ParseKey(h.names, k)
    ensures out == HistogramSeries(h, k)
  {
    out := [];
    for i := 0 to |h.buckets|
      invariant out == BucketLines(h, k, i)
    {
      out := out + [Sample(h.name + "_bucket", labels, Some(Le(h.buckets[i])), Cnt(h.tables.rows[k][i]))];
    }
    out := out + [Sample(h.name + "_bucket", labels, Some(Infinite), Cnt(h.tables.counts[k])),
                  Sample(h.name + "_sum", labels, None, Num(h.tables.sums[k])),
                  Sample(h.name + "_count", labels, None, Cnt(h.tables.counts[k]))];
  }

  method WriteMetrics(ms: seq<MetricView>, sub: string) returns (out: seq<Line>)
    ensures out == MetricsText(ms, sub)
  {
    out := [];
    for i := 0 to |ms|
      invariant out == MetricsText(ms[..i], sub)
    {
      var part := WriteMetric(ms[i], sub);
      out := out + part;
      assert ms[..i + 1][..i] == ms[..i];
    }
    assert ms[..|ms|] == ms;
  }

  method WriteHistograms(hs: seq<HistogramView>, sub: string) returns (out: seq<Line>)
    requires forall i | 0 <= i < |hs| :: Printable(hs[i])
    ensures out == HistogramsText(hs, sub)
  {
    out := [];
    for i := 0 to |hs|
      invariant out == HistogramsText(hs[..i], sub)
    {
      var part := WriteHistogram(hs[i], sub);
      out := out + part;
      assert hs[..i + 1][..i] == hs[..i];
    }
    assert hs[..|hs|] == hs;
  }

  // ---- the registry ----

  function ViewOf(m: MetricData): MetricView
    reads m
  {
    MetricView(m.name, m.help, m.kind, m.labels, m.values)
  }

  function HistogramViewOf(h: HistogramData): HistogramView
    reads h, h.bcount.Values
  {
    HistogramView(h.name, h.help, h.labels, h.buckets, h.View())
  }

  function Views(ms: seq<MetricData>): seq<MetricView>
    reads ms
  {
    seq(|ms|, i requires 0 <= i < |ms| reads ms => ViewOf(ms[i]))
  }

  ghost function ChangeLogs(ms: seq<MetricData>): seq<seq<Change>>
    reads ms
  {
    seq(|ms|, i requires 0 <= i < |ms| reads ms => ms[i].log)
  }

  ghost function ObservationLogs(hs: seq<HistogramData>): seq<seq<Observation>>
    reads hs
  {
    seq(|hs|, i requires 0 <= i < |hs| reads hs => hs[i].log)
  }

  ghost function RowsOf(hs: seq<HistogramData>): set<object>
    reads hs
  {
    set h: HistogramData, a: array<nat> | h in hs && a in h.bcount.Values :: a
  }

  function HistogramViews(hs: seq<HistogramData>): seq<HistogramView>
    reads hs, RowsOf(hs)
  {
    seq(|hs|, i requires 0 <= i < |hs| reads hs, RowsOf(hs) => HistogramViewOf(hs[i]))
  }

  lemma KeysOfHistogram(h: HistogramData)
    requires h.Valid()
    ensures h.sums.Keys == h.counts.Keys == ObservedKeys(h.labels, h.log)
    ensures forall k | k in h.counts :: h.sums[k] == SumIn(h.labels, h.log, {k}) && h.counts[k] == CountIn(h.labels, h.log, {k})
    ensures Printable(HistogramViewOf(h))
  {
    var t := Replayed(h.labels, h.buckets, h.log);
    KeysAgree(h.labels, h.buckets, h.log);
    ReplayedIsPrintable(HistogramViewOf(h), h.log);
    assert h.View().sums == t.sums && h.View().counts == t.counts;
    forall k | k in h.counts
      ensures h.sums[k] == SumIn(h.labels, h.log, {k}) && h.counts[k] == CountIn(h.labels, h.log, {k})
    {
      SeriesAgrees(h.labels, h.buckets, h.log, k, 0);
    }
  }

  lemma PrintableViews(hs: seq<HistogramData>)
    requires forall h | h in hs :: h.Valid()
    ensures forall i | 0 <= i < |HistogramViews(hs)| :: Printable(HistogramViews(hs)[i])
  {
    forall i | 0 <= i < |hs| ensures Printable(HistogramViews(hs)[i]) {
      assert hs[i] in hs;
      KeysOfHistogram(hs[i]);
    }
  }

  class Registry {
    var metrics: seq<MetricData>
    var histograms: seq<HistogramData>

    ghost predicate HistogramsValid()
      reads this`histograms, histograms, RowsOf(histograms)
    {
      && (forall h | h in histograms :: h.Valid())
      && (forall g, h | g in histograms && h in histograms && g != h :: g.bcount.Values !! h.bcount.Values)
    }

    ghost predicate Valid()
      reads this, metrics, histograms, RowsOf(histograms)
    {
      HistogramsValid() && forall m | m in metrics :: m.Valid()
    }

    constructor ()
      ensures Valid() && metrics == [] && histograms == []
    {
      metrics, histograms := [], [];
    }

    /** A registered counter starts empty. */
    method Counter(name: string, help: string, names: seq<string>) returns (m: MetricData)
      requires Valid()
      modifies this`metrics
      ensures Valid() && metrics == old(metrics) + [m] && fresh(m) && m.log == []
      ensures m.kind == CounterKind && ViewOf(m) == MetricView(name, help, CounterKind, names, map[])
    {
      m := new MetricData(name, help, CounterKind, names);
      metrics := metrics + [m];
    }

    /** A registered gauge starts empty. */
    method Gauge(name: string, help: string, names: seq<string>) returns (m: MetricData)
      requires Valid()
      modifies this`metrics
      ensures Valid() && metrics == old(metrics) + [m] && fresh(m) && m.log == []
      ensures m.kind == GaugeKind && ViewOf(m) == MetricView(name, help, GaugeKind, names, map[])
    {
      m := new MetricData(name, help, GaugeKind, names);
      metrics := metrics + [m];
    }

    /** An addition to one registered metric leaves all other metrics and all histograms alone. */
    method Add(m: MetricData, ls: Labels, v: real)
      requires Valid() && m in metrics
      modifies m
      ensures Valid() && m.log == old(m.log) + [Change.Add(ls, v)]
    {
      m.AddTo(ls, v);
    }

    /** Setting one registered gauge leaves all other metrics and all histograms alone. */
    method Set(m: MetricData, ls: Labels, v: real)
      requires Valid() && m in metrics
      modifies m
      ensures Valid() && m.log == old(m.log) + [Change.Set(ls, v)]
    {
      m.SetTo(ls, v);
    }

    /** A registered histogram starts empty. */
    method Histogram(name: string, help: string, names: seq<string>, buckets: seq<real>) returns (h: HistogramData)
      requires HistogramsValid()
      modifies this`histograms
      ensures HistogramsValid() && histograms == old(histograms) + [h] && fresh(h) && h.log == []
      ensures HistogramViewOf(h) == HistogramView(name, help, names, buckets, Tables(map[], map[], map[]))
    {
      h := new HistogramData(name, help, names, buckets);
      histograms := histograms + [h];
    }

    /** An observation on one registered histogram leaves every other one alone. */
    method Observe(h: HistogramData, ls: Labels, v: real)
      requires HistogramsValid() && h in histograms
      modifies h, h.bcount.Values
      ensures HistogramsValid() && h.log == old(h.log) + [Observation(ls, v)]
      ensures forall g | g in histograms && g != h :: g.log == old(g.log)
    {
      h.Observe(ls, v);
      forall g | g in histograms && g != h
        ensures g.Valid() && g.bcount.Values !! h.bcount.Values && g.log == old(g.log)
      {
        assert g.bcount.Values == old(g.bcount.Values) && g.bcount.Values !! old(h.bcount.Values);
      }
    }

    /** The labels that were ever used have no NUL in them. */
    ghost predicate AllStorable()
      reads this, metrics, histograms
    {
      && (forall m | m in metrics :: forall c | c in m.log :: Storable(m.labels, c.labels))
      && (forall h | h in histograms :: StorableLog(h.labels, h.log))
    }

    lemma LoggedViews()
      requires Valid() && AllStorable()
      ensures AllMetricsLogged(Views(metrics), ChangeLogs(metrics))
      ensures AllHistogramsLogged(HistogramViews(histograms), ObservationLogs(histograms))
    {
      forall i | 0 <= i < |metrics| ensures MetricLogged(Views(metrics)[i], ChangeLogs(metrics)[i]) {
        assert metrics[i] in metrics && metrics[i].Valid();
      }
      forall i | 0 <= i < |histograms| ensures HistogramLogged(HistogramViews(histograms)[i], ObservationLogs(histograms)[i]) {
        assert histograms[i] in histograms && histograms[i].Valid();
      }
    }

    /** WriteTo and WriteToFiltered: everything is read under one lock, so the output is that of one state, and it is what
        everything ever added, set and observed calls for. */
    method WriteTo(sub: string) returns (out: seq<Line>, ghost full: Layout, ghost printed: Layout)
      requires Valid()
      ensures out == Text(old(Views(metrics)), old(HistogramViews(histograms)), sub)
      ensures old(AllStorable()) ==>
                && out == printed.Lines()
                && IsOutput(old(Views(metrics)), old(ChangeLogs(metrics)), old(HistogramViews(histograms)),
                            old(ObservationLogs(histograms)), sub, full, printed)
    {
      full, printed := Layout([], []), Layout([], []);
      if AllStorable() {
        full, printed := Explained(sub);
      }
      out := WriteText(sub);
    }

    method WriteText(sub: string) returns (out: seq<Line>)
      requires Valid()
      ensures out == Text(old(Views(metrics)), old(HistogramViews(histograms)), sub)
    {
      PrintableViews(histograms);
      var ms, hs := Views(metrics), HistogramViews(histograms);
      var first := WriteMetrics(ms, sub);
      var second := WriteHistograms(hs, sub);
      out := first + second;
    }

    lemma Explained(sub: string) returns (full: Layout, printed: Layout)
      requires Valid() && AllStorable()
      ensures Text(Views(metrics), HistogramViews(histograms), sub) == printed.Lines()
      ensures IsOutput(Views(metrics), ChangeLogs(metrics), HistogramViews(histograms), ObservationLogs(histograms), sub,
                       full, printed)
    {
      LoggedViews();
      full, printed := TextIsOutput(Views(metrics), ChangeLogs(metrics), HistogramViews(histograms),
                                    ObservationLogs(histograms), sub);
    }

    /** The observations of every histogram with a name, made with a subdomain: their sum and their number. */
    static ghost function TotalSum(hs: seq<HistogramData>, name: string, sub: string): real
      reads hs
    {
      if hs == [] then 0.0
      else
        var h := hs[|hs| - 1];
        TotalSum(hs[..|hs| - 1], name, sub) + if h.name == name then SumSeen(h.labels, h.log, sub) else 0.0
    }

    static ghost function TotalCount(hs: seq<HistogramData>, name: string, sub: string): nat
      reads hs
    {
      if hs == [] then 0
      else
        var h := hs[|hs| - 1];
        TotalCount(hs[..|hs| - 1], name, sub) + if h.name == name then CountSeen(h.labels, h.log, sub) else 0
    }

    static lemma {:induction false} NoneNamed(hs: seq<HistogramData>, name: string, sub: string)
      requires forall i | 0 <= i < |hs| :: hs[i].name != name
      ensures TotalSum(hs, name, sub) == 0.0 && TotalCount(hs, name, sub) == 0
    {
      if hs != [] {
        NoneNamed(hs[..|hs| - 1], name, sub);
      }
    }

    /** If one histogram has the name, as with every histogram of docknap, the totals are those of its own observations. */
    static lemma {:induction false} OneNamed(hs: seq<HistogramData>, i: nat, name: string, sub: string)
      requires i < |hs| && hs[i].name == name && forall j | 0 <= j < |hs| && j != i :: hs[j].name != name
      ensures TotalSum(hs, name, sub) == SumSeen(hs[i].labels, hs[i].log, sub)
      ensures TotalCount(hs, name, sub) == CountSeen(hs[i].labels, hs[i].log, sub)
    {
      var n := |hs| - 1;
      if i < n {
        OneNamed(hs[..n], i, name, sub);
      } else {
        NoneNamed(hs[..n], name, sub);
      }
    }

    /** What one histogram contributes. */
    static method StatsOf(h: HistogramData, sub: string) returns (sum: real, count: nat)
      requires h.Valid()
      ensures StorableLog(h.labels, h.log) ==> sum == SumSeen(h.labels, h.log, sub) && count == CountSeen(h.labels, h.log, sub)
    {
      KeysOfHistogram(h);
      sum, count := AddSeries(h.labels, h.sums, h.counts, sub, h.log);
    }

    static lemma OneMore(hs: seq<HistogramData>, i: nat, name: string, sub: string)
      requires i < |hs|
      ensures TotalSum(hs[..i + 1], name, sub) ==
              TotalSum(hs[..i], name, sub) + if hs[i].name == name then SumSeen(hs[i].labels, hs[i].log, sub) else 0.0
      ensures TotalCount(hs[..i + 1], name, sub) ==
              TotalCount(hs[..i], name, sub) + if hs[i].name == name then CountSeen(hs[i].labels, hs[i].log, sub) else 0
    {
      assert hs[..i + 1][..i] == hs[..i];
    }

    /** Every observation on the histograms of a name has labels without NUL. */
    static ghost predicate NamedStorable(hs: seq<HistogramData>, name: string)
      reads hs
    {
      forall i | 0 <= i < |hs| && hs[i].name == name :: StorableLog(hs[i].labels, hs[i].log)
    }

    /** The statistics of a subdomain are the sum and the number of exactly the observations made with it, on every
        histogram of that name, whatever further labels they carry. */
    method HistogramStats(name: string, sub: string) returns (sum: real, count: nat)
      requires HistogramsValid()
      ensures NamedStorable(histograms, name) ==>
                sum == TotalSum(histograms, name, sub) && count == TotalCount(histograms, name, sub)
    {
      sum, count := 0.0, 0;
      var hs := histograms;
      ghost var storable := NamedStorable(hs, name);
      for i := 0 to |hs|
        invariant storable ==> sum == TotalSum(hs[..i], name, sub) && count == TotalCount(hs[..i], name, sub)
      {
        OneMore(hs, i, name, sub);
        var h := hs[i];
        assert h in hs;
        if h.name != name {
          continue;
        }
        var s, c := StatsOf(h, sub);
        sum, count := sum + s, count + c;
      }
      assert hs[..|hs|] == hs;
    }
  }
}
