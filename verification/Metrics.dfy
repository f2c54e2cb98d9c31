/** The metrics registry: counters, gauges and histograms keyed by flattened labels, each with the log
    of everything that was ever added to it. */
module Metrics {
  import opened Services
  import opened LabelKeys

  // ---- what a log means ----

  datatype Change = Add(labels: Labels, v: real) | Set(labels: Labels, v: real)

  /** The value of one series after a log of changes; a series starts at zero. */
  ghost function Replay(names: seq<string>, log: seq<Change>, k: string): real {
    if log == [] then 0.0
    else
      var last := log[|log| - 1];
      var before := Replay(names, log[..|log| - 1], k);
      if Key(names, last.labels) != k then before else if last.Set? then last.v else before + last.v
  }

  ghost function ChangedKeys(names: seq<string>, log: seq<Change>): set<string> {
    set c | c in log :: Key(names, c.labels)
  }

  datatype Observation = Observation(labels: Labels, v: real)

  ghost function ObservedKeys(names: seq<string>, log: seq<Observation>): set<string> {
    set o | o in log :: Key(names, o.labels)
  }

  /** The observations whose key is in `ks`: their sum, their number, and how many of them are at most `bound`. */
  ghost function SumIn(names: seq<string>, log: seq<Observation>, ks: set<string>): real {
    if log == [] then 0.0
    else
      var last := log[|log| - 1];
      SumIn(names, log[..|log| - 1], ks) + if Key(names, last.labels) in ks then last.v else 0.0
  }

  ghost function CountIn(names: seq<string>, log: seq<Observation>, ks: set<string>): nat {
    if log == [] then 0
    else CountIn(names, log[..|log| - 1], ks) + if Key(names, log[|log| - 1].labels) in ks then 1 else 0
  }

  ghost function AtMost(names: seq<string>, log: seq<Observation>, k: string, bound: real): nat {
    if log == [] then 0
    else
      var last := log[|log| - 1];
      AtMost(names, log[..|log| - 1], k, bound) + if Key(names, last.labels) == k && last.v <= bound then 1 else 0
  }

  // ---- the data ----

  datatype MetricKind = CounterKind | GaugeKind

  /** The values are those that the log gives. */
  ghost predicate Replays(values: map<string, real>, names: seq<string>, log: seq<Change>) {
    && values.Keys == ChangedKeys(names, log)
    && (forall k | k in values :: values[k] == Replay(names, log, k))
  }

  /** One more change, made to the values as well. */
  lemma ChangeReplays(values: map<string, real>, names: seq<string>, log: seq<Change>, c: Change)
    requires Replays(values, names, log)
    ensures var k := Key(names, c.labels);
            Replays(values[k := if c.Set? then c.v else Get(values, k, 0.0) + c.v], names, log + [c])
  {
    LogChange(names, log, c);
  }

  class MetricData {
    const name: string
    const help: string
    const kind: MetricKind
    const labels: seq<string>
    var values: map<string, real>
    ghost var log: seq<Change>

    /** Every series that was ever touched is there, with the value its log gives. */
    ghost predicate Valid()
      reads this
    {
      Replays(values, labels, log)
    }

    constructor (name: string, help: string, kind: MetricKind, labels: seq<string>)
      ensures Valid() && log == []
      ensures this.name == name && this.help == help && this.kind == kind && this.labels == labels
    {
      this.name := name;
      this.help := help;
      this.kind := kind;
      this.labels := labels;
      this.values := map[];
      this.log := [];
    }

    method AddTo(ls: Labels, v: real)
      requires Valid()
      modifies this
      ensures Valid() && log == old(log) + [Add(ls, v)]
    {
      var k := LabelKey(labels, ls);
      ChangeReplays(values, labels, log, Add(ls, v));
      values := values[k := Get(values, k, 0.0) + v];
      log := log + [Add(ls, v)];
    }

    method SetTo(ls: Labels, v: real)
      requires Valid()
      modifies this
      ensures Valid() && log == old(log) + [Set(ls, v)]
    {
      var k := LabelKey(labels, ls);
      ChangeReplays(values, labels, log, Set(ls, v));
      values := values[k := v];
      log := log + [Set(ls, v)];
    }
  }

  lemma {:induction false} UntouchedIsZero(names: seq<string>, log: seq<Change>, k: string)
    requires k !in ChangedKeys(names, log)
    ensures Replay(names, log, k) == 0.0
  {
    if log != [] {
      assert log[|log| - 1] in log;
      UntouchedIsZero(names, log[..|log| - 1], k);
    }
  }

  lemma LogChange(names: seq<string>, log: seq<Change>, c: Change)
    ensures ChangedKeys(names, log + [c]) == ChangedKeys(names, log) + {Key(names, c.labels)}
    ensures forall k :: Replay(names, log + [c], k) ==
                        if Key(names, c.labels) != k then Replay(names, log, k)
                        else if c.Set? then c.v else Replay(names, log, k) + c.v
    ensures Key(names, c.labels) !in ChangedKeys(names, log) ==> Replay(names, log, Key(names, c.labels)) == 0.0
  {
    assert (log + [c])[..|log|] == log;
    forall k ensures k in ChangedKeys(names, log + [c]) <==> k in ChangedKeys(names, log) + {Key(names, c.labels)} {
      if k in ChangedKeys(names, log) {
        var d :| d in log && Key(names, d.labels) == k;
        assert d in log + [c];
      }
      assert c in log + [c];
    }
    if Key(names, c.labels) !in ChangedKeys(names, log) {
      UntouchedIsZero(names, log, Key(names, c.labels));
    }
  }

  ghost function Zeros(n: nat): seq<nat> {
    seq(n, _ => 0)
  }

  /** A row after one more observation: every bound that is at least `v` counts one more. */
  ghost function Bumped(buckets: seq<real>, row: seq<nat>, v: real): seq<nat> {
    seq(|row|, i requires 0 <= i < |row| => row[i] + if i < |buckets| && v <= buckets[i] then 1 else 0)
  }

  /** The maps of a histogram as values. */
  datatype Tables = Tables(sums: map<string, real>, counts: map<string, nat>, rows: map<string, seq<nat>>)

  /** One observation of series `k`. */
  ghost function Entered(t: Tables, buckets: seq<real>, k: string, v: real): Tables {
    Tables(t.sums[k := Get(t.sums, k, 0.0) + v],
           t.counts[k := Get(t.counts, k, 0) + 1],
           t.rows[k := Bumped(buckets, Get(t.rows, k, Zeros(|buckets|)), v)])
  }

  /** The maps after a log of observations. */
  ghost function Replayed(names: seq<string>, buckets: seq<real>, log: seq<Observation>): Tables {
    if log == [] then Tables(map[], map[], map[])
    else
      var last := log[|log| - 1];
      Entered(Replayed(names, buckets, log[..|log| - 1]), buckets, Key(names, last.labels), last.v)
  }

  lemma ReplayedStep(names: seq<string>, buckets: seq<real>, log: seq<Observation>, o: Observation)
    ensures Replayed(names, buckets, log + [o]) == Entered(Replayed(names, buckets, log), buckets, Key(names, o.labels), o.v)
  {
    assert (log + [o])[..|log|] == log;
  }

  class HistogramData {
    const name: string
    const help: string
    const labels: seq<string>
    const buckets: seq<real>
    var sums: map<string, real>
    var counts: map<string, nat>
    var bcount: map<string, array<nat>>
    ghost var log: seq<Observation>

    function View(): Tables
      reads this`sums, this`counts, this`bcount, bcount.Values
    {
      Tables(sums, counts, map k | k in bcount :: bcount[k][..])
    }

    /** The maps are those of the log; every row has one slot per bound, and no two series share a row. */
    ghost predicate Valid()
      reads this, bcount.Values
    {
      && View() == Replayed(labels, buckets, log)
      && Separate()
    }

    ghost predicate Separate()
      reads this`bcount
    {
      && (forall k | k in bcount :: bcount[k].Length == |buckets|)
      && (forall k, l | k in bcount && l in bcount && k != l :: bcount[k] != bcount[l])
    }

    constructor (name: string, help: string, labels: seq<string>, buckets: seq<real>)
      ensures Valid() && log == [] && bcount == map[]
      ensures this.name == name && this.help == help && this.labels == labels && this.buckets == buckets
    {
      this.name := name;
      this.help := help;
      this.labels := labels;
      this.buckets := buckets;
      this.sums := map[];
      this.counts := map[];
      this.bcount := map[];
      this.log := [];
    }

    method Observe(ls: Labels, v: real)
      requires Valid()
      modifies this`sums, this`counts, this`bcount, this`log, bcount.Values
      ensures Valid() && log == old(log) + [Observation(ls, v)]
      ensures fresh(bcount.Values - old(bcount.Values))
    {
      var k := LabelKey(labels, ls);
      ReplayedStep(labels, buckets, log, Observation(ls, v));
      ghost var more := log + [Observation(ls, v)];
      Enter(k, v);
      assert View() == Replayed(labels, buckets, more);
      log := more;
    }

    /** The update of the three maps. */
    method Enter(k: string, v: real)
      requires Separate()
      modifies this`sums, this`counts, this`bcount, bcount.Values
      ensures Separate() && fresh(bcount.Values - old(bcount.Values))
      ensures View() == Entered(old(View()), buckets, k, v)
    {
      EnterTotals(k, v);
      BumpRow(k, v);
    }

    method EnterTotals(k: string, v: real)
      modifies this`sums, this`counts
      ensures View() == old(View()).(sums := old(sums)[k := Get(old(sums), k, 0.0) + v],
                                     counts := old(counts)[k := Get(old(counts), k, 0) + 1])
    {
      sums := sums[k := Get(sums, k, 0.0) + v];
      counts := counts[k := Get(counts, k, 0) + 1];
    }

    method BumpRow(k: string, v: real)
      requires Separate()
      modifies this`bcount, bcount.Values
      ensures Separate() && fresh(bcount.Values - old(bcount.Values))
      ensures View() == old(View()).(rows := old(View()).rows[k := Bumped(buckets, Get(old(View()).rows, k, Zeros(|buckets|)), v)])
    {
      EnsureRow(k);
      CountInRow(k, v);
    }

    /** A row of zeros on the first observation of a series. */
    method EnsureRow(k: string)
      requires Separate()
      modifies this`bcount
      ensures Separate() && k in bcount
      ensures View() == old(View()).(rows := old(View()).rows[k := Get(old(View()).rows, k, Zeros(|buckets|))])
      ensures fresh(bcount.Values - old(bcount.Values))
    {
      if k !in bcount {
        var zeros := new nat[|buckets|](_ => 0);
        assert zeros[..] == Zeros(|buckets|);
        bcount := bcount[k := zeros];
      }
    }

    /** The bucket loop: in the row of `k`, every bound that is at least `v` counts one more. */
    method CountInRow(k: string, v: real)
      requires Separate() && k in bcount
      modifies bcount[k]
      ensures View() == old(View()).(rows := old(View()).rows[k := Bumped(buckets, old(View()).rows[k], v)])
    {
      var row := bcount[k];
      for i := 0 to |buckets|
        invariant forall j | 0 <= j < i :: row[j] == old(row[j]) + if v <= buckets[j] then 1 else 0
        invariant forall j | i <= j < |buckets| :: row[j] == old(row[j])
      {
        if v <= buckets[i] {
          row[i] := row[i] + 1;
        }
      }
      assert row[..] == Bumped(buckets, old(row[..]), v);
      assert forall l | l in bcount && l != k :: bcount[l][..] == old(bcount[l][..]);
    }
  }

  // ---- what the maps mean ----

  /** The keys are exactly the observed ones, in all three maps. */
  lemma ObservedMore(names: seq<string>, log: seq<Observation>, last: Observation)
    ensures ObservedKeys(names, log + [last]) == ObservedKeys(names, log) + {Key(names, last.labels)}
  {
    forall k
      ensures k in ObservedKeys(names, log + [last]) <==> k in ObservedKeys(names, log) + {Key(names, last.labels)}
    {
      if k in ObservedKeys(names, log) {
        var o :| o in log && Key(names, o.labels) == k;
        assert o in log + [last];
      }
      assert last in log + [last];
    }
  }

  lemma {:induction false} KeysAgree(names: seq<string>, buckets: seq<real>, log: seq<Observation>)
    ensures var t := Replayed(names, buckets, log);
            t.sums.Keys == t.counts.Keys == t.rows.Keys == ObservedKeys(names, log)
  {
    if log != [] {
      var before, last := log[..|log| - 1], log[|log| - 1];
      KeysAgree(names, buckets, before);
      assert log == before + [last];
      ObservedMore(names, before, last);
    }
  }

  /** The stored sum and count of a series are those of its observations, and slot i of its row is the number of
      its observations that are at most bound i. A series that is not stored has none. */
  lemma {:induction false} SeriesAgrees(names: seq<string>, buckets: seq<real>, log: seq<Observation>, k: string, i: nat)
    ensures var t := Replayed(names, buckets, log);
            && Get(t.sums, k, 0.0) == SumIn(names, log, {k})
            && Get(t.counts, k, 0) == CountIn(names, log, {k})
            && |Get(t.rows, k, Zeros(|buckets|))| == |buckets|
            && (i < |buckets| ==> Get(t.rows, k, Zeros(|buckets|))[i] == AtMost(names, log, k, buckets[i]))
  {
    if log != [] {
      var before, last := log[..|log| - 1], log[|log| - 1];
      SeriesAgrees(names, buckets, before, k, i);
    }
  }

  /** Emitted buckets never decrease as the bounds grow, and never exceed the total. */
  lemma {:induction false} BucketsCumulative(names: seq<string>, log: seq<Observation>, k: string, low: real, high: real)
    requires low <= high
    ensures AtMost(names, log, k, low) <= AtMost(names, log, k, high) <= CountIn(names, log, {k})
  {
    if log != [] {
      BucketsCumulative(names, log[..|log| - 1], k, low, high);
    }
  }

  /** The sum of the additions whose labels agree with `ls` on the metric's names. */
  ghost function SumFor(names: seq<string>, log: seq<Change>, ls: Labels): real {
    if log == [] then 0.0
    else
      var last := log[|log| - 1];
      SumFor(names, log[..|log| - 1], ls) + if Restrict(names, last.labels) == Restrict(names, ls) then last.v else 0.0
  }

  /** A counter's series is the sum of exactly the additions made with its labels. */
  lemma {:induction false} CounterIsSum(names: seq<string>, log: seq<Change>, ls: Labels)
    requires TailStorable(names, ls) && forall c | c in log :: c.Add? && TailStorable(names, c.labels)
    ensures Replay(names, log, Key(names, ls)) == SumFor(names, log, ls)
  {
    if log != [] {
      var last := log[|log| - 1];
      assert last in log;
      KeyInjective(names, last.labels, ls);
      CounterIsSum(names, log[..|log| - 1], ls);
    }
  }

  lemma ReplayMore(names: seq<string>, log: seq<Change>, c: Change, k: string)
    ensures Replay(names, log + [c], k) ==
            if Key(names, c.labels) != k then Replay(names, log, k) else if c.Set? then c.v else Replay(names, log, k) + c.v
  {
    assert (log + [c])[..|log|] == log;
  }

  /** A gauge's series is what it was last set to, plus what was added since. */
  lemma {:induction false} GaugeIsLastSetting(names: seq<string>, before: seq<Change>, c: Change, after: seq<Change>, ls: Labels)
    requires c.Set? && TailStorable(names, c.labels) && TailStorable(names, ls) && Restrict(names, c.labels) == Restrict(names, ls)
    requires forall d | d in after :: TailStorable(names, d.labels)
    requires forall d | d in after && d.Set? :: Restrict(names, d.labels) != Restrict(names, ls)
    ensures Replay(names, before + [c] + after, Key(names, ls)) == c.v + AddedFor(names, after, ls)
  {
    if after == [] {
      assert before + [c] + after == before + [c];
      KeyInjective(names, c.labels, ls);
      ReplayMore(names, before, c, Key(names, ls));
    } else {
      var front, last := after[..|after| - 1], after[|after| - 1];
      assert before + [c] + after == before + [c] + front + [last] && last in after;
      GaugeIsLastSetting(names, before, c, front, ls);
      KeyInjective(names, last.labels, ls);
      ReplayMore(names, before + [c] + front, last, Key(names, ls));
    }
  }

  /** The sum of the additions, and not of the settings, whose labels agree with `ls` on the metric's names. */
  ghost function AddedFor(names: seq<string>, log: seq<Change>, ls: Labels): real {
    if log == [] then 0.0
    else
      var last := log[|log| - 1];
      AddedFor(names, log[..|log| - 1], ls)
      + if last.Add? && Restrict(names, last.labels) == Restrict(names, ls) then last.v else 0.0
  }

  // ---- statistics by subdomain ----

  const SUBDOMAIN: string := "subdomain"

  /** The subdomain a key carries. */
  function SubdomainOf(names: seq<string>, k: string): string {
    Get(ParseKey(names, k), SUBDOMAIN, "")
  }

  /** The subdomain an observation was made with, as far as the histogram has that label. */
  function Seen(names: seq<string>, ls: Labels): string {
    if "subdomain" in names then Get(ls, "subdomain", "") else ""
  }

  lemma SubdomainSurvives(names: seq<string>, ls: Labels)
    requires Storable(names, ls)
    ensures SubdomainOf(names, Key(names, ls)) == Seen(names, ls)
  {
    KeyRoundTrip(names, ls);
  }

  ghost function SumSeen(names: seq<string>, log: seq<Observation>, sub: string): real {
    if log == [] then 0.0
    else
      var last := log[|log| - 1];
      SumSeen(names, log[..|log| - 1], sub) + if Seen(names, last.labels) == sub then last.v else 0.0
  }

  ghost function CountSeen(names: seq<string>, log: seq<Observation>, sub: string): nat {
    if log == [] then 0
    else CountSeen(names, log[..|log| - 1], sub) + if Seen(names, log[|log| - 1].labels) == sub then 1 else 0
  }

  ghost predicate StorableLog(names: seq<string>, log: seq<Observation>) {
    forall o | o in log :: Storable(names, o.labels)
  }

  /** The keys among `ks` that carry a subdomain. */
  ghost function Carrying(names: seq<string>, ks: set<string>, sub: string): set<string> {
    set k | k in ks && SubdomainOf(names, k) == sub
  }

  /** Adding up the series of a subdomain adds up exactly the observations made with it. */
  lemma {:induction false} CarryingIsSeen(names: seq<string>, log: seq<Observation>, ks: set<string>, sub: string)
    requires StorableLog(names, log) && ObservedKeys(names, log) <= ks
    ensures SumIn(names, log, Carrying(names, ks, sub)) == SumSeen(names, log, sub)
    ensures CountIn(names, log, Carrying(names, ks, sub)) == CountSeen(names, log, sub)
  {
    if log != [] {
      var before, last := log[..|log| - 1], log[|log| - 1];
      assert last in log;
      forall k | k in ObservedKeys(names, before) ensures k in ks {
        var o :| o in before && Key(names, o.labels) == k;
        assert o in log;
      }
      assert Key(names, last.labels) in ObservedKeys(names, log);
      SubdomainSurvives(names, last.labels);
      CarryingIsSeen(names, before, ks, sub);
    }
  }

  lemma {:induction false} SumInSplit(names: seq<string>, log: seq<Observation>, ks: set<string>, k: string)
    requires k !in ks
    ensures SumIn(names, log, ks + {k}) == SumIn(names, log, ks) + SumIn(names, log, {k})
    ensures CountIn(names, log, ks + {k}) == CountIn(names, log, ks) + CountIn(names, log, {k})
  {
    if log != [] {
      SumInSplit(names, log[..|log| - 1], ks, k);
    }
  }

  lemma {:induction false} SumInNothing(names: seq<string>, log: seq<Observation>)
    ensures SumIn(names, log, {}) == 0.0 && CountIn(names, log, {}) == 0
  {
    if log != [] {
      SumInNothing(names, log[..|log| - 1]);
    }
  }

  lemma CarryingStep(names: seq<string>, log: seq<Observation>, done: set<string>, k: string, sub: string)
    requires k !in done
    ensures var more := if SubdomainOf(names, k) == sub then {k} else {};
            && SumIn(names, log, Carrying(names, done + {k}, sub)) ==
               SumIn(names, log, Carrying(names, done, sub)) + SumIn(names, log, more)
            && CountIn(names, log, Carrying(names, done + {k}, sub)) ==
               CountIn(names, log, Carrying(names, done, sub)) + CountIn(names, log, more)
  {
    SumInNothing(names, log);
    if SubdomainOf(names, k) == sub {
      SumInSplit(names, log, Carrying(names, done, sub), k);
      assert Carrying(names, done + {k}, sub) == Carrying(names, done, sub) + {k};
    } else {
      assert Carrying(names, done + {k}, sub) == Carrying(names, done, sub);
    }
  }

  /** The inner loop of HistogramStats, in whatever order the map yields its keys. */
  method AddSeries(names: seq<string>, sums: map<string, real>, counts: map<string, nat>, sub: string, ghost log: seq<Observation>)
    returns (sum: real, count: nat)
    requires sums.Keys == counts.Keys == ObservedKeys(names, log)
    requires forall k | k in counts :: sums[k] == SumIn(names, log, {k}) && counts[k] == CountIn(names, log, {k})
    ensures StorableLog(names, log) ==> sum == SumSeen(names, log, sub) && count == CountSeen(names, log, sub)
  {
    sum, count := 0.0, 0;
    var left := counts.Keys;
    NothingDone(names, log, counts.Keys, sub);
    while left != {}
      invariant left <= counts.Keys
      invariant sum == SumIn(names, log, Carrying(names, counts.Keys - left, sub))
      invariant count == CountIn(names, log, Carrying(names, counts.Keys - left, sub))
      decreases |left|
    {
      var k :| k in left;
      var labels := ParseKeyLoop(names, k);
      OneMoreDone(names, log, counts.Keys, left, k, sub);
      left := left - {k};
      if Get(labels, SUBDOMAIN, "") != sub {
        continue;
      }
      sum := sum + sums[k];
      count := count + counts[k];
    }
    if StorableLog(names, log) {
      assert counts.Keys - left == counts.Keys;
      CarryingIsSeen(names, log, counts.Keys, sub);
    }
  }

  lemma NothingDone(names: seq<string>, log: seq<Observation>, keys: set<string>, sub: string)
    ensures SumIn(names, log, Carrying(names, keys - keys, sub)) == 0.0
    ensures CountIn(names, log, Carrying(names, keys - keys, sub)) == 0
  {
    assert keys - keys == {};
    assert Carrying(names, {}, sub) == {};
    SumInNothing(names, log);
  }

  lemma OneMoreDone(names: seq<string>, log: seq<Observation>, keys: set<string>, left: set<string>, k: string, sub: string)
    requires k in left && left <= keys
    ensures var done, done' := keys - left, keys - (left - {k});
            && SumIn(names, log, Carrying(names, done', sub)) == SumIn(names, log, Carrying(names, done, sub))
                 + (if SubdomainOf(names, k) == sub then SumIn(names, log, {k}) else 0.0)
            && CountIn(names, log, Carrying(names, done', sub)) == CountIn(names, log, Carrying(names, done, sub))
                 + (if SubdomainOf(names, k) == sub then CountIn(names, log, {k}) else 0)
  {
    assert keys - (left - {k}) == (keys - left) + {k};
    CarryingStep(names, log, keys - left, k, sub);
    SumInNothing(names, log);
  }
}
