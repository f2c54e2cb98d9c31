/** The per-service event history: at most a hundred events are kept, and the history page counts them by kind. */
module EventHistory {
  import opened Tally
  import opened Services

  const MAX: nat := 100

  datatype Kind =
    | StartRequested | StartError | StartupTimeout | BecameReady | IdleStopped | Stopped | Paused | StopError | Disappeared

  /** The text is that of an error; the other kinds have fixed texts, which the model leaves out. */
  datatype Event = Event(time: int, kind: Kind, error: Option<string>)

  /** One call of either recording function. */
  datatype Entry = Entry(sub: string, event: Event)

  /** What recordEvent and recordEventLocked store for a service that had `hist`. */
  function Appended(hist: seq<Event>, ev: Event): seq<Event> {
    var longer := hist + [ev];
    if |longer| > MAX then longer[|longer| - MAX..] else longer
  }

  function Record(events: map<string, seq<Event>>, sub: string, ev: Event): map<string, seq<Event>> {
    events[sub := Appended(Get(events, sub, []), ev)]
  }

  /** The history after a run of recordings; a disappearance and a later registration only add entries. */
  ghost function Stored(log: seq<Entry>): map<string, seq<Event>> {
    if log == [] then map[] else Record(Stored(log[..|log| - 1]), log[|log| - 1].sub, log[|log| - 1].event)
  }

  /** All events ever recorded for a service. */
  ghost function Of(log: seq<Entry>, sub: string): seq<Event> {
    if log == [] then []
    else Of(log[..|log| - 1], sub) + if log[|log| - 1].sub == sub then [log[|log| - 1].event] else []
  }

  ghost function Suffix(s: seq<Event>, n: nat): seq<Event> {
    if |s| <= n then s else s[|s| - n..]
  }

  lemma SuffixStep(s: seq<Event>, ev: Event)
    ensures Appended(Suffix(s, MAX), ev) == Suffix(s + [ev], MAX)
  {
    if |s| >= MAX {
      assert (s[|s| - MAX..] + [ev])[1..] == (s + [ev])[|s| + 1 - MAX..];
    }
  }

  /** The stored history of a service is the last hundred of all events recorded for it, over every run. */
  lemma {:induction false} StoredIsSuffix(log: seq<Entry>, sub: string)
    ensures Get(Stored(log), sub, []) == Suffix(Of(log, sub), MAX)
    ensures var all, stored := Of(log, sub), Get(Stored(log), sub, []);
            |stored| == (if |all| < 100 then |all| else 100) && stored == all[|all| - |stored|..]
    ensures sub in Stored(log) <==> Of(log, sub) != []
  {
    if log != [] {
      StoredIsSuffix(log[..|log| - 1], sub);
      SuffixStep(Of(log[..|log| - 1], sub), log[|log| - 1].event);
    }
  }

  lemma StoredAppend(log: seq<Entry>, sub: string, ev: Event)
    ensures Stored(log + [Entry(sub, ev)]) == Record(Stored(log), sub, ev)
  {
    assert (log + [Entry(sub, ev)])[..|log|] == log;
  }

  /** The kinds of the events. */
  function Kinds(evs: seq<Event>): seq<Kind> {
    seq(|evs|, i requires 0 <= i < |evs| => evs[i].kind)
  }

  /** The sum of all counts. */
  ghost function Total(counts: map<Kind, nat>): nat {
    if counts == map[] then 0 else counts[AnyKind(counts)] + Total(counts - {AnyKind(counts)})
  }

  ghost function AnyKind(counts: map<Kind, nat>): (k: Kind)
    requires counts != map[]
    ensures k in counts
  {
    var k :| k in counts;
    k
  }

  lemma {:induction false} TotalWithout(counts: map<Kind, nat>, k: Kind)
    requires k in counts
    ensures Total(counts) == counts[k] + Total(counts - {k})
    decreases counts
  {
    var j := AnyKind(counts);
    if j != k {
      var a, b := counts - {j}, counts - {k};
      TotalWithout(a, k);
      TotalWithout(b, j);
      assert a - {k} == b - {j};
    }
  }

  lemma TotalBump(counts: map<Kind, nat>, k: Kind)
    ensures Total(counts[k := Get(counts, k, 0) + 1]) == Total(counts) + 1
  {
    var after := counts[k := Get(counts, k, 0) + 1];
    TotalWithout(after, k);
    if k in counts {
      TotalWithout(counts, k);
    }
    assert after - {k} == counts - {k};
    if k !in counts {
      assert counts - {k} == counts;
    }
  }

  predicate Occurs(evs: seq<Event>, k: Kind) {
    exists ev | ev in evs :: ev.kind == k
  }

  lemma KindsMore(evs: seq<Event>, i: nat)
    requires i < |evs|
    ensures Kinds(evs[..i + 1]) == Kinds(evs[..i]) + [evs[i].kind]
    ensures forall k: Kind :: Occurs(evs[..i + 1], k) <==> Occurs(evs[..i], k) || evs[i].kind == k
  {
    assert evs[..i + 1] == evs[..i] + [evs[i]];
  }

  /** The counting loop of the history page: every kind is counted exactly, and the counts add up to the events shown. */
  method EventCounts(evs: seq<Event>) returns (counts: map<Kind, nat>)
    ensures forall k: Kind :: Get(counts, k, 0) == multiset(Kinds(evs))[k]
    ensures forall k: Kind :: k in counts <==> Occurs(evs, k)
    ensures Total(counts) == |evs|
  {
    counts := map[];
    for i := 0 to |evs|
      invariant forall k: Kind :: Get(counts, k, 0) == multiset(Kinds(evs[..i]))[k]
      invariant forall k: Kind :: k in counts <==> Occurs(evs[..i], k)
      invariant Total(counts) == i
    {
      TotalBump(counts, evs[i].kind);
      KindsMore(evs, i);
      counts := counts[evs[i].kind := Get(counts, evs[i].kind, 0) + 1];
    }
    assert evs[..|evs|] == evs;
  }

  /** What the history page reports for a service: the last events, and counts that add up to how many there are. */
  method History(events: map<string, seq<Event>>, sub: string, ghost log: seq<Entry>)
    returns (evs: seq<Event>, counts: map<Kind, nat>)
    requires events == Stored(log)
    ensures |evs| == (if |Of(log, sub)| < 100 then |Of(log, sub)| else 100) && evs == Of(log, sub)[|Of(log, sub)| - |evs|..]
    ensures Total(counts) == |evs|
    ensures forall k: Kind :: Get(counts, k, 0) == multiset(Kinds(evs))[k]
  {
    StoredIsSuffix(log, sub);
    evs := Get(events, sub, []);
    counts := EventCounts(evs);
  }
}
