/** Live logs: one tail per service and one buffered channel per viewer. */
module LogHub {
  import opened Services
  import F = LogFrames

  /** The slots of a viewer's channel. */
  const SLOTS: nat := 64

  // Tails

  /** A tail: the service it reads, whether its context was cancelled, and whether it has come to an end by itself, because
      the log could not be opened, was over, or was cut. */
  datatype Tail = Tail(sub: string, cancelled: bool, ended: bool)

  /** `cancels` maps services to tails. */
  datatype Tails = Tails(cancels: map<string, nat>, tails: seq<Tail>)

  function Cancel(tails: seq<Tail>, c: nat): seq<Tail> {
    if c < |tails| then tails[c := tails[c].(cancelled := true)] else tails
  }

  function CancelStored(t: Tails, sub: string): seq<Tail> {
    if sub in t.cancels then Cancel(t.tails, t.cancels[sub]) else t.tails
  }

  /** A viewer opening or closing the log page of a service, a tail that ends by itself, and the shutdown. Docker ends the
      log of a container that stops. */
  datatype Visit = Open(sub: string) | Close(sub: string) | End(tail: nat) | Shutdown

  function Apply(t: Tails, v: Visit): Tails {
    match v
    case Open(sub) => Tails(t.cancels[sub := |t.tails|], CancelStored(t, sub) + [Tail(sub, false, false)])
    case Close(sub) => Tails(t.cancels - {sub}, CancelStored(t, sub))
    case End(c) => if c < |t.tails| then t.(tails := t.tails[c := t.tails[c].(ended := true)]) else t
    case Shutdown =>
      Tails(map[], seq(|t.tails|, c requires 0 <= c < |t.tails| =>
                         t.tails[c].(cancelled := t.tails[c].cancelled || c in t.cancels.Values)))
  }

  function Exec(visits: seq<Visit>): Tails {
    if visits == [] then Tails(map[], []) else Apply(Exec(visits[..|visits| - 1]), visits[|visits| - 1])
  }

  /** A tail is not cancelled exactly if it is the stored one of its service. */
  ghost predicate StoredRun(t: Tails) {
    && (forall sub | sub in t.cancels ::
          && t.cancels[sub] < |t.tails| && t.tails[t.cancels[sub]].sub == sub && !t.tails[t.cancels[sub]].cancelled)
    && (forall c: nat | c < |t.tails| && !t.tails[c].cancelled ::
          t.tails[c].sub in t.cancels && t.cancels[t.tails[c].sub] == c)
  }

  lemma OpenKeepsStored(t: Tails, sub: string)
    requires StoredRun(t)
    ensures StoredRun(Apply(t, Open(sub)))
  {
  }

  lemma StoredRunStep(t: Tails, v: Visit)
    requires StoredRun(t)
    ensures StoredRun(Apply(t, v))
  {
    match v
    case Open(sub) => OpenKeepsStored(t, sub);
    case Shutdown => assert forall sub | sub in t.cancels :: t.cancels[sub] in t.cancels.Values;
    case _ =>
  }

  lemma {:induction false} StoredRunAlways(visits: seq<Visit>)
    ensures StoredRun(Exec(visits))
  {
    if visits != [] {
      StoredRunAlways(visits[..|visits| - 1]);
      StoredRunStep(Exec(visits[..|visits| - 1]), visits[|visits| - 1]);
    }
  }

  /** Tail `c` reads the log of `sub`. */
  ghost predicate Runs(t: Tails, sub: string, c: nat) {
    c < |t.tails| && t.tails[c] == Tail(sub, false, false)
  }

  /** No tail leaks: over every run a service has at most one tail whose context is not cancelled, and so at most one that
      reads its log. */
  lemma {:induction false} OneTailEach(visits: seq<Visit>, c: nat, d: nat)
    requires var t := Exec(visits);
             && c < |t.tails| && d < |t.tails| && !t.tails[c].cancelled && !t.tails[d].cancelled
             && t.tails[c].sub == t.tails[d].sub
    ensures c == d
  {
    StoredRunAlways(visits);
  }

  /** How many pages were opened: the number of the next tail. */
  ghost function Opened(visits: seq<Visit>): nat {
    if visits == [] then 0
    else Opened(visits[..|visits| - 1]) + if visits[|visits| - 1].Open? then 1 else 0
  }

  lemma {:induction false} TailPerOpening(visits: seq<Visit>)
    ensures |Exec(visits).tails| == Opened(visits)
  {
    if visits != [] {
      TailPerOpening(visits[..|visits| - 1]);
    }
  }

  /** Nothing has stopped the tail `c` of `sub`: no viewer of the service has left or come, and it has not ended. */
  ghost predicate Undisturbed(v: Visit, sub: string, c: nat) {
    v != Open(sub) && v != Close(sub) && v != End(c) && v != Shutdown
  }

  /** Visit `p` opened a page of `sub`, and nothing has stopped its tail since. */
  ghost predicate Stands(visits: seq<Visit>, sub: string, p: nat) {
    && p < |visits| && visits[p] == Open(sub)
    && forall q | p < q < |visits| :: Undisturbed(visits[q], sub, Opened(visits[..p]))
  }

  lemma StandsBefore(visits: seq<Visit>, v: Visit, sub: string, p: nat)
    ensures p < |visits| ==>
              (Stands(visits + [v], sub, p) <==> Stands(visits, sub, p) && Undisturbed(v, sub, Opened(visits[..p])))
    ensures p == |visits| ==> (Stands(visits + [v], sub, p) <==> v == Open(sub))
  {
    if p < |visits| {
      var all, c := visits + [v], Opened(visits[..p]);
      assert all[..p] == visits[..p];
      assert forall q | p < q < |visits| :: all[q] == visits[q];
      if Stands(all, sub, p) {
        assert forall q | p < q < |visits| :: Undisturbed(all[q], sub, c);
        assert Undisturbed(all[|visits|], sub, c);
      }
    }
  }

  /** The tail that reads the log of a service is the one of an opening that nothing has stopped, and the other way round. */
  lemma {:induction false} RunsIffStands(visits: seq<Visit>, sub: string, c: nat)
    ensures Runs(Exec(visits), sub, c) <==> exists p: nat :: Stands(visits, sub, p) && Opened(visits[..p]) == c
  {
    if visits != [] {
      var front, v := visits[..|visits| - 1], visits[|visits| - 1];
      assert visits == front + [v];
      RunsIffStands(front, sub, c);
      StoredRunAlways(front);
      TailPerOpening(front);
      forall p: nat | p < |front|
        ensures Stands(visits, sub, p) && Opened(visits[..p]) == c
                <==> Stands(front, sub, p) && Opened(front[..p]) == c && Undisturbed(v, sub, c)
      {
        StandsBefore(front, v, sub, p);
        assert visits[..p] == front[..p];
      }
      StandsBefore(front, v, sub, |front|);
      assert visits[..|front|] == front;
      RunsStep(Exec(front), v, sub, c);
    }
  }

  lemma RunsStep(t: Tails, v: Visit, sub: string, c: nat)
    requires StoredRun(t)
    ensures Runs(Apply(t, v), sub, c) <==> (Runs(t, sub, c) && Undisturbed(v, sub, c)) || (v == Open(sub) && c == |t.tails|)
  {
    if v.Shutdown? && c < |t.tails| && !t.tails[c].cancelled {
      assert t.cancels[t.tails[c].sub] in t.cancels.Values;
    }
  }

  ghost predicate Tailed(t: Tails, sub: string) {
    exists c: nat :: Runs(t, sub, c)
  }

  /** "A service with a viewer has a running tail" holds exactly if some opening of its page has been followed by no departure
      of a viewer, no shutdown and not the end of that opening's tail: the first of two viewers to leave stops the tail
      of the other one, and a viewer who stays while the container stops sees nothing of its next start. */
  lemma TailedIffStands(visits: seq<Visit>, sub: string)
    ensures Tailed(Exec(visits), sub) <==> exists p: nat :: Stands(visits, sub, p)
  {
    forall c: nat
      ensures Runs(Exec(visits), sub, c) <==> exists p: nat :: Stands(visits, sub, p) && Opened(visits[..p]) == c
    {
      RunsIffStands(visits, sub, c);
    }
    if p: nat :| Stands(visits, sub, p) {
      assert Runs(Exec(visits), sub, Opened(visits[..p]));
    }
  }

  lemma SecondViewerStarves(sub: string)
    ensures !Tailed(Exec([Open(sub), Open(sub), Close(sub)]), sub)
  {
    var visits := [Open(sub), Open(sub), Close(sub)];
    TailedIffStands(visits, sub);
    assert visits[2] == Close(sub);
  }

  /** One viewer, a container that stops: no tail, however often the container starts again. */
  lemma LoneViewerStarves(sub: string)
    ensures !Tailed(Exec([Open(sub), End(0)]), sub)
  {
    var visits := [Open(sub), End(0)];
    TailedIffStands(visits, sub);
    assert visits[..0] == [] && visits[1] == End(0);
  }

  // Channels

  datatype LogLine = LogLine(body: seq<F.Byte>, err: bool)

  /** The list without the first `ch`. */
  function Removed(s: seq<nat>, ch: nat): seq<nat> {
    if s == [] then [] else if s[0] == ch then s[1..] else [s[0]] + Removed(s[1..], ch)
  }

  lemma {:induction false} RemovedAt(s: seq<nat>, i: nat, ch: nat)
    requires i <= |s| && forall k | 0 <= k < i :: s[k] != ch
    requires i < |s| ==> s[i] == ch
    ensures Removed(s, ch) == if i < |s| then s[..i] + s[i + 1..] else s
  {
    if i > 0 {
      RemovedAt(s[1..], i - 1, ch);
    }
  }

  /** Each channel once, and only channels below `n`. */
  ghost predicate Sound(s: seq<nat>, n: nat) {
    && (forall i | 0 <= i < |s| :: s[i] < n)
    && (forall i, j | 0 <= i < j < |s| :: s[i] != s[j])
  }

  lemma {:induction false} RemovedSound(s: seq<nat>, ch: nat, n: nat)
    requires Sound(s, n)
    ensures Sound(Removed(s, ch), n) && forall c :: c in Removed(s, ch) <==> c in s && c != ch
  {
    if s != [] {
      RemovedSound(s[1..], ch, n);
      assert s == [s[0]] + s[1..];
      assert s[0] !in s[1..];
    }
  }

  /** `left` is the list without `ch`, the others in their order. */
  ghost predicate WithoutViewer(list: seq<nat>, ch: nat, left: seq<nat>) {
    && (ch !in list ==> left == list)
    && (forall i | 0 <= i < |list| && list[i] == ch :: left == list[..i] + list[i + 1..])
  }

  class Hub {
    var subscribers: map<string, seq<nat>>
    var channels: seq<seq<LogLine>>
    var cancels: map<string, nat>
    var tails: seq<Tail>

    ghost function View(): Tails
      reads this`cancels, this`tails
    {
      Tails(cancels, tails)
    }

    /** Lists are not empty and hold each channel once. */
    ghost predicate ListsChannels()
      reads this`subscribers, this`channels
    {
      forall sub | sub in subscribers :: subscribers[sub] != [] && Sound(subscribers[sub], |channels|)
    }

    ghost predicate RunsTails()
      reads this`cancels, this`tails
    {
      StoredRun(View())
    }

    constructor ()
      ensures ListsChannels() && RunsTails() && View() == Exec([]) && subscribers == map[] && channels == []
    {
      subscribers, channels, cancels, tails := map[], [], map[], [];
    }

    /** A tail that is already running for the service is replaced. */
    method Start(sub: string) returns (c: nat)
      requires RunsTails()
      modifies this`cancels, this`tails
      ensures RunsTails() && View() == Apply(old(View()), Open(sub)) && c == |old(tails)|
    {
      StoredRunStep(View(), Open(sub));
      if sub in cancels {
        tails := tails[cancels[sub] := tails[cancels[sub]].(cancelled := true)];
      }
      c := |tails|;
      tails := tails + [Tail(sub, false, false)];
      cancels := cancels[sub := c];
    }

    method Stop(sub: string)
      requires RunsTails()
      modifies this`cancels, this`tails
      ensures RunsTails() && View() == Apply(old(View()), Close(sub))
    {
      StoredRunStep(View(), Close(sub));
      if sub in cancels {
        tails := tails[cancels[sub] := tails[cancels[sub]].(cancelled := true)];
        cancels := cancels - {sub};
      }
    }

    method StopAll()
      requires RunsTails()
      modifies this`cancels, this`tails
      ensures RunsTails() && View() == Apply(old(View()), Shutdown)
      ensures forall c | 0 <= c < |tails| :: tails[c].cancelled
    {
      StoredRunStep(View(), Shutdown);
      var rest := cancels.Keys;
      while rest != {}
        invariant rest <= cancels.Keys && cancels == old(cancels) && |tails| == |old(tails)|
        invariant forall c | 0 <= c < |tails| ::
                    tails[c] == old(tails)[c].(cancelled := old(tails)[c].cancelled || c in Cancelled(cancels, rest))
        decreases rest
      {
        var sub :| sub in rest;
        assert Cancelled(cancels, rest - {sub}) == Cancelled(cancels, rest) + {cancels[sub]};
        rest := rest - {sub};
        tails := tails[cancels[sub] := tails[cancels[sub]].(cancelled := true)];
      }
      assert Cancelled(cancels, {}) == cancels.Values;
      cancels := map[];
    }

    /** The tail's goroutine returns by itself; the stored cancel function stays where it is. */
    method EndTail(c: nat)
      requires RunsTails() && c < |tails|
      modifies this`tails
      ensures RunsTails() && View() == Apply(old(View()), End(c))
    {
      tails := tails[c := tails[c].(ended := true)];
    }

    method Subscribe(sub: string) returns (ch: nat)
      requires ListsChannels()
      modifies this`subscribers, this`channels
      ensures ListsChannels() && ch == |old(channels)| && channels == old(channels) + [[]]
      ensures subscribers == old(subscribers)[sub := Get(old(subscribers), sub, []) + [ch]]
    {
      ch := |channels|;
      channels := channels + [[]];
      var list := if sub in subscribers then subscribers[sub] else [];
      assert ch !in list;
      subscribers := subscribers[sub := list + [ch]];
    }

    method Find(subs: seq<nat>, ch: nat) returns (i: nat)
      ensures i <= |subs| && Removed(subs, ch) == if i < |subs| then subs[..i] + subs[i + 1..] else subs
      ensures i < |subs| ==> subs[i] == ch
      ensures forall k | 0 <= k < i :: subs[k] != ch
    {
      i := 0;
      while i < |subs| && subs[i] != ch
        invariant i <= |subs| && forall k | 0 <= k < i :: subs[k] != ch
      {
        i := i + 1;
      }
      RemovedAt(subs, i, ch);
    }

    method Unsubscribe(sub: string, ch: nat)
      requires ListsChannels()
      modifies this`subscribers
      ensures ListsChannels() && subscribers - {sub} == old(subscribers) - {sub}
      ensures WithoutViewer(Get(old(subscribers), sub, []), ch, Get(subscribers, sub, []))
      ensures sub in subscribers <==> exists c | c in Get(old(subscribers), sub, []) :: c != ch
    {
      var subs := if sub in subscribers then subscribers[sub] else [];
      var left := Dropped(subs, ch);
      if left == [] {
        subscribers := subscribers - {sub};
      } else {
        subscribers := subscribers[sub := left];
      }
    }

    /** The in-place removal of a viewer from a list. */
    method Dropped(subs: seq<nat>, ch: nat) returns (left: seq<nat>)
      requires Sound(subs, |channels|)
      ensures Sound(left, |channels|) && WithoutViewer(subs, ch, left)
      ensures left == [] <==> !exists c | c in subs :: c != ch
    {
      RemovedSound(subs, ch, |channels|);
      var i := Find(subs, ch);
      left := if i < |subs| then subs[..i] + subs[i + 1..] else subs;
      assert left != [] ==> left[0] in subs && left[0] != ch by { assert left != [] ==> left[0] in left; }
    }

    /** Every viewer of the service with a free slot gets the line behind those it already has; a full channel loses
        it, and no other channel changes. */
    method Publish(sub: string, line: F.Line)
      requires ListsChannels()
      modifies this`channels
      ensures ListsChannels() && |channels| == |old(channels)|
      ensures forall ch: nat | ch < |channels| ::
                channels[ch] == if sub in subscribers && ch in subscribers[sub] && |old(channels)[ch]| < 64
                                then old(channels)[ch] + [LogLine(line.body, line.stream == 2)]
                                else old(channels)[ch]
    {
      var out := LogLine(line.body, line.stream == 2);
      var subs := if sub in subscribers then subscribers[sub] else [];
      for i := 0 to |subs|
        invariant |channels| == |old(channels)|
        invariant forall ch: nat | ch < |channels| ::
                    channels[ch] == if ch in subs[..i] && |old(channels)[ch]| < SLOTS then old(channels)[ch] + [out]
                                    else old(channels)[ch]
      {
        assert subs[..i + 1] == subs[..i] + [subs[i]];
        assert subs[i] !in subs[..i];
        if |channels[subs[i]]| < SLOTS {
          channels := channels[subs[i] := channels[subs[i]] + [out]];
        }
      }
      assert subs[..|subs|] == subs;
    }
  }

  /** The tails of the services that are no longer in `rest`. */
  ghost function Cancelled(cancels: map<string, nat>, rest: set<string>): set<nat> {
    set sub | sub in cancels && sub !in rest :: cancels[sub]
  }
}
