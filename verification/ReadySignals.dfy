/** The one-shot ready channels: subscribers wait in a service's list until one broadcaster takes the whole list
    and signals it, or until the service disappears. */
module ReadySignals {
  import opened Tally
  import opened Services

  /** A channel with a one-slot buffer: how often it was signalled and whether a signal is waiting in it. */
  datatype Chan = Chan(signals: nat, full: bool)

  /** `lists` are the channels of each service, `sending` what each broadcaster has still to signal, `discarded` is
      history: the channels whose service disappeared. Channels are numbered in order of creation. */
  datatype Ready = Ready(lists: map<string, seq<nat>>, sending: seq<seq<nat>>, chans: seq<Chan>, discarded: set<nat>)

  datatype Step =
    | Subscribe(sub: string)
    | Take(sub: string)
    | Send(b: nat)
    | Receive(ch: nat)
    | Register(sub: string)
    | Drop(sub: string)

  predicate Enabled(r: Ready, step: Step) {
    match step
    case Send(b) => b < |r.sending| && r.sending[b] != []
    case Receive(ch) => ch < |r.chans| && r.chans[ch].full
    case _ => true
  }

  /** The non-blocking send: a full buffer takes the default branch. */
  function Signal(chans: seq<Chan>, ch: nat): seq<Chan> {
    if ch < |chans| && !chans[ch].full then chans[ch := Chan(chans[ch].signals + 1, true)] else chans
  }

  function Apply(r: Ready, step: Step): Ready {
    match step
    case Subscribe(sub) =>
      r.(lists := r.lists[sub := Get(r.lists, sub, []) + [|r.chans|]], chans := r.chans + [Chan(0, false)])
    case Take(sub) =>
      if sub in r.lists then r.(lists := r.lists[sub := []], sending := r.sending + [r.lists[sub]]) else r
    case Send(b) =>
      if b < |r.sending| && r.sending[b] != [] then
        r.(sending := r.sending[b := r.sending[b][1..]], chans := Signal(r.chans, r.sending[b][0]))
      else r
    case Receive(ch) => if ch < |r.chans| then r.(chans := r.chans[ch := r.chans[ch].(full := false)]) else r
    case Register(sub) => r.(lists := r.lists[sub := Get(r.lists, sub, [])])
    case Drop(sub) =>
      r.(lists := r.lists - {sub}, discarded := r.discarded + (set ch | ch in Get(r.lists, sub, [])))
  }

  function Exec(steps: seq<Step>): Ready {
    if steps == [] then Ready(map[], [], [], {}) else Apply(Exec(steps[..|steps| - 1]), steps[|steps| - 1])
  }

  predicate Legal(steps: seq<Step>) {
    steps == [] || (Legal(steps[..|steps| - 1]) && Enabled(Exec(steps[..|steps| - 1]), steps[|steps| - 1]))
  }

  /** Where a channel can be. */
  datatype Place = Listed(sub: string) | Sending(b: nat) | Signalled | Discarded

  ghost predicate At(r: Ready, ch: nat, p: Place) {
    match p
    case Listed(sub) => sub in r.lists && ch in r.lists[sub]
    case Sending(b) => b < |r.sending| && ch in r.sending[b]
    case Signalled => ch < |r.chans| && r.chans[ch].signals > 0
    case Discarded => ch in r.discarded
  }

  ghost predicate Distinct(s: seq<nat>) {
    forall i, j | 0 <= i < j < |s| :: s[i] != s[j]
  }

  /** `places` tells for every channel the one place where it is. */
  ghost predicate Placed(r: Ready, places: seq<Place>) {
    && |places| == |r.chans|
    && (forall ch: nat, p | At(r, ch, p) :: ch < |places| && places[ch] == p)
    && (forall ch: nat | ch < |places| :: At(r, ch, places[ch]))
    && (forall sub | sub in r.lists :: Distinct(r.lists[sub]))
    && (forall b | 0 <= b < |r.sending| :: Distinct(r.sending[b]))
    && (forall ch: nat | ch < |r.chans| :: r.chans[ch].signals <= 1 && (r.chans[ch].full ==> r.chans[ch].signals == 1))
  }

  /** The places after a step. */
  ghost function Moved(r: Ready, step: Step, places: seq<Place>): seq<Place> {
    match step
    case Subscribe(sub) => places + [Listed(sub)]
    case Take(sub) =>
      seq(|places|, ch requires 0 <= ch < |places| => if places[ch] == Listed(sub) then Sending(|r.sending|) else places[ch])
    case Drop(sub) =>
      seq(|places|, ch requires 0 <= ch < |places| => if places[ch] == Listed(sub) then Discarded else places[ch])
    case Send(b) =>
      if b < |r.sending| && r.sending[b] != [] && r.sending[b][0] < |places| then places[r.sending[b][0] := Signalled]
      else places
    case _ => places
  }

  lemma PlacedSubscribe(r: Ready, places: seq<Place>, sub: string)
    requires Placed(r, places)
    ensures Placed(Apply(r, Subscribe(sub)), Moved(r, Subscribe(sub), places))
  {
    var r' := Apply(r, Subscribe(sub));
    var n := |r.chans|;
    assert forall ch: nat, p :: At(r', ch, p) <==> At(r, ch, p) || (ch == n && p == Listed(sub));
    assert forall s | s in r.lists :: forall ch | ch in r.lists[s] :: At(r, ch, Listed(s));
    var list := Get(r.lists, sub, []);
    if sub in r.lists {
      assert forall ch | ch in list :: At(r, ch, Listed(sub));
    }
    assert n !in list;
    assert Distinct(list + [n]);
  }

  lemma PlacedTake(r: Ready, places: seq<Place>, sub: string)
    requires Placed(r, places)
    ensures Placed(Apply(r, Take(sub)), Moved(r, Take(sub), places))
  {
    var r' := Apply(r, Take(sub));
    if sub in r.lists {
      assert forall ch: nat, p :: At(r', ch, p) <==>
               (At(r, ch, p) && p != Listed(sub)) || (At(r, ch, Listed(sub)) && p == Sending(|r.sending|));
    } else {
      assert forall ch: nat :: !At(r, ch, Listed(sub));
      assert Moved(r, Take(sub), places) == places;
    }
  }

  lemma PlacedDrop(r: Ready, places: seq<Place>, sub: string)
    requires Placed(r, places)
    ensures Placed(Apply(r, Drop(sub)), Moved(r, Drop(sub), places))
  {
    var r' := Apply(r, Drop(sub));
    assert forall ch: nat, p :: At(r', ch, p) <==>
             (At(r, ch, p) && p != Listed(sub)) || (At(r, ch, Listed(sub)) && p == Discarded);
  }

  /** The channel a broadcaster is about to signal has never been signalled, so its buffer is empty. */
  lemma NextIsUnsignalled(r: Ready, places: seq<Place>, b: nat)
    requires Placed(r, places) && Enabled(r, Send(b))
    ensures var ch := r.sending[b][0];
            && ch < |r.chans| && r.chans[ch] == Chan(0, false)
            && places[ch] == Sending(b) && ch !in r.sending[b][1..]
  {
    var ch := r.sending[b][0];
    assert At(r, ch, Sending(b));
    assert !At(r, ch, Signalled);
  }

  lemma PlacedSend(r: Ready, places: seq<Place>, b: nat)
    requires Placed(r, places) && Enabled(r, Send(b))
    ensures Placed(Apply(r, Send(b)), Moved(r, Send(b), places))
  {
    var r' := Apply(r, Send(b));
    var ch0 := r.sending[b][0];
    NextIsUnsignalled(r, places, b);
    assert r.sending[b] == [ch0] + r.sending[b][1..];
    assert forall ch: nat, p :: At(r', ch, p) <==>
             (At(r, ch, p) && !(ch == ch0 && p == Sending(b))) || (ch == ch0 && p == Signalled);
  }

  lemma PlacedStep(r: Ready, places: seq<Place>, step: Step)
    requires Placed(r, places) && Enabled(r, step)
    ensures Placed(Apply(r, step), Moved(r, step, places))
  {
    match step
    case Subscribe(sub) => PlacedSubscribe(r, places, sub);
    case Take(sub) => PlacedTake(r, places, sub);
    case Drop(sub) => PlacedDrop(r, places, sub);
    case Send(b) => PlacedSend(r, places, b);
    case Receive(ch) =>
      assert forall c: nat, p :: At(Apply(r, step), c, p) <==> At(r, c, p);
    case Register(sub) =>
      assert forall c: nat, p :: At(Apply(r, step), c, p) <==> At(r, c, p);
  }

  lemma {:induction false} PlacedRun(steps: seq<Step>) returns (places: seq<Place>)
    requires Legal(steps)
    ensures Placed(Exec(steps), places)
  {
    places := [];
    if steps != [] {
      var before := PlacedRun(steps[..|steps| - 1]);
      PlacedStep(Exec(steps[..|steps| - 1]), before, steps[|steps| - 1]);
      places := Moved(Exec(steps[..|steps| - 1]), steps[|steps| - 1], before);
    }
  }

  /** Over every run each channel is in exactly one place, once, and is signalled at most once. */
  lemma SignalledAtMostOnce(steps: seq<Step>, ch: nat) returns (place: Place)
    requires Legal(steps) && ch < |Exec(steps).chans|
    ensures var r := Exec(steps);
            && (forall p :: At(r, ch, p) <==> p == place)
            && r.chans[ch].signals <= 1
            && (place.Listed? ==> place.sub in r.lists && Distinct(r.lists[place.sub]))
            && (place.Sending? ==> place.b < |r.sending| && Distinct(r.sending[place.b]))
  {
    var places := PlacedRun(steps);
    place := places[ch];
    assert At(Exec(steps), ch, place);
  }

  /** The default branch of the send is unreachable: whichever broadcaster sends next finds an empty buffer. */
  lemma SendNeverFallsThrough(steps: seq<Step>, b: nat)
    requires Legal(steps) && Enabled(Exec(steps), Send(b))
    ensures var r := Exec(steps);
            var ch := r.sending[b][0];
            && ch < |r.chans| && !r.chans[ch].full
            && Apply(r, Send(b)).chans[ch].signals == 1
  {
    var places := PlacedRun(steps);
    NextIsUnsignalled(Exec(steps), places, b);
  }

  /** How often a channel was received from in a run. */
  ghost function Receipts(steps: seq<Step>, ch: nat): nat {
    if steps == [] then 0 else Receipts(steps[..|steps| - 1], ch) + if steps[|steps| - 1] == Receive(ch) then 1 else 0
  }

  /** The signals of a channel that are no longer in its buffer. */
  function Gone(chans: seq<Chan>, ch: nat): int {
    if ch < |chans| then chans[ch].signals - (if chans[ch].full then 1 else 0) else 0
  }

  lemma SignalKeepsGone(chans: seq<Chan>, at: nat, ch: nat)
    ensures Gone(Signal(chans, at), ch) == Gone(chans, ch) && |Signal(chans, at)| == |chans|
  {
  }

  lemma GoneStep(r: Ready, step: Step, ch: nat)
    requires Enabled(r, step)
    ensures Gone(Apply(r, step).chans, ch) == Gone(r.chans, ch) + if step == Receive(ch) then 1 else 0
  {
    match step
    case Send(b) => SignalKeepsGone(r.chans, r.sending[b][0], ch);
    case _ =>
  }

  /** Every signal is received once or still waits, over every run: nobody receives a signal that was not sent, and none is
      lost on the way. */
  lemma {:induction false} SignalsAreReceived(steps: seq<Step>, ch: nat)
    requires Legal(steps)
    ensures var r := Exec(steps);
            if ch < |r.chans| then r.chans[ch].signals == Receipts(steps, ch) + (if r.chans[ch].full then 1 else 0)
            else Receipts(steps, ch) == 0
  {
    if steps != [] {
      SignalsAreReceived(steps[..|steps| - 1], ch);
      GoneStep(Exec(steps[..|steps| - 1]), steps[|steps| - 1], ch);
      assert Receipts(steps, ch) == Gone(Exec(steps).chans, ch);
    }
  }
}
