/** The webhook queue: a bounded channel that many goroutines fill and one worker empties.

    The actions of all goroutines are recorded in one log, in the order in which they take effect on the channel. */
module Webhooks {
  import opened Tally

  /** The capacity of the channel. */
  const CAPACITY: nat := 256

  datatype Event = Event(kind: string, subdomain: string, container: string, message: string)

  /** What can happen to a sender. `Take` is the worker's receive and `Finish` its return from the POST, which may
      have failed; `Cancel` is the end of the parent context and `Close` the call to shutdown; `Quit` is the
      worker's return. */
  datatype Action = Notify(ev: Event) | Take | Finish | Cancel | Close | Quit

  datatype Queue = Queue(waiting: seq<Event>, inflight: Option<Event>, cancelled: bool, closed: bool, quit: bool)

  const EMPTY: Queue := Queue([], None, false, false, false)

  predicate Accepts(enabled: set<string>, q: Queue, ev: Event) {
    ev.kind in enabled && |q.waiting| < CAPACITY
  }

  /** The worker's select may still pick the queue after a shutdown has begun; closing twice panics. */
  predicate Enabled(q: Queue, a: Action) {
    match a
    case Take => !q.quit && q.inflight == None && q.waiting != []
    case Finish => q.inflight.Some?
    case Close => !q.closed
    case Quit => q.cancelled && !q.quit && q.inflight == None
    case _ => true
  }

  function Apply(enabled: set<string>, q: Queue, a: Action): Queue {
    match a
    case Notify(ev) => if Accepts(enabled, q, ev) then q.(waiting := q.waiting + [ev]) else q
    case Take => if q.waiting == [] then q else q.(waiting := q.waiting[1..], inflight := Some(q.waiting[0]))
    case Finish => q.(inflight := None)
    case Cancel => q.(cancelled := true)
    case Close => q.(cancelled := true, closed := true)
    case Quit => q.(quit := true)
  }

  ghost function Replay(enabled: set<string>, log: seq<Action>): Queue {
    if log == [] then EMPTY else Apply(enabled, Replay(enabled, log[..|log| - 1]), log[|log| - 1])
  }

  ghost predicate Legal(enabled: set<string>, log: seq<Action>) {
    forall i | 0 <= i < |log| :: Enabled(Replay(enabled, log[..i]), log[i])
  }

  /** Whether entry `i` of the log is a notification that was queued. */
  ghost predicate Queued(enabled: set<string>, log: seq<Action>, i: nat)
    requires i < |log|
  {
    log[i].Notify? && Accepts(enabled, Replay(enabled, log[..i]), log[i].ev)
  }

  /** Where the queued notifications are in the log. */
  ghost function Places(enabled: set<string>, log: seq<Action>): seq<nat> {
    if log == [] then []
    else Places(enabled, log[..|log| - 1]) + if Queued(enabled, log, |log| - 1) then [|log| - 1] else []
  }

  /** The queued notifications. */
  ghost function Accepted(enabled: set<string>, log: seq<Action>): seq<Event> {
    if log == [] then []
    else Accepted(enabled, log[..|log| - 1]) + if Queued(enabled, log, |log| - 1) then [log[|log| - 1].ev] else []
  }

  /** The events whose POST is over. */
  ghost function Sent(enabled: set<string>, log: seq<Action>): seq<Event> {
    if log == [] then []
    else
      var before := log[..|log| - 1];
      Sent(enabled, before)
      + if log[|log| - 1].Finish? then Pending(Replay(enabled, before).inflight) else []
  }

  function Pending(o: Option<Event>): seq<Event> {
    if o.Some? then [o.value] else []
  }

  lemma LegalPrefix(enabled: set<string>, log: seq<Action>, n: nat)
    requires Legal(enabled, log) && n <= |log|
    ensures Legal(enabled, log[..n])
  {
    forall i | 0 <= i < n
      ensures Enabled(Replay(enabled, log[..n][..i]), log[..n][i])
    {
      assert log[..n][..i] == log[..i];
    }
  }

  lemma LegalLast(enabled: set<string>, log: seq<Action>)
    requires log != [] && Legal(enabled, log)
    ensures Legal(enabled, log[..|log| - 1]) && Enabled(Replay(enabled, log[..|log| - 1]), log[|log| - 1])
  {
    LegalPrefix(enabled, log, |log| - 1);
  }

  /** Accepted events are sent, in flight or waiting, in that order. */
  ghost predicate InOrder(q: Queue, accepted: seq<Event>, sent: seq<Event>) {
    && accepted == sent + Pending(q.inflight) + q.waiting
    && |q.waiting| <= CAPACITY
    && (q.quit ==> q.cancelled && q.inflight == None)
  }

  lemma NotifyInOrder(q: Queue, ev: Event, accepted: seq<Event>, sent: seq<Event>)
    requires InOrder(q, accepted, sent) && |q.waiting| < CAPACITY
    ensures InOrder(q.(waiting := q.waiting + [ev]), accepted + [ev], sent)
  {
    var front := sent + Pending(q.inflight);
    assert (front + q.waiting) + [ev] == front + (q.waiting + [ev]);
  }

  lemma TakeInOrder(q: Queue, accepted: seq<Event>, sent: seq<Event>)
    requires InOrder(q, accepted, sent) && q.waiting != [] && q.inflight == None && !q.quit
    ensures InOrder(q.(waiting := q.waiting[1..], inflight := Some(q.waiting[0])), accepted, sent)
  {
    assert sent + [] == sent;
    assert sent + q.waiting == (sent + [q.waiting[0]]) + q.waiting[1..];
  }

  lemma FinishInOrder(q: Queue, accepted: seq<Event>, sent: seq<Event>)
    requires InOrder(q, accepted, sent) && q.inflight.Some?
    ensures InOrder(q.(inflight := None), accepted, sent + Pending(q.inflight))
  {
    assert sent + Pending(q.inflight) + [] == sent + Pending(q.inflight);
  }

  lemma InOrderStep(enabled: set<string>, q: Queue, a: Action, accepted: seq<Event>, sent: seq<Event>)
    requires InOrder(q, accepted, sent) && Enabled(q, a)
    ensures InOrder(Apply(enabled, q, a),
                    accepted + (if a.Notify? && Accepts(enabled, q, a.ev) then [a.ev] else []),
                    sent + (if a.Finish? then Pending(q.inflight) else []))
  {
    assert accepted + [] == accepted && sent + [] == sent;
    match a
    case Notify(ev) => if Accepts(enabled, q, ev) { NotifyInOrder(q, ev, accepted, sent); }
    case Take => TakeInOrder(q, accepted, sent);
    case Finish => FinishInOrder(q, accepted, sent);
    case _ =>
  }

  /** First in, first out, over every run: what was accepted is what was sent, then the event in flight, then the queue,
      which never holds more than its capacity. */
  lemma {:induction false} Fifo(enabled: set<string>, log: seq<Action>)
    requires Legal(enabled, log)
    ensures InOrder(Replay(enabled, log), Accepted(enabled, log), Sent(enabled, log)) && |Replay(enabled, log).waiting| <= 256
  {
    if log != [] {
      var n := |log| - 1;
      LegalLast(enabled, log);
      Fifo(enabled, log[..n]);
      InOrderStep(enabled, Replay(enabled, log[..n]), log[n], Accepted(enabled, log[..n]), Sent(enabled, log[..n]));
    }
  }

  /** The accepted events are an in-order subsequence of the enabled notifications. */
  lemma {:induction false} AcceptedSubsequence(enabled: set<string>, log: seq<Action>)
    ensures var at := Places(enabled, log);
            && |at| == |Accepted(enabled, log)|
            && (forall k | 0 <= k < |at| :: at[k] < |log| && log[at[k]] == Notify(Accepted(enabled, log)[k]))
            && (forall k | 0 <= k < |at| :: log[at[k]].ev.kind in enabled)
            && (forall j, k | 0 <= j < k < |at| :: at[j] < at[k])
  {
    if log != [] {
      AcceptedSubsequence(enabled, log[..|log| - 1]);
    }
  }

  lemma {:induction false} PlacesAreQueued(enabled: set<string>, log: seq<Action>, i: nat)
    requires i < |log|
    ensures i in Places(enabled, log) <==> Queued(enabled, log, i)
  {
    var n := |log| - 1;
    PlacesBelow(enabled, log[..n]);
    if i < n {
      assert log[..n][..i] == log[..i];
      PlacesAreQueued(enabled, log[..n], i);
    }
  }

  lemma {:induction false} PlacesBelow(enabled: set<string>, log: seq<Action>)
    ensures forall i | i in Places(enabled, log) :: i < |log|
  {
    if log != [] {
      PlacesBelow(enabled, log[..|log| - 1]);
    }
  }

  /** An enabled notification is dropped exactly when 256 accepted events have not been taken by the worker. */
  lemma DroppedIffFull(enabled: set<string>, log: seq<Action>, i: nat)
    requires Legal(enabled, log) && i < |log| && log[i].Notify? && log[i].ev.kind in enabled
    ensures i !in Places(enabled, log) <==> Backlog(enabled, log[..i]) == 256
  {
    PlacesAreQueued(enabled, log, i);
    LegalPrefix(enabled, log, i);
    Fifo(enabled, log[..i]);
  }

  /** How many accepted events the worker has not taken. */
  ghost function Backlog(enabled: set<string>, log: seq<Action>): int {
    |Accepted(enabled, log)| - |Sent(enabled, log)| - |Pending(Replay(enabled, log).inflight)|
  }

  /** At every moment, and so after shutdown, the sent events are a prefix of the accepted ones; once the worker has
      returned nothing is sent any more, however many notifications still come in. */
  lemma {:induction false} ShutdownKeepsPrefix(enabled: set<string>, log: seq<Action>, n: nat)
    requires Legal(enabled, log) && n <= |log| && Replay(enabled, log[..n]).quit
    ensures Replay(enabled, log).quit && Replay(enabled, log).inflight == None
    ensures Sent(enabled, log) == Sent(enabled, log[..n])
    ensures Sent(enabled, log) <= Accepted(enabled, log[..n]) <= Accepted(enabled, log)
  {
    LegalPrefix(enabled, log, n);
    Fifo(enabled, log[..n]);
    if n == |log| {
      assert log[..n] == log;
    } else {
      LegalLast(enabled, log);
      assert log[..|log| - 1][..n] == log[..n];
      ShutdownKeepsPrefix(enabled, log[..|log| - 1], n);
    }
  }

  /** What the flags of a sender stand for: a shutdown, a shutdown or the end of the parent context, and the worker's return. */
  lemma {:induction false} FlagsSay(enabled: set<string>, log: seq<Action>)
    ensures var q := Replay(enabled, log);
            && (q.closed <==> Close in log) && (q.quit <==> Quit in log) && (q.cancelled <==> Cancel in log || Close in log)
  {
    if log != [] {
      var n := |log| - 1;
      FlagsSay(enabled, log[..n]);
      assert log == log[..n] + [log[n]];
    }
  }

  /** No event is lost inside the sender: while it has not quit, a worker that cannot go on has sent everything. */
  lemma {:induction false} WorkerStopsOnlyWhenAllSent(enabled: set<string>, log: seq<Action>)
    requires Legal(enabled, log) && !Replay(enabled, log).quit
    ensures (!Enabled(Replay(enabled, log), Take) && !Enabled(Replay(enabled, log), Finish))
            <==> Sent(enabled, log) == Accepted(enabled, log)
  {
    Fifo(enabled, log);
  }

  class WebhookSender {
    const enabled: set<string>
    var waiting: seq<Event>
    var inflight: Option<Event>
    var cancelled: bool
    var closed: bool
    var quit: bool
    ghost var log: seq<Action>

    ghost function View(): Queue
      reads this
    {
      Queue(waiting, inflight, cancelled, closed, quit)
    }

    /** The sender's state is what its log says, and every entry of the log was possible when it was made. */
    ghost predicate Valid()
      reads this
    {
      View() == Replay(enabled, log) && Legal(enabled, log)
    }

    constructor (enabled: set<string>)
      ensures Valid() && log == [] && this.enabled == enabled
    {
      this.enabled := enabled;
      waiting, inflight, cancelled, closed, quit := [], None, false, false, false;
      log := [];
    }

    ghost method Record(a: Action)
      requires Legal(enabled, log) && Enabled(Replay(enabled, log), a)
      modifies this`log
      ensures log == old(log) + [a] && Legal(enabled, log)
      ensures Replay(enabled, log) == Apply(enabled, Replay(enabled, old(log)), a)
    {
      log := log + [a];
      assert log[..|log| - 1] == old(log);
      forall i | 0 <= i < |log|
        ensures Enabled(Replay(enabled, log[..i]), log[i])
      {
        if i < |log| - 1 {
          assert log[..i] == old(log)[..i];
        }
      }
    }

    /** A full queue drops the event; the caller never blocks. */
    method Notify(ev: Event)
      requires Valid()
      modifies this
      ensures Valid() && log == old(log) + [Action.Notify(ev)]
      ensures ev.kind in enabled && |old(waiting)| < 256 ==> waiting == old(waiting) + [ev]
      ensures !(ev.kind in enabled && |old(waiting)| < 256) ==> View() == old(View())
    {
      Record(Action.Notify(ev));
      if ev.kind !in enabled {
        return;
      }
      if |waiting| < CAPACITY {
        waiting := waiting + [ev];
      }
    }

    /** The worker's return. */
    method Leave()
      requires Valid() && cancelled && !quit && inflight == None
      modifies this`quit, this`log
      ensures Valid() && quit && log == old(log) + [Quit]
    {
      Record(Quit);
      quit := true;
    }

    /** The worker's receive. */
    method TakeOldest()
      requires Valid() && waiting != [] && !quit && inflight == None
      modifies this`waiting, this`inflight, this`log
      ensures Valid() && log == old(log) + [Take]
      ensures inflight.Some? && [inflight.value] + waiting == old(waiting)
    {
      Record(Take);
      inflight := Some(waiting[0]);
      waiting := waiting[1..];
    }

    /** One pass of the worker's select; `stop` says which ready case it picks when there are several. */
    method Receive(stop: bool) returns (progress: bool)
      requires Valid() && inflight == None && !quit
      modifies this
      ensures Valid() && log == old(log) + (if !progress then [] else if quit then [Quit] else [Take])
      ensures progress <==> old(cancelled) || old(waiting) != []
      ensures progress ==> (quit <==> old(cancelled) && (stop || old(waiting) == []))
      ensures progress && !quit ==> inflight.Some? && [inflight.value] + waiting == old(waiting)
      ensures !progress || quit ==> waiting == old(waiting) && inflight == None
      ensures cancelled == old(cancelled) && closed == old(closed)
    {
      progress := true;
      if cancelled && (stop || waiting == []) {
        Leave();
      } else if waiting != [] {
        TakeOldest();
      } else {
        progress := false;
      }
    }

    /** The return of send: whether the POST succeeded makes no difference to the queue. */
    method EndSend()
      requires Valid() && inflight.Some?
      modifies this
      ensures Valid() && log == old(log) + [Finish]
      ensures Sent(enabled, log) == Sent(enabled, old(log)) + [old(inflight).value]
      ensures waiting == old(waiting) && cancelled == old(cancelled) && closed == old(closed) && quit == old(quit)
      ensures inflight == None
    {
      ghost var before := log;
      Record(Finish);
      assert log[..|log| - 1] == before;
      inflight := None;
    }

    /** The first half of shutdown: cancel the context and close the stop channel. */
    method BeginShutdown()
      requires Valid() && !closed
      modifies this
      ensures Valid() && cancelled && closed && log == old(log) + [Close]
      ensures waiting == old(waiting) && inflight == old(inflight) && quit == old(quit)
    {
      Record(Close);
      cancelled := true;
      closed := true;
    }

    /** The worker from the start of a shutdown on. `takes` says how often its select still picks the queue. */
    method RunDown(takes: nat)
      requires Valid() && cancelled && closed && inflight == None
      modifies this
      ensures Valid() && quit && closed && inflight == None
      ensures old(quit) ==> waiting == old(waiting)
      ensures |waiting| >= |old(waiting)| - takes
    {
      var left := takes;
      while !quit
        invariant Valid() && closed && cancelled && inflight == None
        invariant old(quit) ==> quit && waiting == old(waiting)
        invariant 0 <= left && |waiting| - left >= |old(waiting)| - takes
        decreases !quit, left
      {
        var progress := Receive(left == 0);
        if !quit {
          left := left - 1;
          EndSend();
        }
      }
    }

    /** shutdown: it returns when the worker has, and leaves unsent only what is still in the queue. */
    method Shutdown(takes: nat)
      requires Valid() && !closed
      modifies this
      ensures Valid() && quit && closed && inflight == None
      ensures Accepted(enabled, log) == Sent(enabled, log) + waiting
      ensures old(quit) ==> waiting == old(waiting)
      ensures |waiting| >= |old(waiting)| - takes
    {
      BeginShutdown();
      if inflight.Some? {
        EndSend();
      }
      RunDown(takes);
      Fifo(enabled, log);
    }
  }
}
