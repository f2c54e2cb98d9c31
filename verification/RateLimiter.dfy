/** The login rate limiter: at most `limit` accepted attempts per key in any sliding window. */
module RateLimiter {
  import opened Services

  datatype Attempt = Attempt(key: string, at: int)

  /** How many of the times lie strictly after `low` and not after `high`. */
  ghost function Between(times: seq<int>, low: int, high: int): nat {
    if times == [] then 0
    else Between(times[..|times| - 1], low, high) + if low < times[|times| - 1] <= high then 1 else 0
  }

  /** The rule, over a full history: fewer than `limit` accepted attempts strictly within the last window. */
  ghost predicate Allows(accepted: seq<int>, now: int, limit: int, window: int) {
    Between(accepted, now - window, now) < limit
  }

  /** The accepted attempts of a key, by the rule, never forgetting anything. */
  ghost function Accepted(attempts: seq<Attempt>, key: string, limit: int, window: int): seq<int> {
    if attempts == [] then []
    else
      var last := attempts[|attempts| - 1];
      var before := Accepted(attempts[..|attempts| - 1], key, limit, window);
      if last.key == key && Allows(before, last.at, limit, window) then before + [last.at] else before
  }

  /** The clock does not go backwards. */
  ghost predicate Ordered(attempts: seq<Attempt>) {
    forall i, j | 0 <= i < j < |attempts| :: attempts[i].at <= attempts[j].at
  }

  ghost predicate Ascending(times: seq<int>) {
    forall i, j | 0 <= i < j < |times| :: times[i] <= times[j]
  }

  lemma {:induction false} AcceptedAscending(attempts: seq<Attempt>, key: string, limit: int, window: int)
    requires Ordered(attempts)
    ensures Ascending(Accepted(attempts, key, limit, window))
    ensures attempts != [] ==> AllUpTo(Accepted(attempts, key, limit, window), attempts[|attempts| - 1].at)
  {
    if attempts != [] {
      var before := attempts[..|attempts| - 1];
      AcceptedAscending(before, key, limit, window);
      assert before != [] ==> before[|before| - 1].at <= attempts[|attempts| - 1].at;
    }
  }

  ghost predicate AllUpTo(times: seq<int>, high: int) {
    forall i | 0 <= i < |times| :: times[i] <= high
  }

  /** What is stored for a key is its accepted history without some prefix that is stale for good. */
  ghost predicate Stores(kept: seq<int>, full: seq<int>, now: int, window: int) {
    && |kept| <= |full|
    && kept == full[|full| - |kept|..]
    && AllUpTo(full[..|full| - |kept|], now - window)
  }

  /** Dropping the stale prefix of what is stored leaves exactly the accepted attempts of the last window. */
  lemma PruningIsExact(mine: seq<int>, full: seq<int>, was: int, now: int, window: int, j: nat)
    requires Stores(mine, full, was, window) && was <= now && Ascending(full) && AllUpTo(full, now)
    requires j <= |mine| && AllUpTo(mine[..j], now - window) && (j < |mine| ==> now - window < mine[j])
    ensures Stores(mine[j..], full, now, window)
    ensures |mine[j..]| == Between(full, now - window, now)
  {
    var skipped := |full| - |mine|;
    assert mine[j..] == full[skipped + j..];
    forall i | 0 <= i < skipped + j ensures full[i] <= now - window {
      if i < skipped { assert full[i] == full[..skipped][i]; } else { assert full[i] == mine[..j][i - skipped]; }
    }
    forall i | skipped + j <= i < |full| ensures now - window < full[i] <= now {
      assert full[skipped + j] == mine[j];
    }
    SuffixCounts(full, skipped + j, now - window, now);
  }

  lemma StoresMore(kept: seq<int>, full: seq<int>, now: int, window: int)
    requires Stores(kept, full, now, window)
    ensures Stores(kept + [now], full + [now], now, window)
  {
    assert (full + [now])[..|full| - |kept|] == full[..|full| - |kept|];
  }

  /** The accepted attempts of all keys at once: one attempt, and a whole run. */
  ghost function Try(accepted: map<string, seq<int>>, a: Attempt, limit: int, window: int): map<string, seq<int>> {
    var mine := Get(accepted, a.key, []);
    if Allows(mine, a.at, limit, window) then accepted[a.key := mine + [a.at]] else accepted
  }

  ghost function Run(attempts: seq<Attempt>, limit: int, window: int): map<string, seq<int>> {
    if attempts == [] then map[]
    else Try(Run(attempts[..|attempts| - 1], limit, window), attempts[|attempts| - 1], limit, window)
  }

  lemma {:induction false} RunIsAccepted(attempts: seq<Attempt>, key: string, limit: int, window: int)
    ensures Get(Run(attempts, limit, window), key, []) == Accepted(attempts, key, limit, window)
  {
    if attempts != [] {
      var last := attempts[|attempts| - 1];
      RunIsAccepted(attempts[..|attempts| - 1], key, limit, window);
      RunIsAccepted(attempts[..|attempts| - 1], last.key, limit, window);
    }
  }

  lemma RunStep(attempts: seq<Attempt>, a: Attempt, limit: int, window: int)
    ensures Run(attempts + [a], limit, window) == Try(Run(attempts, limit, window), a, limit, window)
  {
    assert (attempts + [a])[..|attempts|] == attempts;
  }

  /** What is stored for a key fits its accepted history, as of the time `clock`. */
  ghost predicate Fits(hits: map<string, seq<int>>, accepted: map<string, seq<int>>, clock: int, window: int, key: string) {
    var full := Get(accepted, key, []);
    Ascending(full) && AllUpTo(full, clock) && Stores(Get(hits, key, []), full, clock, window)
  }

  lemma FitsLater(hits: map<string, seq<int>>, accepted: map<string, seq<int>>, clock: int, now: int, window: int, key: string)
    requires Fits(hits, accepted, clock, window, key) && clock <= now
    ensures Fits(hits, accepted, now, window, key)
  {
  }

  /** The decision on the pruned hits is the decision on the full history, and its outcome fits it. */
  lemma Decided(mine: seq<int>, full: seq<int>, now: int, limit: int, window: int)
    requires Ascending(full) && AllUpTo(full, now) && Stores(mine, full, now, window)
    requires |mine| == Between(full, now - window, now)
    ensures Allows(full, now, limit, window) <==> |mine| < limit
    ensures var more := if |mine| < limit then full + [now] else full;
            && Ascending(more) && AllUpTo(more, now)
            && Stores(if |mine| < limit then mine + [now] else mine, more, now, window)
  {
    if |mine| < limit {
      StoresMore(mine, full, now, window);
    }
  }

  lemma TryFits(mine: seq<int>, accepted: map<string, seq<int>>, a: Attempt, more: seq<int>, limit: int, window: int)
    requires more == (if Allows(Get(accepted, a.key, []), a.at, limit, window) then Get(accepted, a.key, []) + [a.at]
                      else Get(accepted, a.key, []))
    requires Ascending(more) && AllUpTo(more, a.at) && Stores(mine, more, a.at, window)
    ensures Fits(map[a.key := mine], Try(accepted, a, limit, window), a.at, window, a.key)
    ensures forall other | other != a.key :: Get(Try(accepted, a, limit, window), other, []) == Get(accepted, other, [])
  {
    assert Get(Try(accepted, a, limit, window), a.key, []) == more;
  }

  class LoginRateLimiter {
    const limit: int
    const window: int
    var hits: map<string, seq<int>>
    ghost var clock: int
    ghost var accepted: map<string, seq<int>>
    ghost var attempts: seq<Attempt>

    constructor (limit: int, window: int, ghost now: int)
      ensures this.limit == limit && this.window == window && attempts == [] && clock == now && Valid()
    {
      this.limit := limit;
      this.window := window;
      this.hits := map[];
      this.clock := now;
      this.accepted := map[];
      this.attempts := [];
    }

    ghost predicate Valid()
      reads this
    {
      && accepted == Run(attempts, limit, window)
      && forall key :: Fits(hits, accepted, clock, window, key)
    }

    /** Pruning is exact: the answer is that of the rule on the full accepted history, so an attempt is refused exactly
        if `limit` accepted attempts of its key lie strictly within the last window. */
    method Allow(key: string, now: int) returns (ok: bool)
      requires Valid() && clock <= now
      modifies this
      ensures Valid() && attempts == old(attempts) + [Attempt(key, now)] && clock == now
      ensures ok <==> Allows(Accepted(old(attempts), key, limit, window), now, limit, window)
    {
      RunIsAccepted(attempts, key, limit, window);
      RunStep(attempts, Attempt(key, now), limit, window);
      ghost var more := Try(accepted, Attempt(key, now), limit, window);
      var mine;
      ok, mine := Decide(key, now);
      Store(key, now, mine, more);
    }

    /** Prune, decide, and add the attempt if it is accepted. */
    method Decide(key: string, now: int) returns (ok: bool, mine: seq<int>)
      requires Fits(hits, accepted, clock, window, key) && clock <= now
      ensures ok <==> Allows(Get(accepted, key, []), now, limit, window)
      ensures Fits(map[key := mine], Try(accepted, Attempt(key, now), limit, window), now, window, key)
      ensures forall other | other != key ::
                Get(Try(accepted, Attempt(key, now), limit, window), other, []) == Get(accepted, other, [])
    {
      ghost var full := Get(accepted, key, []);
      mine := Prune(Get(hits, key, []), now, full, clock);
      Decided(mine, full, now, limit, window);
      ok := |mine| < limit;
      if ok {
        mine := mine + [now];
      }
      TryFits(mine, accepted, Attempt(key, now), if ok then full + [now] else full, limit, window);
    }

    /** The loop that skips the stale hits. */
    method Prune(stored: seq<int>, now: int, ghost full: seq<int>, ghost was: int) returns (mine: seq<int>)
      requires Stores(stored, full, was, window) && was <= now && Ascending(full) && AllUpTo(full, now)
      ensures Stores(mine, full, now, window) && |mine| == Between(full, now - window, now)
    {
      var cutoff := now - window;
      var j := 0;
      while j < |stored| && stored[j] <= cutoff
        invariant 0 <= j <= |stored| && AllUpTo(stored[..j], cutoff)
      {
        j := j + 1;
      }
      PruningIsExact(stored, full, was, now, window, j);
      mine := stored[j..];
    }

    /** Write a key's hits back. */
    method Store(key: string, now: int, mine: seq<int>, ghost more: map<string, seq<int>>)
      requires clock <= now && forall other :: Fits(hits, accepted, clock, window, other)
      requires more == Run(attempts + [Attempt(key, now)], limit, window)
      requires forall other | other != key :: Get(more, other, []) == Get(accepted, other, [])
      requires Fits(map[key := mine], more, now, window, key)
      modifies this
      ensures Valid() && attempts == old(attempts) + [Attempt(key, now)] && clock == now
    {
      ghost var written := hits[key := mine];
      forall other ensures Fits(written, more, now, window, other) {
        FitsLater(hits, accepted, clock, now, window, other);
        FitsWritten(hits, accepted, more, now, window, key, mine, other);
      }
      hits := hits[key := mine];
      accepted := more;
      attempts := attempts + [Attempt(key, now)];
      clock := now;
    }
  }

  lemma FitsWritten(hits: map<string, seq<int>>, accepted: map<string, seq<int>>, more: map<string, seq<int>>,
                    now: int, window: int, key: string, mine: seq<int>, other: string)
    requires Fits(hits, accepted, now, window, other)
    requires other != key ==> Get(more, other, []) == Get(accepted, other, [])
    requires Fits(map[key := mine], more, now, window, key)
    ensures Fits(hits[key := mine], more, now, window, other)
  {
  }

  lemma AcceptedStep(attempts: seq<Attempt>, a: Attempt, key: string, limit: int, window: int)
    ensures var before := Accepted(attempts, key, limit, window);
            Accepted(attempts + [a], key, limit, window) ==
            if a.key == key && Allows(before, a.at, limit, window) then before + [a.at] else before
  {
    assert (attempts + [a])[..|attempts|] == attempts;
  }

  /** In an ascending history, the attempts after a cutoff are a suffix. */
  lemma {:induction false} SuffixCounts(times: seq<int>, d: nat, low: int, high: int)
    requires d <= |times| && forall i | 0 <= i < d :: times[i] <= low
    requires forall i | d <= i < |times| :: low < times[i] <= high
    ensures Between(times, low, high) == |times| - d
  {
    if times != [] {
      var n := |times| - 1;
      SuffixCounts(times[..n], if d == |times| then d - 1 else d, low, high);
    }
  }

  // ---- what the rule guarantees ----

  lemma BetweenAppend(times: seq<int>, at: int, low: int, high: int)
    ensures Between(times + [at], low, high) == Between(times, low, high) + if low < at <= high then 1 else 0
  {
    assert (times + [at])[..|times|] == times;
  }

  /** A limit of zero or less accepts nothing. */
  lemma {:induction false} NothingAccepted(attempts: seq<Attempt>, key: string, limit: int, window: int)
    requires limit <= 0
    ensures Accepted(attempts, key, limit, window) == []
  {
    if attempts != [] { NothingAccepted(attempts[..|attempts| - 1], key, limit, window); }
  }

  /** No interval of the window's length ever holds more than `limit` accepted attempts of a key, and a limit of zero or
      less accepts nothing. */
  lemma {:induction false} WindowBound(attempts: seq<Attempt>, key: string, limit: int, window: int, a: int)
    requires Ordered(attempts)
    ensures Between(Accepted(attempts, key, limit, window), a, a + window) <= if limit > 0 then limit else 0
  {
    if limit <= 0 {
      NothingAccepted(attempts, key, limit, window);
    } else if attempts != [] {
      var last := attempts[|attempts| - 1];
      var before := Accepted(attempts[..|attempts| - 1], key, limit, window);
      WindowBound(attempts[..|attempts| - 1], key, limit, window, a);
      BetweenAppend(before, last.at, a, a + window);
      if last.key == key && Allows(before, last.at, limit, window) && a < last.at <= a + window {
        AcceptedEarlier(attempts, key, limit, window);
        BetweenNarrows(before, a, a + window, last.at - window, last.at);
      }
    }
  }

  lemma AcceptedEarlier(attempts: seq<Attempt>, key: string, limit: int, window: int)
    requires Ordered(attempts) && attempts != []
    ensures AllUpTo(Accepted(attempts[..|attempts| - 1], key, limit, window), attempts[|attempts| - 1].at)
  {
    AcceptedAscending(attempts[..|attempts| - 1], key, limit, window);
  }

  lemma {:induction false} BetweenNarrows(times: seq<int>, low: int, high: int, low': int, high': int)
    requires low' <= low && AllUpTo(times, high')
    ensures Between(times, low, high) <= Between(times, low', high')
  {
    if times != [] {
      BetweenNarrows(times[..|times| - 1], low, high, low', high');
    }
  }

  /** The attempts of one key. */
  ghost function Of(attempts: seq<Attempt>, key: string): seq<Attempt> {
    if attempts == [] then []
    else
      var n := |attempts| - 1;
      Of(attempts[..n], key) + if attempts[n].key == key then [attempts[n]] else []
  }

  /** Keys do not interfere: what is accepted of a key depends on its own attempts only. */
  lemma {:induction false} KeysIndependent(attempts: seq<Attempt>, key: string, limit: int, window: int)
    ensures Accepted(attempts, key, limit, window) == Accepted(Of(attempts, key), key, limit, window)
  {
    if attempts != [] {
      var n := |attempts| - 1;
      KeysIndependent(attempts[..n], key, limit, window);
      if attempts[n].key == key {
        AcceptedStep(Of(attempts[..n], key), attempts[n], key, limit, window);
      } else {
        assert Of(attempts[..n], key) + [] == Of(attempts[..n], key);
      }
    }
  }

  /** The attempts that were accepted, of all keys. */
  ghost function Passed(attempts: seq<Attempt>, limit: int, window: int): seq<Attempt> {
    if attempts == [] then []
    else
      var last := attempts[|attempts| - 1];
      var before := attempts[..|attempts| - 1];
      Passed(before, limit, window) +
      if Allows(Accepted(before, last.key, limit, window), last.at, limit, window) then [last] else []
  }

  /** Refused attempts never prolong a block: without them exactly the same attempts are accepted. */
  lemma {:induction false} RefusalsDoNotMatter(attempts: seq<Attempt>, key: string, limit: int, window: int)
    ensures Accepted(Passed(attempts, limit, window), key, limit, window) == Accepted(attempts, key, limit, window)
  {
    if attempts != [] {
      var last := attempts[|attempts| - 1];
      var before := attempts[..|attempts| - 1];
      RefusalsDoNotMatter(before, key, limit, window);
      RefusalsDoNotMatter(before, last.key, limit, window);
      AcceptedStep(Passed(before, limit, window), last, key, limit, window);
      assert Passed(before, limit, window) + [] == Passed(before, limit, window);
    }
  }
}
