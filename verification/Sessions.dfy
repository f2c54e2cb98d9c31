/** The session store: tokens live for `ttl` after their issue; pruning is unobservable. */
module Sessions {
  import opened Tally
  import opened Services

  datatype Token = Token(createdAt: int, lastUsed: int)

  /** What happened to the store, in lock order. An issue reads the clock before it takes the lock, so `read` may be
      earlier than `at`. */
  datatype Event =
    | Issued(tok: string, read: int, at: int)
    | Checked(tok: string, at: int)
    | Revoked(tok: string, at: int)
    | Collected(at: int)

  /** The creation time of the latest issue of a token that has not been revoked since: no pruning here. */
  ghost function LatestIssue(history: seq<Event>, tok: string): Option<int> {
    if history == [] then None
    else
      var last := history[|history| - 1];
      var before := LatestIssue(history[..|history| - 1], tok);
      match last
      case Issued(t, read, _) => if t == tok then Some(read) else before
      case Revoked(t, _) => if t == tok && tok != "" then None else before
      case _ => before
  }

  /** Whether a token is valid, by its history. */
  ghost predicate Live(history: seq<Event>, tok: string, now: int, ttl: int) {
    tok != "" && LatestIssue(history, tok).Some? && now - LatestIssue(history, tok).value <= ttl
  }

  lemma LatestStep(history: seq<Event>, e: Event, tok: string)
    ensures LatestIssue(history + [e], tok) ==
            match e
            case Issued(t, read, _) => if t == tok then Some(read) else LatestIssue(history, tok)
            case Revoked(t, _) => if t == tok && tok != "" then None else LatestIssue(history, tok)
            case _ => LatestIssue(history, tok)
  {
    assert (history + [e])[..|history|] == history;
  }

  /** One token's entry fits its history: a stored token is the latest issue and was last used no earlier than it was
      created, and an issue that is no longer stored has expired for good. */
  ghost predicate Fits(tokens: map<string, Token>, history: seq<Event>, clock: int, ttl: int, tok: string) {
    var issue := LatestIssue(history, tok);
    if tok in tokens then
      issue == Some(tokens[tok].createdAt) && tokens[tok].createdAt <= tokens[tok].lastUsed <= clock
    else issue.Some? ==> clock - issue.value > ttl
  }

  /** What a store says of a token. */
  predicate Accepts(tokens: map<string, Token>, tok: string, now: int, ttl: int) {
    tok != "" && tok in tokens && now - tokens[tok].createdAt <= ttl
  }

  /** gcLocked: what is left after removing every token that was last used more than `ttl` before `now`. */
  function Collect(tokens: map<string, Token>, now: int, ttl: int): map<string, Token> {
    map k | k in tokens && now - tokens[k].lastUsed <= ttl :: tokens[k]
  }

  class SessionStore {
    const ttl: int
    var tokens: map<string, Token>
    ghost var clock: int
    ghost var history: seq<Event>

    constructor (ttl: int, ghost now: int)
      ensures Valid() && this.ttl == ttl && history == [] && clock == now
    {
      this.ttl := ttl;
      this.tokens := map[];
      this.clock := now;
      this.history := [];
    }

    ghost predicate Valid()
      reads this
    {
      forall tok :: Fits(tokens, history, clock, ttl, tok)
    }

    /** `read` is the clock as issue saw it before it took the lock at time `at`. */
    method Issue(tok: string, read: int, ghost at: int)
      requires Valid() && read <= at && clock <= at
      modifies this
      ensures Valid() && clock == at && history == old(history) + [Issued(tok, read, at)]
    {
      ghost var e := Issued(tok, read, at);
      tokens := tokens[tok := Token(read, read)];
      ghost var longer := history + [e];
      forall t ensures Fits(tokens, longer, at, ttl, t) {
        assert old(Fits(tokens, history, clock, ttl, t));
        LatestStep(old(history), e, t);
      }
      history := longer;
      clock := at;
      GcLocked(read);
    }

    /** The answer is that of the unpruned history: the latest issue of the token is at most `ttl` old and has not been
        revoked since. */
    method IsValid(tok: string, now: int) returns (ok: bool)
      requires Valid() && clock <= now
      modifies this
      ensures Valid() && clock == now && history == old(history) + [Checked(tok, now)]
      ensures ok <==> Live(old(history), tok, now, ttl)
      ensures ok <==> Accepts(old(tokens), tok, now, ttl)
    {
      ghost var e := Checked(tok, now);
      ghost var longer := history + [e];
      forall t ensures Fits(tokens, longer, now, ttl, t) {
        assert Fits(tokens, history, clock, ttl, t);
        LatestStep(history, e, t);
      }
      assert Fits(tokens, history, clock, ttl, tok);
      history := longer;
      clock := now;
      if tok == "" || tok !in tokens {
        return false;
      }
      var t := tokens[tok];
      if now - t.createdAt > ttl {
        Remove(tok);
        return false;
      }
      tokens := tokens[tok := t.(lastUsed := now)];
      forall other ensures Fits(tokens, history, clock, ttl, other) {
        assert Fits(old(tokens), history, clock, ttl, other);
      }
      return true;
    }

    method Revoke(tok: string, ghost at: int)
      requires Valid() && clock <= at
      modifies this
      ensures Valid() && clock == at && history == old(history) + [Revoked(tok, at)]
    {
      ghost var e := Revoked(tok, at);
      if tok != "" {
        tokens := tokens - {tok};
      }
      ghost var longer := history + [e];
      forall t ensures Fits(tokens, longer, at, ttl, t) {
        assert old(Fits(tokens, history, clock, ttl, t));
        LatestStep(old(history), e, t);
      }
      history := longer;
      clock := at;
    }

    method Gc(now: int)
      requires Valid() && clock <= now
      modifies this
      ensures Valid() && clock == now && history == old(history) + [Collected(now)]
    {
      ghost var e := Collected(now);
      ghost var longer := history + [e];
      forall t ensures Fits(tokens, longer, now, ttl, t) {
        assert Fits(tokens, history, clock, ttl, t);
        LatestStep(history, e, t);
      }
      history := longer;
      clock := now;
      GcLocked(now);
    }

    /** The collection removes only tokens that could never be valid again, even with a clock value that is late. */
    method GcLocked(now: int)
      requires Valid() && now <= clock
      modifies this`tokens
      ensures Valid() && tokens == Collect(old(tokens), now, ttl)
    {
      var left := tokens.Keys;
      while left != {}
        invariant left <= old(tokens).Keys && tokens.Keys <= old(tokens).Keys
        invariant left <= tokens.Keys
        invariant forall k | k in tokens :: tokens[k] == old(tokens)[k]
        invariant forall k | k in old(tokens) && k !in left :: k in tokens <==> now - old(tokens)[k].lastUsed <= ttl
        decreases |left|
      {
        var k :| k in left;
        left := left - {k};
        if now - tokens[k].lastUsed > ttl {
          tokens := tokens - {k};
        }
      }
      forall t ensures Fits(tokens, history, clock, ttl, t) {
        assert old(Fits(tokens, history, clock, ttl, t));
      }
    }

    /** An expired token may be forgotten. */
    method Remove(tok: string)
      requires Valid() && tok in tokens && clock - tokens[tok].createdAt > ttl
      modifies this`tokens
      ensures Valid() && tokens == old(tokens) - {tok}
    {
      tokens := tokens - {tok};
      forall t ensures Fits(tokens, history, clock, ttl, t) {
        assert old(Fits(tokens, history, clock, ttl, t));
      }
    }
  }

  /** The issues and revocations of a history. */
  ghost function Writes(history: seq<Event>): seq<Event> {
    if history == [] then []
    else
      var last := history[|history| - 1];
      Writes(history[..|history| - 1]) + if last.Issued? || last.Revoked? then [last] else []
  }

  lemma {:induction false} WritesDecide(history: seq<Event>, tok: string)
    ensures LatestIssue(Writes(history), tok) == LatestIssue(history, tok)
  {
    if history != [] {
      var before, last := history[..|history| - 1], history[|history| - 1];
      WritesDecide(before, tok);
      if last.Issued? || last.Revoked? {
        LatestStep(Writes(before), last, tok);
      } else {
        assert Writes(before) + [] == Writes(before);
      }
    }
  }

  lemma StoreIsHistory(tokens: map<string, Token>, history: seq<Event>, clock: int, ttl: int, tok: string, now: int)
    requires Fits(tokens, history, clock, ttl, tok) && clock <= now
    ensures Accepts(tokens, tok, now, ttl) <==> Live(history, tok, now, ttl)
  {
  }

  /** Pruning is unobservable: two stores that have seen the same issues and revocations answer alike from now on, whatever
      tokens were checked in them and however often each of them was collected. */
  lemma {:induction false} PruningUnobservable(one: map<string, Token>, history: seq<Event>, clock: int,
                                               other: map<string, Token>, history': seq<Event>, clock': int,
                                               ttl: int, tok: string, now: int)
    requires Fits(one, history, clock, ttl, tok) && Fits(other, history', clock', ttl, tok)
    requires Writes(history) == Writes(history') && clock <= now && clock' <= now
    ensures Accepts(one, tok, now, ttl) <==> Accepts(other, tok, now, ttl)
  {
    StoreIsHistory(one, history, clock, ttl, tok, now);
    StoreIsHistory(other, history', clock', ttl, tok, now);
    WritesDecide(history, tok);
    WritesDecide(history', tok);
  }
}
