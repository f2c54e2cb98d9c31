/** Label sets flattened to keys: every value followed by a NUL, and parsed back by position. */
module LabelKeys {
  import opened Services

  const NUL: char := '\0'

  predicate NulFree(s: string) {
    '\0' !in s
  }

  /** Every part followed by a NUL. */
  function Terminate(parts: seq<string>): string {
    if parts == [] then "" else parts[0] + [NUL] + Terminate(parts[1..])
  }

  /** The values of the named labels, in order; a label that is not set reads as the empty string. */
  function Values(names: seq<string>, labels: Labels): seq<string> {
    if names == [] then [] else [Get(labels, names[0], "")] + Values(names[1..], labels)
  }

  function Key(names: seq<string>, labels: Labels): string {
    Terminate(Values(names, labels))
  }

  /** The position of the first NUL, or the length. */
  function FirstNul(s: string): (i: nat)
    ensures i <= |s| && NulFree(s[..i]) && (i < |s| ==> s[i] == NUL)
  {
    if s == "" || s[0] == NUL then 0
    else
      assert s[..1 + FirstNul(s[1..])] == [s[0]] + s[1..][..FirstNul(s[1..])];
      1 + FirstNul(s[1..])
  }

  /** The parts between NULs, without the empty part after a final NUL. */
  function Parts(key: string): seq<string>
    decreases |key|
  {
    if key == "" then []
    else
      var i := FirstNul(key);
      if i == |key| then [key] else [key[..i]] + Parts(key[i + 1..])
  }

  /** Position by position, later names winning over earlier equal ones. */
  function Assign(names: seq<string>, parts: seq<string>): Labels {
    if names == [] then map[]
    else
      var n := |names| - 1;
      var before := Assign(names[..n], parts);
      if n < |parts| then before[names[n] := parts[n]] else before
  }

  function ParseKey(names: seq<string>, key: string): Labels {
    if key == "" then map[] else Assign(names, Parts(key))
  }

  /** A label set as the metric sees it: its own names only, absent ones empty. */
  function Restrict(names: seq<string>, labels: Labels): Labels {
    map n | n in names :: Get(labels, n, "")
  }

  // ---- the code ----

  method LabelKey(names: seq<string>, labels: Labels) returns (k: string)
    ensures k == Key(names, labels)
  {
    if |names| == 0 {
      return "";
    }
    k := "";
    for i := 0 to |names|
      invariant k + Key(names[i..], labels) == Key(names, labels)
    {
      assert names[i..][1..] == names[i + 1..];
      k := k + Get(labels, names[i], "") + [NUL];
    }
  }

  lemma PartsStep(key: string, start: nat, i: nat)
    requires start <= i < |key| && key[i] == NUL && NulFree(key[start..i])
    ensures Parts(key[start..]) == [key[start..i]] + Parts(key[i + 1..])
  {
    var rest := key[start..];
    assert rest[i - start] == NUL && rest[..i - start] == key[start..i] && rest[i - start + 1..] == key[i + 1..];
    FirstNulAt(rest, i - start);
  }

  lemma FirstNulAt(s: string, i: nat)
    requires i < |s| && s[i] == NUL && NulFree(s[..i])
    ensures FirstNul(s) == i
  {
  }

  /** What the splitting loop knows: the parts up to `start` are done, and none ends before `i`. */
  ghost predicate Splitting(key: string, parts: seq<string>, start: nat, i: nat) {
    start <= i <= |key| && NulFree(key[start..i]) && Parts(key) == parts + Parts(key[start..])
  }

  lemma {:induction false} SplitStep(key: string, parts: seq<string>, start: nat, i: nat)
    requires Splitting(key, parts, start, i) && i < |key|
    ensures if key[i] == NUL then Splitting(key, parts + [key[start..i]], i + 1, i + 1)
            else Splitting(key, parts, start, i + 1)
  {
    if key[i] == NUL {
      PartsStep(key, start, i);
      assert parts + ([key[start..i]] + Parts(key[i + 1..])) == parts + [key[start..i]] + Parts(key[i + 1..]);
    } else {
      assert key[start..i + 1] == key[start..i] + [key[i]];
    }
  }

  lemma {:induction false} SplitLast(key: string, parts: seq<string>, start: nat)
    requires Splitting(key, parts, start, |key|)
    ensures Parts(key) == if key[start..] == "" then parts else parts + [key[start..]]
  {
    assert key[start..] == key[start..|key|];
    var f := FirstNul(key[start..]);
  }

  method SplitNul(key: string) returns (parts: seq<string>)
    ensures parts == Parts(key)
  {
    parts := [];
    var start := 0;
    assert key[0..] == key;
    for i := 0 to |key|
      invariant Splitting(key, parts, start, i)
    {
      SplitStep(key, parts, start, i);
      if key[i] == NUL {
        parts := parts + [key[start..i]];
        start := i + 1;
      }
    }
    SplitLast(key, parts, start);
    ghost var before := parts;
    parts := parts + [key[start..]];
    var n := |parts|;
    assert parts[..n - 1] == before;
    if n > 0 && parts[n - 1] == "" {
      parts := parts[..n - 1];
    }
  }

  method ParseKeyLoop(names: seq<string>, key: string) returns (out: Labels)
    ensures out == ParseKey(names, key)
  {
    if key == "" {
      return map[];
    }
    out := map[];
    var parts := SplitNul(key);
    for i := 0 to |names|
      invariant out == Assign(names[..i], parts)
    {
      assert names[..i + 1][..i] == names[..i];
      if i < |parts| {
        out := out[names[i] := parts[i]];
      }
    }
    assert names[..|names|] == names;
  }

  // ---- what the keys mean ----

  lemma {:induction false} PartsNulFree(key: string)
    ensures forall p | p in Parts(key) :: NulFree(p)
    decreases |key|
  {
    if key != "" && FirstNul(key) < |key| {
      PartsNulFree(key[FirstNul(key) + 1..]);
    }
  }

  lemma TerminateFirst(part: string, parts: seq<string>)
    ensures Terminate([part] + parts) == part + [NUL] + Terminate(parts)
  {
    assert ([part] + parts)[1..] == parts;
  }

  /** What terminating its parts makes of a key. */
  function Closed(key: string): string {
    if key == "" || key[|key| - 1] == NUL then key else key + [NUL]
  }

  lemma WholeRebuilds(key: string)
    requires key != "" && FirstNul(key) == |key|
    ensures Terminate(Parts(key)) == Closed(key)
  {
    assert NulFree(key[..|key|]) && key[..|key|] == key;
    TerminateFirst(key, []);
    assert [key] + [] == [key];
  }

  lemma ClosedFirst(key: string, i: nat)
    requires i < |key| && key[i] == NUL
    ensures key[..i] + [NUL] + Closed(key[i + 1..]) == Closed(key)
  {
    Rejoin(key, i);
  }

  /** Writing a NUL after each part rebuilds the key, up to one missing final NUL. */
  lemma {:induction false} SplitRebuilds(key: string)
    ensures Terminate(Parts(key)) == if key == "" || key[|key| - 1] == NUL then key else key + [NUL]
    decreases |key|
  {
    if key != "" {
      var i := FirstNul(key);
      if i == |key| {
        WholeRebuilds(key);
      } else {
        TerminateFirst(key[..i], Parts(key[i + 1..]));
        SplitRebuilds(key[i + 1..]);
        ClosedFirst(key, i);
      }
    }
  }

  /** A key around one of its NULs; a final NUL of the rest is the final NUL of the key. */
  lemma Rejoin(key: string, i: nat)
    requires i < |key| && key[i] == NUL
    ensures key[..i] + [NUL] + key[i + 1..] == key
    ensures key[..i] + [NUL] + (key[i + 1..] + [NUL]) == key + [NUL]
    ensures key[i + 1..] != "" ==> key[i + 1..][|key[i + 1..]| - 1] == key[|key| - 1]
  {
    assert key[..i] + [NUL] + (key[i + 1..] + [NUL]) == (key[..i] + [NUL] + key[i + 1..]) + [NUL];
  }

  lemma {:induction false} PartsOfTerminated(parts: seq<string>)
    requires forall p | p in parts :: NulFree(p)
    ensures Parts(Terminate(parts)) == parts
  {
    if parts != [] {
      var key := Terminate(parts);
      var i := |parts[0]|;
      assert key[..i] == parts[0] && key[i] == NUL && key[i + 1..] == Terminate(parts[1..]);
      assert parts[0] in parts;
      PartsOfTerminated(parts[1..]);
      assert key[0..] == key && key[0..i] == key[..i];
      PartsStep(key, 0, i);
    }
  }

  lemma {:induction false} ValuesAt(names: seq<string>, labels: Labels)
    ensures |Values(names, labels)| == |names|
    ensures forall i | 0 <= i < |names| :: Values(names, labels)[i] == Get(labels, names[i], "")
  {
    if names != [] {
      ValuesAt(names[1..], labels);
    }
  }

  lemma {:induction false} AssignValues(names: seq<string>, labels: Labels, parts: seq<string>)
    requires |names| <= |parts| && forall i | 0 <= i < |names| :: parts[i] == Get(labels, names[i], "")
    ensures Assign(names, parts) == Restrict(names, labels)
  {
    if names != [] {
      AssignValues(names[..|names| - 1], labels, parts);
    }
  }

  lemma {:induction false} AssignedAreParts(names: seq<string>, parts: seq<string>)
    ensures forall n | n in Assign(names, parts) :: Assign(names, parts)[n] in parts
  {
    if names != [] {
      AssignedAreParts(names[..|names| - 1], parts);
    }
  }

  ghost predicate DistinctNames(names: seq<string>) {
    forall i, j | 0 <= i < j < |names| :: names[i] != names[j]
  }

  lemma {:induction false} AssignedAt(names: seq<string>, parts: seq<string>, i: nat)
    requires DistinctNames(names) && i < |names|
    ensures names[i] in Assign(names, parts) <==> i < |parts|
    ensures i < |parts| ==> Assign(names, parts)[names[i]] == parts[i]
  {
    var n := |names| - 1;
    if i < n {
      AssignedAt(names[..n], parts, i);
    } else {
      OnlyNames(names[..n], parts);
    }
  }

  lemma {:induction false} OnlyNames(names: seq<string>, parts: seq<string>)
    ensures forall n | n in Assign(names, parts) :: n in names
  {
    if names != [] {
      OnlyNames(names[..|names| - 1], parts);
    }
  }

  /** What is read from any key: the name at each place has the part at that place, as far as there are parts, and no other
      name has a value. */
  lemma ParsedByPosition(names: seq<string>, key: string, i: nat)
    requires DistinctNames(names) && i < |names|
    ensures names[i] in ParseKey(names, key) <==> i < |Parts(key)|
    ensures i < |Parts(key)| ==> ParseKey(names, key)[names[i]] == Parts(key)[i]
    ensures forall n | n in ParseKey(names, key) :: n in names
  {
    AssignedAt(names, Parts(key), i);
    OnlyNames(names, Parts(key));
  }

  /** The values a metric stores can be told apart: none of them contains a NUL. */
  predicate Storable(names: seq<string>, labels: Labels) {
    forall n | n in names :: NulFree(Get(labels, n, ""))
  }

  /** Parsing a key gives the labels back exactly if no value contains a NUL, empty values included. */
  lemma KeyRoundTrip(names: seq<string>, labels: Labels)
    ensures ParseKey(names, Key(names, labels)) == Restrict(names, labels) <==> Storable(names, labels)
  {
    var vs := Values(names, labels);
    var key := Key(names, labels);
    ValuesAt(names, labels);
    if Storable(names, labels) {
      forall p | p in vs ensures NulFree(p) {}
      PartsOfTerminated(vs);
      AssignValues(names, labels, vs);
    } else {
      var n :| n in names && !NulFree(Get(labels, n, ""));
      PartsNulFree(key);
      AssignedAreParts(names, Parts(key));
      assert Restrict(names, labels)[n] == Get(labels, n, "");
    }
  }

  /** All values but the first can be told apart; so it is with every metric that docknap registers, whose last label is a
      status, a fixed reason or a state. */
  predicate TailStorable(names: seq<string>, labels: Labels) {
    forall i | 1 <= i < |names| :: NulFree(Get(labels, names[i], ""))
  }

  lemma {:induction false} TerminateLast(parts: seq<string>, last: string)
    ensures Terminate(parts + [last]) == Terminate(parts) + last + [NUL]
  {
    if parts == [] {
      TerminateFirst(last, []);
      assert [] + [last] == [last] + [];
    } else {
      var rest := parts[1..];
      assert parts == [parts[0]] + rest && parts + [last] == [parts[0]] + (rest + [last]);
      TerminateFirst(parts[0], rest);
      TerminateFirst(parts[0], rest + [last]);
      TerminateLast(rest, last);
      assert parts[0] + [NUL] + (Terminate(rest) + last + [NUL]) == (parts[0] + [NUL] + Terminate(rest)) + last + [NUL];
    }
  }

  /** A last part without a NUL is what stands behind the last NUL but one. */
  lemma SameLast(front: string, last: string, front': string, last': string)
    requires front + last + [NUL] == front' + last' + [NUL] && NulFree(last) && NulFree(last')
    requires front != "" && front[|front| - 1] == NUL && front' != "" && front'[|front'| - 1] == NUL
    ensures front == front' && last == last'
  {
    var key := front + last + [NUL];
    assert forall i | |front| <= i < |front| + |last| :: key[i] == last[i - |front|];
    assert forall i | |front'| <= i < |front'| + |last'| :: key[i] == last'[i - |front'|];
    assert key[|front| - 1] == NUL && key[|front'| - 1] == NUL;
    assert |front| == |front'|;
    assert front == key[..|front|] && last == key[|front|..|key| - 1];
  }

  lemma {:induction false} TerminateInjective(parts: seq<string>, parts': seq<string>)
    requires |parts| == |parts'| && Terminate(parts) == Terminate(parts')
    requires forall i | 1 <= i < |parts| :: NulFree(parts[i]) && NulFree(parts'[i])
    ensures parts == parts'
  {
    if parts != [] {
      var n := |parts| - 1;
      var front, front' := parts[..n], parts'[..n];
      assert parts == front + [parts[n]] && parts' == front' + [parts'[n]];
      TerminateLast(front, parts[n]);
      TerminateLast(front', parts'[n]);
      if n == 0 {
        assert Terminate(parts) == parts[0] + [NUL] && Terminate(parts') == parts'[0] + [NUL];
        assert parts[0] == Terminate(parts)[..|Terminate(parts)| - 1];
      } else {
        EndsInNul(front);
        EndsInNul(front');
        SameLast(Terminate(front), parts[n], Terminate(front'), parts'[n]);
        TerminateInjective(front, front');
      }
    }
  }

  lemma EndsInNul(parts: seq<string>)
    requires parts != []
    ensures Terminate(parts) != "" && Terminate(parts)[|Terminate(parts)| - 1] == NUL
  {
    assert parts == parts[..|parts| - 1] + [parts[|parts| - 1]];
    TerminateLast(parts[..|parts| - 1], parts[|parts| - 1]);
  }

  /** Different label sets have different keys, even if the first value contains a NUL. */
  lemma KeyInjective(names: seq<string>, labels: Labels, other: Labels)
    requires TailStorable(names, labels) && TailStorable(names, other)
    ensures Key(names, labels) == Key(names, other) <==> Restrict(names, labels) == Restrict(names, other)
  {
    ValuesAt(names, labels);
    ValuesAt(names, other);
    if Restrict(names, labels) == Restrict(names, other) {
      forall i | 0 <= i < |names|
        ensures Values(names, labels)[i] == Values(names, other)[i]
      {
        assert Restrict(names, labels)[names[i]] == Restrict(names, other)[names[i]];
      }
      assert Values(names, labels) == Values(names, other);
    }
    if Key(names, labels) == Key(names, other) {
      TerminateInjective(Values(names, labels), Values(names, other));
      forall n | n in names
        ensures Get(labels, n, "") == Get(other, n, "")
      {
        var i :| 0 <= i < |names| && names[i] == n;
        assert Values(names, labels)[i] == Values(names, other)[i];
      }
    }
  }

  /** The labels of the counter of failed logins. */
  const PATH: string := "path"
  const REASON: string := "reason"

  /** Where the round trip fails: a request path with a NUL in it, as `%00` puts it there, is reported as the part in front of
      the NUL, and the part behind it is reported as the reason. */
  lemma PathIsCut(path: string, reason: string, i: nat)
    requires i < |path| && path[i] == '\0' && '\0' !in path[..i] && '\0' !in path[i + 1..] && '\0' !in reason
    ensures ParseKey(["path", "reason"], Key(["path", "reason"], map["path" := path, "reason" := reason]))
            == map["path" := path[..i], "reason" := path[i + 1..]]
  {
    var labels := map[PATH := path, REASON := reason];
    var parts := [path[..i], path[i + 1..], reason];
    ValuesAt([PATH, REASON], labels);
    assert PATH != REASON by { assert |PATH| != |REASON|; }
    assert Values([PATH, REASON], labels) == [path, reason];
    assert [path, reason] == [path] + [reason] && parts == [path[..i]] + [path[i + 1..], reason];
    assert [path[i + 1..], reason] == [path[i + 1..]] + [reason];
    TerminateFirst(path, [reason]);
    TerminateFirst(path[i + 1..], [reason]);
    TerminateFirst(path[..i], [path[i + 1..], reason]);
    Rejoin(path, i);
    var tail := Terminate([reason]);
    assert path + [NUL] + tail == path[..i] + [NUL] + (path[i + 1..] + [NUL] + tail);
    PartsOfTerminated(parts);
    AssignTwo(PATH, REASON, parts);
    EndsInNul(parts);
  }

  lemma AssignTwo(a: string, b: string, parts: seq<string>)
    requires |parts| >= 2 && a != b
    ensures Assign([a, b], parts) == map[a := parts[0], b := parts[1]]
  {
    assert [a, b][..1] == [a] && [a][..0] == [];
    assert Assign([a], parts) == map[a := parts[0]];
  }
}
