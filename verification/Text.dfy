/** ASCII string operations: case, splitting and joining. */
module Text {

  function UpperChar(c: char): char {
    if 'a' <= c <= 'z' then (c as int - 32) as char else c
  }

  function LowerChar(c: char): char {
    if 'A' <= c <= 'Z' then (c as int + 32) as char else c
  }

  function Upper(s: string): (t: string)
    ensures |t| == |s| && forall i :: 0 <= i < |s| ==> t[i] == UpperChar(s[i])
  {
    seq(|s|, i requires 0 <= i < |s| => UpperChar(s[i]))
  }

  function Lower(s: string): (t: string)
    ensures |t| == |s| && forall i :: 0 <= i < |s| ==> t[i] == LowerChar(s[i])
  {
    seq(|s|, i requires 0 <= i < |s| => LowerChar(s[i]))
  }

  /** [A-Z0-9]+ */
  predicate UpperWord(s: string) {
    s != "" && forall i :: 0 <= i < |s| ==> 'A' <= s[i] <= 'Z' || '0' <= s[i] <= '9'
  }

  /** [a-z0-9_]+ */
  predicate SnakeWord(s: string) {
    s != "" && forall i :: 0 <= i < |s| ==> 'a' <= s[i] <= 'z' || '0' <= s[i] <= '9' || s[i] == '_'
  }

  lemma UpperFixed(s: string)
    requires forall i :: 0 <= i < |s| ==> !('a' <= s[i] <= 'z')
    ensures Upper(s) == s
  {
  }

  lemma LowerFixed(s: string)
    requires forall i :: 0 <= i < |s| ==> !('A' <= s[i] <= 'Z')
    ensures Lower(s) == s
  {
  }

  // ---------- separators ----------

  /** The first index of c, or |s|. */
  function IndexOf(s: string, c: char): (k: nat)
    ensures k <= |s| && c !in s[..k] && (k < |s| ==> s[k] == c)
  {
    if s == "" || s[0] == c then 0
    else
      var k := 1 + IndexOf(s[1..], c);
      assert s[..k] == [s[0]] + s[1..][..k - 1];
      k
  }

  lemma IndexUnique(s: string, c: char, k: nat)
    requires k <= |s| && c !in s[..k] && (k < |s| ==> s[k] == c)
    ensures IndexOf(s, c) == k
  {
  }

  lemma IndexAtMost(s: string, c: char, k: nat)
    requires k < |s| && s[k] == c
    ensures IndexOf(s, c) <= k
  {
    var first := IndexOf(s, c);
    assert forall i :: 0 <= i < first ==> s[..first][i] == s[i];
  }

  function Split(s: string, c: char): (parts: seq<string>)
    ensures parts != []
    decreases |s|
  {
    var k := IndexOf(s, c);
    if k == |s| then [s] else [s[..k]] + Split(s[k + 1..], c)
  }

  function Join(parts: seq<string>, c: char): string {
    if parts == [] then ""
    else if |parts| == 1 then parts[0]
    else parts[0] + [c] + Join(parts[1..], c)
  }

  lemma {:induction false} JoinSplit(s: string, c: char)
    ensures Join(Split(s, c), c) == s
    decreases |s|
  {
    var k := IndexOf(s, c);
    if k == |s| {
      assert Join([s], c) == s;
    } else {
      JoinSplit(s[k + 1..], c);
      JoinCons(s[..k], Split(s[k + 1..], c), c);
      CutAt(s, k);
    }
  }

  lemma JoinCons(h: string, rest: seq<string>, c: char)
    requires rest != []
    ensures Join([h] + rest, c) == h + [c] + Join(rest, c)
  {
    assert ([h] + rest)[1..] == rest;
  }

  lemma CutAt(s: string, k: nat)
    requires k < |s|
    ensures s == s[..k] + [s[k]] + s[k + 1..]
  {
  }

  lemma SplitNone(s: string, c: char)
    requires c !in s
    ensures Split(s, c) == [s]
  {
    assert s[..|s|] == s;
    IndexUnique(s, c, |s|);
  }

  lemma SplitAt(s: string, c: char, k: nat)
    requires k < |s| && s[k] == c && c !in s[..k]
    ensures Split(s, c) == [s[..k]] + Split(s[k + 1..], c)
  {
    IndexUnique(s, c, k);
  }

  lemma ConcatCut(a: string, b: string, c: char, k: nat)
    requires k <= |a|
    ensures (a + [c] + b)[..k] == a[..k]
    ensures k < |a| ==> (a + [c] + b)[k] == a[k] && (a + [c] + b)[k + 1..] == a[k + 1..] + [c] + b
    ensures k == |a| ==> (a + [c] + b)[k] == c && (a + [c] + b)[k + 1..] == b
  {
  }

  lemma {:induction false} SplitConcat(a: string, b: string, c: char)
    ensures Split(a + [c] + b, c) == Split(a, c) + Split(b, c)
    decreases |a|
  {
    var k := IndexOf(a, c);
    ConcatCut(a, b, c, k);
    SplitAt(a + [c] + b, c, k);
    if k == |a| {
      assert a[..k] == a;
      SplitNone(a, c);
    } else {
      var a' := a[k + 1..];
      SplitConcat(a', b, c);
      SplitAt(a, c, k);
      Prepend(a[..k], Split(a', c), Split(b, c), Split(a, c), Split(a' + [c] + b, c), Split(a + [c] + b, c));
    }
  }

  lemma Prepend(h: string, x: seq<string>, y: seq<string>, a: seq<string>, z: seq<string>, w: seq<string>)
    requires a == [h] + x && z == x + y && w == [h] + z
    ensures w == a + y
  {
  }

  lemma SplitMany(s: string, c: char)
    ensures |Split(s, c)| == 1 <==> c !in s
  {
    if c !in s { SplitNone(s, c); }
  }

  // ---------- trimming, removing and suffixes ----------

  predicate IsSpace(c: char) {
    c == ' ' || 9 <= c as int <= 13
  }

  function TrimLeft(s: string): string {
    if s != "" && IsSpace(s[0]) then TrimLeft(s[1..]) else s
  }

  function TrimRight(s: string): string {
    if s != "" && IsSpace(s[|s| - 1]) then TrimRight(s[..|s| - 1]) else s
  }

  function Trim(s: string): string {
    TrimRight(TrimLeft(s))
  }

  lemma TrimFixed(s: string)
    requires s != "" ==> !IsSpace(s[0]) && !IsSpace(s[|s| - 1])
    ensures Trim(s) == s
  {
  }

  lemma {:induction false} TrimLeftShorter(s: string)
    ensures |TrimLeft(s)| <= |s| && (|TrimLeft(s)| == |s| && s != "" ==> !IsSpace(s[0]))
  {
    if s != "" && IsSpace(s[0]) {
      TrimLeftShorter(s[1..]);
    }
  }

  lemma {:induction false} TrimRightShorter(s: string)
    ensures |TrimRight(s)| <= |s| && (|TrimRight(s)| == |s| && s != "" ==> !IsSpace(s[|s| - 1]))
  {
    if s != "" && IsSpace(s[|s| - 1]) {
      TrimRightShorter(s[..|s| - 1]);
    }
  }

  /** A string that trimming leaves alone begins and ends with no space. */
  lemma TrimmedEnds(s: string)
    requires Trim(s) == s && s != ""
    ensures !IsSpace(s[0]) && !IsSpace(s[|s| - 1])
  {
    TrimLeftShorter(s);
    TrimRightShorter(TrimLeft(s));
  }

  lemma {:induction false} TrimKeeps(s: string, c: char)
    requires c in s && !IsSpace(c)
    ensures c in Trim(s)
  {
    TrimLeftKeeps(s, c);
    TrimRightKeeps(TrimLeft(s), c);
  }

  lemma {:induction false} TrimLeftKeeps(s: string, c: char)
    requires c in s && !IsSpace(c)
    ensures c in TrimLeft(s)
  {
    if IsSpace(s[0]) {
      TrimLeftKeeps(s[1..], c);
    }
  }

  lemma {:induction false} TrimRightKeeps(s: string, c: char)
    requires c in s && !IsSpace(c)
    ensures c in TrimRight(s)
  {
    if IsSpace(s[|s| - 1]) {
      assert s == s[..|s| - 1] + [s[|s| - 1]];
      TrimRightKeeps(s[..|s| - 1], c);
    }
  }

  lemma {:induction false} TrimLeftLower(s: string)
    ensures TrimLeft(Lower(s)) == Lower(TrimLeft(s))
  {
    if s != "" && IsSpace(s[0]) {
      assert Lower(s)[1..] == Lower(s[1..]);
      TrimLeftLower(s[1..]);
    }
  }

  lemma {:induction false} TrimRightLower(s: string)
    ensures TrimRight(Lower(s)) == Lower(TrimRight(s))
  {
    if s != "" && IsSpace(s[|s| - 1]) {
      assert Lower(s)[..|s| - 1] == Lower(s[..|s| - 1]);
      TrimRightLower(s[..|s| - 1]);
    }
  }

  lemma TrimLower(s: string)
    ensures Trim(Lower(s)) == Lower(Trim(s))
  {
    TrimLeftLower(s);
    TrimRightLower(TrimLeft(s));
  }

  /** A space at either end is trimmed. */
  lemma TrimSpace(s: string, c: char)
    requires IsSpace(c)
    ensures Trim([c] + s) == Trim(s) && Trim(s + [c]) == Trim(s)
  {
    assert ([c] + s)[1..] == s;
    TrimLeftMore(s, c);
    var t := TrimLeft(s);
    if t != "" {
      assert (t + [c])[..|t|] == t;
    }
  }

  lemma {:induction false} TrimLeftMore(s: string, c: char)
    requires IsSpace(c)
    ensures TrimLeft(s + [c]) == if TrimLeft(s) == "" then "" else TrimLeft(s) + [c]
  {
    if s == "" {
      assert s + [c] == [c] && [c][1..] == "";
    } else if IsSpace(s[0]) {
      assert (s + [c])[1..] == s[1..] + [c];
      TrimLeftMore(s[1..], c);
    }
  }

  /** s without any c. */
  function Remove(s: string, c: char): string {
    if s == "" then "" else (if s[0] == c then "" else [s[0]]) + Remove(s[1..], c)
  }

  lemma {:induction false} RemoveNone(s: string, c: char)
    requires c !in s
    ensures Remove(s, c) == s
  {
    if s != "" {
      RemoveNone(s[1..], c);
    }
  }

  lemma {:induction false} RemoveConcat(s: string, t: string, c: char)
    ensures Remove(s + t, c) == Remove(s, c) + Remove(t, c)
  {
    if s == "" {
      assert s + t == t;
    } else {
      RemoveConcat(s[1..], t, c);
      assert (s + t)[1..] == s[1..] + t;
      ConcatAssociative(if s[0] == c then "" else [s[0]], Remove(s[1..], c), Remove(t, c));
    }
  }

  lemma ConcatAssociative(s: string, t: string, u: string)
    ensures s + (t + u) == (s + t) + u
  {
  }

  predicate EndsWith(s: string, t: string) {
    |t| <= |s| && forall i :: 0 <= i < |t| ==> s[|s| - |t| + i] == t[i]
  }

  /** s without its last n characters. */
  function Chop(s: string, n: nat): string
    requires n <= |s|
  {
    s[..|s| - n]
  }

  lemma EndsWithCut(s: string, t: string)
    requires EndsWith(s, t)
    ensures s == Chop(s, |t|) + t
  {
  }

  lemma EndsWithConcat(s: string, t: string)
    ensures EndsWith(s + t, t) && Chop(s + t, |t|) == s
  {
  }

  lemma EndsWithMore(s: string, t: string, u: string)
    ensures EndsWith(s + u, t + u) <==> EndsWith(s, t)
  {
    if EndsWith(s, t) {
      assert s + u == Chop(s, |t|) + (t + u);
    }
    if EndsWith(s + u, t + u) {
      forall i | 0 <= i < |t| ensures s[|s| - |t| + i] == t[i] {
        assert (t + u)[i] == t[i] && (s + u)[|s| - |t| + i] == s[|s| - |t| + i];
      }
    }
  }

  /** Two endings that differ m characters from the end. */
  lemma EndsDiffer(s: string, t: string, u: string, m: nat)
    requires 1 <= m <= |t| && m <= |u| && t[|t| - m] != u[|u| - m]
    ensures !EndsWith(s + t, u)
  {
    assert (s + t)[|s + t| - m] == t[|t| - m];
    assert |s + t| - |u| + (|u| - m) == |s + t| - m;
  }
}
