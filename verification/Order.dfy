/** The order strings are sorted in, and what sorting by it fixes. */
module Order {

  /** a comes before b, character by character. */
  predicate Less(a: string, b: string) {
    if b == "" then false
    else if a == "" then true
    else if a[0] != b[0] then a[0] < b[0]
    else Less(a[1..], b[1..])
  }

  lemma {:induction false} LessTotal(a: string, b: string)
    ensures a != b ==> Less(a, b) || Less(b, a)
    ensures Less(a, b) ==> a != b && !Less(b, a)
    decreases |a|
  {
    if a != "" && b != "" {
      LessTotal(a[1..], b[1..]);
      if a[0] == b[0] && a[1..] == b[1..] {
        assert a == [a[0]] + a[1..] && b == [b[0]] + b[1..];
      }
    }
  }

  /** a comes before b exactly when they agree up to some place where a ends and b does not, or where a has the
      smaller character. */
  lemma {:induction false} LessExact(a: string, b: string)
    ensures Less(a, b) <==> exists k :: 0 <= k <= |a| && k < |b| && Parts(a, b, k)
    decreases |a|
  {
    if a != "" && b != "" && a[0] == b[0] {
      LessExact(a[1..], b[1..]);
      forall k | 0 <= k < |a| && k < |b| - 1 ensures Parts(a[1..], b[1..], k) <==> Parts(a, b, k + 1) {
        PartsTail(a, b, k);
      }
      if Less(a, b) {
        var k :| 0 <= k <= |a[1..]| && k < |b[1..]| && Parts(a[1..], b[1..], k);
        assert Parts(a, b, k + 1);
      }
      if k :| 0 <= k <= |a| && k < |b| && Parts(a, b, k) {
        assert k > 0 && Parts(a[1..], b[1..], k - 1);
      }
    } else if b != "" {
      assert Parts(a, b, 0) <==> Less(a, b);
      assert a[..0] == b[..0];
      assert forall k :: 0 < k <= |a| && k < |b| ==> a[..k][0] == a[0] && b[..k][0] == b[0];
    }
  }

  predicate Parts(a: string, b: string, k: nat)
    requires k <= |a| && k < |b|
  {
    a[..k] == b[..k] && (k == |a| || a[k] < b[k])
  }

  lemma PartsTail(a: string, b: string, k: nat)
    requires a != "" && b != "" && a[0] == b[0] && k < |a| && k < |b| - 1
    ensures Parts(a[1..], b[1..], k) <==> Parts(a, b, k + 1)
  {
    assert a[..k + 1] == [a[0]] + a[1..][..k] && b[..k + 1] == [b[0]] + b[1..][..k];
    assert a[1..][..k] == a[..k + 1][1..] && b[1..][..k] == b[..k + 1][1..];
  }

  lemma {:induction false} LessTransitive(a: string, b: string, c: string)
    requires Less(a, b) && Less(b, c)
    ensures Less(a, c)
    decreases |a|
  {
    if a != "" && a[0] == b[0] == c[0] {
      LessTransitive(a[1..], b[1..], c[1..]);
    }
  }

  predicate Ascending(s: seq<string>) {
    forall i, j :: 0 <= i < j < |s| ==> Less(s[i], s[j])
  }

  predicate Before(s: seq<string>, k: string) {
    forall x <- s :: Less(x, k)
  }

  predicate Behind(s: seq<string>, k: string) {
    forall x <- s :: Less(k, x)
  }

  /** Sorted strings without repetition are determined by which strings they are. */
  lemma {:induction false} AscendingUnique(s: seq<string>, t: seq<string>)
    requires Ascending(s) && Ascending(t) && forall k :: k in s <==> k in t
    ensures s == t
    decreases |s|
  {
    assert (t == [] || t[0] in t) && (s == [] || s[0] in s);
    if s != [] {
      SameHead(s, t);
      forall k ensures k in s[1..] <==> k in t[1..] {
        InTail(s, k);
        InTail(t, k);
      }
      AscendingUnique(s[1..], t[1..]);
      assert s == [s[0]] + s[1..] && t == [t[0]] + t[1..];
    }
  }

  lemma SameHead(s: seq<string>, t: seq<string>)
    requires Ascending(s) && Ascending(t) && s != [] && t != [] && s[0] in t && t[0] in s
    ensures s[0] == t[0]
  {
    LessTotal(s[0], t[0]);
  }

  lemma InTail(s: seq<string>, k: string)
    requires Ascending(s) && s != []
    ensures k in s[1..] <==> k in s && k != s[0]
  {
    if k in s[1..] {
      var i :| 0 <= i < |s[1..]| && s[1..][i] == k;
      LessTotal(s[0], s[i + 1]);
    }
  }

  /** Puts k where it belongs. */
  method Insert(s: seq<string>, k: string) returns (t: seq<string>)
    requires Ascending(s) && k !in s
    ensures Ascending(t) && forall x :: x in t <==> x == k || x in s
  {
    var i := 0;
    while i < |s| && Less(s[i], k)
      invariant 0 <= i <= |s| && Before(s[..i], k)
    {
      i := i + 1;
    }
    if i < |s| {
      LessTotal(s[i], k);
      BehindFrom(s, i, k);
    }
    t := s[..i] + [k] + s[i..];
    InsertedAscending(s, i, k);
    forall x ensures x in t <==> x == k || x in s {
      InsertedMembers(s, i, k, x);
    }
  }

  lemma BehindFrom(s: seq<string>, i: nat, k: string)
    requires Ascending(s) && i < |s| && Less(k, s[i])
    ensures Behind(s[i..], k)
  {
    forall x <- s[i..] ensures Less(k, x) {
      var j :| 0 <= j < |s[i..]| && s[i..][j] == x;
      if j > 0 { LessTransitive(k, s[i], s[i + j]); }
    }
  }

  lemma InsertedAscending(s: seq<string>, i: nat, k: string)
    requires Ascending(s) && i <= |s| && Before(s[..i], k) && Behind(s[i..], k)
    ensures Ascending(s[..i] + [k] + s[i..])
  {
    var t := s[..i] + [k] + s[i..];
    forall m | 0 <= m < i ensures t[m] == s[m] && Less(s[m], k) {
      assert s[..i][m] in s[..i];
    }
    forall m | i < m < |t| ensures t[m] == s[m - 1] && Less(k, s[m - 1]) {
      assert s[i..][m - i - 1] in s[i..];
    }
  }

  lemma InsertedMembers(s: seq<string>, i: nat, k: string, x: string)
    requires i <= |s|
    ensures x in s[..i] + [k] + s[i..] <==> x == k || x in s
  {
    assert s == s[..i] + s[i..];
  }

  /** Every string of a set, in order. */
  method Sorted(keys: set<string>) returns (s: seq<string>)
    ensures Ascending(s) && forall k :: k in s <==> k in keys
  {
    s := [];
    var rest := keys;
    while rest != {}
      invariant rest <= keys && Ascending(s) && forall k :: k in s <==> k in keys - rest
      decreases |rest|
    {
      var k :| k in rest;
      s := Insert(s, k);
      rest := rest - {k};
    }
  }
}
