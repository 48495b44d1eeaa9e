/** Sorted labels. Go's maps are walked in an arbitrary order and the keys are then sorted
    (sort.Strings); this module says what that yields. Strings are compared element by element. */
module Labels {

  predicate Less(a: string, b: string) {
    b != [] && (a == [] || a[0] < b[0] || (a[0] == b[0] && Less(a[1..], b[1..])))
  }

  lemma {:induction false} LessIsTotal(a: string, b: string)
    ensures a == b || Less(a, b) || Less(b, a)
    ensures !(Less(a, b) && Less(b, a)) && (a == b ==> !Less(a, b))
    decreases |a|
  {
    if a != [] && b != [] && a[0] == b[0] {
      LessIsTotal(a[1..], b[1..]);
      assert a == [a[0]] + a[1..] && b == [b[0]] + b[1..];
    }
  }

  lemma {:induction false} LessIsTransitive(a: string, b: string, c: string)
    requires Less(a, b) && Less(b, c)
    ensures Less(a, c)
    decreases |a|
  {
    if a != [] && a[0] == b[0] && b[0] == c[0] {
      LessIsTransitive(a[1..], b[1..], c[1..]);
    }
  }

  /** The labels agree before k, and there the first one ends or has the smaller element. */
  ghost predicate DiffersAt(a: string, b: string, k: nat) {
    k <= |a| && k < |b| && (forall i :: 0 <= i < k ==> a[i] == b[i]) && (k == |a| || a[k] < b[k])
  }

  /** One label comes before another exactly when they agree up to some point and the first then ends, or has
      the smaller element. */
  lemma {:induction false} LessExactly(a: string, b: string)
    ensures Less(a, b) <==> exists k: nat :: DiffersAt(a, b, k)
    decreases |a|
  {
    if a != [] && b != [] && a[0] == b[0] {
      LessExactly(a[1..], b[1..]);
      if k: nat :| DiffersAt(a, b, k) { assert DiffersAt(a[1..], b[1..], k - 1); }
      if k: nat :| DiffersAt(a[1..], b[1..], k) { assert DiffersAt(a, b, k + 1); }
    } else if b != [] && (a == [] || a[0] < b[0]) {
      assert DiffersAt(a, b, 0);
    }
  }

  ghost predicate Ascending(s: seq<string>) {
    forall i, j {:trigger Less(s[i], s[j])} :: 0 <= i < j < |s| ==> Less(s[i], s[j])
  }

  function Elements<T(==)>(s: seq<T>): set<T> {
    if s == [] then {} else Elements(s[..|s| - 1]) + {s[|s| - 1]}
  }

  lemma {:induction false} InElements<T>(s: seq<T>)
    ensures forall x :: x in Elements(s) <==> x in s
  {
    if s != [] {
      InElements(s[..|s| - 1]);
      assert s == s[..|s| - 1] + [s[|s| - 1]];
    }
  }

  /** Putting one new label in its place; the step of the library's sort. */
  function Insert(x: string, s: seq<string>): seq<string> {
    if s == [] then [x] else if Less(x, s[0]) then [x] + s else [s[0]] + Insert(x, s[1..])
  }

  lemma {:induction false} InsertedElements(x: string, s: seq<string>)
    ensures forall y :: y in Insert(x, s) <==> y == x || y in s
    ensures |Insert(x, s)| == |s| + 1
  {
    if s != [] && !Less(x, s[0]) {
      InsertedElements(x, s[1..]);
      assert s == [s[0]] + s[1..];
    }
  }

  lemma {:induction false} InsertKeepsOrder(x: string, s: seq<string>)
    requires Ascending(s) && x !in s
    ensures Ascending(Insert(x, s))
  {
    if s == [] {
    } else if Less(x, s[0]) {
      var r := Insert(x, s);
      forall i, j | 0 <= i < j < |r| ensures Less(r[i], r[j]) {
        if i > 0 { assert Less(s[i - 1], s[j - 1]); }
        else if j > 1 { assert Less(s[0], s[j - 1]); LessIsTransitive(x, s[0], s[j - 1]); }
      }
    } else {
      assert s == [s[0]] + s[1..];
      forall i, j | 0 <= i < j < |s[1..]| ensures Less(s[1..][i], s[1..][j]) { assert Less(s[i + 1], s[j + 1]); }
      InsertKeepsOrder(x, s[1..]);
      InsertedElements(x, s[1..]);
      LessIsTotal(x, s[0]);
      var rest := Insert(x, s[1..]);
      var r := [s[0]] + rest;
      forall i, j | 0 <= i < j < |r| ensures Less(r[i], r[j]) {
        if i > 0 { assert Less(rest[i - 1], rest[j - 1]); }
        else {
          assert rest[j - 1] in rest;
          if rest[j - 1] != x {
            var k :| 0 <= k < |s[1..]| && s[1..][k] == rest[j - 1];
            assert Less(s[0], s[k + 1]);
          }
        }
      }
    }
  }

  /** An ascending sequence is determined by its elements. */
  lemma {:induction false} AscendingIsUnique(s: seq<string>, t: seq<string>)
    requires Ascending(s) && Ascending(t) && forall x :: x in s <==> x in t
    ensures s == t
    decreases |s|
  {
    assert t != [] ==> t[0] in t;
    if s != [] {
      assert s[0] in s;
      var j :| 0 <= j < |t| && t[j] == s[0];
      var i :| 0 <= i < |s| && s[i] == t[0];
      assert j > 0 ==> Less(t[0], t[j]);
      assert i > 0 ==> Less(s[0], s[i]);
      LessIsTotal(s[0], t[0]);
      assert s[0] == t[0];
      TailAscends(s);
      TailAscends(t);
      AscendingIsUnique(s[1..], t[1..]);
      assert s == [s[0]] + s[1..] && t == [t[0]] + t[1..];
    }
  }

  lemma TailAscends(s: seq<string>)
    requires Ascending(s) && s != []
    ensures Ascending(s[1..]) && forall x :: x in s[1..] <==> x in s && x != s[0]
  {
    assert s == [s[0]] + s[1..];
    LessIsTotal(s[0], s[0]);
    forall x | x in s[1..] ensures x != s[0] {
      var i :| 0 <= i < |s[1..]| && s[1..][i] == x;
      assert Less(s[0], s[i + 1]);
    }
    forall i, j | 0 <= i < j < |s[1..]| ensures Less(s[1..][i], s[1..][j]) { assert Less(s[i + 1], s[j + 1]); }
  }

  /** The labels of a set in ascending order. */
  ghost function Sorted(s: set<string>): seq<string> {
    if s == {} then [] else
    var x :| x in s;
    Insert(x, Sorted(s - {x}))
  }

  lemma {:induction false} SortedAscends(s: set<string>)
    ensures Ascending(Sorted(s)) && (forall x :: x in Sorted(s) <==> x in s) && |Sorted(s)| == |s|
  {
    if s != {} {
      var x :| x in s && Sorted(s) == Insert(x, Sorted(s - {x}));
      SortedAscends(s - {x});
      InsertKeepsOrder(x, Sorted(s - {x}));
      InsertedElements(x, Sorted(s - {x}));
    }
  }

  /** Collect the keys in whatever order the map yields them, then sort. */
  method SortedKeys(keys: set<string>) returns (sorted: seq<string>)
    ensures sorted == Sorted(keys)
  {
    sorted := [];
    var rest := keys;
    while rest != {}
      invariant rest <= keys
      invariant Ascending(sorted) && forall x :: x in sorted <==> x in keys - rest
      decreases |rest|
    {
      var key :| key in rest;
      InsertKeepsOrder(key, sorted);
      InsertedElements(key, sorted);
      sorted := Insert(key, sorted);
      rest := rest - {key};
    }
    SortedAscends(keys);
    AscendingIsUnique(sorted, Sorted(keys));
  }
}
