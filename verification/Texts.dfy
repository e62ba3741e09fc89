/** The Python string operations the components share. */
module Texts {
  predicate StartsWith(s: string, prefix: string) { prefix <= s }

  predicate EndsWith(s: string, suffix: string) {
    |suffix| <= |s| && s[|s| - |suffix|..] == suffix
  }

  /** The parts of a text between occurrences of a one-character separator. */
  function Split(s: string, sep: char): (parts: seq<string>)
    ensures parts != []
  {
    if s == "" then [""]
    else
      var rest := Split(s[1..], sep);
      if s[0] == sep then [""] + rest
      else [[s[0]] + rest[0]] + rest[1..]
  }

  /** The parts put together with a one-character separator. */
  function Join(parts: seq<string>, sep: char): string {
    if parts == [] then "" else parts[0] + JoinTail(parts[1..], sep)
  }

  function JoinTail(parts: seq<string>, sep: char): string {
    if parts == [] then "" else [sep] + parts[0] + JoinTail(parts[1..], sep)
  }

  lemma {:induction false} JoinSplit(s: string, sep: char)
    ensures Join(Split(s, sep), sep) == s
  {
    if s != "" {
      JoinSplit(s[1..], sep);
      var rest := Split(s[1..], sep);
      assert s == [s[0]] + s[1..];
      if s[0] == sep {
        assert ([""] + rest)[1..] == rest;
        assert rest == [rest[0]] + rest[1..];
      } else {
        assert ([[s[0]] + rest[0]] + rest[1..])[1..] == rest[1..];
      }
    }
  }

  lemma {:induction false} SplitHead(a: string, s: string, sep: char)
    requires sep !in a
    ensures Split(a + [sep] + s, sep) == [a] + Split(s, sep)
  {
    if a == "" {
      assert (a + [sep] + s)[1..] == s;
    } else {
      SplitHead(a[1..], s, sep);
      assert (a + [sep] + s)[1..] == a[1..] + [sep] + s;
      assert a == [a[0]] + a[1..];
    }
  }

  lemma {:induction false} SplitWhole(a: string, sep: char)
    requires sep !in a
    ensures Split(a, sep) == [a]
  {
    if a != "" {
      SplitWhole(a[1..], sep);
      assert a == [a[0]] + a[1..];
    }
  }

  /** Code-point order, as Python compares strings. */
  predicate Le(a: string, b: string) {
    if a == "" then true
    else if b == "" then false
    else if a[0] == b[0] then Le(a[1..], b[1..])
    else a[0] < b[0]
  }

  lemma {:induction false} LeTotal(a: string, b: string)
    ensures Le(a, b) || Le(b, a)
    ensures Le(a, b) && Le(b, a) ==> a == b
  {
    if a != "" && b != "" && a[0] == b[0] {
      LeTotal(a[1..], b[1..]);
      assert a == [a[0]] + a[1..] && b == [b[0]] + b[1..];
    }
  }

  lemma {:induction false} LeTransitive(a: string, b: string, c: string)
    requires Le(a, b) && Le(b, c)
    ensures Le(a, c)
  {
    if a != "" && b != "" && c != "" && a[0] == b[0] == c[0] {
      LeTransitive(a[1..], b[1..], c[1..]);
    }
  }

  predicate IsLeast(k: string, ks: set<string>) {
    k in ks && forall j | j in ks :: Le(k, j)
  }

  lemma {:induction false} HasLeast(ks: set<string>)
    requires ks != {}
    ensures exists k :: IsLeast(k, ks)
    ensures forall a, b | IsLeast(a, ks) && IsLeast(b, ks) :: a == b
  {
    forall a, b | IsLeast(a, ks) && IsLeast(b, ks) ensures a == b { LeTotal(a, b); }
    var k :| k in ks;
    LeTotal(k, k);
    if ks != {k} {
      HasLeast(ks - {k});
      var m :| IsLeast(m, ks - {k});
      LeTotal(k, m);
      var least := if Le(k, m) then k else m;
      forall j | j in ks ensures Le(least, j) {
        if j != k && least == k { LeTransitive(k, m, j); }
      }
      assert IsLeast(least, ks);
    } else {
      assert IsLeast(k, ks);
    }
  }

  /** The keys of a dictionary in increasing order. */
  function SortedKeys(ks: set<string>): (sorted: seq<string>)
    ensures forall k :: k in sorted <==> k in ks
    ensures Increasing(sorted)
  {
    if ks == {} then []
    else
      HasLeast(ks);
      var k :| IsLeast(k, ks);
      [k] + SortedKeys(ks - {k})
  }

  ghost predicate Increasing(s: seq<string>) {
    forall i, j | 0 <= i < j < |s| :: Le(s[i], s[j]) && s[i] != s[j]
  }

  /** A set has only one increasing enumeration. */
  lemma {:induction false} IncreasingUnique(a: seq<string>, b: seq<string>)
    requires Increasing(a) && Increasing(b)
    requires forall k :: k in a <==> k in b
    ensures a == b
  {
    var j, k := if a == [] then "" else a[0], if b == [] then "" else b[0];
    assert (a != [] ==> j in a) && (b != [] ==> k in b);
    if a != [] {
      assert a[0] == b[0] by {
        var i :| 0 <= i < |b| && b[i] == a[0];
        var j :| 0 <= j < |a| && a[j] == b[0];
        LeTotal(a[0], b[0]);
      }
      forall k ensures k in a[1..] <==> k in b[1..] {
        assert k in a <==> k == a[0] || k in a[1..];
        assert k in b <==> k == b[0] || k in b[1..];
        if k in a[1..] { var i :| 1 <= i < |a| && a[i] == k; assert a[0] != a[i]; }
        if k in b[1..] { var i :| 1 <= i < |b| && b[i] == k; assert b[0] != b[i]; }
      }
      IncreasingUnique(a[1..], b[1..]);
    }
  }

  /** The keys in the order a dictionary yields them, then sorted. */
  function SortKeys(keys: seq<string>): seq<string> {
    if keys == [] then [] else InsertKey(SortKeys(keys[..|keys| - 1]), keys[|keys| - 1])
  }

  function InsertKey(sorted: seq<string>, k: string): seq<string> {
    if sorted == [] then [k]
    else if Le(sorted[|sorted| - 1], k) then sorted + [k]
    else InsertKey(sorted[..|sorted| - 1], k) + [sorted[|sorted| - 1]]
  }

  lemma IncreasingAppend(sorted: seq<string>, k: string)
    ensures Increasing(sorted + [k])
      <==> Increasing(sorted) && forall i | 0 <= i < |sorted| :: Le(sorted[i], k) && sorted[i] != k
  {
    hide Le;
    var all := sorted + [k];
    if Increasing(all) {
      forall i, j | 0 <= i < j < |sorted| ensures Le(sorted[i], sorted[j]) && sorted[i] != sorted[j] {
        assert Le(all[i], all[j]);
      }
      forall i | 0 <= i < |sorted| ensures Le(sorted[i], k) && sorted[i] != k { assert Le(all[i], all[|sorted|]); }
    }
  }

  /** A key at least as large as the last of an increasing list is at least as large as all. */
  lemma BelowLast(sorted: seq<string>, k: string)
    requires sorted != [] && Increasing(sorted) && Le(sorted[|sorted| - 1], k)
    ensures forall i | 0 <= i < |sorted| :: Le(sorted[i], k)
  {
    hide Le;
    var last := |sorted| - 1;
    forall i | 0 <= i < last ensures Le(sorted[i], k) { LeTransitive(sorted[i], sorted[last], k); }
  }

  lemma {:induction false} InsertKeyIncreasing(sorted: seq<string>, k: string)
    requires Increasing(sorted) && k !in sorted
    ensures Increasing(InsertKey(sorted, k))
    ensures forall j :: j in InsertKey(sorted, k) <==> j in sorted || j == k
  {
    hide Le, Increasing;
    if sorted == [] {
      OneIncreasing(k);
    } else {
      var front, last := sorted[..|sorted| - 1], sorted[|sorted| - 1];
      assert sorted == front + [last];
      LeTotal(last, k);
      if Le(last, k) {
        BelowLast(sorted, k);
        IncreasingAppend(sorted, k);
      } else {
        IncreasingAppend(front, last);
        InsertKeyIncreasing(front, k);
        InsertedBelow(InsertKey(front, k), front, k, last);
      }
    }
  }

  lemma OneIncreasing(k: string)
    ensures Increasing([k])
  {
  }

  lemma InsertedBelow(inserted: seq<string>, front: seq<string>, k: string, last: string)
    requires Increasing(inserted) && Le(k, last) && k != last
    requires forall j :: j in inserted <==> j in front || j == k
    requires forall i | 0 <= i < |front| :: Le(front[i], last) && front[i] != last
    ensures Increasing(inserted + [last])
  {
    hide Le, Increasing;
    forall i | 0 <= i < |inserted| ensures Le(inserted[i], last) && inserted[i] != last {
      assert inserted[i] in inserted;
    }
    IncreasingAppend(inserted, last);
  }

  /** Sorting does not depend on the order in which the keys were inserted. */
  lemma SortKeysIgnoresOrder(keys: seq<string>, ks: set<string>)
    requires forall i, j | 0 <= i < j < |keys| :: keys[i] != keys[j]
    requires forall k :: k in keys <==> k in ks
    ensures SortKeys(keys) == SortedKeys(ks)
  {
    SortKeysIncreasing(keys);
    IncreasingUnique(SortKeys(keys), SortedKeys(ks));
  }

  lemma {:induction false} SortKeysIncreasing(keys: seq<string>)
    requires forall i, j | 0 <= i < j < |keys| :: keys[i] != keys[j]
    ensures Increasing(SortKeys(keys))
    ensures forall k :: k in SortKeys(keys) <==> k in keys
  {
    if keys != [] {
      var last := |keys| - 1;
      SortKeysIncreasing(keys[..last]);
      assert keys == keys[..last] + [keys[last]];
      InsertKeyIncreasing(SortKeys(keys[..last]), keys[last]);
    }
  }
}
