/** The sort-header state machine and the comparator sort shared by the
    Schools, Templates and Categories pages. */
module Sorting {
  import opened Text
  import opened Seqs

  datatype Direction = Asc | Desc

  function Flip(d: Direction): Direction {
    if d == Asc then Desc else Asc
  }

  /** The header click: the current column flips direction, another column
      becomes current in ascending order. */
  function Toggle<F(==)>(field: F, dir: Direction, clicked: F): (F, Direction) {
    if field == clicked then (field, Flip(dir)) else (clicked, Asc)
  }

  /** Two clicks on the current column restore the original state; a click on
      another column always lands on that column ascending. */
  lemma ToggleProperties<F>(field: F, dir: Direction, other: F)
    ensures var once := Toggle(field, dir, field); Toggle(once.0, once.1, field) == (field, dir)
    ensures Toggle(field, dir, other).0 == other
    ensures other != field ==> Toggle(field, dir, other).1 == Asc
    ensures Toggle(field, dir, field).1 != dir
  {
  }

  /** `a` may precede `b` under the direction: ascending uses
      `a.localeCompare(b)`, descending the reversed call `b.localeCompare(a)`. */
  predicate InOrder(a: string, b: string, d: Direction) {
    if d == Asc then LexLessEq(a, b) else LexLessEq(b, a)
  }

  lemma InOrderTotal(a: string, b: string, d: Direction)
    ensures InOrder(a, b, d) || InOrder(b, a, d)
  {
    LexTotal(a, b);
  }

  lemma InOrderTransitive(a: string, b: string, c: string, d: Direction)
    requires InOrder(a, b, d) && InOrder(b, c, d)
    ensures InOrder(a, c, d)
  {
    if d == Asc { LexTransitive(a, b, c); } else { LexTransitive(c, b, a); }
  }

  ghost predicate SortedBy<T>(s: seq<T>, key: T -> string, d: Direction) {
    forall i, j :: 0 <= i < j < |s| ==> InOrder(key(s[i]), key(s[j]), d)
  }

  /** Places `x` before the first element it may precede, so equal keys keep
      their order. */
  function Insert<T>(x: T, s: seq<T>, key: T -> string, d: Direction): (r: seq<T>)
    ensures multiset(r) == multiset(s) + multiset{x}
    decreases |s|
  {
    if |s| == 0 || InOrder(key(x), key(s[0]), d) then [x] + s
    else
      assert s == [s[0]] + s[1..];
      [s[0]] + Insert(x, s[1..], key, d)
  }

  lemma {:induction false} InsertSorted<T>(x: T, s: seq<T>, key: T -> string, d: Direction)
    requires SortedBy(s, key, d)
    ensures SortedBy(Insert(x, s, key, d), key, d)
    decreases |s|
  {
    var r := Insert(x, s, key, d);
    if |s| == 0 {
    } else if InOrder(key(x), key(s[0]), d) {
      forall i, j | 0 <= i < j < |r| ensures InOrder(key(r[i]), key(r[j]), d) {
        if i == 0 {
          if j > 1 { InOrderTransitive(key(x), key(s[0]), key(s[j - 1]), d); }
        } else {
          assert r[i] == s[i - 1] && r[j] == s[j - 1];
        }
      }
    } else {
      var tail := Insert(x, s[1..], key, d);
      InsertSorted(x, s[1..], key, d);
      InOrderTotal(key(x), key(s[0]), d);
      assert r == [s[0]] + tail;
      forall i, j | 0 <= i < j < |r| ensures InOrder(key(r[i]), key(r[j]), d) {
        if i == 0 {
          var y := tail[j - 1];
          assert y in multiset(tail);
          assert y == x || y in multiset(s[1..]);
          if y != x {
            var m :| 0 <= m < |s[1..]| && s[1..][m] == y;
            assert s[m + 1] == y;
          }
        } else {
          assert r[i] == tail[i - 1] && r[j] == tail[j - 1];
        }
      }
    }
  }

  /** `[...s].sort(cmp)` for a comparator on a string key: the result is in
      order and holds exactly the same elements. */
  function SortBy<T>(s: seq<T>, key: T -> string, d: Direction): (r: seq<T>)
    ensures multiset(r) == multiset(s)
    ensures |r| == |s|
    ensures SortedBy(r, key, d)
    decreases |s|
  {
    if |s| == 0 then []
    else
      var rest := SortBy(s[1..], key, d);
      InsertSorted(s[0], rest, key, d);
      assert s == [s[0]] + s[1..];
      assert multiset(s) == multiset{s[0]} + multiset(s[1..]);
      Insert(s[0], rest, key, d)
  }

  /** The elements carrying one key value, in the order they come in. */
  function WithKey<T>(s: seq<T>, key: T -> string, k: string): seq<T> {
    Filter(s, (e: T) => key(e) == k)
  }

  /** Inserting `x` passes only over elements whose key differs from its
      own, so among the elements with `x`'s key it lands first, and among
      those with any other key nothing moves. */
  lemma {:induction false} InsertWithKey<T>(x: T, s: seq<T>, key: T -> string, d: Direction, k: string)
    ensures key(x) == k ==> WithKey(Insert(x, s, key, d), key, k) == [x] + WithKey(s, key, k)
    ensures key(x) != k ==> WithKey(Insert(x, s, key, d), key, k) == WithKey(s, key, k)
    decreases |s|
  {
    var p := (e: T) => key(e) == k;
    var r := Insert(x, s, key, d);
    if |s| == 0 || InOrder(key(x), key(s[0]), d) {
      assert r == [x] + s && r[1..] == s;
    } else {
      LexReflexive(key(x));
      assert key(s[0]) != key(x);
      InsertWithKey(x, s[1..], key, d, k);
      assert r == [s[0]] + Insert(x, s[1..], key, d);
      assert Filter(r, p) == (if p(s[0]) then [s[0]] else []) + Filter(Insert(x, s[1..], key, d), p);
      assert Filter(s, p) == (if p(s[0]) then [s[0]] else []) + Filter(s[1..], p);
    }
  }

  /** The sort is stable: elements with equal keys keep their relative order. */
  lemma {:induction false} SortByStable<T>(s: seq<T>, key: T -> string, d: Direction, k: string)
    ensures WithKey(SortBy(s, key, d), key, k) == WithKey(s, key, k)
    decreases |s|
  {
    if |s| > 0 {
      SortByStable(s[1..], key, d, k);
      InsertWithKey(s[0], SortBy(s[1..], key, d), key, d, k);
    }
  }
}
