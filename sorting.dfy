/** The `ORDER BY <column> <direction>` that the controllers hand to the database,
    modelled as a sort of a sequence of rows by a key.

    Column values are `SortValue`s. A direction is ascending or descending, and puts NULL
    before or after every other value. PostgreSQL's defaults are NULLS LAST for `ASC` and
    NULLS FIRST for `DESC`. Text is compared code point by code point. */
module Sorting {

  datatype SortValue = NullKey | NumKey(n: int) | TextKey(s: string)

  datatype Direction = Direction(descending: bool, nullsFirst: bool)

  /** `ASC` and `DESC` with PostgreSQL's default NULL placement. */
  const Asc: Direction := Direction(false, false)
  const Desc: Direction := Direction(true, true)

  /** Code-point lexicographic order on strings. */
  predicate LexLe(a: string, b: string) {
    |a| == 0 || (|b| > 0 && (a[0] < b[0] || (a[0] == b[0] && LexLe(a[1..], b[1..]))))
  }

  lemma {:induction false} LexLeTotal(a: string, b: string)
    ensures LexLe(a, b) || LexLe(b, a)
  {
    if |a| > 0 && |b| > 0 && a[0] == b[0] {
      LexLeTotal(a[1..], b[1..]);
    }
  }

  lemma {:induction false} LexLeTransitive(a: string, b: string, c: string)
    requires LexLe(a, b) && LexLe(b, c)
    ensures LexLe(a, c)
  {
    if |a| > 0 && |b| > 0 && |c| > 0 && a[0] == b[0] == c[0] {
      LexLeTransitive(a[1..], b[1..], c[1..]);
    }
  }

  /** Ascending order on column values: numbers, then text, then NULL last. */
  predicate ValueLe(a: SortValue, b: SortValue) {
    match (a, b)
    case (_, NullKey) => true
    case (NullKey, _) => false
    case (NumKey(x), NumKey(y)) => x <= y
    case (NumKey(_), TextKey(_)) => true
    case (TextKey(_), NumKey(_)) => false
    case (TextKey(x), TextKey(y)) => LexLe(x, y)
  }

  lemma ValueLeTotal(a: SortValue, b: SortValue)
    ensures ValueLe(a, b) || ValueLe(b, a)
  {
    if a.TextKey? && b.TextKey? {
      LexLeTotal(a.s, b.s);
    }
  }

  lemma ValueLeTransitive(a: SortValue, b: SortValue, c: SortValue)
    requires ValueLe(a, b) && ValueLe(b, c)
    ensures ValueLe(a, c)
  {
    if a.TextKey? && b.TextKey? && c.TextKey? {
      LexLeTransitive(a.s, b.s, c.s);
    }
  }

  /** `a` may come before `b` when ordering in direction `dir`: NULLs go where the
      direction puts them, and other values follow `ValueLe` or its reverse. */
  predicate InOrder(a: SortValue, b: SortValue, dir: Direction) {
    if a.NullKey? || b.NullKey? then (a.NullKey? && b.NullKey?) || a.NullKey? == dir.nullsFirst
    else if dir.descending then ValueLe(b, a)
    else ValueLe(a, b)
  }

  lemma InOrderTotal(a: SortValue, b: SortValue, dir: Direction)
    ensures InOrder(a, b, dir) || InOrder(b, a, dir)
  {
    ValueLeTotal(a, b);
  }

  lemma InOrderTransitive(a: SortValue, b: SortValue, c: SortValue, dir: Direction)
    requires InOrder(a, b, dir) && InOrder(b, c, dir)
    ensures InOrder(a, c, dir)
  {
    if a.NullKey? || b.NullKey? || c.NullKey? {
    } else if dir.descending {
      ValueLeTransitive(c, b, a);
    } else {
      ValueLeTransitive(a, b, c);
    }
  }

  /** Under PostgreSQL's defaults NULL is the greatest value: last ascending, first descending. */
  lemma DefaultNullsAreGreatest(a: SortValue)
    ensures InOrder(a, NullKey, Asc) && (a.NullKey? || !InOrder(NullKey, a, Asc))
    ensures InOrder(NullKey, a, Desc) && (a.NullKey? || !InOrder(a, NullKey, Desc))
  {
  }

  /** Every row comes no later than the rows after it, by `key` in direction `dir`. */
  ghost predicate SortedBy<T>(s: seq<T>, key: T -> SortValue, dir: Direction) {
    forall i, j :: 0 <= i < j < |s| ==> InOrder(key(s[i]), key(s[j]), dir)
  }

  /** Inserts `x` before the first row it may precede. */
  function Insert<T>(x: T, s: seq<T>, key: T -> SortValue, dir: Direction): (r: seq<T>)
    ensures multiset(r) == multiset(s) + multiset{x}
    ensures |r| == |s| + 1
  {
    if |s| == 0 then [x]
    else if InOrder(key(x), key(s[0]), dir) then [x] + s
    else
      assert s == [s[0]] + s[1..];
      [s[0]] + Insert(x, s[1..], key, dir)
  }

  /** Insertion sort of `s` by `key`. */
  function SortBy<T>(s: seq<T>, key: T -> SortValue, dir: Direction): (r: seq<T>)
    ensures multiset(r) == multiset(s)
    ensures |r| == |s|
  {
    if |s| == 0 then []
    else
      assert s == [s[0]] + s[1..];
      Insert(s[0], SortBy(s[1..], key, dir), key, dir)
  }

  /** A row that may precede the first of ordered rows may precede them all. */
  lemma PrependSorted<T>(x: T, s: seq<T>, key: T -> SortValue, dir: Direction)
    requires SortedBy(s, key, dir) && |s| > 0 && InOrder(key(x), key(s[0]), dir)
    ensures SortedBy([x] + s, key, dir)
  {
    var r := [x] + s;
    forall i, j | 0 <= i < j < |r| ensures InOrder(key(r[i]), key(r[j]), dir) {
      if i == 0 && j > 1 {
        InOrderTransitive(key(x), key(s[0]), key(s[j - 1]), dir);
      }
    }
  }

  /** The head of ordered rows may precede every row of `t`, which holds the rest of them
      and a row `x` that the head may precede. */
  lemma HeadPrecedes<T>(x: T, s: seq<T>, t: seq<T>, key: T -> SortValue, dir: Direction)
    requires SortedBy(s, key, dir) && |s| > 0 && InOrder(key(s[0]), key(x), dir)
    requires multiset(t) == multiset(s[1..]) + multiset{x}
    ensures forall k | 0 <= k < |t| :: InOrder(key(s[0]), key(t[k]), dir)
  {
    forall k | 0 <= k < |t| ensures InOrder(key(s[0]), key(t[k]), dir) {
      assert t[k] in multiset(t);
      if t[k] != x {
        assert t[k] in multiset(s[1..]);
        var m :| 0 <= m < |s[1..]| && s[1..][m] == t[k];
        assert s[m + 1] == t[k];
      }
    }
  }

  lemma {:induction false} InsertSorted<T>(x: T, s: seq<T>, key: T -> SortValue, dir: Direction)
    requires SortedBy(s, key, dir)
    ensures SortedBy(Insert(x, s, key, dir), key, dir)
  {
    if |s| == 0 {
    } else if InOrder(key(x), key(s[0]), dir) {
      PrependSorted(x, s, key, dir);
    } else {
      InOrderTotal(key(x), key(s[0]), dir);
      var tail := Insert(x, s[1..], key, dir);
      InsertSorted(x, s[1..], key, dir);
      HeadPrecedes(x, s, tail, key, dir);
      var r := [s[0]] + tail;
      assert r == Insert(x, s, key, dir);
      forall i, j | 0 <= i < j < |r| ensures InOrder(key(r[i]), key(r[j]), dir) {
        if i == 0 {
          assert r[j] == tail[j - 1];
        } else {
          assert r[i] == tail[i - 1] && r[j] == tail[j - 1];
        }
      }
    }
  }

  /** The sort is ordered by the key and is a permutation of its input. */
  lemma {:induction false} SortBySorted<T>(s: seq<T>, key: T -> SortValue, dir: Direction)
    ensures SortedBy(SortBy(s, key, dir), key, dir)
    ensures multiset(SortBy(s, key, dir)) == multiset(s)
  {
    if |s| > 0 {
      SortBySorted(s[1..], key, dir);
      InsertSorted(s[0], SortBy(s[1..], key, dir), key, dir);
    }
  }
}
