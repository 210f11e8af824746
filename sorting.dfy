/**
 * The ordering the sort handler asks `Array.prototype.sort` for: its
 * comparator returns -1, 1 or 0, so the library's stable sort puts each row
 * after every row that strictly precedes it and keeps ties in input order.
 * `StableSort` is that sort written as an insertion sort.
 */
module Sorting {
  import opened Strings
  import opened Rows

  /** The comparator returns -1 for `(a, b)`: `a < b` for asc, `a > b` for dsc. */
  predicate Precedes(d: Order, a: string, b: string) {
    match d
    case Asc => StrLess(a, b)
    case Dsc => StrLess(b, a)
  }

  lemma PrecedesIrreflexive(d: Order, a: string)
    ensures !Precedes(d, a, a)
  {
    StrLessIrreflexive(a);
  }

  lemma PrecedesAsymmetric(d: Order, a: string, b: string)
    requires Precedes(d, a, b)
    ensures !Precedes(d, b, a)
  {
    if Precedes(d, b, a) {
      if d == Asc {
        StrLessTransitive(a, b, a);
      } else {
        StrLessTransitive(b, a, b);
      }
      StrLessIrreflexive(a);
      StrLessIrreflexive(b);
    }
  }

  /** "Not after" is transitive: `a` no later than `b`, `b` no later than `c`. */
  lemma NotPrecedesTransitive(d: Order, a: string, b: string, c: string)
    requires !Precedes(d, b, a) && !Precedes(d, c, b)
    ensures !Precedes(d, c, a)
  {
    if Precedes(d, c, a) && a != b {
      StrLessTotal(a, b);
      if d == Asc {
        StrLessTransitive(c, a, b);
      } else {
        StrLessTransitive(b, a, c);
      }
    }
  }

  /** Non-decreasing by `row[col]` for asc, non-increasing for dsc. */
  predicate Ordered(s: seq<Row>, col: string, d: Order)
    requires HasKey(s, col)
  {
    forall i, j :: 0 <= i < j < |s| ==> !Precedes(d, s[j][col], s[i][col])
  }

  /** The rows of `s` whose value under `col` is `k`, in order. */
  function KeyFilter(s: seq<Row>, col: string, k: string): seq<Row>
    requires HasKey(s, col)
  {
    if s == [] then []
    else (if s[0][col] == k then [s[0]] else []) + KeyFilter(s[1..], col, k)
  }

  /** Puts `x` in front of the first row of `t` that does not strictly precede it. */
  function Insert(x: Row, t: seq<Row>, col: string, d: Order): (r: seq<Row>)
    requires col in x && HasKey(t, col)
    ensures multiset(r) == multiset([x] + t)
  {
    if t == [] then [x]
    else if Precedes(d, t[0][col], x[col]) then
      assert t == [t[0]] + t[1..];
      [t[0]] + Insert(x, t[1..], col, d)
    else [x] + t
  }

  /** The rows of `s` sorted by `col` in direction `d`, ties in input order. */
  function StableSort(s: seq<Row>, col: string, d: Order): (r: seq<Row>)
    requires HasKey(s, col)
    ensures multiset(r) == multiset(s)
  {
    if s == [] then []
    else
      var rest := StableSort(s[1..], col, d);
      HasKeyPermutation(rest, s[1..], col);
      assert s == [s[0]] + s[1..];
      Insert(s[0], rest, col, d)
  }

  /** `x` and `y` in that order, then `t`, is ordered when `y` leads an ordered `t` and `x` is no later than `y`. */
  lemma OrderedPrepend(x: Row, t: seq<Row>, col: string, d: Order)
    requires col in x && HasKey(t, col) && Ordered(t, col, d)
    requires forall j :: 0 <= j < |t| ==> !Precedes(d, t[j][col], x[col])
    ensures HasKey([x] + t, col) && Ordered([x] + t, col, d)
  {
    var r := [x] + t;
    forall i, j | 0 <= i < j < |r| ensures !Precedes(d, r[j][col], r[i][col]) {
      if i == 0 {
        assert r[j] == t[j - 1];
      } else {
        assert r[i] == t[i - 1] && r[j] == t[j - 1];
      }
    }
  }

  /** Every row of an ordered `t` is no earlier than `x` when its first row is. */
  lemma NoneBefore(x: Row, t: seq<Row>, col: string, d: Order)
    requires col in x && HasKey(t, col) && Ordered(t, col, d)
    requires t != [] && !Precedes(d, t[0][col], x[col])
    ensures forall j :: 0 <= j < |t| ==> !Precedes(d, t[j][col], x[col])
  {
    forall j | 0 < j < |t| ensures !Precedes(d, t[j][col], x[col]) {
      NotPrecedesTransitive(d, x[col], t[0][col], t[j][col]);
    }
  }

  lemma {:induction false} InsertOrdered(x: Row, t: seq<Row>, col: string, d: Order)
    requires col in x && HasKey(t, col) && Ordered(t, col, d)
    ensures HasKey(Insert(x, t, col, d), col)
    ensures Ordered(Insert(x, t, col, d), col, d)
  {
    if t == [] {
      OrderedPrepend(x, t, col, d);
    } else if Precedes(d, t[0][col], x[col]) {
      var rest := Insert(x, t[1..], col, d);
      InsertOrdered(x, t[1..], col, d);
      forall j | 0 <= j < |rest| ensures !Precedes(d, rest[j][col], t[0][col]) {
        assert rest[j] in multiset([x] + t[1..]);
        if rest[j] == x {
          PrecedesAsymmetric(d, t[0][col], x[col]);
        } else {
          assert rest[j] in t[1..];
          var k :| 0 <= k < |t[1..]| && t[1..][k] == rest[j];
          assert t[k + 1] == rest[j];
        }
      }
      OrderedPrepend(t[0], rest, col, d);
    } else {
      NoneBefore(x, t, col, d);
      OrderedPrepend(x, t, col, d);
    }
  }

  /** The sort handler's result is ordered by the clicked column in the chosen direction. */
  lemma {:induction false} StableSortOrdered(s: seq<Row>, col: string, d: Order)
    requires HasKey(s, col)
    ensures HasKey(StableSort(s, col, d), col)
    ensures Ordered(StableSort(s, col, d), col, d)
  {
    HasKeyPermutation(StableSort(s, col, d), s, col);
    if s != [] {
      var rest := StableSort(s[1..], col, d);
      StableSortOrdered(s[1..], col, d);
      InsertOrdered(s[0], rest, col, d);
    }
  }

  lemma KeyFilterCons(x: Row, t: seq<Row>, col: string, k: string)
    requires col in x && HasKey(t, col)
    ensures HasKey([x] + t, col)
    ensures KeyFilter([x] + t, col, k) == (if x[col] == k then [x] else []) + KeyFilter(t, col, k)
  {
    assert ([x] + t)[1..] == t;
  }

  /** Two rows that do not both hold `k` may trade places without changing the rows holding `k`. */
  lemma KeyFilterSwap(x: Row, t0: Row, rest: seq<Row>, t': seq<Row>, col: string, k: string)
    requires col in x && col in t0 && HasKey(rest, col) && HasKey(t', col)
    requires !(x[col] == k && t0[col] == k)
    requires KeyFilter(rest, col, k) == KeyFilter([x] + t', col, k)
    ensures HasKey([t0] + rest, col) && HasKey([x] + ([t0] + t'), col)
    ensures KeyFilter([t0] + rest, col, k) == KeyFilter([x] + ([t0] + t'), col, k)
  {
    KeyFilterCons(t0, rest, col, k);
    KeyFilterCons(x, t', col, k);
    KeyFilterCons(t0, t', col, k);
    KeyFilterCons(x, [t0] + t', col, k);
  }

  lemma {:induction false} InsertKeyFilter(x: Row, t: seq<Row>, col: string, d: Order, k: string)
    requires col in x && HasKey(t, col)
    ensures HasKey(Insert(x, t, col, d), col) && HasKey([x] + t, col)
    ensures KeyFilter(Insert(x, t, col, d), col, k) == KeyFilter([x] + t, col, k)
  {
    HasKeyPermutation(Insert(x, t, col, d), [x] + t, col);
    if t != [] && Precedes(d, t[0][col], x[col]) {
      var t0, t' := t[0], t[1..];
      assert t == [t0] + t';
      var rest := Insert(x, t', col, d);
      InsertKeyFilter(x, t', col, d, k);
      PrecedesIrreflexive(d, x[col]);
      assert Insert(x, t, col, d) == [t0] + rest;
      KeyFilterSwap(x, t0, rest, t', col, k);
    }
  }

  /** Stability: for every value, the rows holding it keep their input order. */
  lemma {:induction false} StableSortStable(s: seq<Row>, col: string, d: Order, k: string)
    requires HasKey(s, col)
    ensures HasKey(StableSort(s, col, d), col)
    ensures KeyFilter(StableSort(s, col, d), col, k) == KeyFilter(s, col, k)
  {
    HasKeyPermutation(StableSort(s, col, d), s, col);
    if s != [] {
      var rest := StableSort(s[1..], col, d);
      StableSortStable(s[1..], col, d, k);
      HasKeyPermutation(rest, s[1..], col);
      InsertKeyFilter(s[0], rest, col, d, k);
      assert ([s[0]] + rest)[1..] == rest;
    }
  }
}
