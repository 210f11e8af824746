/**
 * The search handler's filter: a row is kept when its lowercased value
 * under the column contains the lowercased search key (`indexOf > -1`).
 */
module Filtering {
  import opened Strings
  import opened Rows

  /** The filter callback: the key, lowercased, occurs in the row's lowercased value. */
  predicate Matches(r: Row, col: string, key: string)
    requires col in r
  {
    IndexOf(Lower(r[col]), Lower(key)) > -1
  }

  /** A match is exactly a case-insensitive substring occurrence. */
  lemma MatchesIsSubstring(r: Row, col: string, key: string)
    requires col in r
    ensures Matches(r, col, key) <==> Contains(Lower(r[col]), Lower(key))
  {
  }

  /** Lowering the key first changes nothing: the match ignores the key's case. */
  lemma MatchesIgnoresKeyCase(r: Row, col: string, key: string)
    requires col in r
    ensures Matches(r, col, Lower(key)) == Matches(r, col, key)
  {
    LowerIdempotent(key);
  }

  /** `listData.filter(...)`: the rows that match, in their order. */
  function FilterRows(rows: seq<Row>, col: string, key: string): (r: seq<Row>)
    requires HasKey(rows, col)
    ensures |r| <= |rows|
    ensures forall x | x in r :: x in rows
  {
    if rows == [] then []
    else (if Matches(rows[0], col, key) then [rows[0]] else []) + FilterRows(rows[1..], col, key)
  }

  /** A row is kept exactly when it is one of the base rows and matches the key. */
  lemma {:induction false} FilterRowsMembers(rows: seq<Row>, col: string, key: string, x: Row)
    requires HasKey(rows, col)
    ensures x in FilterRows(rows, col, key) <==> x in rows && Matches(x, col, key)
  {
    if rows != [] {
      FilterRowsMembers(rows[1..], col, key, x);
      assert rows == [rows[0]] + rows[1..];
    }
  }

  /** The kept rows appear in the order of the base rows. */
  lemma {:induction false} FilterRowsSubsequence(rows: seq<Row>, col: string, key: string)
    requires HasKey(rows, col)
    ensures IsSubsequence(FilterRows(rows, col, key), rows)
  {
    if rows != [] {
      var rest := FilterRows(rows[1..], col, key);
      FilterRowsSubsequence(rows[1..], col, key);
      if Matches(rows[0], col, key) {
        assert FilterRows(rows, col, key) == [rows[0]] + rest;
        assert ([rows[0]] + rest)[1..] == rest;
      } else {
        assert FilterRows(rows, col, key) == rest;
        if rest != [] {
          FilterRowsMembers(rows[1..], col, key, rest[0]);
        }
      }
    }
  }

  /** Each matching row is kept as many times as it occurs; no other row is kept. */
  lemma {:induction false} FilterRowsCount(rows: seq<Row>, col: string, key: string, x: Row)
    requires HasKey(rows, col)
    ensures multiset(FilterRows(rows, col, key))[x] ==
            if col in x && Matches(x, col, key) then multiset(rows)[x] else 0
  {
    if rows != [] {
      FilterRowsCount(rows[1..], col, key, x);
      assert rows == [rows[0]] + rows[1..];
    }
  }

  lemma FilterRowsCons(x: Row, t: seq<Row>, col: string, key: string)
    requires col in x && HasKey(t, col)
    ensures HasKey([x] + t, col)
    ensures FilterRows([x] + t, col, key) == (if Matches(x, col, key) then [x] else []) + FilterRows(t, col, key)
  {
    assert ([x] + t)[1..] == t;
  }

  /** Repeating the same search on the already-filtered rows keeps them all. */
  lemma {:induction false} FilterRowsIdempotent(rows: seq<Row>, col: string, key: string)
    requires HasKey(rows, col)
    ensures HasKey(FilterRows(rows, col, key), col)
    ensures FilterRows(FilterRows(rows, col, key), col, key) == FilterRows(rows, col, key)
  {
    if rows != [] {
      var r0, tail := rows[0], rows[1..];
      var rest := FilterRows(tail, col, key);
      FilterRowsIdempotent(tail, col, key);
      if Matches(r0, col, key) {
        assert FilterRows(rows, col, key) == [r0] + rest;
        FilterRowsCons(r0, rest, col, key);
      } else {
        assert FilterRows(rows, col, key) == rest;
      }
    }
  }

  /** Narrowing by two keys on one column gives the same rows in either order. */
  lemma {:induction false} FilterRowsCommute(rows: seq<Row>, col: string, k1: string, k2: string)
    requires HasKey(rows, col)
    ensures HasKey(FilterRows(rows, col, k1), col) && HasKey(FilterRows(rows, col, k2), col)
    ensures FilterRows(FilterRows(rows, col, k1), col, k2) == FilterRows(FilterRows(rows, col, k2), col, k1)
  {
    if rows != [] {
      var r0, tail := rows[0], rows[1..];
      var r1 := FilterRows(tail, col, k1);
      var r2 := FilterRows(tail, col, k2);
      FilterRowsCommute(tail, col, k1, k2);
      if Matches(r0, col, k1) {
        assert FilterRows(rows, col, k1) == [r0] + r1;
        FilterRowsCons(r0, r1, col, k2);
      } else {
        assert FilterRows(rows, col, k1) == r1;
      }
      if Matches(r0, col, k2) {
        assert FilterRows(rows, col, k2) == [r0] + r2;
        FilterRowsCons(r0, r2, col, k1);
      } else {
        assert FilterRows(rows, col, k2) == r2;
      }
    }
  }
}
