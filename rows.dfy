/** Records as the widget sees them, and the sort direction. */
module Rows {

  /** One record: column key to cell value (every column holds strings). */
  type Row = map<string, string>

  /** `sortDetails.sort`: the two values `'asc'` and `'dsc'`. */
  datatype Order = Asc | Dsc

  /** Every row has a value under `col`. */
  predicate HasKey(rows: seq<Row>, col: string) {
    forall r | r in rows :: col in r
  }

  /** Rearranging rows keeps every row's keys. */
  lemma HasKeyPermutation(a: seq<Row>, b: seq<Row>, col: string)
    requires multiset(a) == multiset(b) && HasKey(b, col)
    ensures HasKey(a, col)
  {
    forall r | r in a ensures col in r {
      assert r in multiset(a);
    }
  }

  /** `a` is `b` with some elements removed, order kept. */
  predicate IsSubsequence(a: seq<Row>, b: seq<Row>)
    decreases |b|
  {
    if a == [] then true
    else if b == [] then false
    else if a[0] == b[0] then IsSubsequence(a[1..], b[1..])
    else IsSubsequence(a, b[1..])
  }
}
