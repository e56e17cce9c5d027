/**
 * Row selection by a boolean mask, `df[mask]`, the way the page uses it for the
 * filtered table and for the plot lookup: the rows whose mask entry is true, in
 * table order, each kept row unchanged and taken once.
 */
module Table {

  /** `rows[mask]`. */
  function Select<T>(rows: seq<T>, mask: seq<bool>): (r: seq<T>)
    requires |mask| == |rows|
    ensures |r| <= |rows|
    ensures forall x :: x in r ==> x in rows
    decreases |rows|
  {
    if rows == [] then []
    else (if mask[0] then [rows[0]] else []) + Select(rows[1..], mask[1..])
  }

  /** `r` can be obtained from `s` by deleting elements: same order, no element invented or repeated. */
  predicate IsSubsequence<T(==)>(r: seq<T>, s: seq<T>)
    decreases |s|
  {
    r == [] || (s != [] && ((r[0] == s[0] && IsSubsequence(r[1..], s[1..])) || IsSubsequence(r, s[1..])))
  }

  /** A value is selected exactly when it sits in some row whose mask entry is true. */
  lemma {:induction false} SelectMember<T>(rows: seq<T>, mask: seq<bool>, x: T)
    requires |mask| == |rows|
    ensures x in Select(rows, mask) <==> exists i :: 0 <= i < |rows| && mask[i] && rows[i] == x
    decreases |rows|
  {
    if rows != [] {
      SelectMember(rows[1..], mask[1..], x);
      var tail := Select(rows[1..], mask[1..]);
      assert Select(rows, mask) == (if mask[0] then [rows[0]] else []) + tail;
      if x in Select(rows, mask) {
        if mask[0] && x == rows[0] {
          assert mask[0] && rows[0] == x;
        } else {
          assert x in tail;
          var j :| 0 <= j < |rows| - 1 && mask[1..][j] && rows[1..][j] == x;
          assert mask[j + 1] && rows[j + 1] == x;
        }
      }
      if exists i :: 0 <= i < |rows| && mask[i] && rows[i] == x {
        var i :| 0 <= i < |rows| && mask[i] && rows[i] == x;
        if i > 0 {
          assert mask[1..][i - 1] && rows[1..][i - 1] == x;
          assert x in tail;
        }
      }
    }
  }

  /** Selection distributes over concatenation: rows keep their relative order. */
  lemma {:induction false} SelectAppend<T>(a: seq<T>, m: seq<bool>, b: seq<T>, n: seq<bool>)
    requires |m| == |a| && |n| == |b|
    ensures Select(a + b, m + n) == Select(a, m) + Select(b, n)
    decreases |a|
  {
    if a == [] {
      assert a + b == b && m + n == n;
    } else {
      assert (a + b)[1..] == a[1..] + b;
      assert (m + n)[1..] == m[1..] + n;
      SelectAppend(a[1..], m[1..], b, n);
    }
  }

  /** The selection is a subsequence of the table and duplicates no row. */
  lemma {:induction false} SelectSubsequence<T>(rows: seq<T>, mask: seq<bool>)
    requires |mask| == |rows|
    ensures IsSubsequence(Select(rows, mask), rows)
    ensures multiset(Select(rows, mask)) <= multiset(rows)
    decreases |rows|
  {
    if rows != [] {
      SelectSubsequence(rows[1..], mask[1..]);
      var tail := Select(rows[1..], mask[1..]);
      assert rows == [rows[0]] + rows[1..];
      if mask[0] {
        assert Select(rows, mask) == [rows[0]] + tail;
        assert Select(rows, mask)[1..] == tail;
      } else {
        assert Select(rows, mask) == tail;
      }
    }
  }

  /** A value every copy of which is selected keeps all its copies; one never selected has none. */
  lemma {:induction false} SelectCopies<T>(rows: seq<T>, mask: seq<bool>, x: T)
    requires |mask| == |rows|
    ensures (forall i :: 0 <= i < |rows| && rows[i] == x ==> mask[i]) ==>
              multiset(Select(rows, mask))[x] == multiset(rows)[x]
    ensures (forall i :: 0 <= i < |rows| && rows[i] == x ==> !mask[i]) ==>
              multiset(Select(rows, mask))[x] == 0
    decreases |rows|
  {
    if rows != [] {
      SelectCopies(rows[1..], mask[1..], x);
      var tail := Select(rows[1..], mask[1..]);
      assert rows == [rows[0]] + rows[1..];
      assert Select(rows, mask) == (if mask[0] then [rows[0]] else []) + tail;
      if forall i :: 0 <= i < |rows| && rows[i] == x ==> mask[i] {
        assert forall i :: 0 <= i < |rows| - 1 && rows[1..][i] == x ==> mask[1..][i] by {
          forall i | 0 <= i < |rows| - 1 && rows[1..][i] == x ensures mask[1..][i] {
            assert rows[i + 1] == x;
          }
        }
      }
      if forall i :: 0 <= i < |rows| && rows[i] == x ==> !mask[i] {
        assert forall i :: 0 <= i < |rows| - 1 && rows[1..][i] == x ==> !mask[1..][i] by {
          forall i | 0 <= i < |rows| - 1 && rows[1..][i] == x ensures !mask[1..][i] {
            assert rows[i + 1] == x;
          }
        }
      }
    }
  }
}
