/**
 * The plot detail lookup: the option list of plot numbers and the selection of every
 * row whose number was chosen, `df[df['NO'].isin(chosen)]`.
 */
module Lookup {
  import opened Wrappers
  import opened Plots
  import opened Table

  /** `df['NO'].dropna()`: the plot numbers present, in table order. */
  function PlotNumbers(df: seq<Plot>): (nos: seq<int>)
    ensures |nos| <= |df|
    decreases |df|
  {
    if df == [] then []
    else (if df[0].no.Some? then [df[0].no.value] else []) + PlotNumbers(df[1..])
  }

  /** A number is listed exactly when some row carries it. */
  lemma {:induction false} PlotNumbersMember(df: seq<Plot>, n: int)
    ensures n in PlotNumbers(df) <==> exists i :: 0 <= i < |df| && df[i].no == Some(n)
    decreases |df|
  {
    if df != [] {
      PlotNumbersMember(df[1..], n);
      if n in PlotNumbers(df[1..]) {
        var j :| 0 <= j < |df| - 1 && df[1..][j].no == Some(n);
        assert df[j + 1].no == Some(n);
      }
      if exists i :: 0 <= i < |df| && df[i].no == Some(n) {
        var i :| 0 <= i < |df| && df[i].no == Some(n);
        if i > 0 {
          assert df[1..][i - 1].no == Some(n);
        }
      }
    }
  }

  /** `unique()` of `s`, skipping the values in `seen`: first occurrences, in order of appearance. */
  function FirstOccurrences(s: seq<int>, seen: set<int>): (d: seq<int>)
    decreases |s|
  {
    if s == [] then []
    else if s[0] in seen then FirstOccurrences(s[1..], seen)
    else [s[0]] + FirstOccurrences(s[1..], seen + {s[0]})
  }

  predicate NoDuplicates(s: seq<int>) {
    forall i, j :: 0 <= i < j < |s| ==> s[i] != s[j]
  }

  /** True at each position of `s` that holds a value not in `seen` and not occurring earlier in `s`. */
  function FirstMask(s: seq<int>, seen: set<int>): seq<bool> {
    seq(|s|, i requires 0 <= i < |s| => s[i] !in seen && s[i] !in s[..i])
  }

  /** The first occurrences are exactly the positions of `FirstMask`, taken in order. */
  lemma {:induction false} FirstOccurrencesSelectFirst(s: seq<int>, seen: set<int>)
    ensures FirstOccurrences(s, seen) == Select(s, FirstMask(s, seen))
    decreases |s|
  {
    if s != [] {
      var seen' := if s[0] in seen then seen else seen + {s[0]};
      FirstOccurrencesSelectFirst(s[1..], seen');
      var m := FirstMask(s, seen);
      forall i | 0 <= i < |s| - 1 ensures m[1..][i] == FirstMask(s[1..], seen')[i] {
        assert s[..i + 1] == [s[0]] + s[1..][..i];
      }
      assert m[1..] == FirstMask(s[1..], seen');
      assert m[0] == (s[0] !in seen);
    }
  }

  /**
   * The first occurrences hold each unseen value of `s` once, none of `seen`, and are
   * exactly the positions where a value not in `seen` occurs for the first time, in order.
   */
  lemma {:induction false} FirstOccurrencesSpec(s: seq<int>, seen: set<int>)
    ensures forall x :: x in FirstOccurrences(s, seen) <==> x in s && x !in seen
    ensures NoDuplicates(FirstOccurrences(s, seen))
    ensures IsSubsequence(FirstOccurrences(s, seen), s)
    ensures FirstOccurrences(s, seen) == Select(s, FirstMask(s, seen))
    decreases |s|
  {
    FirstOccurrencesSelectFirst(s, seen);
    if s != [] {
      assert s == [s[0]] + s[1..];
      if s[0] in seen {
        FirstOccurrencesSpec(s[1..], seen);
      } else {
        var rest := FirstOccurrences(s[1..], seen + {s[0]});
        FirstOccurrencesSpec(s[1..], seen + {s[0]});
        assert FirstOccurrences(s, seen) == [s[0]] + rest;
        assert ([s[0]] + rest)[1..] == rest;
        forall i, j | 0 <= i < j < |[s[0]] + rest| ensures ([s[0]] + rest)[i] != ([s[0]] + rest)[j] {
          if i == 0 {
            assert ([s[0]] + rest)[j] == rest[j - 1];
            assert rest[j - 1] in rest;
          } else {
            assert ([s[0]] + rest)[i] == rest[i - 1] && ([s[0]] + rest)[j] == rest[j - 1];
          }
        }
      }
    }
  }

  /** `df['NO'].dropna().unique().tolist()`: the plot numbers offered for selection. */
  function PlotOptions(df: seq<Plot>): seq<int> {
    FirstOccurrences(PlotNumbers(df), {})
  }

  /** The options are every plot number in the table, each once, in order of first appearance. */
  lemma PlotOptionsSpec(df: seq<Plot>)
    ensures forall n :: n in PlotOptions(df) <==> exists i :: 0 <= i < |df| && df[i].no == Some(n)
    ensures NoDuplicates(PlotOptions(df))
    ensures IsSubsequence(PlotOptions(df), PlotNumbers(df))
    ensures PlotOptions(df) == Select(PlotNumbers(df), FirstMask(PlotNumbers(df), {}))
  {
    FirstOccurrencesSpec(PlotNumbers(df), {});
    forall n ensures n in PlotOptions(df) <==> exists i :: 0 <= i < |df| && df[i].no == Some(n) {
      PlotNumbersMember(df, n);
    }
  }

  /** Whether a row's plot number is among the chosen ones; a missing number never is. */
  predicate Chosen(p: Plot, chosen: seq<int>) {
    p.no.Some? && p.no.value in chosen
  }

  /** `df['NO'].isin(chosen)`. */
  function IsinMask(df: seq<Plot>, chosen: seq<int>): seq<bool> {
    seq(|df|, i requires 0 <= i < |df| => Chosen(df[i], chosen))
  }

  /** `df[df['NO'].isin(chosen)]`: the rows shown in the detail view. */
  function LookupPlots(df: seq<Plot>, chosen: seq<int>): seq<Plot> {
    Select(df, IsinMask(df, chosen))
  }

  /**
   * The lookup lists exactly the rows whose number was chosen, in table order, every
   * such row as often as the table holds it, and nothing else.
   */
  lemma LookupSpec(df: seq<Plot>, chosen: seq<int>)
    ensures forall p :: p in LookupPlots(df, chosen) <==> p in df && Chosen(p, chosen)
    ensures forall p :: Chosen(p, chosen) ==> multiset(LookupPlots(df, chosen))[p] == multiset(df)[p]
    ensures forall p :: !Chosen(p, chosen) ==> multiset(LookupPlots(df, chosen))[p] == 0
    ensures IsSubsequence(LookupPlots(df, chosen), df)
  {
    var mask := IsinMask(df, chosen);
    forall p ensures p in LookupPlots(df, chosen) <==> p in df && Chosen(p, chosen) {
      SelectMember(df, mask, p);
    }
    forall p ensures Chosen(p, chosen) ==> multiset(LookupPlots(df, chosen))[p] == multiset(df)[p]
    ensures !Chosen(p, chosen) ==> multiset(LookupPlots(df, chosen))[p] == 0
    {
      SelectCopies(df, mask, p);
    }
    SelectSubsequence(df, mask);
  }

  /** Every chosen number that some row carries brings at least one row with it. */
  lemma LookupFindsChosen(df: seq<Plot>, chosen: seq<int>, n: int)
    requires n in chosen
    requires n in PlotNumbers(df)
    ensures exists p :: p in LookupPlots(df, chosen) && p.no == Some(n)
  {
    PlotNumbersMember(df, n);
    var i :| 0 <= i < |df| && df[i].no == Some(n);
    SelectMember(df, IsinMask(df, chosen), df[i]);
  }

  /** Choosing a number that no row carries adds nothing. */
  lemma LookupIgnoresUnknown(df: seq<Plot>, chosen: seq<int>, n: int)
    requires n !in PlotNumbers(df)
    ensures LookupPlots(df, chosen + [n]) == LookupPlots(df, chosen)
  {
    PlotNumbersMember(df, n);
    assert IsinMask(df, chosen + [n]) == IsinMask(df, chosen);
  }

  /** Every offered option selects at least one row. */
  lemma OptionsAreFound(df: seq<Plot>, n: int)
    requires n in PlotOptions(df)
    ensures LookupPlots(df, [n]) != []
  {
    PlotOptionsSpec(df);
    PlotNumbersMember(df, n);
    LookupFindsChosen(df, [n], n);
  }
}
