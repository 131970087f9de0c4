/**
 * Pandas category codes for a column of strings: `col.astype('category').cat.codes`.
 * The categories are the column's distinct values in sorted order, and each entry is
 * coded by the position of its value among them. Here the code is defined as the
 * number of distinct values that sort before it (the rank); `SortedDistinct` is the
 * sorted category list itself, and `CodeIsSortedIndex` shows the two agree.
 */
module Categories {
  import opened StringOrder

  /** The categories of a column, unordered. */
  function Distinct(col: seq<string>): set<string> {
    set v | v in col
  }

  /** The values of the column that sort strictly before `v`. */
  function Below(col: seq<string>, v: string): set<string> {
    set w | w in col && Less(w, v)
  }

  /** The category code of value `v` in column `col`. */
  function Code(col: seq<string>, v: string): (c: nat)
    ensures c <= |Distinct(col)|
    ensures c == 0 <==> forall w :: w in col ==> !Less(w, v)
  {
    SubsetCard(Below(col, v), Distinct(col));
    assert forall w :: w in col && Less(w, v) ==> w in Below(col, v);
    assert (forall w :: w in col ==> !Less(w, v)) ==> Below(col, v) == {};
    |Below(col, v)|
  }

  lemma {:induction false} SubsetCard<T>(a: set<T>, b: set<T>)
    requires a <= b
    ensures |a| <= |b|
    decreases b
  {
    if a != {} {
      var x :| x in a;
      SubsetCard(a - {x}, b - {x});
    }
  }

  /** A code is a position among the categories: below their number. */
  lemma {:induction false} CodeBound(col: seq<string>, v: string)
    requires v in col
    ensures Code(col, v) < |Distinct(col)|
  {
    LessIrreflexive(v);
    var rest := Distinct(col) - {v};
    assert Below(col, v) <= rest;
    SubsetCard(Below(col, v), rest);
  }

  /** Codes follow the order of the values: a value that sorts first gets the smaller code. */
  lemma {:induction false} CodeStrictlyMonotone(col: seq<string>, a: string, b: string)
    requires a in col && Less(a, b)
    ensures Code(col, a) < Code(col, b)
  {
    forall w | w in Below(col, a) ensures w in Below(col, b) - {a} {
      LessTransitive(w, a, b);
      LessAsymmetric(w, a);
    }
    SubsetCard(Below(col, a), Below(col, b) - {a});
  }

  /** Different values of a column never share a code. */
  lemma {:induction false} CodeInjective(col: seq<string>, a: string, b: string)
    requires a in col && b in col && Code(col, a) == Code(col, b)
    ensures a == b
  {
    LessTrichotomous(a, b);
    if Less(a, b) {
      CodeStrictlyMonotone(col, a, b);
    } else if Less(b, a) {
      CodeStrictlyMonotone(col, b, a);
    }
  }

  /** In a one-row column the only value gets code 0. */
  lemma {:induction false} CodeSingleRow(v: string)
    ensures Code([v], v) == 0
  {
    LessIrreflexive(v);
    assert Below([v], v) == {};
  }

  /** The codes of every entry of a column, in row order. */
  function CategoryCodes(col: seq<string>): (codes: seq<int>)
    ensures |codes| == |col|
    ensures forall i :: 0 <= i < |col| ==> 0 <= codes[i] < |Distinct(col)|
    ensures forall i, j :: 0 <= i < |col| && 0 <= j < |col| ==> (codes[i] == codes[j] <==> col[i] == col[j])
    ensures forall i, j :: 0 <= i < |col| && 0 <= j < |col| && Less(col[i], col[j]) ==> codes[i] < codes[j]
  {
    CodesFacts(col);
    seq(|col|, i requires 0 <= i < |col| => Code(col, col[i]))
  }

  lemma {:induction false} CodesFacts(col: seq<string>)
    ensures forall i :: 0 <= i < |col| ==> Code(col, col[i]) < |Distinct(col)|
    ensures forall i, j :: 0 <= i < |col| && 0 <= j < |col| && Code(col, col[i]) == Code(col, col[j]) ==> col[i] == col[j]
    ensures forall i, j :: 0 <= i < |col| && 0 <= j < |col| && Less(col[i], col[j]) ==> Code(col, col[i]) < Code(col, col[j])
  {
    forall i | 0 <= i < |col| ensures Code(col, col[i]) < |Distinct(col)| {
      CodeBound(col, col[i]);
    }
    forall i, j | 0 <= i < |col| && 0 <= j < |col| && Code(col, col[i]) == Code(col, col[j])
      ensures col[i] == col[j]
    {
      CodeInjective(col, col[i], col[j]);
    }
    forall i, j | 0 <= i < |col| && 0 <= j < |col| && Less(col[i], col[j])
      ensures Code(col, col[i]) < Code(col, col[j])
    {
      CodeStrictlyMonotone(col, col[i], col[j]);
    }
  }

  // ---------------------------------------------------------------------------
  // Reference definition: the sorted list of categories

  predicate StrictlySorted(s: seq<string>) {
    forall i, j :: 0 <= i < j < |s| ==> Less(s[i], s[j])
  }

  /** Adds `v` to a strictly sorted list unless it is already there. */
  function InsertSorted(s: seq<string>, v: string): (r: seq<string>)
    requires StrictlySorted(s)
    ensures StrictlySorted(r)
    ensures forall x :: x in r <==> x in s || x == v
  {
    if |s| == 0 then [v]
    else if v == s[0] then s
    else if Less(v, s[0]) then
      assert forall j :: 0 < j < |s| ==> Less(v, s[j]) by {
        forall j | 0 < j < |s| ensures Less(v, s[j]) { LessTransitive(v, s[0], s[j]); }
      }
      [v] + s
    else
      LessTrichotomous(v, s[0]);
      var t := InsertSorted(s[1..], v);
      assert forall x :: x in t ==> Less(s[0], x);
      [s[0]] + t
  }

  /** The categories of a column in sorted order, as pandas lists them. */
  function SortedDistinct(col: seq<string>): (r: seq<string>)
    ensures StrictlySorted(r)
    ensures forall x :: x in r <==> x in col
  {
    if |col| == 0 then []
    else
      var init := SortedDistinct(col[..|col| - 1]);
      assert col == col[..|col| - 1] + [col[|col| - 1]];
      InsertSorted(init, col[|col| - 1])
  }

  /** A strictly sorted list has no repeats, so its set has one element per entry. */
  lemma {:induction false} SortedCard(s: seq<string>)
    requires StrictlySorted(s)
    ensures |set x | x in s| == |s|
  {
    if |s| > 0 {
      var tail := s[1..];
      SortedCard(tail);
      forall x | x in tail ensures x != s[0] {
        LessIrreflexive(s[0]);
      }
      assert (set x | x in s) == {s[0]} + (set x | x in tail);
    }
  }

  /** There are as many categories as entries in the sorted category list. */
  lemma {:induction false} SortedDistinctLength(col: seq<string>)
    ensures |SortedDistinct(col)| == |Distinct(col)|
  {
    var sd := SortedDistinct(col);
    SortedCard(sd);
    assert (set x | x in sd) == Distinct(col);
  }

  /** The code of a value is its index in the sorted category list. */
  lemma {:induction false} CodeIsSortedIndex(col: seq<string>, k: nat)
    requires k < |SortedDistinct(col)|
    ensures Code(col, SortedDistinct(col)[k]) == k
  {
    var sd := SortedDistinct(col);
    var v := sd[k];
    forall w | w in Below(col, v) ensures w in sd[..k] {
      var j :| 0 <= j < |sd| && sd[j] == w;
      if j == k {
        LessIrreflexive(v);
      } else if j > k {
        LessAsymmetric(v, w);
      }
    }
    assert Below(col, v) == set x | x in sd[..k];
    SortedCard(sd[..k]);
  }

  /** Codes are dense: every number below the count of categories is the code of some entry. */
  lemma {:induction false} CodesDense(col: seq<string>, k: nat)
    requires k < |Distinct(col)|
    ensures exists i :: 0 <= i < |col| && Code(col, col[i]) == k
  {
    SortedDistinctLength(col);
    var sd := SortedDistinct(col);
    CodeIsSortedIndex(col, k);
    assert sd[k] in sd;
    var i :| 0 <= i < |col| && col[i] == sd[k];
  }
}
