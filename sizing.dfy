/** linebreak_strsize: column sizing of a cluster string appended to a line
    that already holds `len` columns, optionally under a column budget. */
module Sizing {
  import opened GCStrings

  /** A gcstring pointer that may be null. */
  datatype Option<T> = None | Some(value: T)

  /** The clusters behind a gcstring pointer; a null pointer has none. */
  function ClustersOf(g: Option<GCString>): seq<Cluster> {
    if g.Some? then g.value.clusters else []
  }

  /** The test "null pointer, unallocated buffer or empty string". */
  predicate IsBlank(g: Option<GCString>) {
    g.None? || !g.value.hasStr || g.value.Len() == 0
  }

  /** The space run has an allocated buffer, so the routine concatenates
      (and may fail to) rather than copying the appended string. */
  predicate Concatenates(spc: Option<GCString>) {
    spc.Some? && spc.value.hasStr
  }

  /** The number of leading clusters of `cs` that a scan starting at `len`
      columns accepts before the first cluster that would take it past `max`. */
  function FitCount(len: int, cs: seq<Cluster>, max: int): (r: nat)
    ensures r <= |cs|
    ensures forall i :: 0 < i <= r ==> len + Columns(cs[..i]) <= max
    ensures r < |cs| ==> max < len + Columns(cs[..r + 1])
    decreases |cs|
  {
    if cs == [] then 0
    else if max < len + cs[0].col then
      assert cs[..1][1..] == [];
      0
    else
      PrefixCons(cs);
      1 + FitCount(len + cs[0].col, cs[1..], max)
  }

  /** The two properties of FitCount's contract determine it. */
  lemma {:induction false} FitCountUnique(len: int, cs: seq<Cluster>, max: int, k: nat)
    requires k <= |cs|
    requires forall i :: 0 < i <= k ==> len + Columns(cs[..i]) <= max
    requires k < |cs| ==> max < len + Columns(cs[..k + 1])
    ensures FitCount(len, cs, max) == k
  {
  }

  /** The accepted prefix is the longest one that fits: every longer prefix
      exceeds the budget. */
  lemma {:induction false} FitCountMaximal(len: int, cs: seq<Cluster>, max: int)
    ensures forall j :: FitCount(len, cs, max) < j <= |cs| ==> max < len + Columns(cs[..j])
  {
    var r := FitCount(len, cs, max);
    forall j | r < j <= |cs|
      ensures max < len + Columns(cs[..j])
    {
      PrefixMonotone(cs, r + 1, j);
    }
  }

  /** A line already past its budget accepts nothing more. */
  lemma {:induction false} FitCountOverfull(len: int, cs: seq<Cluster>, max: int)
    requires max < len
    ensures FitCount(len, cs, max) == 0
  {
  }

  /** The bounded result: the characters of `str` in the longest cluster
      prefix that fits after `len` columns and the space run `spc`. */
  function FitChars(len: int, spc: seq<Cluster>, str: seq<Cluster>, max: int): nat {
    Chars(str[..FitCount(len + Columns(spc), str, max)])
  }

  /** The bounded result never exceeds the length of the appended string. */
  lemma {:induction false} FitCharsRange(len: int, spc: seq<Cluster>, str: seq<Cluster>, max: int)
    ensures FitChars(len, spc, str, max) <= Chars(str)
  {
    var k := FitCount(len + Columns(spc), str, max);
    PrefixMonotone(str, k, |str|);
    assert str[..|str|] == str;
  }

  /** When everything fits, the whole appended string is accepted. */
  lemma {:induction false} FitCharsAllFit(len: int, spc: seq<Cluster>, str: seq<Cluster>, max: int)
    requires len + Columns(spc + str) <= max
    ensures FitChars(len, spc, str, max) == Chars(str)
  {
    ColumnsAppend(spc, str);
    forall i | 0 < i <= |str|
      ensures len + Columns(spc) + Columns(str[..i]) <= max
    {
      PrefixMonotone(str, i, |str|);
      assert str[..|str|] == str;
    }
    FitCountUnique(len + Columns(spc), str, max, |str|);
    assert str[..|str|] == str;
  }

  /** A space run that does not fit leaves no room for the appended string. */
  lemma {:induction false} FitCharsSpaceOverflow(len: int, spc: seq<Cluster>, str: seq<Cluster>, max: int)
    requires max < len + Columns(spc)
    ensures FitChars(len, spc, str, max) == 0
  {
  }

  /** The promise of the routine's documentation: the result is the largest
      number of characters of a cluster prefix of `str` such that the line,
      the space run and that prefix stay within `max` columns; when some
      prefix fits, the chosen one does. */
  lemma {:induction false} FitCharsLongest(len: int, spc: seq<Cluster>, str: seq<Cluster>, max: int, j: nat)
    requires j <= |str| && len + Columns(spc) + Columns(str[..j]) <= max
    ensures Chars(str[..j]) <= FitChars(len, spc, str, max)
    ensures var k := FitCount(len + Columns(spc), str, max);
            j <= k && len + Columns(spc) + Columns(str[..k]) <= max
  {
    var k := FitCount(len + Columns(spc), str, max);
    FitCountMaximal(len + Columns(spc), str, max);
    PrefixMonotone(str, j, k);
  }

  /** A bounded scan of spc ++ str that stops inside the space run reports
      a character index within the space run, and nothing of str fits. */
  lemma {:induction false} ScanStopInSpace(len: int, spc: seq<Cluster>, str: seq<Cluster>, max: int, pos: nat)
    requires pos < |spc|
    requires max < len + Columns((spc + str)[..pos + 1])
    ensures Chars((spc + str)[..pos]) <= Chars(spc)
    ensures FitChars(len, spc, str, max) == 0
  {
    var all := spc + str;
    assert all[..pos + 1] == spc[..pos + 1];
    assert all[..pos] == spc[..pos];
    PrefixMonotone(spc, pos + 1, |spc|);
    PrefixMonotone(spc, pos, |spc|);
    assert spc[..|spc|] == spc;
    FitCharsSpaceOverflow(len, spc, str, max);
  }

  /** Prefixes of spc ++ str that reach into str and fit are the space run
      followed by a prefix of str that fits after it. */
  lemma {:induction false} ScanFitsInString(len: int, spc: seq<Cluster>, str: seq<Cluster>, max: int, k: nat)
    requires k <= |str|
    requires forall i :: 0 < i <= |spc| + k ==> len + Columns((spc + str)[..i]) <= max
    ensures forall i :: 0 < i <= k ==> len + Columns(spc) + Columns(str[..i]) <= max
  {
    forall i | 0 < i <= k
      ensures len + Columns(spc) + Columns(str[..i]) <= max
    {
      assert len + Columns((spc + str)[..|spc| + i]) <= max;
      PrefixAppend(spc, str, |spc| + i);
    }
  }

  /** A bounded scan of spc ++ str that stops at cluster `pos` past the space
      run has reached, beyond the space run, exactly the bounded result. */
  lemma {:induction false} ScanStopInString(len: int, spc: seq<Cluster>, str: seq<Cluster>, max: int, pos: nat)
    requires |spc| <= pos < |spc| + |str|
    requires forall i :: 0 < i <= pos ==> len + Columns((spc + str)[..i]) <= max
    requires max < len + Columns((spc + str)[..pos + 1])
    ensures Chars((spc + str)[..pos]) == Chars(spc) + FitChars(len, spc, str, max)
  {
    var k := pos - |spc|;
    ScanFitsInString(len, spc, str, max, k);
    PrefixAppend(spc, str, pos + 1);
    FitCountUnique(len + Columns(spc), str, max, k);
    PrefixAppend(spc, str, pos);
  }

  /** A bounded scan of spc ++ str that never stops accepts all of str. */
  lemma {:induction false} ScanComplete(len: int, spc: seq<Cluster>, str: seq<Cluster>, max: int)
    requires forall i :: 0 < i <= |spc| + |str| ==> len + Columns((spc + str)[..i]) <= max
    ensures FitChars(len, spc, str, max) == Chars(str)
  {
    ScanFitsInString(len, spc, str, max, |str|);
    FitCountUnique(len + Columns(spc), str, max, |str|);
    assert str[..|str|] == str;
  }

  /** linebreak_strsize. `len` is the width of the line so far, `spc` its
      trailing space run, `str` the appended string and `max` the budget
      (0: none). `concatFails` stands for an allocation failure inside
      gcstring_concat. The result is -1 on that failure; otherwise, with no
      budget, the width of the line with spc ++ str appended, and under a
      budget, the number of characters of `str` that fit. */
  method StrSize(len: int, spc: Option<GCString>, str: Option<GCString>, max: nat,
                 concatFails: bool) returns (r: int)
    requires spc.Some? ==> spc.value.Valid()
    requires str.Some? ==> str.value.Valid()
    requires str.Some? || IsBlank(spc)
    ensures IsBlank(spc) && IsBlank(str) ==> r == (if max == 0 then len else 0)
    ensures !(IsBlank(spc) && IsBlank(str)) && Concatenates(spc) && concatFails ==> r == -1
    ensures !(IsBlank(spc) && IsBlank(str)) && !(Concatenates(spc) && concatFails) ==>
              r == if max == 0 then len + Columns(ClustersOf(spc) + ClustersOf(str))
                   else FitChars(len, ClustersOf(spc), ClustersOf(str), max)
    ensures !(IsBlank(spc) && IsBlank(str)) && !(Concatenates(spc) && concatFails) && max > 0 ==>
              0 <= r <= Chars(ClustersOf(str))
  {
    if IsBlank(spc) && IsBlank(str) {
      return if max != 0 then 0 else len;
    }
    ghost var spcCs := ClustersOf(spc);
    var strCs := str.value.clusters;
    var all: seq<Cluster>;
    if spc.None? || !spc.value.hasStr {
      all := strCs;                          // gcstring_copy
      assert spcCs == [] && spcCs + strCs == all;
    } else if concatFails {
      return -1;
    } else {
      all := spc.value.clusters + strCs;     // gcstring_concat
    }
    assert all == spcCs + strCs;
    if max == 0 {
      return len + Columns(all);
    }

    var idx, pos, cols := 0, 0, len;
    while pos < |all|
      invariant pos <= |all|
      invariant idx == Chars(all[..pos])
      invariant cols == len + Columns(all[..pos])
      invariant forall i :: 0 < i <= pos ==> len + Columns(all[..i]) <= max
    {
      var gc := all[pos];
      PrefixStep(all, pos);
      if max < cols + gc.col {
        if spc.None? || !spc.value.hasStr {
        } else if idx < spc.value.Len() {
          idx := 0;
        } else {
          idx := idx - spc.value.Len();
        }
        if pos < |spcCs| {
          ScanStopInSpace(len, spcCs, strCs, max, pos);
        } else {
          ScanStopInString(len, spcCs, strCs, max, pos);
        }
        FitCharsRange(len, spcCs, strCs, max);
        return idx;
      }
      assert len + Columns(all[..pos + 1]) <= max;
      idx := idx + gc.len;
      cols := cols + gc.col;
      pos := pos + 1;
    }
    ScanComplete(len, spcCs, strCs, max);
    assert strCs[..|strCs|] == strCs;
    return str.value.Len();
  }
}
