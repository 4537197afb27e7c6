/** The part of the grapheme cluster string library the sizing routine relies
    on. A gcstring is modelled by its clusters alone; each cluster knows how
    many characters it spans and how many columns it occupies. The library
    itself (segmentation, gcstring_columns, copying, concatenation) is not part
    of this model. */
module GCStrings {

  /** One grapheme cluster (gcchar_t): `len` characters, `col` columns. */
  datatype Cluster = Cluster(len: nat, col: nat)

  /** A gcstring (gcstring_t). `hasStr` says whether its character buffer is
      allocated; `clusters` is its segmentation. */
  datatype GCString = GCString(hasStr: bool, clusters: seq<Cluster>) {

    /** Clusters are non-empty, and an unallocated string has none. */
    ghost predicate Valid() {
      (forall i :: 0 <= i < |clusters| ==> clusters[i].len >= 1) &&
      (!hasStr ==> clusters == [])
    }

    /** The number of characters (gcstring_t.len). */
    function Len(): nat {
      Chars(clusters)
    }
  }

  /** Characters spanned by a run of clusters. */
  function Chars(cs: seq<Cluster>): nat {
    if cs == [] then 0 else cs[0].len + Chars(cs[1..])
  }

  /** Columns occupied by a run of clusters (gcstring_columns). */
  function Columns(cs: seq<Cluster>): nat {
    if cs == [] then 0 else cs[0].col + Columns(cs[1..])
  }

  lemma {:induction false} CharsAppend(a: seq<Cluster>, b: seq<Cluster>)
    ensures Chars(a + b) == Chars(a) + Chars(b)
  {
    if a == [] {
      assert a + b == b;
    } else {
      assert (a + b)[1..] == a[1..] + b;
      CharsAppend(a[1..], b);
    }
  }

  lemma {:induction false} ColumnsAppend(a: seq<Cluster>, b: seq<Cluster>)
    ensures Columns(a + b) == Columns(a) + Columns(b)
  {
    if a == [] {
      assert a + b == b;
    } else {
      assert (a + b)[1..] == a[1..] + b;
      ColumnsAppend(a[1..], b);
    }
  }

  /** Extending a prefix by one cluster adds that cluster's width and length. */
  lemma {:induction false} PrefixStep(cs: seq<Cluster>, i: nat)
    requires i < |cs|
    ensures Chars(cs[..i + 1]) == Chars(cs[..i]) + cs[i].len
    ensures Columns(cs[..i + 1]) == Columns(cs[..i]) + cs[i].col
  {
    assert cs[..i + 1] == cs[..i] + [cs[i]];
    CharsAppend(cs[..i], [cs[i]]);
    ColumnsAppend(cs[..i], [cs[i]]);
  }

  /** A longer prefix is never narrower and never holds fewer characters. */
  lemma {:induction false} PrefixMonotone(cs: seq<Cluster>, i: nat, j: nat)
    requires i <= j <= |cs|
    ensures Columns(cs[..i]) <= Columns(cs[..j])
    ensures Chars(cs[..i]) <= Chars(cs[..j])
  {
    assert cs[..j] == cs[..i] + cs[i..j];
    CharsAppend(cs[..i], cs[i..j]);
    ColumnsAppend(cs[..i], cs[i..j]);
  }

  /** The prefixes of a run that starts with cluster cs[0]. */
  lemma {:induction false} PrefixCons(cs: seq<Cluster>)
    requires cs != []
    ensures forall i :: 0 < i <= |cs| ==> Columns(cs[..i]) == cs[0].col + Columns(cs[1..][..i - 1])
  {
    forall i | 0 < i <= |cs|
      ensures Columns(cs[..i]) == cs[0].col + Columns(cs[1..][..i - 1])
    {
      assert cs[..i][1..] == cs[1..][..i - 1];
    }
  }

  /** The prefixes of a concatenation that reach past its first part. */
  lemma {:induction false} PrefixAppend(a: seq<Cluster>, b: seq<Cluster>, i: nat)
    requires |a| <= i <= |a| + |b|
    ensures Columns((a + b)[..i]) == Columns(a) + Columns(b[..i - |a|])
    ensures Chars((a + b)[..i]) == Chars(a) + Chars(b[..i - |a|])
  {
    assert (a + b)[..i] == a + b[..i - |a|];
    ColumnsAppend(a, b[..i - |a|]);
    CharsAppend(a, b[..i - |a|]);
  }
}
