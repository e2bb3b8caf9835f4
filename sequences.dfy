/** Sequence reversal and the three std::vector operations the move's
    splicing is written with: insert of a range, erase of a range, and the
    range visited by a pair of reverse iterators. */
module Sequences {

  /** The sequence read back to front. */
  function Reverse<T>(s: seq<T>): (r: seq<T>)
    ensures |r| == |s|
    ensures forall k :: 0 <= k < |s| ==> r[k] == s[|s| - 1 - k]
  {
    if s == [] then [] else Reverse(s[1..]) + [s[0]]
  }

  lemma {:induction false} ReverseConcat<T>(a: seq<T>, b: seq<T>)
    ensures Reverse(a + b) == Reverse(b) + Reverse(a)
  {
    var l, r := Reverse(a + b), Reverse(b) + Reverse(a);
    assert |l| == |r|;
    forall k | 0 <= k < |l| ensures l[k] == r[k] {
      if k < |b| {
        assert l[k] == (a + b)[|a| + |b| - 1 - k] == b[|b| - 1 - k];
      } else {
        assert l[k] == (a + b)[|a| + |b| - 1 - k] == a[|a| - 1 - (k - |b|)];
      }
    }
  }

  lemma {:induction false} ReversePreservesElements<T>(s: seq<T>)
    ensures multiset(Reverse(s)) == multiset(s)
  {
    if s != [] {
      ReversePreservesElements(s[1..]);
      assert s == [s[0]] + s[1..];
    }
  }

  /** `v.insert(v.begin() + pos, first, last)` where [first, last) visits xs. */
  function Insert<T>(v: seq<T>, pos: nat, xs: seq<T>): (r: seq<T>)
    requires pos <= |v|
    ensures |r| == |v| + |xs|
  {
    v[..pos] + xs + v[pos..]
  }

  /** `v.erase(v.begin() + first, v.begin() + last)`. */
  function Erase<T>(v: seq<T>, first: nat, last: nat): (r: seq<T>)
    requires first <= last <= |v|
    ensures |r| == |v| - (last - first)
  {
    v[..first] + v[last..]
  }

  /** The elements visited by the reverse-iterator range
      [v.rbegin() + first, v.rbegin() + last).
      (v.rend() - n is v.rbegin() + (|v| - n).) */
  function ReverseRange<T>(v: seq<T>, first: nat, last: nat): (r: seq<T>)
    requires first <= last <= |v|
    ensures |r| == last - first
  {
    Reverse(v[|v| - last..|v| - first])
  }

  /** Inserting at the end appends. */
  lemma InsertAtEnd<T>(v: seq<T>, xs: seq<T>)
    ensures Insert(v, |v|, xs) == v + xs
  {
    assert v[..|v|] == v && v[|v|..] == [];
  }

  /** Erasing everything from first on keeps the prefix. */
  lemma EraseTail<T>(v: seq<T>, first: nat)
    requires first <= |v|
    ensures Erase(v, first, |v|) == v[..first]
  {
    assert v[|v|..] == [];
  }

  /** Insert keeps v[0..pos), then places xs, then shifts the rest of v by |xs|. */
  lemma InsertElements<T>(v: seq<T>, pos: nat, xs: seq<T>)
    requires pos <= |v|
    ensures var r := Insert(v, pos, xs);
            && (forall k :: 0 <= k < pos ==> r[k] == v[k])
            && (forall k :: 0 <= k < |xs| ==> r[pos + k] == xs[k])
            && (forall k :: pos <= k < |v| ==> r[|xs| + k] == v[k])
  {
  }

  /** Erase keeps v[0..first) and shifts v[last..] down to first. */
  lemma EraseElements<T>(v: seq<T>, first: nat, last: nat)
    requires first <= last <= |v|
    ensures var r := Erase(v, first, last);
            && (forall k :: 0 <= k < first ==> r[k] == v[k])
            && (forall k :: last <= k < |v| ==> r[k - (last - first)] == v[k])
  {
  }

  /** The k-th element of the range is *(v.rbegin() + first + k). */
  lemma ReverseRangeElements<T>(v: seq<T>, first: nat, last: nat)
    requires first <= last <= |v|
    ensures var r := ReverseRange(v, first, last);
            forall k :: 0 <= k < last - first ==> r[k] == v[|v| - 1 - first - k]
  {
  }
}
