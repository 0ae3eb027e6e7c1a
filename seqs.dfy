/** Generic facts about sequences shared by the rest of the model. */
module Seqs {

  /** Length of the longest prefix of `s` whose elements all satisfy `p`. */
  function LeadingCount<T>(s: seq<T>, p: T -> bool): (k: nat)
    ensures k <= |s|
    ensures forall j :: 0 <= j < k ==> p(s[j])
    ensures k < |s| ==> !p(s[k])
  {
    if s == [] || !p(s[0]) then 0 else 1 + LeadingCount(s[1..], p)
  }

  /** Length of the longest suffix of `s` whose elements all satisfy `p`. */
  function TrailingCount<T>(s: seq<T>, p: T -> bool): (k: nat)
    ensures k <= |s|
    ensures forall j :: |s| - k <= j < |s| ==> p(s[j])
    ensures k < |s| ==> !p(s[|s| - 1 - k])
  {
    if s == [] || !p(s[|s| - 1]) then 0 else 1 + TrailingCount(s[..|s| - 1], p)
  }

  /** When every element of `s` satisfies `p`, the leading run is all of `s`. */
  lemma LeadingCountAll<T>(s: seq<T>, p: T -> bool)
    requires forall i :: 0 <= i < |s| ==> p(s[i])
    ensures LeadingCount(s, p) == |s|
  {
  }

  function Min(a: int, b: int): int { if a <= b then a else b }

  /**
   * The positions of `bs` that hold `true`, in increasing order: the
   * positions a `[x for x in xs if cond]` comprehension keeps.
   */
  function Indices(bs: seq<bool>): (idx: seq<nat>)
    ensures forall j :: 0 <= j < |idx| ==> idx[j] < |bs| && bs[idx[j]]
    ensures forall j, k :: 0 <= j < k < |idx| ==> idx[j] < idx[k]
    ensures forall i :: 0 <= i < |bs| && bs[i] ==> i in idx
  {
    if bs == [] then [] else Indices(bs[..|bs| - 1]) + (if bs[|bs| - 1] then [|bs| - 1] else [])
  }

  function Negated(bs: seq<bool>): (r: seq<bool>)
    ensures |r| == |bs|
  {
    seq(|bs|, i requires 0 <= i < |bs| => !bs[i])
  }

  /** The elements of `s` at the positions `idx`, in the order of `idx`. */
  function Pick<T>(s: seq<T>, idx: seq<nat>): seq<T>
    requires forall j :: 0 <= j < |idx| ==> idx[j] < |s|
  {
    seq(|idx|, j requires 0 <= j < |idx| => s[idx[j]])
  }

  /** The positions where a flag holds and where it does not are as many as there are flags. */
  lemma {:induction false} IndicesPartition(bs: seq<bool>)
    ensures |Indices(bs)| + |Indices(Negated(bs))| == |bs|
  {
    if bs != [] {
      var init := bs[..|bs| - 1];
      assert Negated(bs)[..|bs| - 1] == Negated(init);
      IndicesPartition(init);
    }
  }

  /** No position is in both lists, and every position is in one of them. */
  lemma IndicesDisjoint(bs: seq<bool>)
    ensures forall i :: 0 <= i < |bs| ==> (i in Indices(bs) <==> i !in Indices(Negated(bs)))
  {
    var yes, no := Indices(bs), Indices(Negated(bs));
    forall i | 0 <= i < |bs|
      ensures i in yes <==> i !in no
    {
      if bs[i] {
        assert i in yes;
      } else {
        assert Negated(bs)[i];
        assert i in no;
      }
    }
  }
}
