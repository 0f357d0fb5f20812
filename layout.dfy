/**
 * Value-array layout (runner.py, lines 391-408): every ODE target owns the
 * slice [from, to) of one flat numeric vector, with slice lengths equal to the
 * number of active instances of the target's class, assigned by cumulative sum.
 */
module ArrayLayout {
  import opened Entities

  datatype Slice = Slice(lo: nat, hi: nat)

  /** Total of the slice lengths. */
  function Sum(lens: seq<nat>): nat
  {
    if |lens| == 0 then 0 else Sum(lens[..|lens| - 1]) + lens[|lens| - 1]
  }

  lemma {:induction false} SumPrefixMonotone(lens: seq<nat>, a: nat, b: nat)
    requires a <= b <= |lens|
    ensures Sum(lens[..a]) <= Sum(lens[..b])
    decreases b - a
  {
    if a < b {
      SumPrefixMonotone(lens, a, b - 1);
      assert lens[..b][..b - 1] == lens[..b - 1];
    }
  }

  /** Slices laid end to end from offset 0, without gaps or overlaps. */
  predicate Contiguous(slices: seq<Slice>)
  {
    forall j :: 0 <= j < |slices| ==>
      slices[j].lo <= slices[j].hi &&
      (if j == 0 then slices[j].lo == 0 else slices[j].lo == slices[j - 1].hi)
  }

  /** The end of the last slice: the length of the flat vector. */
  function Extent(slices: seq<Slice>): nat
  {
    if |slices| == 0 then 0 else slices[|slices| - 1].hi
  }

  /** Contiguous slices are ordered and pairwise disjoint. */
  lemma {:induction false} ContiguousDisjoint(slices: seq<Slice>, i: nat, j: nat)
    requires Contiguous(slices)
    requires i < j < |slices|
    ensures slices[i].hi <= slices[j].lo
    decreases j - i
  {
    if i + 1 < j {
      ContiguousDisjoint(slices, i + 1, j);
    }
  }

  /** Contiguous slices lie within the vector. */
  lemma {:induction false} ContiguousWithin(slices: seq<Slice>, j: nat)
    requires Contiguous(slices)
    requires j < |slices|
    ensures slices[j].hi <= Extent(slices)
    decreases |slices| - j
  {
    if j + 1 < |slices| {
      ContiguousWithin(slices, j + 1);
    }
  }

  /**
   * `tos = cumsum(lens)`, `froms = concatenate(([0], tos[:-1]))`,
   * `arraylen = sum(lens)`. With no targets at all, `froms` is `[0]`.
   */
  method BuildLayout(lens: seq<nat>) returns (froms: seq<nat>, tos: seq<nat>, arraylen: nat)
    ensures |tos| == |lens|
    ensures |froms| == if |lens| == 0 then 1 else |lens|
    ensures froms[0] == 0
    ensures forall j :: 0 <= j < |lens| ==> tos[j] == froms[j] + lens[j]
    ensures forall j :: 0 <= j < |lens| - 1 ==> froms[j + 1] == tos[j]
    ensures forall j :: 0 <= j < |lens| ==> froms[j] == Sum(lens[..j]) && tos[j] == Sum(lens[..j + 1])
    ensures arraylen == Sum(lens)
    ensures |lens| > 0 ==> tos[|lens| - 1] == arraylen
  {
    tos := [];
    var acc: nat := 0;
    for j := 0 to |lens|
      invariant |tos| == j
      invariant acc == Sum(lens[..j])
      invariant forall m :: 0 <= m < j ==> tos[m] == Sum(lens[..m + 1])
    {
      assert lens[..j + 1][..j] == lens[..j];
      acc := acc + lens[j];
      tos := tos + [acc];
    }
    froms := [0] + (if |tos| == 0 then [] else tos[..|tos| - 1]);
    forall j | 0 <= j < |lens| ensures froms[j] == Sum(lens[..j]) && tos[j] == froms[j] + lens[j] {
      assert lens[..j + 1][..j] == lens[..j];
    }
    assert lens[..|lens|] == lens;
    arraylen := acc;
  }

  /** Chunks laid end to end. */
  function Concat(chunks: seq<seq<real>>): seq<real>
  {
    if |chunks| == 0 then [] else Concat(chunks[..|chunks| - 1]) + chunks[|chunks| - 1]
  }

  function Widths(chunks: seq<seq<real>>): (r: seq<nat>)
    ensures |r| == |chunks|
  {
    seq(|chunks|, j requires 0 <= j < |chunks| => |chunks[j]|)
  }

  lemma {:induction false} ConcatLength(chunks: seq<seq<real>>)
    ensures |Concat(chunks)| == Sum(Widths(chunks))
    decreases |chunks|
  {
    if |chunks| > 0 {
      var n := |chunks|;
      ConcatLength(chunks[..n - 1]);
      assert Widths(chunks[..n - 1]) == Widths(chunks)[..n - 1];
    }
  }

  /** Chunk j of a concatenation sits at the cumulative offsets of the widths before it. */
  lemma {:induction false} ConcatSlice(chunks: seq<seq<real>>, j: nat)
    requires j < |chunks|
    ensures Sum(Widths(chunks)[..j]) <= Sum(Widths(chunks)[..j + 1]) <= |Concat(chunks)|
    ensures Concat(chunks)[Sum(Widths(chunks)[..j])..Sum(Widths(chunks)[..j + 1])] == chunks[j]
    decreases |chunks|
  {
    var n := |chunks|;
    var W := Widths(chunks);
    var prefix := chunks[..n - 1];
    var C, C' := Concat(chunks), Concat(prefix);
    assert C == C' + chunks[n - 1];
    ConcatLength(chunks);
    ConcatLength(prefix);
    assert Widths(prefix) == W[..n - 1];
    assert W[..n] == W;
    SumPrefixMonotone(W, j, j + 1);
    SumPrefixMonotone(W, j + 1, n);
    if j == n - 1 {
      assert C[|C'|..|C|] == chunks[n - 1];
    } else {
      ConcatSlice(prefix, j);
      assert W[..n - 1][..j] == W[..j];
      assert W[..n - 1][..j + 1] == W[..j + 1];
      var a, b := Sum(W[..j]), Sum(W[..j + 1]);
      assert C[a..b] == C'[a..b];
    }
  }

  /** The number of active instances of each target's class. */
  function Lens(w: World, targets: seq<Target>): (r: seq<nat>)
    ensures |r| == |targets|
  {
    seq(|targets|, j requires 0 <= j < |targets| => |Instances(w, targets[j].cls)|)
  }

  /** Each target's current values over the active instances of its class. */
  function Chunks(w: World, targets: seq<Target>): (r: seq<seq<real>>)
    ensures |r| == |targets|
    ensures Widths(r) == Lens(w, targets)
  {
    seq(|targets|, j requires 0 <= j < |targets| => Values(w, targets[j].variable, Instances(w, targets[j].cls)))
  }

  /** The initial value array: each target's current values, in slice order. */
  function Pack(w: World, targets: seq<Target>): seq<real>
  {
    Concat(Chunks(w, targets))
  }

  /** Target j's slice of the packed array holds exactly that target's values. */
  lemma PackSlice(w: World, targets: seq<Target>, j: nat)
    requires j < |targets|
    ensures |Pack(w, targets)| == Sum(Lens(w, targets))
    ensures Sum(Lens(w, targets)[..j]) <= Sum(Lens(w, targets)[..j + 1]) <= |Pack(w, targets)|
    ensures Pack(w, targets)[Sum(Lens(w, targets)[..j])..Sum(Lens(w, targets)[..j + 1])]
         == Values(w, targets[j].variable, Instances(w, targets[j].cls))
  {
    ConcatLength(Chunks(w, targets));
    ConcatSlice(Chunks(w, targets), j);
  }

  /**
   * Slices cut at the running sums of the instance counts are contiguous, end
   * at the packed array's length, and cover the packed array target by target.
   */
  lemma CumulativeSlices(w: World, targets: seq<Target>, slices: seq<Slice>)
    requires |slices| == |targets|
    requires forall j :: 0 <= j < |slices| ==> slices[j] == Slice(Sum(Lens(w, targets)[..j]), Sum(Lens(w, targets)[..j + 1]))
    ensures Contiguous(slices) && Extent(slices) == |Pack(w, targets)|
    ensures forall j :: 0 <= j < |slices| ==>
      && slices[j].lo <= slices[j].hi <= |Pack(w, targets)|
      && slices[j].hi - slices[j].lo == |Instances(w, targets[j].cls)|
      && Pack(w, targets)[slices[j].lo..slices[j].hi] == Values(w, targets[j].variable, Instances(w, targets[j].cls))
  {
    var lens := Lens(w, targets);
    ConcatLength(Chunks(w, targets));
    forall j | 0 <= j < |slices|
      ensures slices[j].lo <= slices[j].hi <= |Pack(w, targets)|
      ensures slices[j].hi - slices[j].lo == |Instances(w, targets[j].cls)|
      ensures Pack(w, targets)[slices[j].lo..slices[j].hi] == Values(w, targets[j].variable, Instances(w, targets[j].cls))
      ensures if j == 0 then slices[j].lo == 0 else slices[j].lo == slices[j - 1].hi
    {
      CumulativeSlice(w, targets, slices, j);
    }
    if |slices| > 0 {
      assert lens[..|slices|] == lens;
    }
  }

  /** Target `j`'s slice, cut at the running sums, lies where `CumulativeSlices` says. */
  lemma CumulativeSlice(w: World, targets: seq<Target>, slices: seq<Slice>, j: nat)
    requires |slices| == |targets| && j < |slices|
    requires forall i :: 0 <= i < |slices| ==> slices[i] == Slice(Sum(Lens(w, targets)[..i]), Sum(Lens(w, targets)[..i + 1]))
    ensures slices[j].lo <= slices[j].hi <= |Pack(w, targets)|
    ensures slices[j].hi - slices[j].lo == |Instances(w, targets[j].cls)|
    ensures Pack(w, targets)[slices[j].lo..slices[j].hi] == Values(w, targets[j].variable, Instances(w, targets[j].cls))
    ensures if j == 0 then slices[j].lo == 0 else slices[j].lo == slices[j - 1].hi
  {
    var lens := Lens(w, targets);
    PackSlice(w, targets, j);
    assert lens[..j + 1][..j] == lens[..j];
  }
}
