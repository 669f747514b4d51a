/** The persistent chain bank s_t_0: a fixed-size sequence of states that
    persistent-initialised Langevin runs read from and write back to. */
module ChainBank {
  import opened Tensors

  /** `2 * rand(...) - 1`: a fresh bank of `size` states with `dim` entries each,
      drawn uniformly from [-1, 1). */
  function InitBank(size: nat, dim: nat, rand: (nat, nat) -> Unit): (bank: seq<Vec>)
    ensures |bank| == size && Shaped(bank, dim)
    ensures forall i, j :: 0 <= i < size && 0 <= j < dim ==>
              -1.0 <= bank[i][j] < 1.0 && bank[i][j] == 2.0 * rand(i, j) - 1.0
  {
    seq(size, i requires 0 <= i => seq(dim, j requires 0 <= j => 2.0 * rand(i, j) - 1.0))
  }

  /** A batch drawn without replacement: the first `batchSize` entries of a random
      permutation (a slice past the end silently stops at `|images|`), and the rows
      stored at those indices. */
  datatype Selection = Selection(rows: seq<Vec>, inds: seq<nat>)

  function SampleImageSet(images: seq<Vec>, perm: seq<nat>, batchSize: nat): (s: Selection)
    requires IsPermutation(perm, |images|)
    ensures |s.inds| == Min(batchSize, |images|)
    ensures Distinct(s.inds) && InRange(s.inds, |images|)
    ensures s.inds == perm[..|s.inds|]
    ensures |s.rows| == |s.inds|
    ensures forall k :: 0 <= k < |s.rows| ==> s.rows[k] == images[s.inds[k]]
  {
    var inds := perm[..Min(batchSize, |images|)];
    Selection(seq(|inds|, k requires 0 <= k < |inds| => images[inds[k]]), inds)
  }

  /** `bank[inds] = xs`: slot inds[k] receives xs[k]; every other slot keeps its state. */
  function WriteBack(bank: seq<Vec>, inds: seq<nat>, xs: seq<Vec>): (b: seq<Vec>)
    requires |inds| == |xs|
    requires Distinct(inds) && InRange(inds, |bank|)
    ensures |b| == |bank|
    ensures forall k :: 0 <= k < |inds| ==> b[inds[k]] == xs[k]
    ensures forall j :: 0 <= j < |bank| && j !in inds ==> b[j] == bank[j]
    decreases |inds|
  {
    if |inds| == 0 then bank
    else
      var rest := WriteBack(bank, inds[1..], xs[1..]);
      assert forall k :: 1 <= k < |inds| ==> inds[k] in inds[1..] by {
        forall k | 1 <= k < |inds| ensures inds[k] in inds[1..] {
          assert inds[1..][k - 1] == inds[k];
        }
      }
      rest[inds[0] := xs[0]]
  }

  /** Writing back states that have the bank's element size keeps every slot at that size. */
  lemma {:induction false} WriteBackShaped(bank: seq<Vec>, inds: seq<nat>, xs: seq<Vec>, dim: nat)
    requires |inds| == |xs|
    requires Distinct(inds) && InRange(inds, |bank|)
    requires Shaped(bank, dim) && Shaped(xs, dim)
    ensures Shaped(WriteBack(bank, inds, xs), dim)
  {
    var b := WriteBack(bank, inds, xs);
    forall j | 0 <= j < |b| ensures |b[j]| == dim {
      if j in inds {
        var k :| 0 <= k < |inds| && inds[k] == j;
        assert b[j] == xs[k];
      } else {
        assert b[j] == bank[j];
      }
    }
  }

  /** Reading back the slots just written yields exactly the written states. */
  lemma WriteThenRead(bank: seq<Vec>, perm: seq<nat>, batchSize: nat, xs: seq<Vec>)
    requires IsPermutation(perm, |bank|)
    requires |xs| == Min(batchSize, |bank|)
    ensures SampleImageSet(WriteBack(bank, SampleImageSet(bank, perm, batchSize).inds, xs),
                           perm, batchSize).rows == xs
  {
    var sel := SampleImageSet(bank, perm, batchSize);
    var b := WriteBack(bank, sel.inds, xs);
    var sel2 := SampleImageSet(b, perm, batchSize);
    assert sel2.inds == sel.inds;
    forall k | 0 <= k < |xs| ensures sel2.rows[k] == xs[k] {
      assert sel2.rows[k] == b[sel.inds[k]];
    }
  }
}
