/** The voxel layout shared by the reconstructed image, the sensitivity
    matrix and the raw checkpoint files: a flat index `ivox` stands for the
    voxel (i, j, k) with x varying fastest, then y, then z, so that
    ivox == i + j*xdim + k*xdim*ydim. */
module VoxelLayout {

  /** A voxel position (i, j, k) in the grid. */
  datatype Voxel = Voxel(i: nat, j: nat, k: nat)

  predicate InGrid(v: Voxel, xdim: nat, ydim: nat, zdim: nat) {
    v.i < xdim && v.j < ydim && v.k < zdim
  }

  // ---------------------------------------------------------------------
  // Integer division facts (Dafny's / and % agree with Python's here,
  // since every operand is non-negative).
  // ---------------------------------------------------------------------

  lemma MulMono(a: nat, b: nat, d: nat)
    requires a <= b
    ensures a * d <= b * d
  {
  }

  /** Quotient and remainder are determined by the division equation. */
  lemma DivModUnique(n: int, d: int, q: int, r: int)
    requires d > 0 && 0 <= r < d && n == q * d + r
    ensures n / d == q && n % d == r
  {
    var q', r' := n / d, n % d;
    assert (q - q') * d == r' - r;
    MulSign(q - q', d);
  }

  lemma MulSign(x: int, d: int)
    requires d > 0
    ensures x >= 1 ==> x * d >= d
    ensures x <= -1 ==> x * d <= -d
  {
  }

  /** i + j*xdim stays below xdim*ydim inside one z-slice. */
  lemma InSlice(i: nat, j: nat, xdim: nat, ydim: nat)
    requires i < xdim && j < ydim
    ensures i + j * xdim < xdim * ydim
  {
    MulMono(j, ydim - 1, xdim);
    assert (ydim - 1) * xdim == xdim * ydim - xdim;
  }

  // ---------------------------------------------------------------------
  // Flatten and unflatten
  // ---------------------------------------------------------------------

  /** The flat position of voxel v: i + j*xdim + k*xdim*ydim. Every voxel of
      the grid lands inside the flat buffer of xdim*ydim*zdim values. */
  function Flatten(v: Voxel, xdim: nat, ydim: nat, zdim: nat): (ivox: nat)
    requires InGrid(v, xdim, ydim, zdim)
    ensures ivox < xdim * ydim * zdim
  {
    InSlice(v.i, v.j, xdim, ydim);
    MulMono(v.k, zdim - 1, xdim * ydim);
    assert (zdim - 1) * (xdim * ydim) == xdim * ydim * zdim - xdim * ydim;
    v.i + v.j * xdim + v.k * (xdim * ydim)
  }

  /** The voxel that the flat index ivox stands for, computed as the fill
      loops compute it: i = ivox % xdim, j = (ivox / xdim) % ydim,
      k = ivox / (xdim*ydim). */
  function Unflatten(ivox: nat, xdim: nat, ydim: nat): (v: Voxel)
    requires xdim > 0 && ydim > 0
    ensures v.i < xdim && v.j < ydim
    ensures v.i + v.j * xdim + v.k * (xdim * ydim) == ivox
  {
    Decompose(ivox, xdim, ydim);
    Voxel(ivox % xdim, (ivox / xdim) % ydim, ivox / (xdim * ydim))
  }

  /** ivox splits into its x-remainder, its y-remainder and whole z-slices. */
  lemma Decompose(ivox: nat, xdim: nat, ydim: nat)
    requires xdim > 0 && ydim > 0
    ensures ivox == ivox % xdim + ((ivox / xdim) % ydim) * xdim + (ivox / (xdim * ydim)) * (xdim * ydim)
  {
    var q := ivox / xdim;
    var i, j := ivox % xdim, q % ydim;
    assert ivox == i + q * xdim;
    assert q == j + (q / ydim) * ydim;
    InSlice(i, j, xdim, ydim);
    assert ivox == (i + j * xdim) + (q / ydim) * (xdim * ydim) by {
      calc {
        ivox;
        i + q * xdim;
        i + (j + (q / ydim) * ydim) * xdim;
        (i + j * xdim) + (q / ydim) * (xdim * ydim);
      }
    }
    DivModUnique(ivox, xdim * ydim, q / ydim, i + j * xdim);
  }

  /** A positive-size grid has positive extents along x and y. */
  lemma PositiveExtents(ivox: nat, xdim: nat, ydim: nat, zdim: nat)
    requires ivox < xdim * ydim * zdim
    ensures xdim > 0 && ydim > 0 && zdim > 0
  {
  }

  /** Every index of the flat buffer unflattens to a voxel of the grid. */
  lemma UnflattenInGrid(ivox: nat, xdim: nat, ydim: nat, zdim: nat)
    requires ivox < xdim * ydim * zdim
    ensures xdim > 0 && ydim > 0
    ensures InGrid(Unflatten(ivox, xdim, ydim), xdim, ydim, zdim)
  {
    PositiveExtents(ivox, xdim, ydim, zdim);
  }

  /** Unflattening and flattening again gives back the flat index. */
  lemma FlattenUnflatten(ivox: nat, xdim: nat, ydim: nat, zdim: nat)
    requires ivox < xdim * ydim * zdim
    ensures xdim > 0 && ydim > 0
    ensures InGrid(Unflatten(ivox, xdim, ydim), xdim, ydim, zdim)
    ensures Flatten(Unflatten(ivox, xdim, ydim), xdim, ydim, zdim) == ivox
  {
    UnflattenInGrid(ivox, xdim, ydim, zdim);
  }

  /** Flattening a voxel of the grid and unflattening gives back the voxel. */
  lemma UnflattenFlatten(v: Voxel, xdim: nat, ydim: nat, zdim: nat)
    requires InGrid(v, xdim, ydim, zdim)
    ensures xdim > 0 && ydim > 0
    ensures Unflatten(Flatten(v, xdim, ydim, zdim), xdim, ydim) == v
  {
    var ivox := Flatten(v, xdim, ydim, zdim);
    assert ivox == v.i + (v.j + v.k * ydim) * xdim;
    DivModUnique(ivox, xdim, v.j + v.k * ydim, v.i);
    DivModUnique(v.j + v.k * ydim, ydim, v.k, v.j);
    InSlice(v.i, v.j, xdim, ydim);
    DivModUnique(ivox, xdim * ydim, v.k, v.i + v.j * xdim);
  }

  /** Distinct flat indices name distinct voxels, so a loop over the flat
      buffer writes each voxel of the grid at most once... */
  lemma UnflattenInjective(a: nat, b: nat, xdim: nat, ydim: nat, zdim: nat)
    requires a < xdim * ydim * zdim && b < xdim * ydim * zdim && a != b
    ensures xdim > 0 && ydim > 0
    ensures Unflatten(a, xdim, ydim) != Unflatten(b, xdim, ydim)
  {
    FlattenUnflatten(a, xdim, ydim, zdim);
    FlattenUnflatten(b, xdim, ydim, zdim);
  }

  /** ...and at least once: every voxel has a flat index in the buffer. */
  lemma UnflattenOnto(v: Voxel, xdim: nat, ydim: nat, zdim: nat)
    requires InGrid(v, xdim, ydim, zdim)
    ensures xdim > 0 && ydim > 0
    ensures exists ivox: nat :: ivox < xdim * ydim * zdim && Unflatten(ivox, xdim, ydim) == v
  {
    UnflattenFlatten(v, xdim, ydim, zdim);
  }

  /** Two voxels of the grid with the same flat position are the same voxel. */
  lemma FlattenInjective(v: Voxel, w: Voxel, xdim: nat, ydim: nat, zdim: nat)
    requires InGrid(v, xdim, ydim, zdim) && InGrid(w, xdim, ydim, zdim)
    requires Flatten(v, xdim, ydim, zdim) == Flatten(w, xdim, ydim, zdim)
    ensures v == w
  {
    UnflattenFlatten(v, xdim, ydim, zdim);
    UnflattenFlatten(w, xdim, ydim, zdim);
  }
}
