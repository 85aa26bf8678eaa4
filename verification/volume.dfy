/** Three-dimensional voxel arrays (numpy arrays of shape [xdim, ydim, zdim])
    and their two conversions to and from a flat buffer: the column-major
    flatten of the sensitivity matrix, and the loop that fills a 3-D image
    from a flat buffer of voxel values. */
module Volume {
  import opened VoxelLayout

  // ---------------------------------------------------------------------
  // Column-major ('F') flattening, defined axis by axis: a row runs along x,
  // a plane stacks the rows of one z-slice in y order, and the whole array
  // stacks the planes in z order.
  // ---------------------------------------------------------------------

  /** m[0,j,k], m[1,j,k], ..., m[ni-1,j,k]. */
  function RowF(m: array3<real>, ni: nat, j: nat, k: nat): (r: seq<real>)
    requires ni <= m.Length0 && j < m.Length1 && k < m.Length2
    reads m
    ensures |r| == ni
    decreases ni
  {
    if ni == 0 then [] else RowF(m, ni - 1, j, k) + [m[ni - 1, j, k]]
  }

  /** The rows y = 0 .. nj-1 of z-slice k, one after the other. */
  function PlaneF(m: array3<real>, nj: nat, k: nat): (r: seq<real>)
    requires nj <= m.Length1 && k < m.Length2
    reads m
    ensures |r| == nj * m.Length0
    decreases nj
  {
    if nj == 0 then []
    else
      assert (nj - 1) * m.Length0 + m.Length0 == nj * m.Length0;
      PlaneF(m, nj - 1, k) + RowF(m, m.Length0, nj - 1, k)
  }

  /** The z-slices 0 .. nk-1, one after the other. */
  function SlabsF(m: array3<real>, nk: nat): (r: seq<real>)
    requires nk <= m.Length2
    reads m
    ensures |r| == nk * (m.Length0 * m.Length1)
    decreases nk
  {
    if nk == 0 then []
    else
      assert m.Length1 * m.Length0 == m.Length0 * m.Length1;
      assert (nk - 1) * (m.Length0 * m.Length1) + m.Length0 * m.Length1 == nk * (m.Length0 * m.Length1);
      SlabsF(m, nk - 1) + PlaneF(m, m.Length1, nk - 1)
  }

  /** numpy's m.flatten('F'): every element of m, first index fastest. */
  function FlattenF(m: array3<real>): (r: seq<real>)
    reads m
    ensures |r| == m.Length0 * m.Length1 * m.Length2
  {
    assert m.Length2 * (m.Length0 * m.Length1) == m.Length0 * m.Length1 * m.Length2;
    SlabsF(m, m.Length2)
  }

  lemma {:induction false} RowFAt(m: array3<real>, ni: nat, j: nat, k: nat, i: nat)
    requires ni <= m.Length0 && j < m.Length1 && k < m.Length2 && i < ni
    ensures RowF(m, ni, j, k)[i] == m[i, j, k]
    decreases ni
  {
    if i < ni - 1 {
      RowFAt(m, ni - 1, j, k, i);
    }
  }

  lemma {:induction false} PlaneFAt(m: array3<real>, nj: nat, k: nat, i: nat, j: nat)
    requires nj <= m.Length1 && k < m.Length2 && i < m.Length0 && j < nj
    ensures i + j * m.Length0 < |PlaneF(m, nj, k)|
    ensures PlaneF(m, nj, k)[i + j * m.Length0] == m[i, j, k]
    decreases nj
  {
    InSlice(i, j, m.Length0, nj);
    if j < nj - 1 {
      InSlice(i, j, m.Length0, nj - 1);
      PlaneFAt(m, nj - 1, k, i, j);
    } else {
      RowFAt(m, m.Length0, j, k, i);
    }
  }

  lemma {:induction false} SlabsFAt(m: array3<real>, nk: nat, v: Voxel)
    requires nk <= m.Length2 && InGrid(v, m.Length0, m.Length1, nk)
    ensures Flatten(v, m.Length0, m.Length1, nk) < |SlabsF(m, nk)|
    ensures SlabsF(m, nk)[Flatten(v, m.Length0, m.Length1, nk)] == m[v.i, v.j, v.k]
    decreases nk
  {
    var X, Y := m.Length0, m.Length1;
    InSlice(v.i, v.j, X, Y);
    assert nk * (X * Y) == X * Y * nk;
    if v.k < nk - 1 {
      InSlice(v.i + v.j * X, v.k, X * Y, nk - 1);
      assert (X * Y) * (nk - 1) == (nk - 1) * (X * Y);
      SlabsFAt(m, nk - 1, v);
    } else {
      PlaneFAt(m, Y, v.k, v.i, v.j);
    }
  }

  /** Element (i, j, k) of m sits at i + j*xdim + k*xdim*ydim of m.flatten('F'):
      the column-major order of numpy is the x-fastest voxel layout. */
  lemma FlattenFAt(m: array3<real>, v: Voxel)
    requires InGrid(v, m.Length0, m.Length1, m.Length2)
    ensures FlattenF(m)[Flatten(v, m.Length0, m.Length1, m.Length2)] == m[v.i, v.j, v.k]
  {
    SlabsFAt(m, m.Length2, v);
  }

  /** Reading m.flatten('F') back through the fill loop's index arithmetic
      gives the elements of m: flatten followed by unflatten reproduces m. */
  lemma UnflattenFlattenF(m: array3<real>, ivox: nat)
    requires ivox < |FlattenF(m)|
    ensures m.Length0 > 0 && m.Length1 > 0
    ensures var v := Unflatten(ivox, m.Length0, m.Length1);
            InGrid(v, m.Length0, m.Length1, m.Length2) && FlattenF(m)[ivox] == m[v.i, v.j, v.k]
  {
    FlattenUnflatten(ivox, m.Length0, m.Length1, m.Length2);
    FlattenFAt(m, Unflatten(ivox, m.Length0, m.Length1));
  }

  // ---------------------------------------------------------------------
  // Filling a 3-D image from a flat buffer
  // ---------------------------------------------------------------------

  /** The loop `for ivox, w in enumerate(buf): img[i,j,k] = w` that both
      read_image and reconstruct run: afterwards every voxel holds the buffer
      element at its flat position, so the column-major flatten of the
      image is the buffer again. The ghost sequence `writes` records the
      voxel written by each step, in order: step n writes the voxel at flat
      position n, no voxel is written twice, and every voxel is written. */
  method FillFromFlat(img: array3<real>, buf: seq<real>) returns (ghost writes: seq<Voxel>)
    requires |buf| == img.Length0 * img.Length1 * img.Length2
    modifies img
    ensures forall v :: InGrid(v, img.Length0, img.Length1, img.Length2) ==>
              img[v.i, v.j, v.k] == buf[Flatten(v, img.Length0, img.Length1, img.Length2)]
    ensures |writes| == |buf|
    ensures forall n :: 0 <= n < |writes| ==>
              InGrid(writes[n], img.Length0, img.Length1, img.Length2) &&
              Flatten(writes[n], img.Length0, img.Length1, img.Length2) == n
    ensures forall a, b :: 0 <= a < b < |writes| ==> writes[a] != writes[b]
    ensures forall v :: InGrid(v, img.Length0, img.Length1, img.Length2) ==> v in writes
    ensures FlattenF(img) == buf
  {
    var X, Y, Z := img.Length0, img.Length1, img.Length2;
    writes := [];
    for ivox := 0 to |buf|
      invariant forall v :: InGrid(v, X, Y, Z) ==>
                  img[v.i, v.j, v.k] ==
                    if Flatten(v, X, Y, Z) < ivox then buf[Flatten(v, X, Y, Z)] else old(img[v.i, v.j, v.k])
      invariant |writes| == ivox
      invariant forall n :: 0 <= n < ivox ==> InGrid(writes[n], X, Y, Z) && Flatten(writes[n], X, Y, Z) == n
      invariant forall v :: InGrid(v, X, Y, Z) && Flatten(v, X, Y, Z) < ivox ==> v in writes
    {
      FlattenUnflatten(ivox, X, Y, Z);
      var i := ivox % X;
      var j := (ivox / X) % Y;
      var k := ivox / (X * Y);
      ghost var cell := Voxel(i, j, k);
      assert cell !in writes;
      img[i, j, k] := buf[ivox];
      writes := writes + [cell];
      forall v | InGrid(v, X, Y, Z) && Flatten(v, X, Y, Z) == ivox
        ensures v == cell
      {
        FlattenInjective(v, cell, X, Y, Z);
      }
    }
    forall v | InGrid(v, X, Y, Z)
      ensures v in writes
    {
      assert Flatten(v, X, Y, Z) < |buf|;
    }
    forall ivox | 0 <= ivox < |buf|
      ensures FlattenF(img)[ivox] == buf[ivox]
    {
      FlattenUnflatten(ivox, X, Y, Z);
      FlattenFAt(img, Unflatten(ivox, X, Y));
    }
  }
}
