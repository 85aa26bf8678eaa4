/** The MLEMReconstructor wrapper: its configuration, the reader for raw
    checkpoint images, and the checks that reconstruct makes before it hands
    a batch of lines of response (LORs) to the MLEM_TOF_Reco library
    function. The library itself is a parameter `lib` from the arguments of
    the call to the image it returns. */
module Reconstructor {
  import opened Wrappers
  import opened Host
  import opened VoxelLayout
  import opened Volume
  import opened RawImage
  import opened Folder

  /** The eight coordinate lists of a batch of LORs: the first point
      (x1, y1, z1, t1) and the second point (x2, y2, z2, t2) of each. */
  datatype LorBatch = LorBatch(x1: seq<real>, y1: seq<real>, z1: seq<real>, t1: seq<real>,
                               x2: seq<real>, y2: seq<real>, z2: seq<real>, t2: seq<real>)
  {
    function Lengths(): seq<nat> {
      [|x1|, |y1|, |z1|, |t1|, |x2|, |y2|, |z2|, |t2|]
    }
  }

  /** reconstruct's LOR check: every list is as long as lor_x1. */
  predicate LengthsAgree(b: LorBatch)
    ensures LengthsAgree(b) <==> forall l :: l in b.Lengths() ==> l == |b.x1|
  {
    var ncoinc := |b.x1|;
    var ls := b.Lengths();
    assert ls[1] in ls && ls[2] in ls && ls[3] in ls && ls[4] in ls && ls[5] in ls && ls[6] in ls && ls[7] in ls;
    !(|b.y1| != ncoinc || |b.z1| != ncoinc || |b.t1| != ncoinc || |b.x2| != ncoinc ||
      |b.y2| != ncoinc || |b.z2| != ncoinc || |b.t2| != ncoinc)
  }

  /** The check passes exactly when all eight lists have one common length,
      whichever list is compared with which. */
  lemma LengthsAgreeIffCommonLength(b: LorBatch)
    ensures LengthsAgree(b) <==>
              forall p, q :: 0 <= p < 8 && 0 <= q < 8 ==> b.Lengths()[p] == b.Lengths()[q]
  {
    var ls := b.Lengths();
    if LengthsAgree(b) {
      forall p, q | 0 <= p < 8 && 0 <= q < 8
        ensures ls[p] == ls[q]
      {
        assert ls[p] == ls[0] && ls[q] == ls[0];
      }
    } else {
      assert ls[0] != ls[1] || ls[0] != ls[2] || ls[0] != ls[3] || ls[0] != ls[4] ||
             ls[0] != ls[5] || ls[0] != ls[6] || ls[0] != ls[7];
    }
  }

  /** The arguments of one call to MLEM_TOF_Reco, in the library's order. */
  datatype RecoCall = RecoCall(niterations: int, tof: bool, tofResolution: real,
                               imgSizeXy: real, imgSizeZ: real,
                               nvoxelsXy: nat, nvoxelsZ: nat, ncoinc: nat,
                               lors: LorBatch, smat: seq<real>, prefix: string, saveEvery: int)

  /** Why reconstruct returned None. */
  datatype Failure =
    | LorLengthMismatch          // "all LOR arrays must contain the same # of values"
    | SensitivityShapeMismatch   // "sensitivity matrix must have dimensions ..."

  /** How reconstruct ends: the process exits when the output folder is
      missing, None is returned when a check fails, or the image. */
  datatype Outcome =
    | Exited(code: int, folder: string)
    | NoImage(reason: Failure)
    | Image(img: array3<real>)

  /** A prefix without '/' (such as the default "mlem") names the empty
      folder, which never exists: reconstruct then always exits. */
  lemma PrefixWithoutSlashExits(fs: FileSystem, prefix: string)
    requires '/' !in prefix
    ensures !PathExists(fs, DirPrefix(prefix))
  {
    NoSlashNoFolder(prefix);
  }

  /** The loaded branch of read_image: the file's 4-byte chunks are decoded
      and written into the image in x-fastest order, so voxel (i, j, k) holds
      the chunk at i + j*X + k*X*Y and the image's flatten is the decoded file. */
  method FillFromRaw(img: array3<real>, data: seq<uint8>, decode: seq<uint8> -> real)
    requires |data| == img.Length0 * img.Length1 * img.Length2 * 4
    modifies img
    ensures FlattenF(img) == Unpack(data, decode)
    ensures forall v :: InGrid(v, img.Length0, img.Length1, img.Length2) ==>
              img[v.i, v.j, v.k] ==
                decode(data[4 * Flatten(v, img.Length0, img.Length1, img.Length2) ..
                            4 * Flatten(v, img.Length0, img.Length1, img.Length2) + 4])
  {
    var X, Y, Z := img.Length0, img.Length1, img.Length2;
    var sArr := Unpack(data, decode);
    ghost var written := FillFromFlat(img, sArr);
    forall v | InGrid(v, X, Y, Z)
      ensures img[v.i, v.j, v.k] == decode(data[4 * Flatten(v, X, Y, Z) .. 4 * Flatten(v, X, Y, Z) + 4])
    {
      UnpackAt(data, decode, Flatten(v, X, Y, Z));
    }
  }

  class MLEMReconstructor {
    var prefix: string
    var niterations: int
    var saveEvery: int
    var tof: bool
    var tofResolution: real
    var imgSizeXy: real
    var imgSizeZ: real
    var imgNvoxelsXy: nat
    var imgNvoxelsZ: nat
    var smatrix: array3<real>
    /** Where the reconstruction library is loaded from. */
    var libpath: string

    /** The number of voxels of the configured grid. */
    function Nvoxels(): (n: nat)
      reads this
      ensures n > 0 <==> imgNvoxelsXy > 0 && imgNvoxelsZ > 0
    {
      imgNvoxelsXy * imgNvoxelsXy * imgNvoxelsZ
    }

    /** A grid with a zero voxel count expects an empty checkpoint file:
        read_image loads exactly an existing empty file and reports any
        other file as a size mismatch. */
    lemma EmptyGridExpectsEmptyFile(fs: FileSystem, niter: int)
      requires imgNvoxelsXy == 0 || imgNvoxelsZ == 0
      ensures var fpath := CheckpointPath(prefix, niter);
              ReadOutcome(fs, fpath, Nvoxels()) == Loaded <==> IsFile(fs, fpath) && fs.files[fpath] == []
    {
    }

    /** Stores the configuration. The TOF flag is stored as true whatever
        is passed; without a sensitivity matrix, one of all ones with shape
        [nxy, nxy, nz] is made, which passes reconstruct's shape check. */
    constructor (prefix: string := "mlem", niterations: int := 1,
                 saveEvery: int := -1, tof: bool := true,
                 tofResolution: real := 200.0,
                 imgSizeXy: real := 180.0, imgSizeZ: real := 180.0,
                 imgNvoxelsXy: nat := 60, imgNvoxelsZ: nat := 60,
                 smatrix: Option<array3<real>> := None,
                 libpath: string := "lib/libMLEM.so")
      ensures this.prefix == prefix && this.niterations == niterations && this.saveEvery == saveEvery
      ensures this.tof
      ensures this.tofResolution == tofResolution
      ensures this.imgSizeXy == imgSizeXy && this.imgSizeZ == imgSizeZ
      ensures this.imgNvoxelsXy == imgNvoxelsXy && this.imgNvoxelsZ == imgNvoxelsZ
      ensures this.libpath == libpath
      ensures smatrix.Some? ==> this.smatrix == smatrix.value
      ensures smatrix.None? ==>
                fresh(this.smatrix) &&
                this.smatrix.Length0 == imgNvoxelsXy && this.smatrix.Length1 == imgNvoxelsXy &&
                this.smatrix.Length2 == imgNvoxelsZ &&
                (forall i, j, k :: 0 <= i < imgNvoxelsXy && 0 <= j < imgNvoxelsXy && 0 <= k < imgNvoxelsZ ==>
                   this.smatrix[i, j, k] == 1.0) &&
                |FlattenF(this.smatrix)| == Nvoxels()
    {
      this.prefix := prefix;
      this.niterations := niterations;
      this.saveEvery := saveEvery;
      this.tof := true;
      this.tofResolution := tofResolution;
      this.imgSizeXy := imgSizeXy;
      this.imgSizeZ := imgSizeZ;
      this.imgNvoxelsXy := imgNvoxelsXy;
      this.imgNvoxelsZ := imgNvoxelsZ;
      if smatrix.None? {
        this.smatrix := new real[imgNvoxelsXy, imgNvoxelsXy, imgNvoxelsZ]((i, j, k) => 1.0);
      } else {
        this.smatrix := smatrix.value;
      }
      this.libpath := libpath;
    }

    /** read_image: the image of iteration niter, read from
        "{prefix}{niter}.raw". The image starts as all zeros and is filled
        only when the file exists and holds exactly nvoxels*4 bytes; its
        column-major flatten is then the decoded file. */
    method ReadImage(fs: FileSystem, niter: int, decode: seq<uint8> -> real)
      returns (img: array3<real>, status: ReadStatus)
      ensures fresh(img)
      ensures img.Length0 == imgNvoxelsXy && img.Length1 == imgNvoxelsXy && img.Length2 == imgNvoxelsZ
      ensures status == ReadOutcome(fs, CheckpointPath(prefix, niter), Nvoxels())
      ensures status == Loaded ==>
                var data := fs.files[CheckpointPath(prefix, niter)];
                FlattenF(img) == Unpack(data, decode) &&
                forall v :: InGrid(v, img.Length0, img.Length1, img.Length2) ==>
                  img[v.i, v.j, v.k] ==
                    decode(data[4 * Flatten(v, img.Length0, img.Length1, img.Length2) ..
                                4 * Flatten(v, img.Length0, img.Length1, img.Length2) + 4])
      ensures status != Loaded ==>
                forall v :: InGrid(v, img.Length0, img.Length1, img.Length2) ==> img[v.i, v.j, v.k] == 0.0
    {
      var xdim := imgNvoxelsXy;
      var ydim := imgNvoxelsXy;
      var zdim := imgNvoxelsZ;
      img := new real[xdim, ydim, zdim]((i, j, k) => 0.0);

      var fpath := CheckpointPath(prefix, niter);
      var nvoxels := xdim * ydim * zdim;
      assert nvoxels == Nvoxels();
      if IsFile(fs, fpath) {
        var fdata := fs.files[fpath];
        if |fdata| == nvoxels * 4 {
          FillFromRaw(img, fdata, decode);
          status := Loaded;
        } else {
          status := SizeMismatch(|fdata|);
        }
      } else {
        status := NotFound;
      }
      assert status == ReadOutcome(fs, fpath, nvoxels);
    }

    /** reconstruct: derives the output folder from the prefix and exits
        when it does not exist; returns None when the LOR lists differ in
        length, or when the column-major flatten of the sensitivity matrix
        does not hold nvoxels values; otherwise calls the library once and
        unflattens the first nvoxels values it returns into the image.
        `call` is the library call made, if any. */
    method Reconstruct(fs: FileSystem, lors: LorBatch, lib: RecoCall -> seq<real>)
      returns (r: Outcome, call: Option<RecoCall>)
      requires forall c: RecoCall :: c.nvoxelsXy * c.nvoxelsXy * c.nvoxelsZ <= |lib(c)|
      ensures !PathExists(fs, DirPrefix(prefix)) ==>
                r == Exited(1, DirPrefix(prefix)) && call == None
      ensures PathExists(fs, DirPrefix(prefix)) && !LengthsAgree(lors) ==>
                r == NoImage(LorLengthMismatch) && call == None
      ensures PathExists(fs, DirPrefix(prefix)) && LengthsAgree(lors) && |FlattenF(smatrix)| != Nvoxels() ==>
                r == NoImage(SensitivityShapeMismatch) && call == None
      ensures call.Some? <==>
                PathExists(fs, DirPrefix(prefix)) && LengthsAgree(lors) && |FlattenF(smatrix)| == Nvoxels()
      ensures call.Some? ==>
                call.value == RecoCall(niterations, tof, tofResolution, imgSizeXy, imgSizeZ,
                                       imgNvoxelsXy, imgNvoxelsZ, |lors.x1|,
                                       lors, FlattenF(smatrix), prefix, saveEvery)
      ensures call.Some? ==>
                r.Image? && fresh(r.img) &&
                r.img.Length0 == imgNvoxelsXy && r.img.Length1 == imgNvoxelsXy && r.img.Length2 == imgNvoxelsZ &&
                FlattenF(r.img) == lib(call.value)[..Nvoxels()] &&
                forall v :: InGrid(v, r.img.Length0, r.img.Length1, r.img.Length2) ==>
                  r.img[v.i, v.j, v.k] == lib(call.value)[Flatten(v, r.img.Length0, r.img.Length1, r.img.Length2)]
    {
      var folderPath := FolderPath(prefix);
      if !PathExists(fs, folderPath) {
        return Exited(1, folderPath), None;
      }

      var ncoinc := |lors.x1|;
      if !LengthsAgree(lors) {
        return NoImage(LorLengthMismatch), None;
      }

      var xdim, ydim := imgNvoxelsXy, imgNvoxelsXy;
      var zdim := imgNvoxelsZ;
      var nvoxels := xdim * ydim * zdim;

      var smat := FlattenF(smatrix);
      if |smat| != nvoxels {
        return NoImage(SensitivityShapeMismatch), None;
      }

      var c := RecoCall(niterations, tof, tofResolution, imgSizeXy, imgSizeZ,
                        imgNvoxelsXy, imgNvoxelsZ, ncoinc, lors, smat, prefix, saveEvery);
      var out := lib(c);

      var img := new real[xdim, ydim, zdim]((i, j, k) => 0.0);
      var rimg := out[..nvoxels];
      ghost var written := FillFromFlat(img, rimg);
      r, call := Image(img), Some(c);
    }
  }
}
