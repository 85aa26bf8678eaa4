/** The raw checkpoint files "{prefix}{niter}.raw": a headerless sequence of
    4-byte floats, one per voxel. The float decoding itself is a parameter
    (`decode`), since the reconstructor only moves the decoded values. */
module RawImage {
  import opened Host

  // ---------------------------------------------------------------------
  // The file name: Python's "{}{}.raw".format(prefix, niter)
  // ---------------------------------------------------------------------

  predicate IsDigit(c: char) {
    '0' <= c <= '9'
  }

  function DigitChar(d: nat): (c: char)
    requires d < 10
    ensures IsDigit(c) && c as int - '0' as int == d
  {
    ('0' as int + d) as char
  }

  /** str(n) for a natural number: decimal digits without leading zeros. */
  function NatToDecimal(n: nat): (s: string)
    ensures |s| >= 1
    ensures forall p :: 0 <= p < |s| ==> IsDigit(s[p])
    ensures |s| > 1 ==> s[0] != '0'
    decreases n
  {
    if n < 10 then [DigitChar(n)] else NatToDecimal(n / 10) + [DigitChar(n % 10)]
  }

  /** The number a string of decimal digits stands for. */
  function DecimalValue(s: string): nat
    requires forall p :: 0 <= p < |s| ==> IsDigit(s[p])
  {
    if s == [] then 0
    else
      assert IsDigit(s[|s| - 1]);
      DecimalValue(s[..|s| - 1]) * 10 + (s[|s| - 1] as int - '0' as int)
  }

  /** Reading str(n) back as a decimal number gives n. */
  lemma {:induction false} DecimalRoundTrip(n: nat)
    ensures DecimalValue(NatToDecimal(n)) == n
    decreases n
  {
    if n >= 10 {
      var s := NatToDecimal(n);
      DecimalRoundTrip(n / 10);
      assert s[..|s| - 1] == NatToDecimal(n / 10);
    }
  }

  /** str(n) for any integer: a minus sign before the digits of -n when n is
      negative. */
  function IntToDecimal(n: int): (s: string)
    ensures |s| >= 1
    ensures n < 0 <==> s[0] == '-'
    ensures n >= 0 ==> (forall p :: 0 <= p < |s| ==> IsDigit(s[p])) && DecimalValue(s) == n
    ensures n >= 0 && |s| > 1 ==> s[0] != '0'
    ensures n < 0 ==> |s| >= 2 && s[1] != '0'
    ensures n < 0 ==> (forall p :: 1 <= p < |s| ==> IsDigit(s[p])) && |s| >= 2 && DecimalValue(s[1..]) == -n
  {
    if n < 0 then
      DecimalRoundTrip(-n);
      assert ("-" + NatToDecimal(-n))[1..] == NatToDecimal(-n);
      "-" + NatToDecimal(-n)
    else
      DecimalRoundTrip(n);
      NatToDecimal(n)
  }

  /** Different integers are written differently. */
  lemma IntToDecimalInjective(a: int, b: int)
    requires IntToDecimal(a) == IntToDecimal(b)
    ensures a == b
  {
  }

  /** The checkpoint file of iteration niter. */
  function CheckpointPath(prefix: string, niter: int): (p: string)
    ensures |p| >= |prefix| + 5 && p[..|prefix|] == prefix && p[|p| - 4..] == ".raw"
    ensures p[|prefix|..|p| - 4] == IntToDecimal(niter)
  {
    var digits := IntToDecimal(niter);
    var p := prefix + digits + ".raw";
    assert p[|prefix|..|p| - 4] == digits;
    p
  }

  /** Each iteration number has its own checkpoint file. */
  lemma CheckpointPathInjective(prefix: string, a: int, b: int)
    requires a != b
    ensures CheckpointPath(prefix, a) != CheckpointPath(prefix, b)
  {
  }

  // ---------------------------------------------------------------------
  // The content: struct.unpack_from('f' * n, data)
  // ---------------------------------------------------------------------

  /** Decodes consecutive 4-byte chunks, one value per chunk. */
  function Unpack(data: seq<uint8>, decode: seq<uint8> -> real): (vals: seq<real>)
    requires |data| % 4 == 0
    ensures |vals| * 4 == |data|
    decreases |data|
  {
    if |data| == 0 then [] else [decode(data[..4])] + Unpack(data[4..], decode)
  }

  /** Value number v comes from bytes 4v .. 4v+3. */
  lemma {:induction false} UnpackAt(data: seq<uint8>, decode: seq<uint8> -> real, v: nat)
    requires |data| % 4 == 0 && 4 * v + 4 <= |data|
    ensures Unpack(data, decode)[v] == decode(data[4 * v .. 4 * v + 4])
    decreases v
  {
    if v > 0 {
      UnpackAt(data[4..], decode, v - 1);
      assert data[4..][4 * (v - 1) .. 4 * (v - 1) + 4] == data[4 * v .. 4 * v + 4];
    }
  }

  /** What read_image finds on disk for the expected number of voxels. */
  datatype ReadStatus =
    | Loaded                      // the file holds exactly nvoxels*4 bytes
    | NotFound                    // "ERROR: file ... not found"
    | SizeMismatch(length: nat)   // "ERROR: unexpected data length ..."

  function ReadOutcome(fs: FileSystem, fpath: string, nvoxels: nat): (s: ReadStatus)
    ensures s == Loaded <==> IsFile(fs, fpath) && |fs.files[fpath]| == nvoxels * 4
    ensures s == NotFound <==> !IsFile(fs, fpath)
    ensures s.SizeMismatch? ==> IsFile(fs, fpath) && s.length == |fs.files[fpath]| && s.length != nvoxels * 4
  {
    if !IsFile(fs, fpath) then NotFound
    else if |fs.files[fpath]| == nvoxels * 4 then Loaded
    else SizeMismatch(|fs.files[fpath]|)
  }
}
