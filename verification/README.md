# MLEMReconstructor wrapper, modelled in Dafny

This project models the Python wrapper `MLEMReconstructor` of a list-mode
time-of-flight MLEM image reconstruction for PET-like data. The wrapper
holds the reconstruction configuration. It reads back the raw checkpoint
images that the reconstruction writes, and it checks a batch of lines of
response (LORs) and the sensitivity matrix before handing them to the
native routine `MLEM_TOF_Reco`. The model covers that deterministic layer:

- **Voxel layout** (`layout.dfy`, module `VoxelLayout`). A flat voxel
  index `ivox` stands for voxel `(i, j, k)`, with x varying fastest:
  `ivox == i + j*xdim + k*xdim*ydim`. `Unflatten` computes `(i, j, k)` as
  the fill loops do. It is proved to land inside the grid, to be the
  inverse of `Flatten` in both directions, and to be one-to-one and onto.
- **3-D arrays** (`volume.dfy`, module `Volume`). numpy arrays of shape
  `[xdim, ydim, zdim]` are `array3<real>`. `FlattenF` is numpy's
  column-major `flatten('F')`, defined row by row, plane by plane and slab
  by slab. It is proved to put element `(i, j, k)` at
  `i + j*xdim + k*xdim*ydim`, which is the same layout. `FillFromFlat` is
  the in-place loop `for ivox, w in enumerate(buf): img_arr[i,j,k] = w`.
  Afterwards every voxel holds the buffer element at its flat position and
  `FlattenF(img) == buf`. A ghost sequence records the voxel written at each
  step: step `n` writes the voxel at flat position `n`, no voxel is written
  twice, and every voxel is written.
- **Raw checkpoint files** (`rawimage.dfy`, module `RawImage`). The file
  name is `"{prefix}{niter}.raw"`, with Python's decimal formatting of
  `niter`. The content is decoded 4 bytes per voxel value.
- **Output folder** (`folder.dfy`, module `Folder`). The `folder_path`
  loop over `prefix.split('/')[:-1]` is proved to yield the prefix up to and
  including its last `'/'`, or `""` when there is none.
- **The class** (`reconstructor.dfy`, module `Reconstructor`). It covers
  the constructor's defaults, `read_image` and the checks of `reconstruct`.
  The checks run in order: the folder, then the LOR lengths, then the
  sensitivity length. Any failure prevents the library call.

The operating system is a value `Host.FileSystem`: the existing
directories and the files with their bytes. `os.path.exists` and
`os.path.isfile` are predicates on it. Two things are parameters: the
binary32 decoder (`decode`, from a 4-byte chunk to a value) and the
native routine (`lib`, from the arguments of the call to the image it
returns). Printed messages and `sys.exit(1)` appear as results:
`ReadStatus`, and `Outcome.Exited` / `Outcome.NoImage`.

Two behaviours of the source that the model keeps as written:

- `read_image` does not raise on a missing or wrongly sized file. It
  prints a message and returns the all-zero image
  (`mlem/mlem_reconstruct.py:112-117`).
- `reconstruct` returns `None` when the LOR lengths or the sensitivity
  length are wrong (`mlem/mlem_reconstruct.py:163`, `:174`). It exits with
  code 1 when the output folder is missing (`mlem/mlem_reconstruct.py:152-154`).

`os.path.exists("")` is false. So a prefix without `'/'`, the default
`"mlem"` included, makes `reconstruct` exit every time
(`PrefixWithoutSlashExits`). The model keeps this behaviour.

## Model

| member | source | states |
|---|---|---|
| `Host.PathExists` | mlem/mlem_reconstruct.py:152 | `os.path.exists`: `""` never exists, and every directory of the file system exists |
| `Host.IsFile` | mlem/mlem_reconstruct.py:93 | `os.path.isfile`: a path that is a file has content in the file system and also exists; `""` is never a file |
| `VoxelLayout.Flatten` | mlem/mlem_reconstruct.py:14-32 | the x-fastest position `i + j*xdim + k*xdim*ydim` of a voxel of the grid lies inside the flat buffer of `xdim*ydim*zdim` values |
| `VoxelLayout.Unflatten` | mlem/mlem_reconstruct.py:108-110 | the computed `i = ivox % xdim`, `j = (ivox / xdim) % ydim`, `k = ivox / (xdim*ydim)` satisfy `i < xdim`, `j < ydim` and `i + j*xdim + k*xdim*ydim == ivox` |
| `VoxelLayout.UnflattenInGrid` | mlem/mlem_reconstruct.py:107-111 | for every `ivox < xdim*ydim*zdim`, the computed `(i, j, k)` has `i < xdim`, `j < ydim` and `k < zdim` |
| `VoxelLayout.FlattenUnflatten` | mlem/mlem_reconstruct.py:222-226 | the `(i, j, k)` computed from `ivox` satisfies `i + j*xdim + k*xdim*ydim == ivox` |
| `VoxelLayout.UnflattenFlatten` | mlem/mlem_reconstruct.py:14-32 | unflattening `i + j*xdim + k*xdim*ydim` gives back `(i, j, k)` for every voxel of the grid |
| `VoxelLayout.UnflattenInjective` | mlem/mlem_reconstruct.py:107-111 | distinct flat indices of the buffer go to distinct voxels, so no voxel is written twice |
| `VoxelLayout.UnflattenOnto` | mlem/mlem_reconstruct.py:222-226 | every voxel of the grid is reached by some flat index of the buffer, so every voxel is written |
| `VoxelLayout.FlattenInjective` | mlem/mlem_reconstruct.py:14-32 | two voxels of the grid with the same flat position are the same voxel |
| `Volume.FlattenF` | mlem/mlem_reconstruct.py:171 | `flatten('F')` of a `[X, Y, Z]` array has `X*Y*Z` elements, the length the sensitivity check compares |
| `Volume.FlattenFAt` | mlem/mlem_reconstruct.py:171 | column-major flattening puts `s[i,j,k]` at `i + j*X + k*X*Y`, the layout of the voxel buffer |
| `Volume.UnflattenFlattenF` | mlem/mlem_reconstruct.py:171 | element `ivox` of `flatten('F')`, read back through the fill loop's index arithmetic, is the matrix element at the unflattened voxel: flatten then unflatten reproduces the matrix |
| `Volume.FillFromFlat` | mlem/mlem_reconstruct.py:218-226 | after the fill loop, every voxel `img[i,j,k]` holds buffer element `i + j*X + k*X*Y`; the ghost sequence of written voxels has one entry per buffer element, entry `n` is the voxel at flat position `n`, the entries are distinct and cover the grid; the column-major flatten of the image is the buffer |
| `RawImage.NatToDecimal` | mlem/mlem_reconstruct.py:92 | `str(n)` is a non-empty string of decimal digits without a leading zero |
| `RawImage.DecimalRoundTrip` | mlem/mlem_reconstruct.py:92 | reading `str(n)` as a decimal number gives `n` back |
| `RawImage.IntToDecimal` | mlem/mlem_reconstruct.py:92 | `str(n)` is non-empty and starts with `'-'` exactly when `n < 0`; the digits after any sign have no leading zero and read back as `|n|` |
| `RawImage.IntToDecimalInjective` | mlem/mlem_reconstruct.py:92 | different iteration numbers are formatted differently, negative ones included |
| `RawImage.CheckpointPath` | mlem/mlem_reconstruct.py:92 | `"{prefix}{niter}.raw"` starts with the prefix and ends with `".raw"`; what lies between is `str(niter)`, whose meaning `IntToDecimal` states |
| `RawImage.CheckpointPathInjective` | mlem/mlem_reconstruct.py:92 | for one prefix, different iteration numbers name different `.raw` files |
| `RawImage.Unpack` | mlem/mlem_reconstruct.py:104 | unpacking `4n` bytes yields `n` values |
| `RawImage.UnpackAt` | mlem/mlem_reconstruct.py:104 | value `v` of the unpacked file is the decoding of bytes `4v .. 4v+3` |
| `RawImage.ReadOutcome` | mlem/mlem_reconstruct.py:93-115 | the image is loaded exactly when the file exists and holds `nvoxels*4` bytes; "not found" exactly when it is not a file; otherwise the size-mismatch message carries the file's actual length, which differs from `nvoxels*4` |
| `Folder.IndexOf` | mlem/mlem_reconstruct.py:146 | the result is the position of the first occurrence of the separator |
| `Folder.Split` | mlem/mlem_reconstruct.py:146 | `split('/')` yields at least one piece and no piece contains `'/'` |
| `Folder.JoinSplit` | mlem/mlem_reconstruct.py:146 | joining the pieces of `split('/')` with `'/'` gives the prefix back |
| `Folder.DirPrefix` | mlem/mlem_reconstruct.py:146-151 | the folder is a prefix of the file-name prefix, is empty or ends in `'/'`, and no `'/'` follows it: the prefix up to and including its last `'/'` |
| `Folder.TerminatedSplit` | mlem/mlem_reconstruct.py:146-151 | every piece of `prefix.split('/')` but the last, each followed by `'/'`, spells the prefix up to its last `'/'` |
| `Folder.FolderPath` | mlem/mlem_reconstruct.py:146-151 | the `folder_path` loop yields the prefix up to and including its last `'/'`, or `""` when the prefix has no `'/'` |
| `Reconstructor.LengthsAgree` | mlem/mlem_reconstruct.py:157-161 | the LOR check passes exactly when every one of the eight list lengths equals `len(lor_x1)` |
| `Reconstructor.LengthsAgreeIffCommonLength` | mlem/mlem_reconstruct.py:156-163 | comparing the seven other LOR lists with `lor_x1` passes exactly when all eight lists have one common length |
| `Reconstructor.PrefixWithoutSlashExits` | mlem/mlem_reconstruct.py:146-154 | with a prefix that has no `'/'`, the derived folder never exists, so `reconstruct` exits |
| `Reconstructor.FillFromRaw` | mlem/mlem_reconstruct.py:101-110 | after unpacking a file of `X*Y*Z*4` bytes and filling the image, voxel `(i,j,k)` holds the decoding of the 4-byte chunk at `i + j*X + k*X*Y`, and the image's flatten is the decoded file |
| `Reconstructor.MLEMReconstructor.Nvoxels` | mlem/mlem_reconstruct.py:166-168 | `nvoxels = xdim*ydim*zdim` is positive exactly when both voxel counts are positive |
| `Reconstructor.MLEMReconstructor.EmptyGridExpectsEmptyFile` | mlem/mlem_reconstruct.py:100-101 | with a zero voxel count, `nvoxels` is 0, so `read_image` loads exactly an existing empty checkpoint file |
| `Reconstructor.MLEMReconstructor.constructor` | mlem/mlem_reconstruct.py:50-76 | every argument is stored with the source's defaults; `TOF` is `True` whatever is passed; without `smatrix`, a fresh all-ones matrix of shape `[nxy, nxy, nz]` is made, whose flatten has `nvoxels` elements |
| `Reconstructor.MLEMReconstructor.ReadImage` | mlem/mlem_reconstruct.py:78-117 | returns a fresh `[nxy, nxy, nz]` image; when `"{prefix}{niter}.raw"` exists with exactly `nvoxels*4` bytes, voxel `(i,j,k)` holds the decoding of the chunk at `i + j*X + k*X*Y` and the image's flatten is the decoded file; otherwise, whether the file is missing or its length differs, every voxel is 0 |
| `Reconstructor.MLEMReconstructor.Reconstruct` | mlem/mlem_reconstruct.py:119-228 | a missing folder exits with code 1; otherwise unequal LOR lengths return `None`; otherwise a sensitivity flatten of length other than `nvoxels` returns `None`; the library is called exactly when all three checks pass, with the configuration, `TOF`, `ncoinc = len(lor_x1)`, the LORs, `smatrix.flatten('F')`, the prefix and `save_every`; the image then holds returned value `i + j*X + k*X*Y` at `(i,j,k)` |

## Left out

- The reconstruction algorithm itself, including the writing of the checkpoint files, is inside `MLEM_TOF_Reco` in the native library and is not part of this model. Its source is not available. `Reconstruct` takes it as the parameter `lib` and only records the call's arguments.
- Loading the native library (`cdll.LoadLibrary`) is left out. The constructor stores `libpath` only.
- Reconstructor.MLEMReconstructor.Reconstruct: requires `lib` to return at least `nvoxels` values. The source reads `nvoxels` floats from the returned C pointer; reading past a shorter buffer is undefined behaviour in C.
- Reconstructor.RecoCall: records the Python values before conversion. The source converts the LORs and the sensitivity to `c_float` arrays (lines 181-189). It encodes the prefix as UTF-8 (line 190). It passes `niterations`, the voxel counts, `ncoinc` and `save_every` as `c_int`, and `TOF_resolution` and the two sizes as `c_float` (lines 193-197). The floats read back are 32-bit too (line 218). None of these conversions, nor 32-bit overflow of the integers, is modelled: values pass through unchanged as `int`, `real` and `string`.
- Decoding binary32 floats (`struct.unpack_from('f' ...)`, native byte order) is the parameter `decode`. The wrapper only moves the decoded values.
- Printed messages, including the notice about the default sensitivity matrix, are left out. The model keeps only their outcomes: `ReadStatus`, and `Outcome.NoImage` with its reason.
- `sys.exit(1)` is modelled as the result `Outcome.Exited(1, folder)`, not as ending the process.
- The file system is a snapshot taken as input. Opening and reading the file is the lookup `fs.files[path]`. Path normalisation by the operating system is not modelled: a directory is listed under each spelling that exists.
- A sensitivity matrix of rank other than 3 is not modelled. `smatrix` is an `array3<real>`; the source's check compares only the element count.
- Reconstructor.MLEMReconstructor.constructor: types the voxel counts `nat`, so negative counts are not modelled. In the source they are not always rejected early. Without `smatrix`, `np.ones` raises on the negative shape (line 70). With an explicit `smatrix` and `img_nvoxels_xy < 0 < img_nvoxels_z`, `nvoxels` (line 168) is positive. Then the sensitivity check (line 172) can pass, and `MLEM_TOF_Reco` is called with the negative counts (line 202). Only afterwards does `np.zeros` raise (line 215).
- `int(ivox / xdim)` uses float division in the source. It is modelled as integer division, which agrees for the grid sizes used.
