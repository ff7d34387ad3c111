# metis-rs safety layer, modelled in Dafny

The `metis` crate gives Rust callers safe bindings to METIS, the graph and
mesh partitioner. Its safe layer does four things, and this project models
each of them:

- **Graph and mesh builders.** `Graph` and `Mesh` hold borrowed arrays and an options
  array. They check array lengths when they are built and when each optional
  array is set.
- **Partitioning calls.** `part_recursive`, `part_kway`, `part_dual` and
  `part_nodal` marshal the builder into one METIS call each. They return the
  edge-cut only when METIS reports success.
- **Status codes.** `wrap` turns METIS status codes into `Result`, and panics
  on a code METIS does not define.
- **Dual graph.** `mesh_to_dual` hands back a `Dual` that owns the two arrays
  METIS allocated. Dropping the `Dual` frees each of them once.

The fine-tuning options of `src/option.rs` are one closed datatype `Opt`. Each
option has a slot (`Index`, the Rust `Opt::INDEX`) and an encoding (`Value`,
the Rust `Opt::value`). The debug-level option is built by nine conditional
`|=` steps. That happens in `DbgLvlValue`, which is proved against a bitwise
specification.

Files:

- `abi.dfy` (module `Abi`):
  - the 32-bit `Idx`;
  - `Idx::try_from` for lengths;
  - 32-bit wrap-around;
  - the numeric constants of METIS's C interface.
- `bits.dfy` (module `Bits`):
  - bitwise OR on naturals;
  - its bit-by-bit meaning.
- `wrappers.dfy` (module `Wrappers`): `Option`.
- `option.dfy` (module `Options`): `src/option.rs`.
- `ffi.dfy` (module `Ffi`):
  - the METIS routines as the bindings see them;
  - they accept their arguments, record them in a ghost call log with the
    status they return, may overwrite their output buffers, and track which
    buffers METIS allocated and freed.
- `lib.dfy` (module `Metis`): `src/lib.rs`.

How the Rust code becomes Dafny:

- A panic on a caller's mistake becomes a `requires`. These are the length
  assertions and the `try_from(...).expect(...)` calls.
- The panic on an unknown status code becomes an explicit `Panic(code)`
  outcome, because no caller can prevent it.
- The builders take `self` by value and return it. Here they are classes
  whose setters update the object in place.
- The borrowed input slices are immutable sequences. The fixed-size options
  array is an `array<Idx>`.

## Model

| member | source | states |
|---|---|---|
| `Metis.Wrap` | src/lib.rs:69-79 | `METIS_OK` is the only success. The three METIS error codes, and only they, give an `Error`. Every other code panics, carrying that code. |
| `Metis.WrapInvertsStatus` | src/lib.rs:72-76 | `wrap` gives error `e` exactly for the status code METIS uses for `e`. |
| `Metis.Try` | src/lib.rs:395-411 | `status.wrap()?; Ok(edgecut)`: the edge-cut comes back only on `METIS_OK`. Otherwise the outcome is `wrap`'s failure or panic. |
| `Metis.TryIgnoresValueOnFailure` | src/lib.rs:395-411 | On a failed call the uninitialised edge-cut is never read. |
| `Metis.GraphShapeCounts` | src/lib.rs:170-181 | An accepted graph has a vertex count `xadj.len() - 1` and an edge count `xadj.last()` that lie in `Idx` and are not negative. |
| `Metis.MalformedGraphsRefused` | src/lib.rs:176-181 | These graphs are refused: an empty `xadj`, an `adjncy` that disagrees with `xadj.last()`, and `ncon = 0`. |
| `Metis.DocGraphAccepted` | src/lib.rs:321-331 | The two-vertex documentation graph passes every assertion of `Graph::new`. |
| `Metis.DemoGraphAccepted` | examples/graph.rs:4-24 | The 15-vertex example graph passes `Graph::new` (`xadj` ends in 44 = `adjncy.len()`). Its 15-entry `part` buffer has the length `part_recursive` demands. |
| `Metis.PerConstraintLenAsWritten` | src/lib.rs:200-205 | The length `set_vwgt` and `set_tpwgts` check as written: `ncon` times the row count computed in `Idx`. It equals the true product modulo `2^32`, and equals the product itself whenever that product is representable. |
| `Metis.VwgtCheckAdmitsShortBuffer` | src/lib.rs:200-205 | With `ncon = 3` and `2^31 - 2` vertices (an `xadj` that `Graph::new` accepts), the wrapped product is `2^31 - 6`, which is less than the `3 * (2^31 - 2)` weights METIS reads. |
| `Metis.TpwgtsCheckAdmitsShortBuffer` | src/lib.rs:245-250 | With `ncon = 3` and `nparts = 2^31 - 1`, the wrapped product is `2^31 - 3`, which is less than the true product. |
| `Metis.PerConstraintLayout` | src/lib.rs:194-250 | Under the corrected check, index `k` lies in the buffer iff its row `k / ncon` is one of the vertices (for `vwgt`) or parts (for `tpwgts`). So each entry `r * ncon + c` of each row `r` and constraint `c` is inside the buffer, and nothing else is. |
| `Metis.LengthChecksAgreeWithoutOverflow` | src/lib.rs:200-250 | Without overflow, the checks as written and the corrected ones agree. |
| `Metis.DefaultOptions` | src/lib.rs:189 | A fresh options array has `NOPTIONS` slots, all -1. |
| `Metis.WithOption` | src/lib.rs:333-339 | `options[O::INDEX] = option.value()`: that slot holds the value and every other slot is unchanged. |
| `Metis.OptionReadBack` | src/lib.rs:333-339 | Decoding the slot after `set_option(o)` gives back `o`. |
| `Metis.OptionsOfDifferentKindsCommute` | src/lib.rs:333-339 | Options of different types can be set in either order. |
| `Metis.LastOptionOfAKindWins` | src/lib.rs:333-339 | Of two options of one type, the one set last wins. |
| `Metis.Graph.constructor` | src/lib.rs:170-190 | Requires the assertions of `Graph::new`. Stores `ncon`, `nparts`, `xadj` and `adjncy` as given. Every optional array is absent and every option slot is -1. |
| `Metis.Graph.SetVwgt` | src/lib.rs:200-205 | Requires exactly `ncon * (xadj.len() - 1)` weights. Sets `vwgt` and leaves every other field unchanged. |
| `Metis.Graph.SetVsize` | src/lib.rs:215-220 | Requires exactly `xadj.len() - 1` sizes. Sets `vsize` only. |
| `Metis.Graph.SetAdjwgt` | src/lib.rs:230-235 | Requires exactly `xadj.last()` edge weights. Sets `adjwgt` only. |
| `Metis.Graph.SetTpwgts` | src/lib.rs:245-250 | Requires exactly `ncon * nparts` target weights. Sets `tpwgts` only. |
| `Metis.Graph.SetUbvec` | src/lib.rs:259-264 | Requires exactly `ncon` tolerances. Sets `ubvec` only. |
| `Metis.Graph.SetOptions` | src/lib.rs:301-304 | Every slot becomes the given array's. |
| `Metis.Graph.SetOption` | src/lib.rs:333-339 | The options become `WithOption(old options, o)`. |
| `Metis.Graph.PartRecursive` | src/lib.rs:352-412 | Requires `part.len() == xadj.len() - 1`. Makes exactly one `METIS_PartGraphRecursive` call, with `xadj.len() - 1` vertices, the builder's fields, `None` (null) for every absent array and the options. Returns `Try(status, edgecut)`. |
| `Metis.Graph.PartKway` | src/lib.rs:425-485 | The same for `METIS_PartGraphKway`. |
| `Metis.Mesh.constructor` | src/lib.rs:550-569 | Requires the assertions of `Mesh::new`. Stores the arguments with `ncommon == 1`. No optional arrays are set and every option slot is -1. |
| `Metis.Mesh.SetVwgt` | src/lib.rs:579-584 | Requires one weight per element. Sets `vwgt` only. |
| `Metis.Mesh.SetVsize` | src/lib.rs:594-599 | Requires one size per element. Sets `vsize` only. |
| `Metis.Mesh.SetTpwgts` | src/lib.rs:608-613 | Requires one target weight per part. Sets `tpwgts` only. |
| `Metis.Mesh.SetOptions` | src/lib.rs:627-630 | Every slot becomes the given array's. |
| `Metis.Mesh.SetOption` | src/lib.rs:644-650 | The options become `WithOption(old options, o)`. |
| `Metis.Mesh.PartDual` | src/lib.rs:663-716 | Requires `epart.len() == eptr.len() - 1` and `npart.len() == nn`. Makes one `METIS_PartMeshDual` call with `ncommon == 1`, then returns `Try(status, edgecut)`. |
| `Metis.Mesh.PartNodal` | src/lib.rs:731-782 | The same buffer requirements. Makes one `METIS_PartMeshNodal` call that passes no `ncommon`, then returns `Try(status, edgecut)`. |
| `Metis.Dual.Xadj` | src/lib.rs:796-798 | Only before `drop`: the whole `xadj` buffer, entry for entry. |
| `Metis.Dual.Adjncy` | src/lib.rs:801-803 | Only before `drop`: the whole `adjncy` buffer, entry for entry. |
| `Metis.Dual.AsMut` | src/lib.rs:806-808 | Only before `drop`: both buffers, and they are distinct. |
| `Metis.Dual.Drop` | src/lib.rs:811-818 | Each of the two buffers is handed to `METIS_Free` exactly once and is no longer live. |
| `Metis.MeshToDual` | src/lib.rs:828-862 | Requires a non-empty `eptr` whose length fits `Idx`. Makes one `METIS_MeshToDual` call with `eptr.len() - 1` elements, and its status decides the outcome as `wrap` does. On success, a fresh `Dual` owns two fresh, distinct buffers of `eptr.len()` and `xadj[ne]` entries. Exactly those two buffers are added to the live set, so earlier handles stay droppable. Otherwise nothing is allocated. |
| `Options.Value` | src/option.rs:37-419 | The five enumerations map to the `metis.h` constants, all in [0, 3]. `Numbering` maps C to 0 and Fortran to 1. The five switches map to 1 when on and 0 when off. The six integer options pass through unchanged, negative values included. A debug level maps to `DbgLvlSpec`, below 512. |
| `Options.Index` | src/option.rs:17-25 | Each option type has one slot, inside the `NOPTIONS`-entry array. |
| `Options.SlotIdentifiesKind` | src/option.rs:37-348 | Two options share a slot iff they are of the same type: the `INDEX` constants are pairwise distinct. |
| `Options.EncodingRoundTrip` | src/option.rs:37-348 | Every option decodes back from its own slot and value: the enum variants, bools as 0/1, `Numbering` C as 0 and Fortran as 1, integers passed through, and debug levels. |
| `Options.ValueInjective` | src/option.rs:37-419 | Two options of one type encode equal iff they are equal, so no two settings collide. |
| `Options.Encode` | src/option.rs:17-25 | `Opt::value`, computed by a method (the debug level by its loop of ORs), equals `Value`. |
| `Options.DbgLvlValue` | src/option.rs:389-419 | The nine conditional steps that OR `2^k` into `dbglvl`, run in order from 0, produce `DbgLvlSpec(d)`. |
| `Options.OrIn` | src/option.rs:391-417 | One step, OR-ing `2^k` into `dbglvl` when flag `k` is set, extends the value over flags `0..k` to flags `0..k+1`. |
| `Options.DbgLvlSpec` | src/option.rs:389-419 | The debug level lies in `[0, 511]`. |
| `Options.BitOfDbgLvl` | src/option.rs:389-419 | Bit `i` of the debug level is set iff flag `i` is. `info` is bit 0 and `contig_info` bit 8, and no bit above 8 is ever set. |
| `Options.BitOfPartial` | src/option.rs:389-419 | After the first `k` steps, exactly the bits of the set flags below `k` are set. |
| `Options.PartialBound` | src/option.rs:389-419 | After the first `k` steps, the value is below `2^k`. |
| `Options.DbgLvlExtremes` | src/option.rs:389-419 | The value is 0 iff no flag is set, and 511 iff all nine are. |
| `Options.DbgLvlRoundTrip` | src/option.rs:389-419 | The flags can be read back from the value, so each flag controls its own bit and no other. |
| `Bits.BitOfOr` | src/option.rs:391-417 | A bit of `Or(a, b)` is set iff it is set in `a` or in `b`. |
| `Bits.OrHighBit` | src/option.rs:391-417 | OR-ing in a bit above every set bit is an addition. |
| `Bits.BitOfPow2` | src/option.rs:391-417 | `2^k` has bit `k` and no other. |

## Left out

- METIS itself is not modelled. The partitions, edge-cuts and dual graphs it
  computes are arbitrary values here. The status codes it returns are
  arbitrary too.
- Whether METIS writes to its input arrays is not modelled. It takes them
  through non-`const` pointers, but here they are immutable sequences.
- Real contents (`tpwgts`, `ubvec`) are not modelled. Only their lengths
  matter, and floating point is not modelled.
- The numeric values of the METIS constants come from METIS 5's `metis.h`.
  `metis.h` is not part of this model. These constants are the status codes,
  `METIS_NOPTIONS = 40`, the option slots and the option values. The proved
  properties use only that they are pairwise distinct where they must be
  and that every slot is below `NOPTIONS`.
- Three things are trusted rather than checked:
  - `METIS_MeshToDual` allocates `xadj` with `ne + 1` entries;
  - its last entry is not negative;
  - `adjncy` has that many entries.

  The Rust code trusts the same facts without checking them (src/lib.rs:842-843).
  They appear as the postcondition of `Ffi.Library.MeshToDual`.
- The `unsafe` pointer marshalling, `MaybeUninit`, lifetimes, `Debug`,
  `Display` and `std::error::Error` are not modelled. Neither are
  src/sprs.rs, the build script and the `metis-sys` bindings.
- The code does not do several things, and neither does the model:
  - it does not validate the CSR arrays beyond the length checks;
  - it has no shortcut for `nparts == 1`;
  - it does not force the numbering option;
  - it takes `nn` from the caller rather than deriving it;
  - it gives no way to change `ncommon` from 1 on a `Mesh`;
  - `mesh_to_dual` passes the caller's `ncommon` and `numflag` through unchanged.
- `part_recursive`, `part_kway`, `part_dual` and `part_nodal` take the
  builder by value (src/lib.rs:352, 425, 663, 731), so Rust allows one
  partitioning per builder. The model does not capture that consumption.
  `Metis.Graph` and `Metis.Mesh` stay usable after a call, so the model
  allows a builder to be partitioned more than once.
- `Metis.Graph.SetVwgt` and `Metis.Graph.SetTpwgts` check the exact product,
  as a build with overflow checks does, where an overflowing product panics.
  The check as written, which wraps in a release build, is modelled apart
  (see Findings).
- `Mesh::new` reports an invalid `nparts` with the message about `nn`
  (src/lib.rs:552). Panic messages are not modelled.
- `Options.DbgLvlValue` performs its nine steps as calls of
  `Options.OrIn`, one per Rust `if`, in the same order and with the same
  constants.

## Findings

| source | as written | input that shows it | evidently intended | confidence | as-written member | corrected member |
|---|---|---|---|---|---|---|
| src/lib.rs:202 | `assert_eq!(vwgt_len, self.ncon * (self.xadj.len() as Idx - 1))` multiplies in `Idx`, so the product wraps around in a release build | `ncon = 3` and `xadj` of length `2^31 - 1` (accepted by `Graph::new`): the product wraps to `2^31 - 6`, so a `vwgt` of `2^31 - 6` entries is accepted although METIS reads `3 * (2^31 - 2)` | the length is exactly `ncon` times the number of vertices, computed without overflow | not executed | `Metis.VwgtCheckAdmitsShortBuffer` | `Metis.PerConstraintLayout` |
| src/lib.rs:247 | `assert_eq!(tpwgts_len, self.ncon * self.nparts)` multiplies in `Idx` | `ncon = 3`, `nparts = 2^31 - 1`: the product wraps to `2^31 - 3`, and a `tpwgts` of that length is accepted although METIS reads `3 * (2^31 - 1)` | the length is exactly `ncon * nparts`, computed without overflow | not executed | `Metis.TpwgtsCheckAdmitsShortBuffer` | `Metis.PerConstraintLayout` |
