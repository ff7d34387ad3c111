/** The safe layer of the `metis` crate (src/lib.rs): the mapping of METIS
    status codes to `Result`, the `Graph` and `Mesh` builders that check
    array lengths before anything reaches METIS, the four partitioning
    calls, and `mesh_to_dual` with the `Dual` handle that owns the two
    arrays METIS allocates. Every panic the Rust code raises on a caller's
    mistake is a precondition here; the panic on a status code METIS does
    not define is an outcome, since no caller can prevent it. */
module Metis {
  import opened Abi
  import opened Wrappers
  import opened Options
  import opened Ffi

  // ---------------------------------------------------------------------
  // Status codes

  /** `Error`. */
  datatype Error = Input | Memory | Other

  /** What a call into the bindings comes to: a value, an `Error`, or the
      panic `wrap` raises on a status code that is not one of METIS's. */
  datatype Outcome<T> = Success(value: T) | Failure(error: Error) | Panic(code: int)

  /** `ErrorCode::wrap`: `METIS_OK` is the only success, each of the three
      error codes has its own error, and every other code panics. */
  function Wrap(code: int): (r: Outcome<()>)
    ensures r.Success? <==> code == METIS_OK
    ensures r.Failure? <==> code in {METIS_ERROR_INPUT, METIS_ERROR_MEMORY, METIS_ERROR}
    ensures r.Panic? ==> r.code == code
  {
    if code == METIS_OK then Success(())
    else if code == METIS_ERROR_INPUT then Failure(Input)
    else if code == METIS_ERROR_MEMORY then Failure(Memory)
    else if code == METIS_ERROR then Failure(Other)
    else Panic(code)
  }

  /** The status code METIS reports each error with. */
  function StatusOf(e: Error): int {
    match e
    case Input => METIS_ERROR_INPUT
    case Memory => METIS_ERROR_MEMORY
    case Other => METIS_ERROR
  }

  /** `wrap` decodes exactly the code METIS uses for each error, and no
      other code yields that error. */
  lemma WrapInvertsStatus(code: int, e: Error)
    ensures Wrap(code) == Failure(e) <==> code == StatusOf(e)
  {
  }

  /** Drops the value of an outcome, keeping whether and how it failed. */
  function DropValue<T>(r: Outcome<T>): Outcome<()> {
    match r
    case Success(_) => Success(())
    case Failure(e) => Failure(e)
    case Panic(c) => Panic(c)
  }

  /** `status.wrap()?; Ok(v)`: `v` when METIS reported success, and the
      failure or panic of `wrap` otherwise. */
  function Try<T>(status: int, v: T): (r: Outcome<T>)
    ensures DropValue(r) == Wrap(status)
    ensures r.Success? ==> r.value == v
  {
    match Wrap(status)
    case Success(_) => Success(v)
    case Failure(e) => Failure(e)
    case Panic(c) => Panic(c)
  }

  /** The value written by a failed call is never looked at. */
  lemma TryIgnoresValueOnFailure<T>(status: int, v: T, w: T)
    requires status != METIS_OK
    ensures Try(status, v) == Try(status, w)
  {
  }

  function Last<T>(s: seq<T>): T
    requires |s| > 0
  {
    s[|s| - 1]
  }

  // ---------------------------------------------------------------------
  // Array shapes

  /** The assertions of `Graph::new`: at least one constraint and one part,
      a non-empty `xadj` whose last entry is the length of `adjncy`, and
      both lengths representable as `Idx`. */
  predicate GraphShape(ncon: int, nparts: int, xadj: seq<Idx>, adjncy: seq<Idx>) {
    0 < ncon && 0 < nparts &&
    FitsIdx(|xadj|) && |xadj| != 0 &&
    FitsIdx(|adjncy|) && |adjncy| == xadj[|xadj| - 1]
  }

  /** The assertions of `Mesh::new`, in the same form for `eptr` / `eind`. */
  predicate MeshShape(nn: int, nparts: int, eptr: seq<Idx>, eind: seq<Idx>) {
    0 < nn && 0 < nparts &&
    FitsIdx(|eptr|) && |eptr| != 0 &&
    FitsIdx(|eind|) && |eind| == eptr[|eptr| - 1]
  }

  /** In an accepted graph, the vertex count `xadj.len() - 1` and the
      edge-array length `xadj.last()` are representable and not negative,
      so the casts the builder makes do not wrap. */
  lemma GraphShapeCounts(ncon: int, nparts: int, xadj: seq<Idx>, adjncy: seq<Idx>)
    requires GraphShape(ncon, nparts, xadj, adjncy)
    ensures 0 <= |xadj| - 1 < IDX_MAX
    ensures 0 <= xadj[|xadj| - 1] <= IDX_MAX
  {
  }

  /** The two-vertex, one-edge graph of the crate's documentation. */
  lemma DocGraphAccepted()
    ensures GraphShape(1, 2, [0, 1, 2], [1, 0])
  {
  }

  /** The 15-vertex grid partitioned by examples/graph.rs. */
  const DemoXadj: seq<Idx> := [0, 2, 5, 8, 11, 13, 16, 20, 24, 28, 31, 33, 36, 39, 42, 44]
  const DemoAdjncy: seq<Idx> :=
    [1, 5, 0, 2, 6, 1, 3, 7, 2, 4, 8, 3, 9, 0, 6, 10, 1, 5, 7, 11, 2, 6,
     8, 12, 3, 7, 9, 13, 4, 8, 14, 5, 11, 6, 10, 12, 7, 11, 13, 8, 12, 14,
     9, 13]

  /** The example graph passes `Graph::new` (its `xadj` ends in 44, the
      length of `adjncy`), and its 15-entry `part` buffer is the one
      `part_recursive` demands. */
  lemma DemoGraphAccepted()
    ensures GraphShape(1, 2, DemoXadj, DemoAdjncy)
    ensures |DemoXadj| - 1 == 15
  {
  }

  /** An empty `xadj`, or an `adjncy` one entry short, is refused. */
  lemma MalformedGraphsRefused()
    ensures !GraphShape(1, 2, [], [])
    ensures !GraphShape(1, 2, [0, 1, 2], [1])
    ensures !GraphShape(0, 2, [0, 1, 2], [1, 0])
  {
  }

  // ---------------------------------------------------------------------
  // Lengths of the per-constraint arrays, and the overflow in checking them

  /** The length `set_vwgt` (`ncon * nvtxs`) and `set_tpwgts`
      (`ncon * nparts`) check, as written: the product is computed in `Idx`
      and wraps around in a build without overflow checks. */
  function PerConstraintLenAsWritten(ncon: Idx, count: Idx): (n: Idx)
    ensures (n - ncon * count) % 0x1_0000_0000 == 0
    ensures IDX_MIN <= ncon * count <= IDX_MAX ==> n == ncon * count
  {
    Wrap32(ncon * count)
  }

  /** The number of entries METIS reads from `vwgt` (one row of `ncon`
      per vertex) and from `tpwgts` (one row of `ncon` per part). */
  function PerConstraintLen(ncon: nat, count: nat): nat {
    ncon * count
  }

  /** With `ncon = 3` and `2^31 - 2` vertices (an `xadj` of `2^31 - 1`
      entries, which `Graph::new` accepts), the wrapped product is
      `2^31 - 6`: `set_vwgt` accepts a buffer of that length although METIS
      reads `3 * (2^31 - 2)` weights from it. */
  lemma VwgtCheckAdmitsShortBuffer()
    ensures GraphShape(3, 1, seq(0x7FFF_FFFF, i => 0), [])
    ensures PerConstraintLenAsWritten(3, 0x7FFF_FFFE) == 0x7FFF_FFFA
    ensures PerConstraintLenAsWritten(3, 0x7FFF_FFFE) < PerConstraintLen(3, 0x7FFF_FFFE)
  {
  }

  /** With `ncon = 3` and `nparts = 2^31 - 1`, `set_tpwgts` accepts
      `2^31 - 3` target weights although METIS reads `3 * (2^31 - 1)`. */
  lemma TpwgtsCheckAdmitsShortBuffer()
    ensures PerConstraintLenAsWritten(3, 0x7FFF_FFFF) == 0x7FFF_FFFD
    ensures PerConstraintLenAsWritten(3, 0x7FFF_FFFF) < PerConstraintLen(3, 0x7FFF_FFFF)
  {
  }

  /** The corrected check fits the layout METIS reads: constraint `c` of
      row `r` (a vertex, or a part) is entry `r * ncon + c`, and with
      exactly `ncon * count` entries index `k` is in the buffer exactly when
      its row `k / ncon` is one of the `count` rows. */
  lemma {:induction false} PerConstraintLayout(ncon: nat, count: nat, k: nat)
    ensures k < PerConstraintLen(ncon, count) <==> 0 < ncon && k / ncon < count
  {
    if 0 < ncon {
      if k < ncon * count {
        assert (k / ncon) * ncon <= k;
        if k / ncon >= count {
          MulMono(count, k / ncon, ncon);
        }
      } else {
        assert k == (k / ncon) * ncon + k % ncon;
        if k / ncon < count {
          MulMono(k / ncon + 1, count, ncon);
        }
      }
    }
  }

  lemma MulMono(a: nat, b: nat, c: nat)
    requires a <= b
    ensures a * c <= b * c
  {
  }

  /** Where the product is representable the check as written and the
      corrected one agree; they differ only past `Idx::MAX`. */
  lemma LengthChecksAgreeWithoutOverflow(ncon: Idx, count: Idx)
    requires 0 < ncon && 0 <= count && ncon * count <= IDX_MAX
    ensures PerConstraintLenAsWritten(ncon, count) == PerConstraintLen(ncon, count)
  {
  }

  // ---------------------------------------------------------------------
  // Options arrays

  /** Every slot at -1: METIS's default for every option. */
  function DefaultOptions(): (s: seq<Idx>)
    ensures |s| == NOPTIONS && forall i :: 0 <= i < NOPTIONS ==> s[i] == -1
  {
    seq(NOPTIONS, _ => -1)
  }

  /** An options array after `set_option(o)`: slot `Index(o)` holds
      `Value(o)` and no other slot changes. */
  function WithOption(opts: seq<Idx>, o: Opt): (r: seq<Idx>)
    requires |opts| == NOPTIONS
    ensures |r| == NOPTIONS && r[Index(o)] == Value(o)
    ensures forall i :: 0 <= i < NOPTIONS && i != Index(o) ==> r[i] == opts[i]
  {
    opts[Index(o) := Value(o)]
  }

  /** After `set_option(o)`, METIS reads option `o` back from its slot. */
  lemma OptionReadBack(opts: seq<Idx>, o: Opt)
    requires |opts| == NOPTIONS
    ensures Decode(Index(o), WithOption(opts, o)[Index(o)]) == Some(o)
  {
    EncodingRoundTrip(o);
  }

  /** Options of different kinds can be set in either order. */
  lemma OptionsOfDifferentKindsCommute(opts: seq<Idx>, a: Opt, b: Opt)
    requires |opts| == NOPTIONS && Canonical(a) != Canonical(b)
    ensures WithOption(WithOption(opts, a), b) == WithOption(WithOption(opts, b), a)
  {
    SlotIdentifiesKind(a, b);
  }

  /** Of two options of the same kind, the one set last wins. */
  lemma LastOptionOfAKindWins(opts: seq<Idx>, a: Opt, b: Opt)
    requires |opts| == NOPTIONS && Canonical(a) == Canonical(b)
    ensures WithOption(WithOption(opts, a), b) == WithOption(opts, b)
  {
    SlotIdentifiesKind(a, b);
  }

  // ---------------------------------------------------------------------
  // Graph

  /** `Graph`: the builder for `METIS_PartGraphRecursive` and
      `METIS_PartGraphKway`. The borrowed CSR arrays cannot change while the
      builder holds them, so they are values; the options are the builder's
      own fixed-size array. */
  class Graph {
    const ncon: Idx
    const nparts: Idx
    const xadj: seq<Idx>
    const adjncy: seq<Idx>
    var vwgt: Option<seq<Idx>>
    var vsize: Option<seq<Idx>>
    var adjwgt: Option<seq<Idx>>
    var tpwgts: Option<seq<Real>>
    var ubvec: Option<seq<Real>>
    const options: array<Idx>

    /** The number of vertices, `xadj.len() - 1`. */
    function Nvtxs(): int {
      |xadj| - 1
    }

    /** What `Graph::new` and the setters guarantee by panicking otherwise:
        the CSR shape, and the length each optional array has once set. */
    ghost predicate Valid()
      reads this
    {
      GraphShape(ncon, nparts, xadj, adjncy) && options.Length == NOPTIONS &&
      (vwgt.Some? ==> |vwgt.value| == PerConstraintLen(ncon, Nvtxs())) &&
      (vsize.Some? ==> |vsize.value| == Nvtxs()) &&
      (adjwgt.Some? ==> |adjwgt.value| == |adjncy|) &&
      (tpwgts.Some? ==> |tpwgts.value| == PerConstraintLen(ncon, nparts)) &&
      (ubvec.Some? ==> |ubvec.value| == ncon)
    }

    /** `Graph::new`. */
    constructor (ncon: Idx, nparts: Idx, xadj: seq<Idx>, adjncy: seq<Idx>)
      requires GraphShape(ncon, nparts, xadj, adjncy)
      ensures this.ncon == ncon && this.nparts == nparts
      ensures this.xadj == xadj && this.adjncy == adjncy
      ensures vwgt == None && vsize == None && adjwgt == None
      ensures tpwgts == None && ubvec == None
      ensures fresh(options) && options[..] == DefaultOptions()
      ensures Valid()
    {
      this.ncon := ncon;
      this.nparts := nparts;
      this.xadj := xadj;
      this.adjncy := adjncy;
      vwgt := None;
      vsize := None;
      adjwgt := None;
      tpwgts := None;
      ubvec := None;
      options := new Idx[NOPTIONS](_ => -1);
    }

    /** `Graph::set_vwgt`, with the length check done without overflow. */
    method SetVwgt(w: seq<Idx>)
      requires Valid()
      requires FitsIdx(|w|) && |w| == PerConstraintLen(ncon, Nvtxs())
      modifies this
      ensures vwgt == Some(w)
      ensures vsize == old(vsize) && adjwgt == old(adjwgt)
      ensures tpwgts == old(tpwgts) && ubvec == old(ubvec)
      ensures Valid()
    {
      vwgt := Some(w);
    }

    /** `Graph::set_vsize`. */
    method SetVsize(w: seq<Idx>)
      requires Valid()
      requires FitsIdx(|w|) && |w| == Nvtxs()
      modifies this
      ensures vsize == Some(w)
      ensures vwgt == old(vwgt) && adjwgt == old(adjwgt)
      ensures tpwgts == old(tpwgts) && ubvec == old(ubvec)
      ensures Valid()
    {
      vsize := Some(w);
    }

    /** `Graph::set_adjwgt`: one weight per entry of `adjncy`. */
    method SetAdjwgt(w: seq<Idx>)
      requires Valid()
      requires FitsIdx(|w|) && |w| == xadj[|xadj| - 1]
      modifies this
      ensures adjwgt == Some(w)
      ensures vwgt == old(vwgt) && vsize == old(vsize)
      ensures tpwgts == old(tpwgts) && ubvec == old(ubvec)
      ensures Valid()
    {
      adjwgt := Some(w);
    }

    /** `Graph::set_tpwgts`, with the length check done without overflow. */
    method SetTpwgts(w: seq<Real>)
      requires Valid()
      requires FitsIdx(|w|) && |w| == PerConstraintLen(ncon, nparts)
      modifies this
      ensures tpwgts == Some(w)
      ensures vwgt == old(vwgt) && vsize == old(vsize)
      ensures adjwgt == old(adjwgt) && ubvec == old(ubvec)
      ensures Valid()
    {
      tpwgts := Some(w);
    }

    /** `Graph::set_ubvec`: one tolerance per constraint. */
    method SetUbvec(w: seq<Real>)
      requires Valid()
      requires FitsIdx(|w|) && |w| == ncon
      modifies this
      ensures ubvec == Some(w)
      ensures vwgt == old(vwgt) && vsize == old(vsize)
      ensures adjwgt == old(adjwgt) && tpwgts == old(tpwgts)
      ensures Valid()
    {
      ubvec := Some(w);
    }

    /** `Graph::set_options`: `copy_from_slice` of a whole options array. */
    method SetOptions(opts: array<Idx>)
      requires Valid() && opts.Length == NOPTIONS && opts != options
      modifies options
      ensures options[..] == opts[..]
    {
      forall i | 0 <= i < NOPTIONS {
        options[i] := opts[i];
      }
    }

    /** `Graph::set_option`: `options[O::INDEX] = option.value()`. */
    method SetOption(o: Opt)
      requires Valid()
      modifies options
      ensures options[..] == WithOption(old(options[..]), o)
    {
      var v := Encode(o);
      options[Index(o)] := v;
    }

    /** The arguments both partitioning calls pass: `xadj.len() - 1` as the
        vertex count, the builder's fields as they are, and a null pointer
        (`None`) for every optional array that was not set. */
    function Args(partLen: nat): GraphArgs
      requires Valid()
      reads this, options
    {
      GraphArgs(Nvtxs(), ncon, xadj, adjncy, vwgt, vsize, adjwgt,
                nparts, tpwgts, ubvec, options[..], partLen)
    }

    /** `Graph::part_recursive`: one call of `METIS_PartGraphRecursive`,
        whose edge-cut is returned only when the status is `METIS_OK`. */
    method PartRecursive(lib: Library, part: array<Idx>) returns (r: Outcome<Idx>)
      requires Valid()
      requires FitsIdx(part.Length) && part.Length == Nvtxs()
      requires part != options
      modifies lib`log, part
      ensures |lib.log| > 0 && lib.log == old(lib.log) + [Last(lib.log)]
      ensures Last(lib.log).request == PartGraphRecursive(Args(part.Length))
      ensures r == Try(Last(lib.log).status, Last(lib.log).objval)
    {
      var status, edgecut := lib.PartGraphRecursive(Args(part.Length), part);
      r := Try(status, edgecut);
    }

    /** `Graph::part_kway`: one call of `METIS_PartGraphKway`. */
    method PartKway(lib: Library, part: array<Idx>) returns (r: Outcome<Idx>)
      requires Valid()
      requires FitsIdx(part.Length) && part.Length == Nvtxs()
      requires part != options
      modifies lib`log, part
      ensures |lib.log| > 0 && lib.log == old(lib.log) + [Last(lib.log)]
      ensures Last(lib.log).request == PartGraphKway(Args(part.Length))
      ensures r == Try(Last(lib.log).status, Last(lib.log).objval)
    {
      var status, edgecut := lib.PartGraphKway(Args(part.Length), part);
      r := Try(status, edgecut);
    }
  }

  // ---------------------------------------------------------------------
  // Mesh

  /** `Mesh`: the builder for `METIS_PartMeshDual` and
      `METIS_PartMeshNodal`. `ncommon` is fixed at 1: no method changes it. */
  class Mesh {
    const nn: Idx
    const nparts: Idx
    const ncommon: Idx
    const eptr: seq<Idx>
    const eind: seq<Idx>
    var vwgt: Option<seq<Idx>>
    var vsize: Option<seq<Idx>>
    var tpwgts: Option<seq<Real>>
    const options: array<Idx>

    /** The number of elements, `eptr.len() - 1`. */
    function Ne(): int {
      |eptr| - 1
    }

    ghost predicate Valid()
      reads this
    {
      MeshShape(nn, nparts, eptr, eind) && ncommon == 1 && options.Length == NOPTIONS &&
      (vwgt.Some? ==> |vwgt.value| == Ne()) &&
      (vsize.Some? ==> |vsize.value| == Ne()) &&
      (tpwgts.Some? ==> |tpwgts.value| == nparts)
    }

    /** `Mesh::new`. */
    constructor (nn: Idx, nparts: Idx, eptr: seq<Idx>, eind: seq<Idx>)
      requires MeshShape(nn, nparts, eptr, eind)
      ensures this.nn == nn && this.nparts == nparts && ncommon == 1
      ensures this.eptr == eptr && this.eind == eind
      ensures vwgt == None && vsize == None && tpwgts == None
      ensures fresh(options) && options[..] == DefaultOptions()
      ensures Valid()
    {
      this.nn := nn;
      this.nparts := nparts;
      ncommon := 1;
      this.eptr := eptr;
      this.eind := eind;
      vwgt := None;
      vsize := None;
      tpwgts := None;
      options := new Idx[NOPTIONS](_ => -1);
    }

    /** `Mesh::set_vwgt`: one weight per element. */
    method SetVwgt(w: seq<Idx>)
      requires Valid()
      requires FitsIdx(|w|) && |w| == Ne()
      modifies this
      ensures vwgt == Some(w)
      ensures vsize == old(vsize) && tpwgts == old(tpwgts)
      ensures Valid()
    {
      vwgt := Some(w);
    }

    /** `Mesh::set_vsize`: one size per element. */
    method SetVsize(w: seq<Idx>)
      requires Valid()
      requires FitsIdx(|w|) && |w| == Ne()
      modifies this
      ensures vsize == Some(w)
      ensures vwgt == old(vwgt) && tpwgts == old(tpwgts)
      ensures Valid()
    {
      vsize := Some(w);
    }

    /** `Mesh::set_tpwgts`: one target weight per part. */
    method SetTpwgts(w: seq<Real>)
      requires Valid()
      requires FitsIdx(|w|) && |w| == nparts
      modifies this
      ensures tpwgts == Some(w)
      ensures vwgt == old(vwgt) && vsize == old(vsize)
      ensures Valid()
    {
      tpwgts := Some(w);
    }

    /** `Mesh::set_options`. */
    method SetOptions(opts: array<Idx>)
      requires Valid() && opts.Length == NOPTIONS && opts != options
      modifies options
      ensures options[..] == opts[..]
    {
      forall i | 0 <= i < NOPTIONS {
        options[i] := opts[i];
      }
    }

    /** `Mesh::set_option`. */
    method SetOption(o: Opt)
      requires Valid()
      modifies options
      ensures options[..] == WithOption(old(options[..]), o)
    {
      var v := Encode(o);
      options[Index(o)] := v;
    }

    /** The arguments of both mesh partitioning calls; `ncommon` is passed
        only to the dual-graph routine. */
    function Args(withNcommon: bool, epartLen: nat, npartLen: nat): MeshArgs
      requires Valid()
      reads this, options
    {
      MeshArgs(Ne(), nn, eptr, eind, vwgt, vsize,
               if withNcommon then Some(ncommon) else None,
               nparts, tpwgts, options[..], epartLen, npartLen)
    }

    /** `Mesh::part_dual`: one call of `METIS_PartMeshDual`, with
        `ncommon == 1`. */
    method PartDual(lib: Library, epart: array<Idx>, npart: array<Idx>) returns (r: Outcome<Idx>)
      requires Valid()
      requires FitsIdx(epart.Length) && epart.Length == Ne()
      requires FitsIdx(npart.Length) && npart.Length == nn
      requires epart != options && npart != options
      modifies lib`log, epart, npart
      ensures |lib.log| > 0 && lib.log == old(lib.log) + [Last(lib.log)]
      ensures Last(lib.log).request == PartMeshDual(Args(true, epart.Length, npart.Length))
      ensures Last(lib.log).request.mesh.ncommon == Some(1)
      ensures r == Try(Last(lib.log).status, Last(lib.log).objval)
    {
      var status, edgecut := lib.PartMeshDual(Args(true, epart.Length, npart.Length), epart, npart);
      r := Try(status, edgecut);
    }

    /** `Mesh::part_nodal`: one call of `METIS_PartMeshNodal`, which takes
        no `ncommon`. */
    method PartNodal(lib: Library, epart: array<Idx>, npart: array<Idx>) returns (r: Outcome<Idx>)
      requires Valid()
      requires FitsIdx(epart.Length) && epart.Length == Ne()
      requires FitsIdx(npart.Length) && npart.Length == nn
      requires epart != options && npart != options
      modifies lib`log, epart, npart
      ensures |lib.log| > 0 && lib.log == old(lib.log) + [Last(lib.log)]
      ensures Last(lib.log).request == PartMeshNodal(Args(false, epart.Length, npart.Length))
      ensures Last(lib.log).request.mesh.ncommon == None
      ensures r == Try(Last(lib.log).status, Last(lib.log).objval)
    {
      var status, edgecut := lib.PartMeshNodal(Args(false, epart.Length, npart.Length), epart, npart);
      r := Try(status, edgecut);
    }
  }

  // ---------------------------------------------------------------------
  // Dual graph

  /** `Dual`: the owner of the two arrays `METIS_MeshToDual` allocated. */
  class Dual {
    const xadj: array<Idx>
    const adjncy: array<Idx>
    /** The library that allocated the arrays and must free them. */
    const lib: Library
    /** Whether `drop` has run. */
    var dropped: bool

    /** Two distinct arrays, both still allocated until `drop`. */
    ghost predicate Valid()
      reads this, lib
    {
      xadj != adjncy && 1 <= xadj.Length &&
      (!dropped ==> xadj in lib.live && adjncy in lib.live)
    }

    constructor (xadj: array<Idx>, adjncy: array<Idx>, lib: Library)
      requires xadj != adjncy && 1 <= xadj.Length
      requires xadj in lib.live && adjncy in lib.live
      ensures this.xadj == xadj && this.adjncy == adjncy && this.lib == lib
      ensures !dropped && Valid()
    {
      this.xadj := xadj;
      this.adjncy := adjncy;
      this.lib := lib;
      dropped := false;
    }

    /** `Dual::xadj`: the adjacency index array, over the whole buffer. */
    function Xadj(): (s: seq<Idx>)
      requires !dropped
      reads this, xadj
      ensures |s| == xadj.Length && forall i :: 0 <= i < |s| ==> s[i] == xadj[i]
    {
      xadj[..]
    }

    /** `Dual::adjncy`: the adjacency array, over the whole buffer. */
    function Adjncy(): (s: seq<Idx>)
      requires !dropped
      reads this, adjncy
      ensures |s| == adjncy.Length && forall i :: 0 <= i < |s| ==> s[i] == adjncy[i]
    {
      adjncy[..]
    }

    /** `Dual::as_mut`: both buffers, for the caller to write into. */
    method AsMut() returns (x: array<Idx>, a: array<Idx>)
      requires Valid() && !dropped
      ensures x == xadj && a == adjncy && x != a
    {
      x, a := xadj, adjncy;
    }

    /** `Drop for Dual`: frees each of the two buffers exactly once. */
    method Drop()
      requires Valid() && !dropped
      modifies this, lib`live, lib`freed
      ensures dropped
      ensures lib.live == old(lib.live) - {xadj, adjncy}
      ensures lib.freed == old(lib.freed) + multiset{xadj, adjncy}
      ensures lib.freed[xadj] == old(lib.freed)[xadj] + 1
      ensures lib.freed[adjncy] == old(lib.freed)[adjncy] + 1
    {
      lib.Free(xadj);
      lib.Free(adjncy);
      dropped := true;
    }
  }

  /** `mesh_to_dual`: one call of `METIS_MeshToDual` with `eptr.len() - 1`
      elements; on `METIS_OK` a `Dual` owning the two new arrays, with
      `eptr.len()` offsets and `xadj[ne]` neighbours, and otherwise the
      failure or panic of `wrap` and no allocation. */
  method MeshToDual(lib: Library, nn: Idx, eptr: seq<Idx>, eind: seq<Idx>, ncommon: Idx, numflag: Idx)
    returns (r: Outcome<Dual>)
    requires FitsIdx(|eptr|) && |eptr| != 0
    modifies lib`log, lib`live
    ensures |lib.log| > 0 && lib.log == old(lib.log) + [Last(lib.log)]
    ensures Last(lib.log).request == Request.MeshToDual(DualArgs(|eptr| - 1, nn, eptr, eind, ncommon, numflag))
    ensures DropValue(r) == Wrap(Last(lib.log).status)
    ensures r.Success? ==>
      fresh(r.value) && fresh(r.value.xadj) && fresh(r.value.adjncy) &&
      r.value.lib == lib && r.value.Valid() && !r.value.dropped &&
      lib.live == old(lib.live) + {r.value.xadj, r.value.adjncy} &&
      r.value.xadj.Length == |eptr| && r.value.adjncy.Length == r.value.xadj[|eptr| - 1]
    ensures !r.Success? ==> lib.live == old(lib.live)
  {
    var ne: Idx := |eptr| - 1;
    var status, xadj, adjncy := lib.MeshToDual(DualArgs(ne, nn, eptr, eind, ncommon, numflag));
    match Wrap(status) {
      case Success(_) =>
        var dual := new Dual(xadj, adjncy, lib);
        r := Success(dual);
      case Failure(e) =>
        r := Failure(e);
      case Panic(c) =>
        r := Panic(c);
    }
  }
}
