/** The METIS entry points the bindings call, as the bindings see them.
    What METIS computes is not modelled: every routine accepts the
    arguments it is given, records them in a ghost call log together with
    the status code it returns, and may overwrite the output buffers it is
    handed (whose lengths, being arrays, it cannot change). The log is what
    lets the wrappers state exactly which arguments they marshal. */
module Ffi {
  import opened Abi
  import opened Wrappers

  /** `real_t`. Only the lengths of real-valued arrays matter here. */
  type Real = real

  /** The arguments of `METIS_PartGraphRecursive` / `METIS_PartGraphKway`
      after marshalling. `None` is a null pointer; `partLen` is the length
      of the output buffer `part`. */
  datatype GraphArgs = GraphArgs(
    nvtxs: Idx, ncon: Idx, xadj: seq<Idx>, adjncy: seq<Idx>,
    vwgt: Option<seq<Idx>>, vsize: Option<seq<Idx>>, adjwgt: Option<seq<Idx>>,
    nparts: Idx, tpwgts: Option<seq<Real>>, ubvec: Option<seq<Real>>,
    options: seq<Idx>, partLen: nat)

  /** The arguments of `METIS_PartMeshDual` / `METIS_PartMeshNodal` after
      marshalling. `ncommon` is `None` for the nodal routine, which has no
      such parameter. */
  datatype MeshArgs = MeshArgs(
    ne: Idx, nn: Idx, eptr: seq<Idx>, eind: seq<Idx>,
    vwgt: Option<seq<Idx>>, vsize: Option<seq<Idx>>, ncommon: Option<Idx>,
    nparts: Idx, tpwgts: Option<seq<Real>>, options: seq<Idx>,
    epartLen: nat, npartLen: nat)

  /** The arguments of `METIS_MeshToDual` (its two out-pointers aside). */
  datatype DualArgs = DualArgs(
    ne: Idx, nn: Idx, eptr: seq<Idx>, eind: seq<Idx>, ncommon: Idx, numflag: Idx)

  datatype Request =
    | PartGraphRecursive(graph: GraphArgs)
    | PartGraphKway(graph: GraphArgs)
    | PartMeshDual(mesh: MeshArgs)
    | PartMeshNodal(mesh: MeshArgs)
    | MeshToDual(dual: DualArgs)

  /** One completed call: the request, the status code returned and the
      objective value written (left at 0 by `METIS_MeshToDual`). */
  datatype Call = Call(request: Request, status: int, objval: Idx)

  /** The METIS library. */
  class Library {
    /** Every call made so far, oldest first. */
    ghost var log: seq<Call>
    /** The buffers METIS has allocated and that have not been freed. */
    ghost var live: set<array<Idx>>
    /** Every buffer handed to `METIS_Free`, with multiplicity. */
    ghost var freed: multiset<array<Idx>>

    constructor ()
      ensures log == [] && live == {} && freed == multiset{}
    {
      log := [];
      live := {};
      freed := multiset{};
    }

    method PartGraphRecursive(args: GraphArgs, part: array<Idx>) returns (status: int, objval: Idx)
      modifies this`log, part
      ensures log == old(log) + [Call(Request.PartGraphRecursive(args), status, objval)]
    {
      status :| true;
      objval :| true;
      log := log + [Call(Request.PartGraphRecursive(args), status, objval)];
    }

    method PartGraphKway(args: GraphArgs, part: array<Idx>) returns (status: int, objval: Idx)
      modifies this`log, part
      ensures log == old(log) + [Call(Request.PartGraphKway(args), status, objval)]
    {
      status :| true;
      objval :| true;
      log := log + [Call(Request.PartGraphKway(args), status, objval)];
    }

    method PartMeshDual(args: MeshArgs, epart: array<Idx>, npart: array<Idx>) returns (status: int, objval: Idx)
      modifies this`log, epart, npart
      ensures log == old(log) + [Call(Request.PartMeshDual(args), status, objval)]
    {
      status :| true;
      objval :| true;
      log := log + [Call(Request.PartMeshDual(args), status, objval)];
    }

    method PartMeshNodal(args: MeshArgs, epart: array<Idx>, npart: array<Idx>) returns (status: int, objval: Idx)
      modifies this`log, epart, npart
      ensures log == old(log) + [Call(Request.PartMeshNodal(args), status, objval)]
    {
      status :| true;
      objval :| true;
      log := log + [Call(Request.PartMeshNodal(args), status, objval)];
    }

    /** On success METIS allocates the dual graph's two arrays. That they
        have `ne + 1` and `xadj[ne]` entries, with `xadj[ne]` not negative,
        is the assumption the bindings make without checking it. */
    method MeshToDual(args: DualArgs) returns (status: int, xadj: array<Idx>, adjncy: array<Idx>)
      requires 0 <= args.ne
      modifies this`log, this`live
      ensures log == old(log) + [Call(Request.MeshToDual(args), status, 0)]
      ensures status == METIS_OK ==>
        fresh(xadj) && fresh(adjncy) && xadj != adjncy &&
        xadj.Length == args.ne + 1 && 0 <= xadj[args.ne] && adjncy.Length == xadj[args.ne] &&
        live == old(live) + {xadj, adjncy}
      ensures status != METIS_OK ==> live == old(live)
    {
      status :| true;
      var n: nat :| n <= IDX_MAX;
      xadj := new Idx[args.ne + 1](i => if i == args.ne then n else 0);
      adjncy := new Idx[n];
      if status == METIS_OK {
        live := live + {xadj, adjncy};
      }
      log := log + [Call(Request.MeshToDual(args), status, 0)];
    }

    /** `METIS_Free` releases a buffer METIS allocated. */
    method Free(buffer: array<Idx>)
      requires buffer in live
      modifies this`live, this`freed
      ensures live == old(live) - {buffer}
      ensures freed == old(freed) + multiset{buffer}
    {
      live := live - {buffer};
      freed := freed + multiset{buffer};
    }
  }
}
