/** The fine-tuning options of METIS (src/option.rs). The sealed set of
    Rust option types becomes one closed datatype `Opt`; each variant has a
    fixed slot (`Index`, the Rust `Opt::INDEX`) in the options array and an
    encoding (`Value`, the Rust `Opt::value`). */
module Options {
  import opened Abi
  import opened Bits
  import opened Wrappers

  /** Partitioning method. */
  datatype PType = Rb | Kway

  /** Objective. */
  datatype ObjType = Cut | Vol

  /** Matching scheme used during coarsening. */
  datatype CType = Rm | Shem

  /** Initial partitioning algorithm. */
  datatype IpType = Grow | Random | Edge | Node

  /** Refinement algorithm. */
  datatype RType = Fm | Greedy | Sep2Sided | Sep1Sided

  /** Numbering scheme of the adjacency / element-node arrays. */
  datatype Numbering = C | Fortran

  /** The nine independent debug flags of `DbgLvl`. */
  datatype DbgLvl = DbgLvl(
    info: bool, time: bool, coarsen: bool, refine: bool, ipart: bool,
    moveInfo: bool, sepInfo: bool, connInfo: bool, contigInfo: bool)

  /** One option together with its value. Integer options keep the wrapped
      `Idx` as it is: a negative value asks METIS for its default. */
  datatype Opt =
    | PartitionMethod(ptype: PType)
    | Objective(objtype: ObjType)
    | Coarsening(ctype: CType)
    | InitialPartitioning(iptype: IpType)
    | Refinement(rtype: RType)
    | NCuts(ncuts: Idx)
    | NSeps(nseps: Idx)
    | NumberingScheme(numbering: Numbering)
    | NIter(niter: Idx)
    | Seed(seed: Idx)
    | MinConn(minconn: bool)
    | No2Hop(no2hop: bool)
    | Contig(contig: bool)
    | Compress(compress: bool)
    | CCOrder(ccorder: bool)
    | PFactor(pfactor: Idx)
    | UFactor(ufactor: Idx)
    | DebugLevel(dbglvl: DbgLvl)

  /** `Opt::INDEX`: the slot an option is written to. */
  function Index(o: Opt): (i: nat)
    ensures i < NOPTIONS
  {
    match o
    case PartitionMethod(_) => OPTION_PTYPE
    case Objective(_) => OPTION_OBJTYPE
    case Coarsening(_) => OPTION_CTYPE
    case InitialPartitioning(_) => OPTION_IPTYPE
    case Refinement(_) => OPTION_RTYPE
    case NCuts(_) => OPTION_NCUTS
    case NSeps(_) => OPTION_NSEPS
    case NumberingScheme(_) => OPTION_NUMBERING
    case NIter(_) => OPTION_NITER
    case Seed(_) => OPTION_SEED
    case MinConn(_) => OPTION_MINCONN
    case No2Hop(_) => OPTION_NO2HOP
    case Contig(_) => OPTION_CONTIG
    case Compress(_) => OPTION_COMPRESS
    case CCOrder(_) => OPTION_CCORDER
    case PFactor(_) => OPTION_PFACTOR
    case UFactor(_) => OPTION_UFACTOR
    case DebugLevel(_) => OPTION_DBGLVL
  }

  function BoolValue(b: bool): Idx {
    if b then 1 else 0
  }

  /** Debug flag `i`: `info` is bit 0, `time` bit 1, ..., `contigInfo`
      bit 8; there is no flag above bit 8. */
  function Flag(d: DbgLvl, i: nat): bool {
    if i == 0 then d.info
    else if i == 1 then d.time
    else if i == 2 then d.coarsen
    else if i == 3 then d.refine
    else if i == 4 then d.ipart
    else if i == 5 then d.moveInfo
    else if i == 6 then d.sepInfo
    else if i == 7 then d.connInfo
    else if i == 8 then d.contigInfo
    else false
  }

  const NoDebug := DbgLvl(false, false, false, false, false, false, false, false, false)
  const FullDebug := DbgLvl(true, true, true, true, true, true, true, true, true)

  /** The value `DbgLvl::value` holds once it has dealt with the flags
      `0 .. k - 1`: each of them that is set has been OR-ed in as `2^j`. */
  function Partial(d: DbgLvl, k: nat): nat {
    if k == 0 then 0
    else if Flag(d, k - 1) then Or(Partial(d, k - 1), Pow2(k - 1))
    else Partial(d, k - 1)
  }

  /** The flags `0 .. k - 1` only reach the bits below bit `k`. */
  lemma {:induction false} PartialBound(d: DbgLvl, k: nat)
    ensures Partial(d, k) < Pow2(k)
  {
    if k > 0 {
      PartialBound(d, k - 1);
      if Flag(d, k - 1) {
        OrHighBit(Partial(d, k - 1), k - 1);
      }
    }
  }

  /** Bit `i` of the value after `k` steps is flag `i` when `i < k`, and
      clear otherwise. */
  lemma {:induction false} BitOfPartial(d: DbgLvl, k: nat, i: nat)
    ensures Bit(Partial(d, k), i) == (i < k && Flag(d, i))
  {
    if k == 0 {
      ZeroHasNoBits(i);
    } else {
      BitOfPartial(d, k - 1, i);
      if Flag(d, k - 1) {
        BitOfOr(Partial(d, k - 1), Pow2(k - 1), i);
        BitOfPow2(k - 1, i);
      }
    }
  }

  /** The value `DbgLvl::value` computes: all nine flags OR-ed in. */
  function DbgLvlSpec(d: DbgLvl): (v: nat)
    ensures v < 512
  {
    PartialBound(d, 9);
    Partial(d, 9)
  }

  /** Each flag controls exactly its own bit of the debug level, whatever
      the other flags are, and every bit above bit 8 is clear. */
  lemma BitOfDbgLvl(d: DbgLvl, i: nat)
    ensures Bit(DbgLvlSpec(d), i) == Flag(d, i)
  {
    BitOfPartial(d, 9, i);
  }

  lemma {:induction false} NoFlagsPartial(k: nat)
    ensures Partial(NoDebug, k) == 0
  {
    if k > 0 {
      NoFlagsPartial(k - 1);
    }
  }

  lemma AllFlagsValue()
    ensures DbgLvlSpec(FullDebug) == 511
  {
    assert Partial(FullDebug, 1) == 1;
    assert Partial(FullDebug, 2) == 3;
    assert Partial(FullDebug, 3) == 7;
    assert Partial(FullDebug, 4) == 15;
    assert Partial(FullDebug, 5) == 31;
    assert Partial(FullDebug, 6) == 63;
    assert Partial(FullDebug, 7) == 127;
    assert Partial(FullDebug, 8) == 255;
  }

  /** All flags clear give 0, all flags set give 511, and no other
      combination gives either. */
  lemma DbgLvlExtremes(d: DbgLvl)
    ensures DbgLvlSpec(d) == 0 <==> d == NoDebug
    ensures DbgLvlSpec(d) == 511 <==> d == FullDebug
  {
    DbgLvlRoundTrip(d);
    NoFlagsPartial(9);
    AllFlagsValue();
    assert DecodeDbgLvl(0) == NoDebug;
    assert DecodeDbgLvl(511) == FullDebug;
  }

  /** `Opt::value`: the integer written into the option's slot. Every
      enumeration and the numbering scheme map to a small constant, the
      switches to 0 or 1, the integer options pass through unchanged
      (negative values, which ask for METIS's default, included), and the
      debug level to the OR of its flags' bits. */
  function Value(o: Opt): (v: Idx)
    ensures (o.PartitionMethod? || o.Objective? || o.Coarsening? ||
             o.InitialPartitioning? || o.Refinement?) ==> 0 <= v <= 3
    ensures o.NumberingScheme? ==> (v == 0 <==> o.numbering == C) && (v == 1 <==> o.numbering == Fortran)
    ensures o.MinConn? ==> (v == 1 <==> o.minconn) && (v == 0 <==> !o.minconn)
    ensures o.No2Hop? ==> (v == 1 <==> o.no2hop) && (v == 0 <==> !o.no2hop)
    ensures o.Contig? ==> (v == 1 <==> o.contig) && (v == 0 <==> !o.contig)
    ensures o.Compress? ==> (v == 1 <==> o.compress) && (v == 0 <==> !o.compress)
    ensures o.CCOrder? ==> (v == 1 <==> o.ccorder) && (v == 0 <==> !o.ccorder)
    ensures o.NCuts? ==> v == o.ncuts
    ensures o.NSeps? ==> v == o.nseps
    ensures o.NIter? ==> v == o.niter
    ensures o.Seed? ==> v == o.seed
    ensures o.PFactor? ==> v == o.pfactor
    ensures o.UFactor? ==> v == o.ufactor
    ensures o.DebugLevel? ==> v == DbgLvlSpec(o.dbglvl) && 0 <= v < 512
  {
    match o
    case PartitionMethod(p) =>
      (match p case Rb => PTYPE_RB case Kway => PTYPE_KWAY)
    case Objective(t) =>
      (match t case Cut => OBJTYPE_CUT case Vol => OBJTYPE_VOL)
    case Coarsening(c) =>
      (match c case Rm => CTYPE_RM case Shem => CTYPE_SHEM)
    case InitialPartitioning(t) =>
      (match t
       case Grow => IPTYPE_GROW
       case Random => IPTYPE_RANDOM
       case Edge => IPTYPE_EDGE
       case Node => IPTYPE_NODE)
    case Refinement(r) =>
      (match r
       case Fm => RTYPE_FM
       case Greedy => RTYPE_GREEDY
       case Sep2Sided => RTYPE_SEP2SIDED
       case Sep1Sided => RTYPE_SEP1SIDED)
    case NCuts(x) => x
    case NSeps(x) => x
    case NumberingScheme(n) => (match n case C => 0 case Fortran => 1)
    case NIter(x) => x
    case Seed(x) => x
    case MinConn(b) => BoolValue(b)
    case No2Hop(b) => BoolValue(b)
    case Contig(b) => BoolValue(b)
    case Compress(b) => BoolValue(b)
    case CCOrder(b) => BoolValue(b)
    case PFactor(x) => x
    case UFactor(x) => x
    case DebugLevel(d) => DbgLvlSpec(d)
  }

  /** One of the nine statements of `DbgLvl::value`: when debug flag `k`
      of `d` is set, OR `bit` (that is `2^k`) into the value. */
  method OrIn(acc: nat, bit: nat, d: DbgLvl, k: nat) returns (r: nat)
    requires bit == Pow2(k)
    requires acc == Partial(d, k)
    ensures r == Partial(d, k + 1)
  {
    r := acc;
    if Flag(d, k) {
      r := Or(r, bit);
    }
  }

  /** `DbgLvl::value`: starts from 0 and ORs in 1, 2, 4, ..., 256 for the
      flags `info` ... `contigInfo` that are set. */
  method DbgLvlValue(d: DbgLvl) returns (v: Idx)
    ensures v == DbgLvlSpec(d)
  {
    var dbglvl: nat := 0;
    dbglvl := OrIn(dbglvl, 1, d, 0);   // info
    dbglvl := OrIn(dbglvl, 2, d, 1);   // time
    dbglvl := OrIn(dbglvl, 4, d, 2);   // coarsen
    dbglvl := OrIn(dbglvl, 8, d, 3);   // refine
    dbglvl := OrIn(dbglvl, 16, d, 4);   // ipart
    dbglvl := OrIn(dbglvl, 32, d, 5);   // moveInfo
    dbglvl := OrIn(dbglvl, 64, d, 6);   // sepInfo
    dbglvl := OrIn(dbglvl, 128, d, 7);   // connInfo
    dbglvl := OrIn(dbglvl, 256, d, 8);   // contigInfo
    PartialBound(d, 9);
    v := dbglvl;
  }

  /** The value `set_option` writes: `Value`, computed by `DbgLvlValue` for
      the debug level. */
  method Encode(o: Opt) returns (v: Idx)
    ensures v == Value(o)
  {
    match o {
      case DebugLevel(d) =>
        v := DbgLvlValue(d);
      case _ =>
        v := Value(o);
    }
  }

  // ---------------------------------------------------------------------
  // Decoding: the reading METIS gives to an (slot, value) pair.

  function DecodeDbgLvl(v: nat): DbgLvl {
    DbgLvl(Bit(v, 0), Bit(v, 1), Bit(v, 2), Bit(v, 3), Bit(v, 4),
           Bit(v, 5), Bit(v, 6), Bit(v, 7), Bit(v, 8))
  }

  /** Reads back the option stored as `v` in slot `slot`; `None` when the
      slot is not one the Rust layer writes or `v` is not a value it
      writes there. */
  function Decode(slot: nat, v: Idx): Option<Opt> {
    if slot == OPTION_PTYPE then
      if v == PTYPE_RB then Some(PartitionMethod(Rb))
      else if v == PTYPE_KWAY then Some(PartitionMethod(Kway)) else None
    else if slot == OPTION_OBJTYPE then
      if v == OBJTYPE_CUT then Some(Objective(Cut))
      else if v == OBJTYPE_VOL then Some(Objective(Vol)) else None
    else if slot == OPTION_CTYPE then
      if v == CTYPE_RM then Some(Coarsening(Rm))
      else if v == CTYPE_SHEM then Some(Coarsening(Shem)) else None
    else if slot == OPTION_IPTYPE then
      if v == IPTYPE_GROW then Some(InitialPartitioning(Grow))
      else if v == IPTYPE_RANDOM then Some(InitialPartitioning(Random))
      else if v == IPTYPE_EDGE then Some(InitialPartitioning(Edge))
      else if v == IPTYPE_NODE then Some(InitialPartitioning(Node)) else None
    else if slot == OPTION_RTYPE then
      if v == RTYPE_FM then Some(Refinement(Fm))
      else if v == RTYPE_GREEDY then Some(Refinement(Greedy))
      else if v == RTYPE_SEP2SIDED then Some(Refinement(Sep2Sided))
      else if v == RTYPE_SEP1SIDED then Some(Refinement(Sep1Sided)) else None
    else if slot == OPTION_NCUTS then Some(NCuts(v))
    else if slot == OPTION_NSEPS then Some(NSeps(v))
    else if slot == OPTION_NUMBERING then
      if v == 0 then Some(NumberingScheme(C))
      else if v == 1 then Some(NumberingScheme(Fortran)) else None
    else if slot == OPTION_NITER then Some(NIter(v))
    else if slot == OPTION_SEED then Some(Seed(v))
    else if slot == OPTION_MINCONN then DecodeBool(v, MinConn(false), MinConn(true))
    else if slot == OPTION_NO2HOP then DecodeBool(v, No2Hop(false), No2Hop(true))
    else if slot == OPTION_CONTIG then DecodeBool(v, Contig(false), Contig(true))
    else if slot == OPTION_COMPRESS then DecodeBool(v, Compress(false), Compress(true))
    else if slot == OPTION_CCORDER then DecodeBool(v, CCOrder(false), CCOrder(true))
    else if slot == OPTION_PFACTOR then Some(PFactor(v))
    else if slot == OPTION_UFACTOR then Some(UFactor(v))
    else if slot == OPTION_DBGLVL then
      if 0 <= v < 512 then Some(DebugLevel(DecodeDbgLvl(v))) else None
    else None
  }

  function DecodeBool(v: Idx, off: Opt, on: Opt): Option<Opt> {
    if v == 0 then Some(off) else if v == 1 then Some(on) else None
  }

  // ---------------------------------------------------------------------
  // Properties of the encoding.

  /** The debug level is read back flag for flag. */
  lemma DbgLvlRoundTrip(d: DbgLvl)
    ensures DecodeDbgLvl(DbgLvlSpec(d)) == d
  {
    BitOfDbgLvl(d, 0); BitOfDbgLvl(d, 1); BitOfDbgLvl(d, 2);
    BitOfDbgLvl(d, 3); BitOfDbgLvl(d, 4); BitOfDbgLvl(d, 5);
    BitOfDbgLvl(d, 6); BitOfDbgLvl(d, 7); BitOfDbgLvl(d, 8);
  }

  /** Every option is recovered from its slot and its encoded value, so no
      two options that differ write the same value into the same slot. */
  lemma {:induction false} EncodingRoundTrip(o: Opt)
    ensures Decode(Index(o), Value(o)) == Some(o)
  {
    match o {
      case DebugLevel(d) => DbgLvlRoundTrip(d);
      case _ =>
    }
  }

  /** Within one slot, distinct options are encoded as distinct values; in
      particular each enum option maps its variants to pairwise distinct
      constants. */
  lemma ValueInjective(a: Opt, b: Opt)
    requires Index(a) == Index(b)
    ensures Value(a) == Value(b) <==> a == b
  {
    EncodingRoundTrip(a);
    EncodingRoundTrip(b);
  }

  /** The option with the same kind as `o` and a fixed payload. */
  function Canonical(o: Opt): Opt {
    match o
    case PartitionMethod(_) => PartitionMethod(Rb)
    case Objective(_) => Objective(Cut)
    case Coarsening(_) => Coarsening(Rm)
    case InitialPartitioning(_) => InitialPartitioning(Grow)
    case Refinement(_) => Refinement(Fm)
    case NCuts(_) => NCuts(0)
    case NSeps(_) => NSeps(0)
    case NumberingScheme(_) => NumberingScheme(C)
    case NIter(_) => NIter(0)
    case Seed(_) => Seed(0)
    case MinConn(_) => MinConn(false)
    case No2Hop(_) => No2Hop(false)
    case Contig(_) => Contig(false)
    case Compress(_) => Compress(false)
    case CCOrder(_) => CCOrder(false)
    case PFactor(_) => PFactor(0)
    case UFactor(_) => UFactor(0)
    case DebugLevel(_) => DebugLevel(DbgLvl(false, false, false, false, false, false, false, false, false))
  }

  /** Two options share a slot exactly when they are the same kind of
      option: the slot is fixed per kind, and no kind writes into the slot
      of another. */
  lemma SlotIdentifiesKind(a: Opt, b: Opt)
    ensures Index(a) == Index(b) <==> Canonical(a) == Canonical(b)
  {
  }
}
