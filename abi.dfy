/** The integer width and the numeric constants of the METIS C interface.
    The vendored build compiles METIS with a 32-bit `idx_t`, so `Idx` is a
    signed 32-bit integer. The constants are the values of METIS's own
    `metis.h` enumerations (status codes, option slots, option values); the
    Rust bindings refer to them only by name. */
module Abi {

  const IDX_MIN: int := -0x8000_0000
  const IDX_MAX: int := 0x7FFF_FFFF

  /** `idx_t` with `IDXTYPEWIDTH == 32`. */
  type Idx = x: int | IDX_MIN <= x <= IDX_MAX

  /** `Idx::try_from(len)` for a slice length succeeds exactly when the
      length is at most `Idx::MAX`. */
  predicate FitsIdx(n: nat) {
    n <= IDX_MAX
  }

  /** Two's-complement wrap-around of a mathematical integer to 32 bits:
      what an `i32` multiplication yields in a release build. */
  function Wrap32(x: int): (r: Idx)
    ensures (r - x) % 0x1_0000_0000 == 0
    ensures IDX_MIN <= x <= IDX_MAX ==> r == x
  {
    (x - IDX_MIN) % 0x1_0000_0000 + IDX_MIN
  }

  /** `METIS_NOPTIONS`: the length of every options array. */
  const NOPTIONS: nat := 40

  // rstatus_et
  const METIS_OK: int := 1
  const METIS_ERROR_INPUT: int := -2
  const METIS_ERROR_MEMORY: int := -3
  const METIS_ERROR: int := -4

  // moptions_et: the slot of each option in the options array
  const OPTION_PTYPE: nat := 0
  const OPTION_OBJTYPE: nat := 1
  const OPTION_CTYPE: nat := 2
  const OPTION_IPTYPE: nat := 3
  const OPTION_RTYPE: nat := 4
  const OPTION_DBGLVL: nat := 5
  const OPTION_NITER: nat := 7
  const OPTION_NCUTS: nat := 8
  const OPTION_SEED: nat := 9
  const OPTION_MINCONN: nat := 11
  const OPTION_CONTIG: nat := 12
  const OPTION_COMPRESS: nat := 13
  const OPTION_CCORDER: nat := 14
  const OPTION_PFACTOR: nat := 15
  const OPTION_NSEPS: nat := 16
  const OPTION_UFACTOR: nat := 17
  const OPTION_NUMBERING: nat := 18
  const OPTION_NO2HOP: nat := 20

  // mptype_et
  const PTYPE_RB: Idx := 0
  const PTYPE_KWAY: Idx := 1

  // mobjtype_et
  const OBJTYPE_CUT: Idx := 0
  const OBJTYPE_VOL: Idx := 1

  // mctype_et
  const CTYPE_RM: Idx := 0
  const CTYPE_SHEM: Idx := 1

  // miptype_et
  const IPTYPE_GROW: Idx := 0
  const IPTYPE_RANDOM: Idx := 1
  const IPTYPE_EDGE: Idx := 2
  const IPTYPE_NODE: Idx := 3

  // mrtype_et
  const RTYPE_FM: Idx := 0
  const RTYPE_GREEDY: Idx := 1
  const RTYPE_SEP2SIDED: Idx := 2
  const RTYPE_SEP1SIDED: Idx := 3
}
