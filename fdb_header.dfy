/** Types, constants and the result record declared in rgw_fdb.h. */
module FdbHeader {

  /** C `uint64_t`. */
  newtype uint64 = x: int | 0 <= x < 0x1_0000_0000_0000_0000

  /** `fdb_error_t`, a C `int`; 0 means success, anything else is a store error code. */
  newtype ErrorCode = x: int | -0x8000_0000 <= x < 0x8000_0000

  /** Default retry limit of `run`: the largest `uint64_t`. */
  const MAX_RETEY: uint64 := 0xffff_ffff_ffff_ffff

  /** Default timeout of `run`, in milliseconds. */
  const MAX_TIMEOUT: uint64 := 5 * 1000

  /** The outcome of `run`: the error code and the store's message for it. */
  datatype RunResult = RunResult(errCode: ErrorCode, errMsg: string)

  /** The `RunResult(fdb_error_t)` constructor. `getError` stands for the store's
      `fdb_get_error`, whose text is foreign to this model. */
  function NewRunResult(err: ErrorCode, getError: ErrorCode -> string): (r: RunResult)
    ensures r.errCode == err
    ensures r.errMsg == getError(r.errCode)
  {
    RunResult(err, getError(err))
  }

  /** The default arguments of `run`: retry limit 2^64 - 1 and timeout 5000 ms. */
  lemma DefaultLimits()
    ensures MAX_RETEY as int == 0x1_0000_0000_0000_0000 - 1
    ensures MAX_TIMEOUT as int == 5000
  {
  }
}
