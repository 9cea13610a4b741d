/** The request state word: bits that are ORed into lReqState while a request lives. */
module ReqState {

  type Bits = bv32

  const FREE: Bits := 0
  const ALLOCATED: Bits := 0x1
  const INITIALIZED: Bits := 0x2
  const PREPARE_SUBMITTING: Bits := 0x4
  const SUBMITTING: Bits := 0x8
  const SUBMITTED: Bits := 0x10
  const WAITING_FOR_RESPONSE: Bits := 0x20
  const RESPONSE_RECEIVED: Bits := 0x40
  const FREEING: Bits := 0x800

  /** Everything has happened to the request except its hand-off to the invalidate. */
  const ALL_STATE_DONE: Bits :=
    ALLOCATED | INITIALIZED | PREPARE_SUBMITTING | SUBMITTING | SUBMITTED | WAITING_FOR_RESPONSE | RESPONSE_RECEIVED

  predicate Has(word: Bits, bit: Bits) {
    word & bit != 0
  }
}
