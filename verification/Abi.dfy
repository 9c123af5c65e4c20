/** The frozen numbers of the C interface and the few value types every component shares. */
module Abi {
  type Byte = b: int | 0 <= b < 256

  datatype Option<+T> = None | Some(value: T)

  const STATUS_OK := 0
  const STATUS_ALREADY_DONE := -21
  const STATUS_NOT_PAUSED := -22

  const ERR_NONE := 0
  const ERR_CONNECT := 2
  const ERR_PROTOCOL := 8
  const ERR_TIMEOUT := 9
  const ERR_IDLE_TIMEOUT := 10
  const ERR_CANCELLED := 11
  const ERR_TRUNCATED := 12
  const ERR_OUTCOME_UNKNOWN := 13

  const HEADERS_CANCEL := 2
  const CHUNK_CONTINUE := 0
  const CHUNK_PAUSE := 1
  const CHUNK_CANCEL := 2
}
