/**
 * The retry rules, which follow section 8.7 of RFC 9113 (a request the peer provably never processed may be repeated)
 * and section 9.2.2 of RFC 9110 (so may an idempotent one).
 */
module Retry {
  datatype Verb = GET | HEAD | PUT | DELETE | OPTIONS | TRACE | POST | PATCH | CONNECT | Extension(name: string)

  predicate IsIdempotent(m: Verb) {
    m.GET? || m.HEAD? || m.PUT? || m.DELETE? || m.OPTIONS? || m.TRACE?
  }

  predicate MayRetry(committed: bool, provablyUnsent: bool, idempotent: bool, budget: nat) {
    if committed then false
    else if budget == 0 then false
    else provablyUnsent || idempotent
  }
}
