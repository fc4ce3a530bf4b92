/**
 Token state and its time arithmetic (state.go).

 Times are nanoseconds; 0 stands for Go's zero time, so every clock reading is
 positive.
*/
module Tokens {
  type Time = nat

  const SECOND: nat := 1_000_000_000
  const DAY: nat := 86_400 * SECOND

  // client.go:161
  const TOKEN_EXPIRY_BUFFER: nat := 30 * SECOND

  datatype TokenState = TokenState(
    accessToken: string,
    refreshToken: string,
    idToken: string,
    expiresAt: Time,
    lastAuthAt: Time)
  {
    /** No tokens are held; the timestamps do not matter (state.go:16-18). */
    predicate IsZero() {
      accessToken == "" && refreshToken == "" && idToken == ""
    }
  }

  const ZERO: TokenState := TokenState("", "", "", 0, 0)

  /** The refused generation: the ID token survives, every credential and
      timestamp is dropped (refresh.go:160). */
  function RefusedState(attempted: TokenState): TokenState {
    TokenState("", "", attempted.idToken, 0, 0)
  }

  /** The store demonstrably holds a later-authenticated, different refresh
      token (refresh.go:190-194). */
  predicate Superseded(persisted: TokenState, attempted: TokenState) {
    && persisted.refreshToken != ""
    && persisted.refreshToken != attempted.refreshToken
    && attempted.lastAuthAt < persisted.lastAuthAt
  }

  /** The access token still has more than the safety buffer to live. */
  predicate Fresh(state: TokenState, now: Time) {
    now < state.expiresAt - TOKEN_EXPIRY_BUFFER
  }

  /** The offline grace window, measured from the last authentication, is open. */
  predicate InGrace(state: TokenState, grace: nat, now: Time) {
    grace > 0 && state.lastAuthAt != 0 && now < state.lastAuthAt + grace
  }
}
