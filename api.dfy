/**
 * The backend as the screens see it. Every awaited call to the hosted API either
 * delivers a payload or fails; a non-success status, a network error and an
 * unreadable body all reach the calling code as the same failure.
 */
module Api {
  datatype Response<T> = Ok(payload: T) | Failed
}
