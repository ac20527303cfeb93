/** The HTTP status codes the backend answers with (axum's `StatusCode`). */
module HttpStatus {
  const OK: nat := 200
  const BAD_REQUEST: nat := 400
  const UNAUTHORIZED: nat := 401
  const INTERNAL_SERVER_ERROR: nat := 500
}
