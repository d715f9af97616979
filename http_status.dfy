/** The HTTP status codes the CRUD layer puts into its envelopes
    (the values of the `http-status` package it uses). */
module HttpStatus {
  const OK := 200
  const BAD_REQUEST := 400
  const NOT_FOUND := 404
  const CONFLICT := 409
  const INTERNAL_SERVER_ERROR := 500
}
