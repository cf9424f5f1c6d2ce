/** The part of the Fetch API's `Response` the services look at. */
module Http {
  /** `Response.ok`: the status is in the range 200 to 299. */
  predicate IsOk(status: int) {
    200 <= status <= 299
  }
}
