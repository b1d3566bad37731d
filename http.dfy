/** Values exchanged between the Express handlers and the client. */
module Http {

  /** A JSON object with string fields: error bodies, decoded token claims,
      the reducer's `user` object. */
  type JsonObject = map<string, string>

  /** What a handler sends: a body with status 200, or an error status with
      the JSON error object (`res.status(code).json(errors)`). */
  datatype Reply<T> = Ok(body: T) | Err(status: nat, errors: JsonObject)
}
