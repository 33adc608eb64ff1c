/** What a controller hands to `res.status(...).json(...)`: a success status
    with its body, or an error status with the message the body carries. */
module Http {

  datatype Reply<+T> = Ok(status: nat, body: T) | Fail(status: nat, message: string)
}
