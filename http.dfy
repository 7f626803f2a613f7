/**
  The shape of an HTTP answer as the handlers build it.
 */
module Http {

  /** The status code and the `message` of the JSON body. */
  datatype Reply = Reply(status: int, message: string)

  /** A handler's decision before it writes: the value it goes on with, or
      the answer it returns early. */
  datatype Outcome<T> = Ok(value: T) | Fail(reply: Reply)

  /** The answer of a handler's `catch` block. */
  const InternalError: Reply := Reply(500, "Internal Server Error")
}
