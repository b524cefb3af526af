/**
 * The RPCError record: the failure value that every short-circuit of a procedure carries.
 * Its fields are set once, when it is constructed, and never change afterwards.
 */
module Errors {
  import opened Wrappers

  /** The constructor's options object; `cause` may be of any type and is accepted but not kept. */
  datatype RpcErrorOptions<C> = RpcErrorOptions(
    code: string,
    status: Option<int>,
    message: Option<string>,
    cause: Option<C>)

  /**
   * An RPCError instance: `error` is the code, `status` the optional HTTP status, `message` the
   * message of the underlying Error (the empty string when none was given) and `name` the class name.
   */
  datatype RpcError = RpcError(error: string, status: Option<int>, message: string, name: string)

  /** The class name that `this.constructor.name` yields. */
  const ClassName := "RPCError"

  /** `new RPCError(opts)`. */
  function NewRpcError<C>(opts: RpcErrorOptions<C>): (e: RpcError)
    ensures e.error == opts.code
    ensures e.status == opts.status
    ensures opts.message.Some? ==> e.message == opts.message.value
    ensures opts.message.None? ==> e.message == ""
    ensures e.name == ClassName
  {
    RpcError(opts.code, opts.status, opts.message.GetOr(""), ClassName)
  }

  /** The cause leaves no trace: two option objects that differ only in their cause give the same error. */
  lemma CauseNotRetained<C>(opts: RpcErrorOptions<C>, other: Option<C>)
    ensures NewRpcError(opts) == NewRpcError(opts.(cause := other))
  {
  }
}
