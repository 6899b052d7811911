/**
 * Types shared by every pallet of the runtime: the account identifier and the
 * result of a dispatched call. The crate's `support` module, which defines
 * `DispatchResult`, is not part of this model; its shape is fixed by how the
 * runtime uses it (`Result<(), &'static str>`).
 */
module Support {

  /** Accounts are opaque strings compared only for equality. */
  type AccountId = string

  /** The result of a dispatchable call: success, or an error message. */
  datatype Outcome = Ok | Err(msg: string)
}
