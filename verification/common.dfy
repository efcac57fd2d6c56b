/** Result shapes shared by every component of the model. */
module Common {

  datatype Option<+T> = None | Some(value: T)

  /** The reasons a workflow store or a recovery check can refuse a delivery. */
  datatype StoreError =
    | NotFound
    | InvalidRecord
    | InvalidState
    | UnknownMember
    | ReceivedBefore
    | ReceivedAfterFailure
    | DispatchMismatch
    | UnsupportedOutcome
    | ForeignIncarnation
    | UnsupportedReceipt

  datatype Result<+T> = Ok(value: T) | Err(error: StoreError)

  /** A predicate as one proof obligation, instead of one obligation for each of its parts. */
  predicate Whole(p: bool) {
    p == true
  }

  /** Asks for the contents of a sealed predicate: one stated as `forall k :: Unseal(k) ==> ...`. */
  predicate Unseal(k: nat) {
    k >= 0
  }
}
