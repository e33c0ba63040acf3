/**
  Failure-compatible wrappers shared by both encoder models.

  The encoder has no recoverable errors: every abnormal exit in the Swift code
  is a `fatalError()` (or a failing forced cast, which traps the same way).
  `Result.Fatal` records which contract violation ended the encode call.
 */
module Results {

  datatype Option<+T> = None | Some(value: T)

  /** The contract violations that abort an encode call. */
  datatype FatalError =
    | SingleValueContainerReacquired   // singleValueContainer() when storage already exists
    | ContainerKindMismatch            // forced cast of existing storage to another kind
    | StorageNotCreated                // a sequence member whose encoding created no storage
    | GenericSingleValueWrite          // encode<T> on a single-value container
    | NestedContainerUnsupported       // nestedContainer / nestedUnkeyedContainer
    | SuperEncoderUnsupported          // superEncoder / superEncoder(forKey:)
    | PrimitiveWriteUnsupported        // the earlier variant's nil/Bool/Double/Float writes

  datatype Result<+T> = Ok(value: T) | Fatal(error: FatalError) {

    predicate IsFailure() {
      Fatal?
    }

    function PropagateFailure<U>(): Result<U>
      requires Fatal?
    {
      Fatal(error)
    }

    function Extract(): T
      requires Ok?
    {
      value
    }
  }
}
