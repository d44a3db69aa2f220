/**
 * Shared vocabulary of the model: optional values, results, and the
 * exception kinds the framework (and the .NET calls it relies on) raises.
 * A `null` reference of the source is `None`; a thrown exception is a
 * `Failure` carrying the exception kind.
 */
module Common {

  datatype Option<+T> = None | Some(value: T) {
    function GetOr(default: T): T {
      match this
      case Some(v) => v
      case None => default
    }
  }

  datatype Result<+T, +E> = Success(value: T) | Failure(error: E)

  datatype Outcome<+E> = Pass | Fail(error: E)

  /** Runtime type handles (`System.Type`) are opaque identifiers. */
  type TypeId = nat

  /** The exceptions the modelled code raises or lets escape. */
  datatype Error =
    | ArgumentError                        // System.ArgumentException
    | ArgumentNullError                    // System.ArgumentNullException
    | NullReference                        // System.NullReferenceException
    | InvalidOperation                     // System.InvalidOperationException
    | NotRegistered(abstraction: TypeId)   // "Type {type} not registered"
    | DuplicateKey(key: string)            // Dictionary.Add on a key already present
    | IndexOutOfRange                      // GetConstructors()[0] on a type without one
    | FormatError                          // a reflective Parse rejected its text
    | DeserializationError                 // the JSON deserializer rejected its text
    | EntryUpdateError                     // EntryUpdateException
    | EntryDeleteError                     // EntryDeleteException
    | EntitySetNotRegistered(entityType: TypeId)
    | EntityNotFound                       // EntityNotFoundException
    | OperationFailed(message: string)     // a plain System.Exception with a message
}

/** The range of the source's `int`. */
module Int32 {
  const Min: int := -0x8000_0000
  const Max: int := 0x7fff_ffff

  predicate InRange(x: int) { Min <= x <= Max }
}
