/** Vocabulary shared by the whole model of the building-management back office:
    identifiers, time, optional values, the service errors and the enumerations. */
module Common {

  /** A `java.util.UUID`. The services only compare identifiers for equality. */
  type Uuid = nat

  /** A `java.time.LocalDateTime`, as a point on a discrete time line. */
  type DateTime = int

  /** `LocalDateTime.isBefore`: strictly earlier, so equal instants are not "before". */
  predicate IsBefore(a: DateTime, b: DateTime) {
    a < b
  }

  /** A Java reference that may be `null`, wherever the source tests for `null`. */
  datatype Option<+T> = None | Some(value: T)

  /** The exceptions the services throw. Message-carrying kinds hold the exact message. */
  datatype Error =
    | IllegalArgument(message: string)
    | IllegalState(message: string)
    | NullReference            // a NullPointerException: a missing session user is dereferenced
    | NoSuchElement            // Optional.get on an empty Optional
    | UserNotFound
    | PropertyNotFound
    | ContractNotFound
    | OfferNotFound
    | SolicitationNotFound
    | ReviewNotFound
    | IncorrectResultSize      // a single-result repository query matched several rows

  /** The value a service call returns, or the exception it throws. */
  datatype Result<+T> = Ok(value: T) | Err(error: Error)

  /** `UserType`: the two roles of the application. */
  datatype UserType = Admin | Customer

  /** `PropertyType` and `PropertyStatus` are Java enums; only their identity matters here. */
  datatype PropertyType = PropertyType(ordinal: nat)
  datatype PropertyStatus = PropertyStatus(ordinal: nat)
}
