/**
 * Option, Result and the failures the three services raise. Each `Error`
 * stands for one `throw new Error(...)` message of the services, plus the
 * schema validation failure that saving a record or `runValidators` raises.
 */
module Outcomes {

  datatype Option<+T> = None | Some(value: T)

  datatype Error =
    | PatenteAlreadyExists
    | MicroNotFound
    | CapacityBelowOccupancy
    | MicroHasStudents
    | MicroAlreadyHasChofer
    | ChoferNotFound
    | ChoferAssignedToAnotherMicro
    | MicroHasNoChofer
    | DniAlreadyExists
    | ChicoNotFound
    | ChicoAlreadyAssigned
    | MicroAtCapacity
    | ChicoNotAssigned
    | ChoferAlreadyAssigned
    | ChoferNotAssigned
    | ValidationFailed

  datatype Result<+T> = Ok(value: T) | Err(error: Error)
}
