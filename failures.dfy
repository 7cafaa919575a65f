/** The failures the espresso machine and its containers can report.
    The source's exception classes become the constructors of one datatype. */
module Failures {

  /** NoBeans and NoWater come from brewing; ContainerFull from adding to a container. */
  datatype Error = NoBeans | NoWater | ContainerFull

  /** The result of an operation that returns a value or fails. */
  datatype Result<T> = Ok(value: T) | Err(error: Error)

  /** The result of an operation that returns nothing or fails. */
  datatype Outcome = Pass | Fail(error: Error)
}
