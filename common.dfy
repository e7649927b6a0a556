/** Values shared by every part of the model: Java's nullable references,
    the two exception families the library raises, and the opaque objects
    (beans, attribute values, native requests) it passes along untouched. */
module Common {

  /** A Java reference that may be null. */
  datatype Option<+T> = None | Some(value: T)

  /** The exceptions the library throws itself (through Spring's Assert),
      and a failure raised inside the wrapped engine. */
  datatype Error =
    | IllegalState(message: string)
    | IllegalArgument(message: string)
    | EngineFailure

  /** Either a returned value or a thrown exception. */
  datatype Result<+T> = Ok(value: T) | Err(error: Error)

  /** A void call: it either returns normally or throws. */
  datatype Outcome = Pass | Fail(error: Error)

  /** Any object the library stores or forwards without looking inside it.
      Two of them are equal exactly when Java's equals says so. */
  datatype Obj = Obj(ref: nat)
}
