/** Values shared by every module: an optional value, and the result of a
    JavaScript call, which either returns a value or throws an Error. */
module Js {

  datatype Option<+T> = None | Some(value: T)

  /** The completion of a JavaScript call: a returned value, or an Error
      carrying its message. */
  datatype Outcome<+T> = Returned(value: T) | Threw(message: string)
}
