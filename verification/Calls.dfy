/** Answers of the services the workers call.  Every such call may also throw. */
module Calls {
  datatype Option<+T> = None | Some(value: T)

  datatype Call<+T> = Answer(value: T) | Thrown(message: string)
}
