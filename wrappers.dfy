/** Option, the model of C#'s nullable values (`Rectangle?`, `Texture?`). */
module Wrappers {

  datatype Option<+T> = None | Some(value: T)
}
