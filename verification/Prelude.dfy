// Small value types shared by the models.
module Prelude {

  datatype Option<+T> = None | Some(value: T)

  /** What becomes of a request to a store that carries it out atomically: answered, never carried out,
      or carried out with the answer lost. */
  datatype Wire = Answered | RequestLost | ReplyLost
}
