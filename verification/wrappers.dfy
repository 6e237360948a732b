/** The optional value used wherever the modelled code has a nullable value
    (`string | null`, `Chat | null`, an absent reply text). */
module Wrappers {

  datatype Option<+T> = None | Some(value: T)
}
