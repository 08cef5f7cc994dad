/** An optional value: a board cell that is empty or holds a colour, a selected
    colour or none, a palette index that was found or not. */
module Wrappers {

  datatype Option<+T> = None | Some(value: T)
}
