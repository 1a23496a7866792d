/** The optional value used where the source returns or stores an `Option`. */
module OptionType {

  datatype Option<+T> = None | Some(value: T)

}
