/** The usual Some/None wrapper, used for values a reply or request may lack. */
module Optional {

  datatype Option<+T> = None | Some(value: T)

}
