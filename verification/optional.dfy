/** A nullable reference, as the simulator uses raw pointers that may be null. */
module Optional {

  datatype Option<+T> = None | Some(value: T)

}
