/** The null-or-value shape shared by the operation table entries and the storage cell. */
module Optional {

  /** `None` plays the part of a null function pointer or of a storage cell with no live object. */
  datatype Option<+T> = None | Some(value: T)
}
