/** The optional value used for fields the OCR engine may leave out. */
module Options {
  datatype Option<+T> = None | Some(value: T)
}
