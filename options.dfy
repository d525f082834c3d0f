/** The optional value used for documents that may not exist and for toasts that may not be shown. */
module Options {

  datatype Option<+T> = None | Some(value: T)
}
