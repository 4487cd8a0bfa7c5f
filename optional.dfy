/** The optional value of the source's `notas?: string` field and of `Array.prototype.find`. */
module Optional {

  datatype Option<+T> = None | Some(value: T)
}
