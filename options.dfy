/** The optional value used by both drafts for Go's nil results. */
module Options {

  datatype Option<+T> = None | Some(value: T)

}
