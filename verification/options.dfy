/** The optional value used for JavaScript's `null`/`undefined` slots: a
    route parameter that may be missing, an image that may not be chosen,
    an error message that may not be shown. */
module Options {

  datatype Option<+T> = None | Some(value: T)
}
