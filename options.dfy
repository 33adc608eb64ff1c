/** The optional-value wrapper used for absent fields, failed lookups and
    unset environment variables. */
module Options {

  datatype Option<+T> = None | Some(value: T)
}
