/** The optional value used wherever the storefront may find nothing:
    an unparseable form field, a product missing from the catalog. */
module Options {

  datatype Option<+T> = None | Some(value: T)
}
