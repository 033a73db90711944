/** The optional value used for nullable fields (`null` in the component records, a cleared form control). */
module Wrappers {

  datatype Option<+T> = None | Some(value: T)
}
