/** The optional value used for the nullable text columns of a job. */
module Wrappers {

  /** `None` stands for a database NULL. */
  datatype Option<+T> = None | Some(value: T)
}
