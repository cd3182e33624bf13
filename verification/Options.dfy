/** Row ids and optional values. Ids are drawn in time order, and their order is
    the primary-key order. */
module Options {
  type Id = nat

  datatype Option<+T> = None | Some(value: T)
}
