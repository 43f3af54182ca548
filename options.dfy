/** Optional values. `None` stands for the nil pointers of the source (a schema slot left unassigned). */
module Options {

  datatype Option<+T> = None | Some(value: T)

}
