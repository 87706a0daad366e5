/** Optional values: a JavaScript `null`/`undefined` or an omitted piece of output. */
module Options {

  datatype Option<+T> = None | Some(value: T)

}
