/** Optional values, standing for the nullable fields and optional
    arguments of the modelled TypeScript code. */
module Options {

  datatype Option<+T> = None | Some(value: T)

}
