/** Optional values, for the source's Swift optionals (`String?`, `UIImage?`). */
module Options {

  datatype Option<+T> = None | Some(value: T)

}
