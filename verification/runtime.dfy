/** What a Swift computation that subscripts arrays can come to. */
module Runtime {

  /** Either the computation finishes with `value`, or a subscript traps
      ("Index out of range") and `index` is the first index that was out of
      bounds. A trap ends the process, so nothing after it is modelled. */
  datatype Result<T> = Ok(value: T) | IndexOutOfRange(index: int)
}
