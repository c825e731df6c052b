/** A value that may be absent: JavaScript's `null` for the component's
    error state, a missing `localStorage` entry, a body without the
    daily time-series field. */
module Optional {

  datatype Option<+T> = None | Some(value: T)

}
