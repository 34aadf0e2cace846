/** The nullable references of the listener (a cached point, a last location,
    a provider name, a log file) become an explicit optional value. */
module Optional {
  datatype Option<+T> = None | Some(value: T)
}
