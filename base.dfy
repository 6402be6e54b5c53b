/** Definitions shared by every layer of the widget model. */
module Base {
  /** Number of shapes in the chain: the top-level `nodes` constant. */
  const Nodes: nat := 5

  /** A value that may be absent: a callback that did not fire, a link that is null. */
  datatype Option<T> = None | Some(value: T)
}
