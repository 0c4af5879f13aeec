/** Small datatypes shared by the two report scripts. */
module Common {

  datatype Option<+T> = None | Some(value: T)

  /** Outcome of a step that may abort the whole run (an uncaught exception or
      a `sys.exit` in the scripts). */
  datatype Result<+T, +E> = Ok(value: T) | Err(error: E)

  /** The id of an experiment, as the configuration lookup takes it. */
  type ExptId = string

  /** The points of successive time windows, read as one stream. */
  function Flatten<T>(windows: seq<seq<T>>): seq<T>
    decreases |windows|
  {
    if windows == [] then [] else windows[0] + Flatten(windows[1..])
  }

  lemma AppendAssoc<T>(a: seq<T>, b: seq<T>, c: seq<T>)
    ensures a + b + c == a + (b + c)
  {
  }

  /** Reading one more window appends its points. */
  lemma {:induction false} FlattenSnoc<T>(windows: seq<seq<T>>, w: seq<T>)
    ensures Flatten(windows + [w]) == Flatten(windows) + w
    decreases |windows|
  {
    if windows == [] {
      assert windows + [w] == [w];
    } else {
      assert (windows + [w])[1..] == windows[1..] + [w];
      FlattenSnoc(windows[1..], w);
    }
  }
}
