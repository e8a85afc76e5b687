// Optional values and one sequence fact, shared by every module of the model.
module Common {

  datatype Option<+T> = None | Some(value: T)

  /** Appending to a log that already extends another keeps the shared prefix. */
  lemma AppendAssoc<T>(a: seq<T>, b: seq<T>, x: T)
    ensures (a + b) + [x] == a + (b + [x])
  {
  }
}
