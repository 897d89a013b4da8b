/** Small datatypes and sequence facts shared by every component of the model. */
module Common {

  datatype Option<+T> = None | Some(value: T)

  /** A returned value, or the error that the original throws. */
  datatype Result<+T, +E> = Ok(value: T) | Err(error: E) {
    predicate IsFailure() {
      Err?
    }

    function PropagateFailure<U>(): Result<U, E>
      requires Err?
    {
      Err(error)
    }

    function Extract(): T
      requires Ok?
    {
      value
    }
  }

  ghost predicate NoDup<T>(s: seq<T>) {
    forall i, j :: 0 <= i < j < |s| ==> s[i] != s[j]
  }

  function Elements<T>(s: seq<T>): set<T> {
    set x | x in s
  }

  lemma AppendLaws<T>(a: seq<T>, b: seq<T>, c: seq<T>)
    ensures [] + a == a == a + []
    ensures (a + b) + c == a + (b + c)
  {
  }
}
