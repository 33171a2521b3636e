// Values shared by all parts of the model.
module Common {

  datatype Option<+T> = None | Some(value: T)

  datatype Result<+T, +E> = Ok(value: T) | Err(error: E)

  /** The name and the namespace of a Kubernetes object. */
  datatype ObjectReference = ObjectReference(name: string, namespace: string)

  /** What one call to the API server does: it is applied and reported, it fails without any
      effect, or it is applied while the caller sees an error. */
  datatype Outcome = Applied | Failed | Lost

  ghost predicate NoDuplicates<T>(s: seq<T>) {
    forall i, j :: 0 <= i < j < |s| ==> s[i] != s[j]
  }
}
