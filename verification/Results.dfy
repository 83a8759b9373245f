/** The success-or-error type that stands for Go's (value, error) results, and what all the protocols share. */
module Results {
  datatype Result<+T, +E> = Ok(value: T) | Err(error: E)

  datatype Option<+T> = None | Some(value: T)

  /** A goroutine. */
  type Tid = nat

  /** How a statement ended: done, failed without effect, or failed although it took effect. */
  datatype Fault = NoFault | FailsUndone | FailsDone

  /** What was done part by part. */
  function Concat<T>(parts: seq<seq<T>>): seq<T> {
    if parts == [] then [] else Concat(parts[..|parts| - 1]) + parts[|parts| - 1]
  }

  lemma ConcatMore<T>(before: seq<T>, parts: seq<seq<T>>, part: seq<T>)
    ensures before + Concat(parts + [part]) == before + Concat(parts) + part
  {
    assert (parts + [part])[..|parts|] == parts;
  }

  lemma {:induction false} InConcat<T>(parts: seq<seq<T>>, k: nat, x: T)
    requires k < |parts| && x in parts[k]
    ensures x in Concat(parts)
  {
    var n := |parts| - 1;
    if k < n {
      InConcat(parts[..n], k, x);
    }
  }
}
