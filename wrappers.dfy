/**
 * Optional values (Python's `None` versus a present value), and results
 * that carry the exception which ended a step instead of a value.
 */
module Wrappers {

  datatype Option<+T> = None | Some(value: T) {

    /** The present value, or `default` for `None` (Python's `x if x is not None else default`). */
    function GetOr(default: T): T
    {
      match this
      case Some(v) => v
      case None => default
    }
  }

  /** What ends the processing of one organisation early. */
  datatype Failure =
    | MissingRoles     // `sys.exit(1)` when there is no `Roles` child
    | TypeError        // `os.path.join` given the `None` of a `Status` without `value`, or the `Roles` test on a string
    | AttributeError   // `.get` called on a `Roles` entry that is not a dict
    | KeyError         // a summary read of a metadata key that is not there

  /** A value, or the failure that prevented it. */
  datatype Result<T> = Ok(value: T) | Fail(failure: Failure)

  /** Concatenation regroups freely. */
  lemma AppendAssoc<T>(a: seq<T>, b: seq<T>, c: seq<T>)
    ensures a + b + c == a + (b + c)
  {
  }

  /** A prefix one longer is the prefix followed by the next element. */
  lemma TakeSnoc<T>(s: seq<T>, i: nat)
    requires i < |s|
    ensures s[..i + 1] == s[..i] + [s[i]]
  {
  }

  /** A sequence is its prefix followed by the rest. */
  lemma TakeDrop<T>(s: seq<T>, i: nat)
    requires i <= |s|
    ensures s[..i] + s[i..] == s
  {
  }

  /** A prefix that ends inside the first part is a prefix of the first part. */
  lemma TakeAppend<T>(a: seq<T>, b: seq<T>, i: nat)
    requires i <= |a|
    ensures (a + b)[..i] == a[..i]
  {
  }

  /** The first part of a concatenation is its prefix of that length. */
  lemma TakePrefix<T>(a: seq<T>, b: seq<T>)
    ensures (a + b)[..|a|] == a
  {
  }
}
