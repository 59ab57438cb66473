/** Failure-carrying values shared by every module: Rust's Option and
    Result<T, String>, and TypeScript's nullable values. */
module Common {

  datatype Option<+T> = None | Some(value: T) {
    /** The value, or `default` when there is none (Rust's unwrap_or). */
    function GetOr(default: T): T {
      match this
      case Some(v) => v
      case None => default
    }

    /** The value, or the error `message` (Rust's ok_or / ok_or_else). */
    function OkOr(message: string): Result<T> {
      match this
      case Some(v) => Ok(v)
      case None => Err(message)
    }
  }

  /** The backend's fallible results: an error is the message the command
      hands back to the caller. */
  datatype Result<+T> = Ok(value: T) | Err(error: string) {
    /** Support for `:-`, which stands for Rust's `?` operator. */
    predicate IsFailure() {
      Err?
    }

    function PropagateFailure<U>(): Result<U>
      requires Err?
    {
      Err(error)
    }

    function Extract(): T
      requires Ok?
    {
      value
    }
  }

  /** The position of the first element of s that satisfies p (Rust's
      Iterator::position, TypeScript's findIndex), or None. */
  function FirstIndex<T>(s: seq<T>, p: T -> bool): (r: Option<nat>)
    ensures r.None? <==> forall i :: 0 <= i < |s| ==> !p(s[i])
    ensures r.Some? ==> r.value < |s| && p(s[r.value]) && forall j :: 0 <= j < r.value ==> !p(s[j])
  {
    if |s| == 0 then None
    else if p(s[0]) then Some(0)
    else
      match FirstIndex(s[1..], p)
      case None => None
      case Some(k) => Some(k + 1)
  }

  /** The first element of s that satisfies p (Rust's Iterator::find,
      TypeScript's find), or None. */
  function Find<T>(s: seq<T>, p: T -> bool): (r: Option<T>)
    ensures r.None? <==> forall i :: 0 <= i < |s| ==> !p(s[i])
    ensures r.Some? ==> FirstIndex(s, p).Some? && r.value == s[FirstIndex(s, p).value]
  {
    match FirstIndex(s, p)
    case None => None
    case Some(k) => Some(s[k])
  }

  /** Searches over two lists whose elements satisfy their predicates at
      the same positions find the same position. */
  lemma {:induction false} FirstIndexAgrees<T>(s: seq<T>, t: seq<T>, p: T -> bool, q: T -> bool)
    requires |s| == |t| && forall i :: 0 <= i < |s| ==> p(s[i]) == q(t[i])
    ensures FirstIndex(s, p) == FirstIndex(t, q)
    decreases |s|
  {
    if |s| > 0 && !p(s[0]) {
      assert forall i :: 1 <= i < |s| ==> s[i] == s[1..][i - 1] && t[i] == t[1..][i - 1];
      FirstIndexAgrees(s[1..], t[1..], p, q);
    }
  }
}
