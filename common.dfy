/** Small vocabulary shared by every module: optional values, the error
    outcomes the handlers report, and the JavaScript idioms the services
    lean on (`a || b` on strings, `$addToSet` on an array). */
module Common {

  /** Identifiers of stored documents and of accounts. */
  type Id = nat

  datatype Option<T> = None | Some(value: T) {
    /** JavaScript `x ?? fallback`: the supplied value, or the fallback when
        the value is null or undefined. */
    function OrElse(fallback: T): T {
      if Some? then value else fallback
    }
  }

  /** What a handler reports instead of its normal result. The HTTP codes the
      handlers attach (404, 400, 500) are not part of this model. */
  datatype Error =
    | NotFound        // the referenced booking or trailer does not exist
    | InvalidState    // the booking is not in the state the operation needs
    | Invalid         // the request fails validation
    | UpstreamError   // an external service (file storage) failed

  datatype Result<T> = Ok(value: T) | Err(error: Error)

  datatype Outcome = Done | Failed(error: Error)

  /** JavaScript `a || b` on two strings: the empty string is falsy. */
  function Or(a: string, b: string): (r: string)
    ensures a != "" ==> r == a
    ensures a == "" ==> r == b
  {
    if a != "" then a else b
  }

  /** JavaScript `s || ""` on an optional request field. */
  function Text(s: Option<string>): (r: string)
    ensures r == "" <==> s.None? || s.value == ""
    ensures r != "" ==> s == Some(r)
  {
    if s.Some? then s.value else ""
  }

  ghost predicate NoDup<T>(s: seq<T>) {
    forall i, j :: 0 <= i < j < |s| ==> s[i] != s[j]
  }

  /** MongoDB's `$addToSet` on an array: append `x` unless it is already there. */
  function AddToSet<T(==)>(s: seq<T>, x: T): (r: seq<T>)
    ensures x in r
    ensures forall y :: y in s ==> y in r
    ensures forall y :: y in r ==> y in s || y == x
    ensures |s| <= |r| <= |s| + 1 && r[..|s|] == s
    ensures NoDup(s) ==> NoDup(r)
  {
    if x in s then s else s + [x]
  }

  /** Adding the same element twice leaves the array as adding it once. */
  lemma AddToSetIdempotent<T>(s: seq<T>, x: T)
    ensures AddToSet(AddToSet(s, x), x) == AddToSet(s, x)
  {
  }
}
