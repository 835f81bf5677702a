/** Shared vocabulary: optional values, backend replies, the side effects a handler emits,
    the error-message fallback every page uses, and the order-preserving filter that
    `Array.prototype.filter` performs. */
module Common {

  datatype Option<+T> = None | Some(value: T) {
    predicate IsFailure() { None? }

    function PropagateFailure<U>(): Option<U>
      requires None?
    {
      None
    }

    function Extract(): T
      requires Some?
    {
      value
    }
  }

  datatype Result<+T> = Success(value: T) | Failure(error: string)

  /** What a failed request carries: `err.response?.data?.message`, absent when there is
      no response, no body or no message. */
  datatype ApiError = ApiError(message: Option<string>)

  /** The settled outcome of one backend call. */
  datatype Reply<+T> = Ok(data: T) | Fail(error: ApiError)

  datatype Verb = Get | Post | Delete

  /** What a handler does outside its own state: a request, a blocking `alert`, a router push. */
  datatype Effect = Request(verb: Verb, path: string) | Alert(text: string) | Navigate(path: string)

  /** The colour family of a badge or label (the Tailwind classes themselves are not modelled). */
  datatype Tone = Green | Blue | Yellow | Orange | Red | Gray

  /** `err.response?.data?.message || fallback`: the backend message when it is a
      non-empty string, otherwise the page's fallback text. */
  function ErrorMessage(e: ApiError, fallback: string): (r: string)
    ensures e.message.Some? && e.message.value != "" ==> r == e.message.value
    ensures e.message.None? || e.message.value == "" ==> r == fallback
    ensures fallback != "" ==> r != ""
  {
    match e.message
    case Some(m) => if m != "" then m else fallback
    case None => fallback
  }

  /** `xs` is obtained from `ys` by deleting elements, keeping the order of the rest. */
  ghost predicate IsSubsequence<T>(xs: seq<T>, ys: seq<T>)
    decreases |ys|
  {
    if xs == [] then true
    else if ys == [] then false
    else if xs[0] == ys[0] then IsSubsequence(xs[1..], ys[1..])
    else IsSubsequence(xs, ys[1..])
  }

  /** `xs.filter(p)`. */
  function Filter<T(!new)>(xs: seq<T>, p: T -> bool): (r: seq<T>)
    ensures IsSubsequence(r, xs)
    ensures forall i :: 0 <= i < |r| ==> p(r[i])
    ensures forall x :: multiset(r)[x] == if p(x) then multiset(xs)[x] else 0
    ensures |r| <= |xs|
  {
    if xs == [] then []
    else
      var rest := Filter(xs[1..], p);
      assert xs == [xs[0]] + xs[1..];
      if p(xs[0]) then [xs[0]] + rest else rest
  }

  /** A filter whose predicate holds of every element returns the list unchanged. */
  lemma {:induction false} FilterKeepsAll<T(!new)>(xs: seq<T>, p: T -> bool)
    requires forall i :: 0 <= i < |xs| ==> p(xs[i])
    ensures Filter(xs, p) == xs
  {
    if xs != [] {
      FilterKeepsAll(xs[1..], p);
    }
  }

  /** An element survives a filter exactly when it was in the list and satisfies `p`. */
  lemma FilterMembership<T(!new)>(xs: seq<T>, p: T -> bool, x: T)
    ensures x in Filter(xs, p) <==> x in xs && p(x)
  {
    var r := Filter(xs, p);
    assert x in r <==> multiset(r)[x] > 0;
    assert x in xs <==> multiset(xs)[x] > 0;
  }
}
