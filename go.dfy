/** The parts of Go and its standard library that the decision layer leans on:
    error values and their wrapping, the zero value a map lookup yields for a
    missing key, `strings.HasPrefix`, `strings.Contains`, the `uint32(...)`
    conversion, and a first-match search over a slice. */
module Go {

  datatype Option<+T> = None | Some(value: T)

  datatype Result<+T> = Ok(value: T) | Err(error: Error)

  /** Error values as the code creates, wraps and inspects them. */
  datatype Error =
    | NotFound                                        // eirini.ErrNotFound
    | AlreadyExists(resource: string)                 // a StatusError whose reason is AlreadyExists
    | Failure(message: string)                        // any other error a collaborator reports
    | Wrapped(context: string, cause: Error)          // errors.Wrap(cause, context)
    | MultipleStatefulSets(guid: string, version: string)
    | JobCountMismatch(guid: string, count: nat)
    | NoOwners
    | NoStatefulSetOwner

  /** `errors.Wrap(err, context)`: wrapping a nil error yields nil. */
  function Wrap(context: string, err: Option<Error>): (r: Option<Error>)
    ensures r.None? <==> err.None?
    ensures r.Some? ==> r.value.Wrapped? && r.value.context == context && r.value.cause == err.value
  {
    match err
    case None => None
    case Some(e) => Some(Wrapped(context, e))
  }

  /** `errors.Is(e, eirini.ErrNotFound)`: the sentinel anywhere in the wrap chain. */
  predicate IsNotFound(e: Error)
  {
    match e
    case NotFound => true
    case Wrapped(_, cause) => IsNotFound(cause)
    case _ => false
  }

  /** `errors.As(e, &statusErr) && statusErr.Status().Reason == AlreadyExists`. */
  predicate IsAlreadyExists(e: Error)
  {
    match e
    case AlreadyExists(_) => true
    case Wrapped(_, cause) => IsAlreadyExists(cause)
    case _ => false
  }

  /** `m[k]` on a Go map of strings: the empty string when `k` is absent. */
  function Lookup(m: map<string, string>, k: string): (r: string)
    ensures k in m ==> r == m[k]
    ensures k !in m ==> r == ""
  {
    if k in m then m[k] else ""
  }

  /** `strings.HasPrefix(s, prefix)`. */
  predicate HasPrefix(s: string, prefix: string)
  {
    |prefix| <= |s| && s[..|prefix|] == prefix
  }

  /** `sub` occurs in `s` starting at position `i`. */
  predicate OccursAt(s: string, sub: string, i: int)
  {
    0 <= i <= |s| - |sub| && s[i..i + |sub|] == sub
  }

  /** `strings.Contains(s, sub)`: some window of `s` equals `sub`. */
  function Contains(s: string, sub: string): (r: bool)
    ensures r <==> exists i :: OccursAt(s, sub, i)
    decreases |s|
  {
    if |sub| > |s| then false
    else if s[..|sub|] == sub then
      assert OccursAt(s, sub, 0);
      true
    else
      var rest := Contains(s[1..], sub);
      assert forall i :: OccursAt(s, sub, i) ==> i > 0 && OccursAt(s[1..], sub, i - 1);
      assert forall i :: OccursAt(s[1..], sub, i) ==> OccursAt(s, sub, i + 1);
      rest
  }

  /** `uint32(n)`: Go keeps the low 32 bits of the two's-complement value. */
  function Uint32(n: int): (r: nat)
    ensures r < 0x1_0000_0000
    ensures (r - n) % 0x1_0000_0000 == 0
    ensures 0 <= n < 0x1_0000_0000 ==> r == n
  {
    n % 0x1_0000_0000
  }

  /** The position of the first element satisfying `p`, if there is one. */
  function FirstIndex<T>(xs: seq<T>, p: T -> bool): (r: Option<nat>)
    ensures r.Some? ==> r.value < |xs| && p(xs[r.value])
    ensures r.Some? ==> forall j :: 0 <= j < r.value ==> !p(xs[j])
    ensures r.None? <==> forall j :: 0 <= j < |xs| ==> !p(xs[j])
    ensures forall i :: 0 <= i < |xs| && p(xs[i]) && (forall j :: 0 <= j < i ==> !p(xs[j])) ==> r == Some(i)
  {
    if xs == [] then None
    else if p(xs[0]) then Some(0)
    else
      match FirstIndex(xs[1..], p)
      case None => None
      case Some(k) => Some(k + 1)
  }
}
