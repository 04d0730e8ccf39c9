/** Values shared by every module of the model: optional values, results,
    the JavaScript values a `catch` block can receive, and an order-preserving
    filter-map that every "loop that pushes some of its inputs" is specified by. */
module Common {

  /** `undefined`/`null` versus a present value. */
  datatype Option<+T> = None | Some(value: T)

  /** A resolved promise (`Ok`) or a rejected one (`Err`). */
  datatype Result<+T, +E> = Ok(value: T) | Err(error: E)

  /** What a JavaScript `catch (err)` can hold: an `Error` instance, with its
      `name` ("Error", "SecurityError", ...) and `message`, or any other value. */
  datatype Thrown = Error(name: string, message: string) | NonError

  /** `new Error(message)`. */
  function PlainError(message: string): Thrown
  {
    Error("Error", message)
  }

  /** `err instanceof Error ? err.message : fallback`, the idiom every handler uses. */
  function MessageOr(e: Thrown, fallback: string): (m: string)
    ensures e.Error? ==> m == e.message
    ensures e.NonError? ==> m == fallback
  {
    match e
    case Error(_, message) => message
    case NonError => fallback
  }

  /** JavaScript truthiness of an optional string: present and not empty. */
  predicate Truthy(o: Option<string>)
  {
    o.Some? && o.value != ""
  }

  /** `Truthy(o) ? o : undefined`: the `x || undefined` idiom. */
  function NonEmpty(s: string): (r: Option<string>)
    ensures Truthy(r) <==> s != ""
    ensures r.Some? ==> r.value == s
  {
    if s == "" then None else Some(s)
  }

  /** Keeps, in input order, the results `f` produces for the inputs it accepts:
      the meaning of a `for (x of xs) { ... if (ok) out.push(y) }` loop. */
  function FilterMap<A, B>(xs: seq<A>, f: A -> Option<B>): (r: seq<B>)
    ensures |r| <= |xs|
  {
    if |xs| == 0 then []
    else
      var init := FilterMap(xs[..|xs| - 1], f);
      match f(xs[|xs| - 1])
      case Some(y) => init + [y]
      case None => init
  }

  /** The positions of the inputs that `f` accepts, in increasing order. */
  function AcceptedIndices<A, B>(xs: seq<A>, f: A -> Option<B>): (ix: seq<nat>)
    ensures forall k :: 0 <= k < |ix| ==> ix[k] < |xs| && f(xs[ix[k]]).Some?
    ensures forall j :: 0 <= j < |xs| && f(xs[j]).Some? ==> j in ix
  {
    if |xs| == 0 then []
    else
      var init := AcceptedIndices(xs[..|xs| - 1], f);
      assert forall k :: 0 <= k < |init| ==> xs[..|xs| - 1][init[k]] == xs[init[k]];
      if f(xs[|xs| - 1]).Some? then init + [|xs| - 1] else init
  }

  predicate StrictlyIncreasing(ix: seq<nat>)
  {
    forall k, l :: 0 <= k < l < |ix| ==> ix[k] < ix[l]
  }

  /** The output of FilterMap is exactly the accepted inputs' images, in input
      order: output k comes from input AcceptedIndices[k], and those positions
      increase. */
  lemma {:induction false} FilterMapOrder<A, B>(xs: seq<A>, f: A -> Option<B>)
    ensures |FilterMap(xs, f)| == |AcceptedIndices(xs, f)|
    ensures StrictlyIncreasing(AcceptedIndices(xs, f))
    ensures forall k :: 0 <= k < |FilterMap(xs, f)| ==>
              f(xs[AcceptedIndices(xs, f)[k]]) == Some(FilterMap(xs, f)[k])
  {
    if |xs| > 0 {
      var init := xs[..|xs| - 1];
      FilterMapOrder(init, f);
      var ix, out := AcceptedIndices(init, f), FilterMap(init, f);
      assert forall k :: 0 <= k < |ix| ==> ix[k] < |init| && init[ix[k]] == xs[ix[k]];
      match f(xs[|xs| - 1])
      case Some(y) =>
        assert AcceptedIndices(xs, f) == ix + [|xs| - 1];
        assert FilterMap(xs, f) == out + [y];
      case None =>
        assert AcceptedIndices(xs, f) == ix;
        assert FilterMap(xs, f) == out;
    }
  }

  /** Filtering a concatenation filters each part: one input's verdict never
      affects another input's contribution. */
  lemma {:induction false} FilterMapAppend<A, B>(xs: seq<A>, ys: seq<A>, f: A -> Option<B>)
    ensures FilterMap(xs + ys, f) == FilterMap(xs, f) + FilterMap(ys, f)
  {
    if |ys| > 0 {
      var ys' := ys[..|ys| - 1];
      assert (xs + ys)[..|xs + ys| - 1] == xs + ys';
      FilterMapAppend(xs, ys', f);
    } else {
      assert xs + ys == xs;
    }
  }

  /** Every output is the image of some input. */
  lemma {:induction false} FilterMapMember<A, B>(xs: seq<A>, f: A -> Option<B>, y: B)
    requires y in FilterMap(xs, f)
    ensures exists x :: x in xs && f(x) == Some(y)
  {
    var init := xs[..|xs| - 1];
    if y in FilterMap(init, f) {
      FilterMapMember(init, f, y);
      var x :| x in init && f(x) == Some(y);
      assert x in xs;
    } else {
      assert f(xs[|xs| - 1]) == Some(y);
    }
  }

  /** One step of a push loop: the filter of a prefix one element longer. */
  lemma FilterMapSnoc<A, B>(xs: seq<A>, i: nat, f: A -> Option<B>)
    requires i < |xs|
    ensures FilterMap(xs[..i + 1], f) ==
              FilterMap(xs[..i], f) + (match f(xs[i]) case Some(y) => [y] case None => [])
  {
    assert xs[..i + 1][..i] == xs[..i];
  }

  /** A `Set` copied and then changed by `has(x) ? delete(x) : add(x)`. */
  function Toggle<T(!new)>(s: set<T>, x: T): (r: set<T>)
    ensures x in r <==> x !in s
    ensures forall y :: y != x ==> (y in r <==> y in s)
  {
    if x in s then s - {x} else s + {x}
  }

  /** Toggling the same element twice restores the set. */
  lemma ToggleTwice<T(!new)>(s: set<T>, x: T)
    ensures Toggle(Toggle(s, x), x) == s
  {
  }
}
