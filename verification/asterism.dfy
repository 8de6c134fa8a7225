/** An asterism: a non-empty, ordered list of stars. */
module Asterism {
  import opened Wrappers
  import opened Preconditions
  import opened CelestialObject

  datatype Asterism = Asterism(stars: seq<Star>)

  /** Whether a list of possibly-null references holds no null. */
  predicate NoNull<T>(xs: seq<Option<T>>) {
    forall i :: 0 <= i < |xs| ==> xs[i].Some?
  }

  /** The values of a list without nulls, in order. */
  function Values<T>(xs: seq<Option<T>>): (vs: seq<T>)
    requires NoNull(xs)
    ensures |vs| == |xs| && forall i :: 0 <= i < |xs| ==> xs[i] == Some(vs[i])
  {
    if |xs| == 0 then [] else [xs[0].value] + Values(xs[1..])
  }

  /** `new Asterism(stars)`: an empty list fails first; a null star then
      fails in the defensive copy. The asterism keeps the stars in order,
      and, being a value, is unaffected by later changes to the argument. */
  function Of(stars: seq<Option<Star>>): (r: Result<Asterism>)
    ensures r.Success? <==> |stars| > 0 && NoNull(stars)
    ensures |stars| == 0 ==> r == Failure(IllegalArgument)
    ensures |stars| > 0 && !NoNull(stars) ==> r == Failure(NullPointer)
    ensures r.Success? ==> |r.value.stars| == |stars| && forall i :: 0 <= i < |stars| ==> stars[i] == Some(r.value.stars[i])
  {
    var nonEmpty := CheckArgument(|stars| > 0);
    :- nonEmpty;
    if !NoNull(stars) then Failure(NullPointer) else Success(Asterism(Values(stars)))
  }

  /** Wrapping the stars of an asterism and building again gives it back. */
  lemma OfStarsRoundTrip(a: Asterism)
    requires |a.stars| > 0
    ensures Of(seq(|a.stars|, i requires 0 <= i < |a.stars| => Some(a.stars[i]))) == Success(a)
  {
    var xs := seq(|a.stars|, i requires 0 <= i < |a.stars| => Some(a.stars[i]));
    assert Values(xs) == a.stars;
  }
}
