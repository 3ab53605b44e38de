/** The process-wide random generator that every component draws from, made explicit.
    A generator is an infinite stream of draws of random() together with a cursor:
    each call to random() reads the draw under the cursor and moves it on by one.
    uniform(a, b) and choice(xs) each consume exactly one draw. */
module Generator {
  import opened Reals

  datatype Rng = Rng(stream: nat -> real, pos: nat)

  /** A result together with the generator state left after drawing it. */
  datatype Drawn<T> = Drawn(value: T, rest: Rng)

  /** Every draw of random() lies in [0, 1). */
  ghost predicate Valid(g: Rng) {
    forall i: nat :: 0.0 <= g.stream(i) < 1.0
  }

  /** The k-th upcoming draw, counting the next one as 0. */
  function Peek(g: Rng, k: nat): real {
    g.stream(g.pos + k)
  }

  /** The generator after k draws. */
  function Skip(g: Rng, k: nat): (r: Rng)
    ensures Valid(g) ==> Valid(r)
    ensures r.stream == g.stream && r.pos == g.pos + k
    ensures forall j: nat :: Peek(r, j) == Peek(g, k + j)
  {
    g.(pos := g.pos + k)
  }

  /** random(): the next draw, in [0, 1). */
  function Random(g: Rng): (d: Drawn<real>)
    requires Valid(g)
    ensures 0.0 <= d.value < 1.0
    ensures d.value == Peek(g, 0) && d.rest == Skip(g, 1)
  {
    Drawn(g.stream(g.pos), Skip(g, 1))
  }

  /** The value uniform(a, b) makes of a draw u: a + (b - a) * u. */
  function Scale(u: real, a: real, b: real): (x: real)
    requires 0.0 <= u < 1.0
    ensures Min(a, b) <= x <= Max(a, b)
  {
    ScaleBound(u, b - a);
    a + (b - a) * u
  }

  /** w * u lies between 0 and w, for either sign of w. */
  lemma ScaleBound(u: real, w: real)
    requires 0.0 <= u < 1.0
    ensures Min(0.0, w) <= w * u <= Max(0.0, w)
  {
    if w >= 0.0 {
      MulMonotone(w, 0.0, u);
      MulMonotone(w, u, 1.0);
    } else {
      MulMonotone(-w, 0.0, u);
      MulMonotone(-w, u, 1.0);
    }
  }

  /** uniform(a, b): one draw, scaled to lie between a and b (in either order). */
  function Uniform(g: Rng, a: real, b: real): (d: Drawn<real>)
    requires Valid(g)
    ensures Min(a, b) <= d.value <= Max(a, b)
    ensures d.value == Scale(Peek(g, 0), a, b) && d.rest == Skip(g, 1)
  {
    var u := Random(g);
    Drawn(Scale(u.value, a, b), u.rest)
  }

  /** The index that choice() makes of a draw u over n candidates. */
  function ChoiceIndex(u: real, n: nat): (k: nat)
    requires 0.0 <= u < 1.0 && n > 0
    ensures k < n
  {
    var x := u * n as real;
    assert 0.0 <= x < n as real by { assert u * (n as real) < 1.0 * n as real; }
    x.Floor
  }

  /** choice(xs): one draw, mapped to a member of the non-empty sequence xs. */
  function Choice<T>(g: Rng, xs: seq<T>): (d: Drawn<T>)
    requires Valid(g) && |xs| > 0
    ensures d.value in xs && d.rest == Skip(g, 1)
    ensures d.value == xs[ChoiceIndex(Peek(g, 0), |xs|)]
  {
    var u := Random(g);
    Drawn(xs[ChoiceIndex(u.value, |xs|)], u.rest)
  }
}
