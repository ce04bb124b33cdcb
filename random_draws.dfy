/** Random numbers enter the model as draws r with 0 <= r < 1, the value
    `Math.random()` or `random.random()` would have returned; each library
    call the source makes is a function of its draw. */
module RandomDraws {

  predicate IsDraw(r: real) {
    0.0 <= r < 1.0
  }

  predicate AllDraws(d: seq<real>) {
    forall i :: 0 <= i < |d| ==> IsDraw(d[i])
  }

  /** JavaScript `Math.floor(r * n)`. */
  function FloorScale(r: real, n: nat): (k: int)
    requires IsDraw(r) && n > 0
    ensures 0 <= k < n
  {
    var x := r * n as real;
    assert 0.0 <= x < n as real by {
      assert r * n as real < 1.0 * n as real;
    }
    x.Floor
  }

  /** Python `random.randint(a, b)`: an integer in [a, b], both ends included. */
  function RandInt(r: real, a: int, b: int): (k: int)
    requires IsDraw(r) && a <= b
    ensures a <= k <= b
  {
    a + FloorScale(r, b - a + 1)
  }

  /** Python `random.uniform(a, b)`. */
  function Uniform(r: real, a: real, b: real): (x: real)
    requires IsDraw(r) && a <= b
    ensures a <= x <= b
  {
    var c := b - a;
    assert r * c <= 1.0 * c;
    assert 0.0 * c <= r * c;
    a + c * r
  }

  /** JavaScript `xs[Math.floor(Math.random() * xs.length)]` and Python `random.choice(xs)`. */
  function Choice<T>(r: real, xs: seq<T>): (x: T)
    requires IsDraw(r) && |xs| > 0
    ensures x in xs
  {
    xs[FloorScale(r, |xs|)]
  }

  /** JavaScript `Math.random() > p ? 1 : 0` and Python `1 if random.random() > p else 0`. */
  function Flag(r: real, p: real): (b: int)
    ensures b == 0 || b == 1
    ensures b == 1 <==> r > p
  {
    if r > p then 1 else 0
  }
}
