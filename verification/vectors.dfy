/** Two-dimensional vectors: the `Vector2` value type of the entities. */
module Vectors {
  import opened Wrappers
  import opened Numerics
  import opened Json

  datatype Vec = Vec(x: real, y: real)

  const Zero: Vec := Vec(0.0, 0.0)

  function Add(a: Vec, b: Vec): Vec { Vec(a.x + b.x, a.y + b.y) }

  /** `a - b`, which vanishes exactly when the two vectors are equal. */
  function Sub(a: Vec, b: Vec): (r: Vec)
    ensures r == Zero <==> a == b
  {
    Vec(a.x - b.x, a.y - b.y)
  }

  /** `v * scalar`: one keeps the vector, zero collapses it. */
  function Scale(v: Vec, c: real): (r: Vec)
    ensures c == 1.0 ==> r == v
    ensures c == 0.0 ==> r == Zero
  {
    Vec(v.x * c, v.y * c)
  }

  /** Componentwise division, as the engine's in-place `v.x /= s; v.y /= s`. */
  function DivBy(v: Vec, s: real): Vec
    requires s != 0.0
  {
    Vec(v.x / s, v.y / s)
  }

  /** The dot product the engine writes out inline. */
  function Dot(a: Vec, b: Vec): real
  {
    a.x * b.x + a.y * b.y
  }

  /** Squared length, `x**2 + y**2`. */
  function NormSq(v: Vec): real { v.x * v.x + v.y * v.y }

  /**
    * Reflection of `v` about the line with normal `n`, scaled by `1 - loss`.
    * The normal is used as given; it is a mirror only when it has unit length.
    */
  function Reflect(v: Vec, n: Vec, loss: real): Vec
  {
    var d := v.x * n.x + v.y * n.y;
    Vec((v.x - 2.0 * d * n.x) * (1.0 - loss), (v.y - 2.0 * d * n.y) * (1.0 - loss))
  }

  /** `to_tuple`, which `from_tuple` inverts. */
  function ToTuple(v: Vec): (r: (real, real))
    ensures FromTuple(r) == v
  {
    (v.x, v.y)
  }

  function FromTuple(t: (real, real)): Vec { Vec(t.0, t.1) }

  /** `to_dict`, which `from_dict` reads back. */
  function ToDict(v: Vec): (r: Json)
    ensures FromDict(r) == Success(v)
  {
    var fields := [("x", JReal(v.x)), ("y", JReal(v.y))];
    assert Get(fields, "x") == Some(JReal(v.x));
    assert Get(fields[1..], "y") == Some(JReal(v.y));
    JObj(fields)
  }

  /**
    * `Vector2.from_dict(d)`: subscripting a non-object is a TypeError and a
    * missing coordinate a KeyError; only after both lookups is the type of
    * the stored values checked.
    */
  function FromDict(j: Json): (r: Result<Vec>)
    ensures j.JObj? && Get(j.fields, "x").None? ==> r == Failure(KeyError("x"))
    ensures !j.JObj? ==> r.Failure? && r.error.TypeError?
  {
    match AsObject(j)
    case Failure(e) => Failure(e)
    case Success(fields) =>
      match Index(fields, "x")
      case Failure(e) => Failure(e)
      case Success(jx) =>
        match Index(fields, "y")
        case Failure(e) => Failure(e)
        case Success(jy) =>
          match AsReal(jx, "x")
          case Failure(e) => Failure(e)
          case Success(x) =>
            match AsReal(jy, "y")
            case Failure(e) => Failure(e)
            case Success(y) => Success(Vec(x, y))
  }

  /** Subtraction undoes addition: taking either summand away again gives the other. */
  lemma AddSubCancel(a: Vec, b: Vec)
    ensures Sub(Add(a, b), b) == a && Sub(Add(a, b), a) == b
  {
  }

  /** The dot product is symmetric, and a vector with itself gives its squared length. */
  lemma DotFacts(a: Vec, b: Vec)
    ensures Dot(a, b) == Dot(b, a)
    ensures Dot(a, a) == NormSq(a)
  {
  }

  /** `from_tuple` is a left inverse too: a tuple read into a vector is given back unchanged. */
  lemma TupleRoundTrip(t: (real, real))
    ensures ToTuple(FromTuple(t)) == t
  {
  }

  /** A vector across the normal is only scaled by `1 - loss`, and a total loss stops every vector. */
  lemma ReflectAcross(v: Vec, n: Vec, loss: real)
    ensures Dot(v, n) == 0.0 ==> Reflect(v, n, loss) == Scale(v, 1.0 - loss)
    ensures loss == 1.0 ==> Reflect(v, n, loss) == Zero
  {
  }

  /** With a unit normal and no loss, reflection negates the normal component. */
  lemma ReflectNormal(v: Vec, n: Vec)
    requires NormSq(n) == 1.0
    ensures Dot(Reflect(v, n, 0.0), n) == -Dot(v, n)
  {
  }

  /** With a unit normal and no loss, reflection keeps every component orthogonal to the normal. */
  lemma ReflectTangent(v: Vec, n: Vec, t: Vec)
    requires Dot(n, t) == 0.0
    ensures Dot(Reflect(v, n, 0.0), t) == Dot(v, t)
  {
    var k := 2.0 * Dot(v, n);
    assert Reflect(v, n, 0.0) == Vec(v.x - k * n.x, v.y - k * n.y);
    SubtractAlong(v, n, t, k);
  }

  /** Dotting `v - k * n` with `t` distributes over the difference. */
  lemma SubtractAlong(v: Vec, n: Vec, t: Vec, k: real)
    ensures Dot(Vec(v.x - k * n.x, v.y - k * n.y), t) == Dot(v, t) - k * Dot(n, t)
  {
    assert (v.x - k * n.x) * t.x == v.x * t.x - k * (n.x * t.x);
    assert (v.y - k * n.y) * t.y == v.y * t.y - k * (n.y * t.y);
  }

  /** With a unit normal and no loss, reflecting twice gives the vector back. */
  lemma ReflectTwice(v: Vec, n: Vec)
    requires NormSq(n) == 1.0
    ensures Reflect(Reflect(v, n, 0.0), n, 0.0) == v
  {
  }

  /** With a unit normal, reflection scales the squared length by (1 - loss)^2. */
  lemma ReflectNorm(v: Vec, n: Vec, loss: real)
    requires NormSq(n) == 1.0
    ensures NormSq(Reflect(v, n, loss)) == (1.0 - loss) * (1.0 - loss) * NormSq(v)
  {
  }

  lemma NormSqScale(v: Vec, c: real)
    ensures NormSq(Scale(v, c)) == c * c * NormSq(v)
  {
  }

  /** Scaling a vector of length s by m/s gives it squared length m^2. */
  lemma ScaleToLength(v: Vec, s: real, m: real)
    requires 0.0 < s && s * s == NormSq(v)
    ensures NormSq(Scale(v, m / s)) == m * m
  {
    var c := m / s;
    NormSqScale(v, c);
    var n := NormSq(v);
    var q := s * s;
    ScaleEqual(c, n, q);
    SquareOfQuotient(m, s);
  }

  /** Dividing a vector by its positive length gives a unit vector. */
  lemma DivideByLength(v: Vec, s: real)
    requires 0.0 < s && s * s == NormSq(v)
    ensures NormSq(DivBy(v, s)) == 1.0
  {
    assert DivBy(v, s) == Scale(v, 1.0 / s);
    ScaleToLength(v, s, 1.0);
  }

  /** The length a host square root gives a vector. */
  function Length(sqrt: real -> real, v: Vec): real
  {
    sqrt(v.x * v.x + v.y * v.y)
  }

  lemma LengthFacts(sqrt: real -> real, v: Vec)
    requires IsSqrt(sqrt)
    ensures 0.0 <= Length(sqrt, v) && Length(sqrt, v) * Length(sqrt, v) == NormSq(v)
  {
    var n := v.x * v.x + v.y * v.y;
    assert 0.0 <= n;
    assert sqrt(n) * sqrt(n) == n;
  }
}
