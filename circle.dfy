/** The circle's vertex data: a float array filled once at start-up, three floats per
    vertex (x, y and the shader's scalar attribute). */
module Circle {
  import opened Defs

  /** One vertex as the vertex array reads it from the buffer: the position from the
      first two floats of each group of three, the scalar attribute from the third. */
  datatype Vertex = Vertex(x: real, y: real, attribute: real)

  /** Radius of the circle in the shape's local units. */
  const Radius: real := 0.3

  /** The angle the fill loop computes at flat array index i:
      `(PI * 2 / CIRCLERESOLUTION) * i`. */
  function FlatAngle(i: nat): real
  {
    (Pi * 2.0 / CircleResolution as real) * i as real
  }

  /** The vertices the fill loop produces. Vertex k is written at flat index 3k and its
      angle is taken from that flat index, so vertex k lies at FlatAngle(3k). */
  function CircleVertices(trig: Trig): (vs: seq<Vertex>)
    ensures |vs| == CircleResolution
  {
    seq(CircleResolution, k requires 0 <= k =>
      Vertex(trig.cos(FlatAngle(3 * k)) * Radius, trig.sin(FlatAngle(3 * k)) * Radius, 1.0))
  }

  /** Vertices laid out as floats, three per vertex in the order x, y, attribute. */
  function Flatten(vs: seq<Vertex>): seq<real>
  {
    if vs == [] then [] else [vs[0].x, vs[0].y, vs[0].attribute] + Flatten(vs[1..])
  }

  /** How the vertex array reads the buffer back: stride three floats, the position at
      offset 0 and the attribute at offset 2. */
  function Unflatten(fs: seq<real>): seq<Vertex>
    requires |fs| % 3 == 0
  {
    if fs == [] then [] else [Vertex(fs[0], fs[1], fs[2])] + Unflatten(fs[3..])
  }

  lemma {:induction false} FlattenLength(vs: seq<Vertex>)
    ensures |Flatten(vs)| == 3 * |vs|
  {
    if vs != [] {
      FlattenLength(vs[1..]);
    }
  }

  /** Vertex k occupies exactly the floats 3k, 3k + 1 and 3k + 2. */
  lemma {:induction false} FlattenAt(vs: seq<Vertex>, k: nat)
    requires k < |vs|
    ensures |Flatten(vs)| == 3 * |vs|
    ensures Flatten(vs)[3 * k] == vs[k].x
    ensures Flatten(vs)[3 * k + 1] == vs[k].y
    ensures Flatten(vs)[3 * k + 2] == vs[k].attribute
  {
    FlattenLength(vs);
    if k > 0 {
      FlattenAt(vs[1..], k - 1);
    }
  }

  /** Appending a vertex appends its three floats. */
  lemma {:induction false} FlattenAppend(vs: seq<Vertex>, v: Vertex)
    ensures Flatten(vs + [v]) == Flatten(vs) + [v.x, v.y, v.attribute]
  {
    if vs != [] {
      assert (vs + [v])[1..] == vs[1..] + [v];
      FlattenAppend(vs[1..], v);
    }
  }

  /** Reading the buffer back with the vertex array's layout gives the vertices that
      were written, and every buffer of whole vertices is the layout of its reading. */
  lemma {:induction false} UnflattenFlatten(vs: seq<Vertex>)
    ensures |Flatten(vs)| % 3 == 0 && Unflatten(Flatten(vs)) == vs
  {
    FlattenLength(vs);
    if vs != [] {
      var fs := Flatten(vs);
      assert fs[3..] == Flatten(vs[1..]);
      UnflattenFlatten(vs[1..]);
    }
  }

  lemma {:induction false} FlattenUnflatten(fs: seq<real>)
    requires |fs| % 3 == 0
    ensures Flatten(Unflatten(fs)) == fs
  {
    if fs != [] {
      var vs := Unflatten(fs);
      assert vs[1..] == Unflatten(fs[3..]);
      FlattenUnflatten(fs[3..]);
    }
  }

  /** The filled array has 300 entries; for every vertex k < 100, entry 3k + 2 is 1.0 and
      entries 3k and 3k + 1 are 0.3 times the cosine and sine of the angle at flat index
      3k, that is 3k steps of 2 Pi / 100, not k steps. */
  lemma CircleLayout(trig: Trig, k: nat)
    requires k < CircleResolution
    ensures var fs := Flatten(CircleVertices(trig));
      |fs| == 300 &&
      fs[3 * k] == trig.cos(3.0 * k as real * (2.0 * Pi / 100.0)) * 0.3 &&
      fs[3 * k + 1] == trig.sin(3.0 * k as real * (2.0 * Pi / 100.0)) * 0.3 &&
      fs[3 * k + 2] == 1.0
  {
    var vs := CircleVertices(trig);
    FlattenAt(vs, k);
    assert FlatAngle(3 * k) == 3.0 * k as real * (2.0 * Pi / 100.0);
  }

  /** Fills the array with the circle, one vertex (three floats) per iteration. */
  method FillCircle(circle: array<real>, trig: Trig)
    requires circle.Length == 3 * CircleResolution
    modifies circle
    ensures circle[..] == Flatten(CircleVertices(trig))
  {
    ghost var vs := CircleVertices(trig);
    var i := 0;
    while i < 3 * CircleResolution
      invariant 0 <= i <= 3 * CircleResolution && i % 3 == 0
      invariant circle[..i] == Flatten(vs[..i / 3])
    {
      circle[i] := trig.cos(FlatAngle(i)) * Radius;
      circle[i + 1] := trig.sin(FlatAngle(i)) * Radius;
      circle[i + 2] := 1.0;
      FlattenAppend(vs[..i / 3], vs[i / 3]);
      assert vs[..i / 3 + 1] == vs[..i / 3] + [vs[i / 3]];
      assert circle[..i + 3] == circle[..i] + [circle[i], circle[i + 1], circle[i + 2]];
      i := i + 3;
    }
    assert vs[..i / 3] == vs;
    assert circle[..] == circle[..i];
  }
}
