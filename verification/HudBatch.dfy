/** The batched vertex stream of the boot HUD renderer. Quads are collected in a fixed vertex array
    and drawn a batch at a time; the model shows that nobody can tell. */
module HudBatch {

  // A multiple of the six vertices of a quad.
  const MAX_VTX: nat := 24576

  datatype Vtx = Vtx(x: real, y: real, u: real, v: real, r: real, g: real, b: real, a: real,
                     ew: real, eh: real, er: real, em: real)

  datatype View = View(scale: real, ox: real, oy: real)

  const IDENTITY := View(1.0, 0.0, 0.0)

  /** The arguments of emit_quad(). */
  datatype Quad = Quad(x0: real, y0: real, x1: real, y1: real, u0: real, v0: real, u1: real, v1: real,
                       r: real, g: real, b: real, a: real, ew: real, eh: real, er: real, em: real)

  /** One glDrawArrays() call with the view uniform it was made under. */
  datatype Draw = Draw(view: View, verts: seq<Vtx>)

  function Corner(q: Quad, right: bool, bottom: bool): Vtx {
    Vtx(if right then q.x1 else q.x0, if bottom then q.y1 else q.y0,
        if right then q.u1 else q.u0, if bottom then q.v1 else q.v0,
        q.r, q.g, q.b, q.a, q.ew, q.eh, q.er, q.em)
  }

  /** The two triangles of a quad. */
  function QuadVerts(q: Quad): seq<Vtx> {
    [Corner(q, false, false), Corner(q, true, false), Corner(q, false, true),
     Corner(q, true, false), Corner(q, true, true), Corner(q, false, true)]
  }

  /** The point between three vertices that lies at these weights, with the texture point interpolated there. */
  function Between(v: seq<Vtx>, i: nat, a: real, b: real, c: real): (real, real, real, real)
    requires i + 2 < |v|
  {
    (Mix(v[i].x, v[i + 1].x, v[i + 2].x, a, b, c), Mix(v[i].y, v[i + 1].y, v[i + 2].y, a, b, c),
     Mix(v[i].u, v[i + 1].u, v[i + 2].u, a, b, c), Mix(v[i].v, v[i + 1].v, v[i + 2].v, a, b, c))
  }

  function Mix(p: real, q: real, r: real, a: real, b: real, c: real): real { a * p + b * q + c * r }

  function Along(from: real, to: real, s: real): real { from + s * (to - from) }

  /** The two triangles cover the quad, each point at s and t of its width and height shows the texture at s and t of
      its range, and the color and edge are the same all over. */
  lemma QuadTextured(q: Quad, s: real, t: real)
    requires 0.0 <= s <= 1.0 && 0.0 <= t <= 1.0
    ensures var spot := (Along(q.x0, q.x1, s), Along(q.y0, q.y1, t), Along(q.u0, q.u1, s), Along(q.v0, q.v1, t));
      if s + t <= 1.0 then Between(QuadVerts(q), 0, 1.0 - s - t, s, t) == spot
          else Between(QuadVerts(q), 3, 1.0 - t, s + t - 1.0, 1.0 - s) == spot
    ensures forall i | 0 <= i < 6 :: var v := QuadVerts(q)[i];
      (v.r, v.g, v.b, v.a) == (q.r, q.g, q.b, q.a) && (v.ew, v.eh, v.er, v.em) == (q.ew, q.eh, q.er, q.em)
  {
    FirstHalf(q.x0, q.x1, s, t);
    FirstHalf(q.u0, q.u1, s, t);
    FirstHalf(q.y0, q.y1, t, s);
    FirstHalf(q.v0, q.v1, t, s);
    hide Mix, Along;
  }

  /** An end of a range at the second weight, or at the last two, is as far along the range. */
  lemma FirstHalf(from: real, to: real, s: real, t: real)
    ensures Mix(from, to, from, 1.0 - s - t, s, t) == Along(from, to, s)
    ensures Mix(from, from, to, 1.0 - t - s, t, s) == Along(from, to, s)
    ensures Mix(to, to, from, 1.0 - t, s + t - 1.0, 1.0 - s) == Along(from, to, s)
    ensures Mix(from, to, to, 1.0 - s, s + t - 1.0, 1.0 - t) == Along(from, to, s)
  {
  }

  /** What a draw call puts on the screen: its vertices in order, each under the call's view. */
  function Shown(view: View, verts: seq<Vtx>): seq<(View, Vtx)> {
    seq(|verts|, i requires 0 <= i < |verts| => (view, verts[i]))
  }

  function Painted(draws: seq<Draw>): seq<(View, Vtx)> {
    if draws == [] then []
    else Painted(draws[..|draws| - 1]) + Shown(draws[|draws| - 1].view, draws[|draws| - 1].verts)
  }

  /** Calls on the renderer. */
  datatype Cmd = Begin | SetView(scale: real, xoff: real, yoff: real) | DrawQuad(q: Quad) | Present

  function Clamped(scale: real): real { if scale < 0.05 then 0.05 else scale }

  /** An unbatched renderer: the view in force and everything painted since the frame began. */
  datatype Direct = Direct(view: View, painted: seq<(View, Vtx)>)

  function DirectStep(d: Direct, c: Cmd): Direct {
    match c
    case Begin => Direct(IDENTITY, [])
    case SetView(s, x, y) => Direct(View(Clamped(s), x, y), d.painted)
    case DrawQuad(q) => Direct(d.view, d.painted + Shown(d.view, QuadVerts(q)))
    case Present => d
  }

  function DirectRun(d: Direct, cmds: seq<Cmd>): Direct {
    if cmds == [] then d else DirectStep(DirectRun(d, cmds[..|cmds| - 1]), cmds[|cmds| - 1])
  }

  /** Batches are nonempty, hold whole quads and fit the vertex array. */
  predicate WholeQuads(d: Draw) {
    0 < |d.verts| <= MAX_VTX && Sixfold(|d.verts|)
  }

  predicate Sixfold(n: nat) { n % 6 == 0 }

  /** A quad that starts below the array's end also ends within it. */
  lemma QuadFits(n: nat)
    requires Sixfold(n) && n < MAX_VTX
    ensures n + 6 <= MAX_VTX && Sixfold(n + 6)
  {
  }

  lemma ShownConcat(view: View, a: seq<Vtx>, b: seq<Vtx>)
    ensures Shown(view, a + b) == Shown(view, a) + Shown(view, b)
  {
  }

  lemma ShownQuad(view: View, q: Quad)
    ensures var t := Shown(view, QuadVerts(q));
      && |t| == 6
      && t[0] == (view, Corner(q, false, false)) && t[1] == (view, Corner(q, true, false))
      && t[2] == (view, Corner(q, false, true)) && t[3] == (view, Corner(q, true, false))
      && t[4] == (view, Corner(q, true, true)) && t[5] == (view, Corner(q, false, true))
  {
  }

  lemma PaintedSnoc(draws: seq<Draw>, d: Draw)
    ensures Painted(draws + [d]) == Painted(draws) + Shown(d.view, d.verts)
  {
    assert (draws + [d])[..|draws|] == draws;
  }

  class Renderer {
    const vtx: array<Vtx>
    var nverts: nat
    var ready: bool
    var view: View
    var statNverts: nat
    var statNflushes: nat
    // The draw calls since the frame began, and the vertices emitted with the view then in force.
    ghost var draws: seq<Draw>
    ghost var emitted: seq<(View, Vtx)>

    constructor ()
      ensures Valid() && Whole() && !ready
    {
      var origin := Vtx(0.0, 0.0, 0.0, 0.0, 0.0, 0.0, 0.0, 0.0, 0.0, 0.0, 0.0, 0.0);
      vtx := new Vtx[MAX_VTX](_ => origin);
      nverts, ready, view, statNverts, statNflushes := 0, false, IDENTITY, 0, 0;
      draws, emitted := [], [];
    }

    /** Nothing is lost: what has been drawn and what is waiting is what has been emitted. */
    ghost predicate Valid()
      reads this, vtx
    {
      && vtx.Length == MAX_VTX && nverts <= MAX_VTX
      && emitted == Painted(draws) + Shown(view, vtx[..nverts])
      && (forall i | 0 <= i < |draws| :: WholeQuads(draws[i]))
      && statNverts == |Painted(draws)| && statNflushes == |draws|
    }

    /** No quad is half emitted. */
    ghost predicate Whole()
      reads this
    {
      Sixfold(nverts)
    }

    /** flush_batch(). */
    method FlushBatch()
      requires Valid() && Whole()
      modifies this
      ensures Valid() && Whole() && ready == old(ready) && view == old(view) && emitted == old(emitted)
      ensures ready ==> nverts == 0 && emitted == Painted(draws)
      ensures !ready ==> nverts == old(nverts) && draws == old(draws)
    {
      if nverts < 3 || !ready {
        return;
      }
      var batch := vtx[..nverts];
      PaintedSnoc(draws, Draw(view, batch));
      draws := draws + [Draw(view, batch)];
      statNverts := statNverts + nverts;
      statNflushes := statNflushes + 1;
      nverts := 0;
    }

    /** emit_v(): a full array is flushed first, which can only happen between quads. The vertex is
        entry k of the list t being emitted since e0. */
    method EmitV(v: Vtx, ghost e0: seq<(View, Vtx)>, ghost t: seq<(View, Vtx)>, ghost k: nat)
      requires Valid() && ready && (nverts == MAX_VTX ==> Whole())
      requires k < |t| && t[k] == (view, v) && emitted == e0 + t[..k]
      modifies this, vtx
      ensures Valid() && ready && view == old(view) && emitted == e0 + t[..k + 1]
      ensures nverts == (if old(nverts) == MAX_VTX then 0 else old(nverts)) + 1
    {
      if nverts >= MAX_VTX {
        FlushBatch();
      }
      vtx[nverts] := v;
      nverts := nverts + 1;
      assert vtx[..nverts] == vtx[..nverts - 1] + [v];
      ShownConcat(view, vtx[..nverts - 1], [v]);
      emitted := emitted + [(view, v)];
    }

    /** Three vertices of emit_quad(): one triangle. */
    method EmitTriangle(a: Vtx, b: Vtx, c: Vtx, ghost e0: seq<(View, Vtx)>, ghost t: seq<(View, Vtx)>, ghost k: nat)
      requires Valid() && ready && (nverts == MAX_VTX ==> Whole()) && (nverts < MAX_VTX ==> nverts + 3 <= MAX_VTX)
      requires k + 3 <= |t| && t[k] == (view, a) && t[k + 1] == (view, b) && t[k + 2] == (view, c)
      requires emitted == e0 + t[..k]
      modifies this, vtx
      ensures Valid() && ready && view == old(view) && emitted == e0 + t[..k + 3]
      ensures nverts == (if old(nverts) == MAX_VTX then 0 else old(nverts)) + 3
    {
      hide Valid, Sixfold;
      EmitV(a, e0, t, k);
      EmitV(b, e0, t, k + 1);
      EmitV(c, e0, t, k + 2);
    }

    /** emit_quad(). */
    method EmitQuad(q: Quad)
      requires Valid() && Whole() && ready
      modifies this, vtx
      ensures Valid() && Whole() && ready && view == old(view)
      ensures emitted == old(emitted) + Shown(view, QuadVerts(q))
    {
      assert nverts <= MAX_VTX && Sixfold(0);
      QuadFits(if nverts == MAX_VTX then 0 else nverts);
      hide Valid, Shown, QuadVerts, Corner, Sixfold;
      ghost var e0, t := emitted, Shown(view, QuadVerts(q));
      ShownQuad(view, q);
      EmitTriangle(Corner(q, false, false), Corner(q, true, false), Corner(q, false, true), e0, t, 0);
      EmitTriangle(Corner(q, true, false), Corner(q, true, true), Corner(q, false, true), e0, t, 3);
    }

    /** hud_gl_fill_round(): the corner radius is clamped so that both corners fit either side. */
    method FillRound(x: int, y: int, w: int, h: int, radius: int, cr: real, cg: real, cb: real) returns (r: int)
      requires Valid() && Whole() && ready
      modifies this, vtx
      ensures Valid() && Whole() && ready && view == old(view)
      ensures w < 1 || h < 1 ==> emitted == old(emitted)
      ensures w >= 1 && h >= 1 ==> 0 <= r && 2 * r <= w && 2 * r <= h
      ensures w >= 1 && h >= 1 && 0 <= 2 * radius <= w && 2 * radius <= h ==> r == radius
      ensures w >= 1 && h >= 1 ==> emitted == old(emitted) + Shown(view, QuadVerts(
        Quad(x as real, y as real, (x + w) as real, (y + h) as real, 0.0, 0.0, w as real, h as real,
             cr, cg, cb, 1.0, w as real, h as real, r as real, 0.0)))
    {
      r := radius;
      if w < 1 || h < 1 {
        return;
      }
      if r < 0 {
        r := 0;
      }
      if r * 2 > w {
        r := w / 2;
      }
      if r * 2 > h {
        r := h / 2;
      }
      EmitQuad(Quad(x as real, y as real, (x + w) as real, (y + h) as real, 0.0, 0.0, w as real, h as real,
                    cr, cg, cb, 1.0, w as real, h as real, r as real, 0.0));
    }

    /** hud_gl_begin(): a new frame starts from nothing; vertices never presented are dropped. */
    method BeginFrame()
      requires Valid()
      modifies this
      ensures Valid() && Whole() && ready == old(ready) && nverts == 0
      ensures view == IDENTITY && draws == [] && emitted == []
    {
      nverts, statNverts, statNflushes := 0, 0, 0;
      view := IDENTITY;
      draws, emitted := [], [];
    }

    /** hud_gl_set_view(): what is waiting is drawn under the view it was emitted with. */
    method ChangeView(scale: real, xoff: real, yoff: real)
      requires Valid() && Whole() && ready
      modifies this
      ensures Valid() && Whole() && ready && nverts == 0 && emitted == old(emitted)
      ensures view == View(Clamped(scale), xoff, yoff)
    {
      FlushBatch();
      var s := scale;
      if s < 0.05 {
        s := 0.05;
      }
      view := View(s, xoff, yoff);
    }

    /** hud_gl_present(). */
    method PresentFrame()
      requires Valid() && Whole() && ready
      modifies this
      ensures Valid() && Whole() && ready && nverts == 0 && view == old(view)
      ensures emitted == old(emitted) == Painted(draws)
    {
      FlushBatch();
    }

    /** Any sequence of calls on a ready renderer draws and keeps waiting exactly what the unbatched
        renderer paints, and after a present nothing is left waiting. */
    method Run(cmds: seq<Cmd>)
      requires Valid() && Whole() && ready
      modifies this, vtx
      ensures Valid() && Whole() && ready
      ensures Direct(view, Painted(draws) + Shown(view, vtx[..nverts])) == DirectRun(old(Direct(view, emitted)), cmds)
      ensures cmds != [] && cmds[|cmds| - 1] == Present ==>
        Painted(draws) == DirectRun(old(Direct(view, emitted)), cmds).painted
    {
      ghost var d0 := Direct(view, emitted);
      for n := 0 to |cmds|
        invariant Valid() && Whole() && ready
        invariant Direct(view, emitted) == DirectRun(d0, cmds[..n])
        invariant n > 0 && cmds[n - 1] == Present ==> emitted == Painted(draws)
      {
        assert cmds[..n + 1][..n] == cmds[..n];
        match cmds[n] {
          case Begin => BeginFrame();
          case SetView(s, x, y) => ChangeView(s, x, y);
          case DrawQuad(q) => EmitQuad(q);
          case Present => PresentFrame();
        }
      }
      assert cmds[..|cmds|] == cmds;
    }
  }
}
