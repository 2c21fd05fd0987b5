/** The glyph atlas of the boot HUD: any number of fonts packed on shelves of one texture. */
module HudAtlas {

  import opened Common

  const ATLAS_W: nat := 2048
  const ATLAS_H: nat := 2048
  const MAX_FONTS: nat := 4

  /** A glyph's bitmap is w * h bytes of its font's bits, row by row, from off. */
  datatype Glyph = Glyph(w: nat, h: nat, off: nat)

  datatype RawFont = RawFont(glyphs: seq<Glyph>, bits: seq<byte>)

  type Font = f: RawFont | forall i | 0 <= i < |f.glyphs| :: f.glyphs[i].off + f.glyphs[i].w * f.glyphs[i].h <= |f.bits|
    witness RawFont([], [])

  datatype PackedFont = PackedFont(f: Font, x: seq<nat>, y: seq<nat>)

  datatype Rect = Rect(x: nat, y: nat, w: nat, h: nat)

  predicate Inside(r: Rect) { r.x + r.w <= ATLAS_W && r.y + r.h <= ATLAS_H }

  predicate Apart(a: Rect, b: Rect) {
    a.x + a.w <= b.x || b.x + b.w <= a.x || a.y + a.h <= b.y || b.y + b.h <= a.y
  }

  function Cell(cx: nat, cy: nat): nat { cy * ATLAS_W + cx }

  /** Where row `row` of the glyph starts in the font's bits. */
  function RowStart(g: Glyph, row: nat): nat { g.off + row * g.w }

  lemma RowInBits(f: Font, i: nat, row: nat)
    requires i < |f.glyphs| && row < f.glyphs[i].h
    ensures RowStart(f.glyphs[i], row) + f.glyphs[i].w <= |f.bits|
  {
    var g := f.glyphs[i];
    assert row * g.w + g.w == (row + 1) * g.w;
    assert (row + 1) * g.w <= g.h * g.w;
  }

  /** The image shows the first `rows` rows of glyph i of f in the rectangle. */
  ghost predicate Shows(img: seq<byte>, r: Rect, f: Font, i: nat, rows: nat) {
    && i < |f.glyphs| && rows <= r.h == f.glyphs[i].h && r.w == f.glyphs[i].w
    && |img| == ATLAS_W * ATLAS_H && Inside(r)
    && forall cx: nat, cy: nat | r.x <= cx < r.x + r.w && r.y <= cy < r.y + rows ::
         PixelIs(img, r, f, i, cx, cy)
  }

  /** The pixel at (cx, cy) is the one glyph i of f has there when drawn in the rectangle. */
  predicate PixelIs(img: seq<byte>, r: Rect, f: Font, i: nat, cx: nat, cy: nat) {
    && i < |f.glyphs| && r.x <= cx && r.y <= cy && Cell(cx, cy) < |img|
    && var k := RowStart(f.glyphs[i], cy - r.y) + (cx - r.x);
    k < |f.bits| && img[Cell(cx, cy)] == f.bits[k]
  }

  /** Nothing outside the first `rows` rows of the rectangle has changed. */
  ghost predicate SameOutside(img: seq<byte>, after: seq<byte>, r: Rect, rows: nat) {
    && |img| == |after| == ATLAS_W * ATLAS_H
    && forall cx: nat, cy: nat | cx < ATLAS_W && cy < ATLAS_H && !(r.x <= cx < r.x + r.w && r.y <= cy < r.y + rows) ::
         SameCell(img, after, cx, cy)
  }

  predicate SameCell(img: seq<byte>, after: seq<byte>, cx: nat, cy: nat) {
    Cell(cx, cy) < |img| == |after| && img[Cell(cx, cy)] == after[Cell(cx, cy)]
  }

  /** One row of the glyph has been copied. */
  predicate RowIn(mid: seq<byte>, after: seq<byte>, r: Rect, f: Font, i: nat, row: nat)
  {
    && |after| == |mid| && i < |f.glyphs| && RowStart(f.glyphs[i], row) + r.w <= |f.bits|
    && forall c | 0 <= c < |mid| ::
      after[c] == if Cell(r.x, r.y + row) <= c < Cell(r.x, r.y + row) + r.w
                  then f.bits[RowStart(f.glyphs[i], row) + c - Cell(r.x, r.y + row)] else mid[c]
  }

  /** Copying one row extends what is shown by that row and touches nothing else. */
  lemma RowCopied(img: seq<byte>, mid: seq<byte>, after: seq<byte>, r: Rect, f: Font, i: nat, row: nat)
    requires Shows(mid, r, f, i, row) && SameOutside(img, mid, r, row) && row < r.h
    requires Cell(r.x, r.y + row) + r.w <= |mid| && RowIn(mid, after, r, f, i, row)
    ensures Shows(after, r, f, i, row + 1) && SameOutside(img, after, r, row + 1)
  {
    hide RowIn, PixelIs, SameCell;
    forall cx: nat, cy: nat | r.x <= cx < r.x + r.w && r.y <= cy < r.y + row + 1
      ensures PixelIs(after, r, f, i, cx, cy)
    {
      if cy < r.y + row {
        assert PixelIs(mid, r, f, i, cx, cy);
      }
      RowPixel(mid, after, r, f, i, row, cx, cy);
    }
    forall cx: nat, cy: nat | cx < ATLAS_W && cy < ATLAS_H && !(r.x <= cx < r.x + r.w && r.y <= cy < r.y + row + 1)
      ensures SameCell(img, after, cx, cy)
    {
      assert SameCell(img, mid, cx, cy);
      RowElsewhere(img, mid, after, r, f, i, row, cx, cy);
    }
    assert |after| == |mid| by { RowSize(mid, after, r, f, i, row); }
  }

  lemma RowSize(mid: seq<byte>, after: seq<byte>, r: Rect, f: Font, i: nat, row: nat)
    requires RowIn(mid, after, r, f, i, row)
    ensures |after| == |mid|
  {
  }

  lemma RowPixel(mid: seq<byte>, after: seq<byte>, r: Rect, f: Font, i: nat, row: nat, cx: nat, cy: nat)
    requires RowIn(mid, after, r, f, i, row) && |mid| == ATLAS_W * ATLAS_H && Inside(r) && row < r.h
    requires r.x <= cx < r.x + r.w && r.y <= cy < r.y + row + 1
    requires cy < r.y + row ==> PixelIs(mid, r, f, i, cx, cy)
    ensures PixelIs(after, r, f, i, cx, cy)
  {
    var base := Cell(r.x, r.y + row);
    if cy == r.y + row {
      assert Cell(cx, cy) == base + (cx - r.x);
    } else {
      assert Cell(cx, cy) < base;
    }
  }

  lemma RowElsewhere(img: seq<byte>, mid: seq<byte>, after: seq<byte>, r: Rect, f: Font, i: nat, row: nat, cx: nat,
                     cy: nat)
    requires RowIn(mid, after, r, f, i, row) && |mid| == ATLAS_W * ATLAS_H && Inside(r)
    requires cx < ATLAS_W && cy < ATLAS_H && !(r.x <= cx < r.x + r.w && r.y <= cy < r.y + row + 1)
    requires SameCell(img, mid, cx, cy)
    ensures SameCell(img, after, cx, cy)
  {
    var base := Cell(r.x, r.y + row);
    assert !(base <= Cell(cx, cy) < base + r.w);
  }

  /** A picture apart from everything that changed is still there. */
  lemma StillShown(img: seq<byte>, after: seq<byte>, changed: Rect, r: Rect, f: Font, i: nat)
    requires Shows(img, r, f, i, r.h) && SameOutside(img, after, changed, changed.h) && Apart(r, changed)
    ensures Shows(after, r, f, i, r.h)
  {
    forall cx: nat, cy: nat | r.x <= cx < r.x + r.w && r.y <= cy < r.y + r.h
      ensures PixelIs(after, r, f, i, cx, cy)
    {
      assert PixelIs(img, r, f, i, cx, cy);
      assert SameCell(img, after, cx, cy);
    }
  }

  lemma ApartSwap(a: Rect, b: Rect)
    ensures Apart(a, b) <==> Apart(b, a)
  {
  }

  // ---- shelves ----

  datatype Shelf = Shelf(x: nat, y: nat, rowH: nat)

  /** The shelf a glyph of width w goes on: the current one, or a new one below it. */
  function ShelfFor(s: Shelf, w: nat): Shelf {
    if s.x + w + 1 >= ATLAS_W then Shelf(1, s.y + s.rowH + 1, 0) else s
  }

  /** The rectangle is packed before the next free spot of shelf s. */
  predicate Before(r: Rect, s: Shelf) {
    || (r.y == s.y && r.x + r.w + 1 <= s.x && r.h <= s.rowH)
    || r.y + r.h + 1 <= s.y
  }

  /** Opening a new shelf keeps every packed rectangle before it, and the next spot apart from them. */
  lemma NextSpotApart(s: Shelf, w: nat, h: nat, r: Rect)
    requires Before(r, s)
    ensures Before(r, ShelfFor(s, w))
    ensures var t := ShelfFor(s, w); Apart(r, Rect(t.x, t.y, w, h))
  {
  }

  /** Taking the spot keeps every packed rectangle before the shelf, the new one included. */
  lemma SpotTaken(t: Shelf, w: nat, h: nat, r: Rect)
    requires Before(r, t) || r == Rect(t.x, t.y, w, h)
    ensures Before(r, Shelf(t.x + w + 1, t.y, if h > t.rowH then h else t.rowH))
  {
  }

  // ---- the packed set ----

  predicate TablesOk(fonts: seq<PackedFont>) {
    forall k | 0 <= k < |fonts| :: |fonts[k].x| == |fonts[k].y| == |fonts[k].f.glyphs|
  }

  predicate Known(fonts: seq<PackedFont>, p: (nat, nat)) {
    TablesOk(fonts) && p.0 < |fonts| && p.1 < |fonts[p.0].f.glyphs|
  }

  /** Where the tables say glyph p.1 of font p.0 is. */
  function RectOf(fonts: seq<PackedFont>, p: (nat, nat)): Rect
    requires Known(fonts, p)
  {
    var g := fonts[p.0].f.glyphs[p.1];
    Rect(fonts[p.0].x[p.1], fonts[p.0].y[p.1], g.w, g.h)
  }

  ghost predicate Packed(img: seq<byte>, fonts: seq<PackedFont>, p: (nat, nat), s: Shelf) {
    && Known(fonts, p)
    && var r := RectOf(fonts, p);
    r.w >= 1 && r.h >= 1 && Before(r, s) && Shows(img, r, fonts[p.0].f, p.1, r.h)
  }

  ghost predicate PairApart(fonts: seq<PackedFont>, p: (nat, nat), q: (nat, nat)) {
    Known(fonts, p) && Known(fonts, q) && Apart(RectOf(fonts, p), RectOf(fonts, q))
  }

  /** Every packed glyph shows its bitmap inside the atlas, and no two overlap. */
  ghost predicate AllPacked(img: seq<byte>, fonts: seq<PackedFont>, packed: set<(nat, nat)>, s: Shelf) {
    && (forall p | p in packed :: Packed(img, fonts, p, s))
    && (forall p, q | p in packed && q in packed && p != q :: PairApart(fonts, p, q))
  }

  function Moved(fonts: seq<PackedFont>, p: (nat, nat), x: nat, y: nat): seq<PackedFont>
    requires Known(fonts, p)
  {
    var pf := fonts[p.0];
    fonts[p.0 := pf.(x := pf.x[p.1 := x], y := pf.y[p.1 := y])]
  }

  /** Moving one table entry leaves every other glyph where it is. */
  lemma MovedElsewhere(fonts: seq<PackedFont>, p: (nat, nat), x: nat, y: nat, q: (nat, nat))
    requires Known(fonts, p) && Known(fonts, q)
    ensures Known(Moved(fonts, p, x, y), q) && Moved(fonts, p, x, y)[q.0].f == fonts[q.0].f
    ensures RectOf(Moved(fonts, p, x, y), q) ==
      if p == q then Rect(x, y, RectOf(fonts, q).w, RectOf(fonts, q).h) else RectOf(fonts, q)
  {
  }

  /** One more glyph drawn on its spot joins the packed set. */
  lemma GlyphJoins(img: seq<byte>, after: seq<byte>, fonts: seq<PackedFont>, packed: set<(nat, nat)>, p: (nat, nat),
                   s: Shelf)
    requires AllPacked(img, fonts, packed, s) && Known(fonts, p) && p !in packed
    requires var g := fonts[p.0].f.glyphs[p.1];
      var t := ShelfFor(s, g.w);
      var r := Rect(t.x, t.y, g.w, g.h);
      && g.w >= 1 && g.h >= 1
      && Shows(after, r, fonts[p.0].f, p.1, g.h) && SameOutside(img, after, r, g.h)
    ensures var g := fonts[p.0].f.glyphs[p.1];
      var t := ShelfFor(s, g.w);
      AllPacked(after, Moved(fonts, p, t.x, t.y), packed + {p},
                Shelf(t.x + g.w + 1, t.y, if g.h > t.rowH then g.h else t.rowH))
  {
    hide Shows, SameOutside, Before, Apart, ShelfFor;
    var g := fonts[p.0].f.glyphs[p.1];
    var t := ShelfFor(s, g.w);
    var r := Rect(t.x, t.y, g.w, g.h);
    var fonts' := Moved(fonts, p, t.x, t.y);
    var u := Shelf(t.x + g.w + 1, t.y, if g.h > t.rowH then g.h else t.rowH);
    MovedElsewhere(fonts, p, t.x, t.y, p);
    SpotTaken(t, g.w, g.h, r);
    forall q | q in packed
      ensures Packed(after, fonts', q, u) && Apart(RectOf(fonts', q), r)
    {
      assert Packed(img, fonts, q, s);
      var rq := RectOf(fonts, q);
      MovedElsewhere(fonts, p, t.x, t.y, q);
      NextSpotApart(s, g.w, g.h, rq);
      SpotTaken(t, g.w, g.h, rq);
      StillShown(img, after, r, rq, fonts[q.0].f, q.1);
    }
    forall q, o | q in packed + {p} && o in packed + {p} && q != o
      ensures PairApart(fonts', q, o)
    {
      if q in packed && o in packed {
        assert PairApart(fonts, q, o);
        MovedElsewhere(fonts, p, t.x, t.y, q);
        MovedElsewhere(fonts, p, t.x, t.y, o);
      } else if q in packed {
        ApartSwap(RectOf(fonts', q), r);
      } else {
        ApartSwap(RectOf(fonts', o), r);
      }
    }
  }

  predicate Drawable(g: Glyph) { g.w >= 1 && g.h >= 1 }

  predicate NarrowEnough(f: Font) {
    forall i | 0 <= i < |f.glyphs| && Drawable(f.glyphs[i]) :: f.glyphs[i].w <= ATLAS_W - 1
  }

  // ---- capacity ----

  function Drawables(gs: seq<Glyph>): nat {
    if gs == [] then 0 else Drawables(gs[..|gs| - 1]) + B2I(Drawable(gs[|gs| - 1]))
  }

  predicate AtMost(f: Font, w: nat, h: nat) {
    forall i | 0 <= i < |f.glyphs| && Drawable(f.glyphs[i]) :: f.glyphs[i].w <= w && f.glyphs[i].h <= h
  }

  /** How many glyphs of width w a shelf holds, with a pixel between them and at the left and the right. */
  function PerShelf(w: nat): nat { (ATLAS_W - 2) / (w + 1) }

  /** Even the largest of n glyphs that are at most w by h fit: as many shelves as they need are low enough. */
  predicate Room(n: nat, w: nat, h: nat) {
    && PerShelf(w) >= 1
    && (n + PerShelf(w) - 1) / PerShelf(w) * (h + 1) <= ATLAS_H - 2
  }

  /** A shelf is only left once it holds what it can. */
  lemma ShelfIsFull(x: nat, j: nat, gw: nat, w: nat)
    requires x <= 1 + j * (w + 1) && x + gw + 1 >= ATLAS_W && gw <= w
    ensures j >= PerShelf(w)
  {
    assert (j + 1) * (w + 1) == j * (w + 1) + (w + 1);
    PerShelfIs(w);
    hide PerShelf;
    Scaled(j + 1, PerShelf(w), w + 1);
  }

  lemma PerShelfIs(w: nat)
    ensures PerShelf(w) * (w + 1) <= ATLAS_W - 2
  {
  }

  lemma Scaled(a: nat, b: nat, c: nat)
    ensures a <= b ==> a * c <= b * c
  {
  }

  /** With n glyphs of at most w by h packed on so many shelves, the last of which has `last` of them, every other shelf
      holds what it can, and none is too high. */
  predicate TightAt(w: nat, h: nat, s: Shelf, n: nat, shelves: nat, last: nat) {
    && shelves >= 1 && (shelves - 1) * PerShelf(w) + last <= n
    && s.x <= 1 + last * (w + 1) && s.y <= 1 + (shelves - 1) * (h + 1) && s.rowH <= h
  }

  /** The shelf once a glyph has been placed on it. */
  function Filled(t: Shelf, g: Glyph): Shelf { Shelf(t.x + g.w + 1, t.y, Max(t.rowH, g.h)) }

  function Max(a: nat, b: nat): nat { if a >= b then a else b }

  /** One more glyph of that size keeps the shelves tight, and has room where n + 1 of them have. */
  lemma TightNext(w: nat, h: nat, s: Shelf, n: nat, shelves: nat, last: nat, g: Glyph, total: nat)
    requires TightAt(w, h, s, n, shelves, last) && g.w <= w && g.h <= h
    ensures var t := ShelfFor(s, g.w);
      && (if s.x + g.w + 1 >= ATLAS_W then TightAt(w, h, Filled(t, g), n + 1, shelves + 1, 1)
          else TightAt(w, h, Filled(t, g), n + 1, shelves, last + 1))
      && (Room(total, w, h) && n < total ==> t.y + g.h + 1 < ATLAS_H)
  {
    var t, c := ShelfFor(s, g.w), PerShelf(w);
    if s.x + g.w + 1 >= ATLAS_W {
      ShelfIsFull(s.x, last, g.w, w);
      assert shelves * c == (shelves - 1) * c + c;
      assert shelves * (h + 1) == (shelves - 1) * (h + 1) + (h + 1);
      if Room(total, w, h) && n < total {
        LowEnough(n, shelves + 1, t.y, g.h, total, w, h);
      }
    } else {
      assert (last + 1) * (w + 1) == last * (w + 1) + (w + 1);
      if Room(total, w, h) && n < total {
        LowEnough(n, shelves, t.y, g.h, total, w, h);
      }
    }
  }

  /** Where n + 1 glyphs have room, the next one after n of them on s shelves is not too low. */
  lemma LowEnough(n: nat, s: nat, y: nat, gh: nat, total: nat, w: nat, h: nat)
    requires Room(total, w, h) && n < total && s >= 1 && (s - 1) * PerShelf(w) <= n
    requires y <= 1 + (s - 1) * (h + 1) && gh <= h
    ensures y + gh + 1 < ATLAS_H
  {
    var c := PerShelf(w);
    var most := (total + c - 1) / c;
    assert s * c == (s - 1) * c + c;
    assert total + c - 1 < (most + 1) * c;
    Scaled(most + 1, s, c);
    Scaled(s, most, h + 1);
    assert s * (h + 1) == (s - 1) * (h + 1) + (h + 1);
  }

  /** Every drawable glyph of the first n fonts, and of the next one up to glyph m, has been packed. */
  ghost predicate Complete(fonts: seq<PackedFont>, packed: set<(nat, nat)>, n: nat, m: nat) {
    forall k: nat, i: nat | k < |fonts| && i < |fonts[k].f.glyphs| && (k < n || (k == n && i < m)) ::
      fonts[k].f.glyphs[i].w >= 1 && fonts[k].f.glyphs[i].h >= 1 ==> (k, i) in packed
  }

  class HudAtlas {
    var atlas: array?<byte>
    var packX: nat
    var packY: nat
    var packRowH: nat
    var atlasFail: bool
    var fonts: seq<PackedFont>
    var ready: bool
    var texture: seq<byte>
    ghost var packed: set<(nat, nat)>
    // How many shelves have been opened, and how many glyphs are on the last one.
    ghost var shelves: nat
    ghost var onShelf: nat

    constructor ()
      ensures Valid() && fonts == [] && atlas == null && !atlasFail && !ready && packed == {}
      ensures forall w: nat, h: nat :: Tight(w, h)
    {
      shelves, onShelf := 1, 0;
      atlas, packX, packY, packRowH, atlasFail := null, 1, 1, 0, false;
      fonts, ready, texture, packed := [], false, [], {};
    }

    function PackShelf(): Shelf
      reads `packX, `packY, `packRowH
    {
      Shelf(packX, packY, packRowH)
    }

    ghost predicate Tight(w: nat, h: nat)
      reads `packX, `packY, `packRowH, `packed, `shelves, `onShelf
    {
      TightAt(w, h, PackShelf(), |packed|, shelves, onShelf)
    }

    ghost predicate Valid()
      reads this, atlas
    {
      && packX >= 1 && TablesOk(fonts) && |fonts| <= MAX_FONTS
      && (atlas != null ==> atlas.Length == ATLAS_W * ATLAS_H && AllPacked(atlas[..], fonts, packed, PackShelf()))
      && (atlas == null && !ready ==> packed == {})
      && (!atlasFail ==> Complete(fonts, packed, |fonts|, 0))
      && (ready ==> !atlasFail && AllPacked(texture, fonts, packed, PackShelf()))
    }

    /** Draws glyph i of f with its top left corner at (x, y), row by row. */
    method DrawGlyph(a: array<byte>, f: Font, i: nat, x: nat, y: nat)
      requires a.Length == ATLAS_W * ATLAS_H && i < |f.glyphs|
      requires Inside(Rect(x, y, f.glyphs[i].w, f.glyphs[i].h))
      modifies a
      ensures var r := Rect(x, y, f.glyphs[i].w, f.glyphs[i].h);
        Shows(a[..], r, f, i, r.h) && SameOutside(old(a[..]), a[..], r, r.h)
    {
      hide PixelIs, RowStart;
      var g := f.glyphs[i];
      ghost var r := Rect(x, y, g.w, g.h);
      ghost var img := a[..];
      for row := 0 to g.h
        invariant Shows(a[..], r, f, i, row) && SameOutside(img, a[..], r, row)
      {
        ghost var mid := a[..];
        RowInBits(f, i, row);
        var src := RowStart(g, row);
        var base := Cell(x, y + row);
        forall c | 0 <= c < g.w {
          a[base + c] := f.bits[src + c];
        }
        RowCopied(img, mid, a[..], r, f, i, row);
      }
    }

    /** The newest font is being packed, and its first i glyphs are done. */
    ghost predicate Packing(i: nat)
      reads this, atlas
    {
      && packX >= 1 && TablesOk(fonts) && 0 < |fonts| <= MAX_FONTS && !ready && !atlasFail
      && atlas != null && atlas.Length == ATLAS_W * ATLAS_H
      && AllPacked(atlas[..], fonts, packed, PackShelf())
      && Complete(fonts, packed, |fonts| - 1, i)
      && forall p | p in packed && p.0 == |fonts| - 1 :: p.1 < i
    }

    /** The next glyph of width w starts a shelf. */
    predicate Wraps(w: nat)
      reads `packX
    {
      packX + w + 1 >= ATLAS_W
    }

    /** The top of the shelf that takes it. */
    function Top(w: nat): nat
      reads `packX, `packY, `packRowH
    {
      if Wraps(w) then packY + packRowH + 1 else packY
    }

    /** One round of the packing loop: glyph i of the newest font goes beside the last one, or below everything on
        the last shelf, and the atlas is full exactly when that is too low; then nothing more is drawn. */
    method PackGlyph(i: nat, ghost w: nat, ghost h: nat, ghost total: nat)
      requires Packing(i) && i < |fonts[|fonts| - 1].f.glyphs| && NarrowEnough(fonts[|fonts| - 1].f)
      modifies this, atlas
      ensures atlas == old(atlas) && |fonts| == |old(fonts)|
      ensures forall k | 0 <= k < |fonts| :: fonts[k].f == old(fonts)[k].f
      ensures old(packed) <= packed
      ensures !atlasFail ==> Packing(i + 1)
      ensures atlasFail ==> Valid() && packed == old(packed)
      ensures var g := fonts[|fonts| - 1].f.glyphs[i];
        && (atlasFail <==> Drawable(g) && old(Top(g.w)) + g.h + 1 >= ATLAS_H)
        && (Drawable(g) && !atlasFail ==>
            && RectOf(fonts, (|fonts| - 1, i))
               == Rect(if old(Wraps(g.w)) then 1 else old(packX), old(Top(g.w)), g.w, g.h)
            && (packX, packY) == (RectOf(fonts, (|fonts| - 1, i)).x + g.w + 1, old(Top(g.w)))
            && packRowH == Max(if old(Wraps(g.w)) then 0 else old(packRowH), g.h))
        && (!Drawable(g) ==> fonts == old(fonts) && PackShelf() == old(PackShelf()))
        && (!atlasFail ==> |packed| == |old(packed)| + B2I(Drawable(g)))
      ensures old(Tight(w, h)) && AtMost(fonts[|fonts| - 1].f, w, h) ==> atlasFail || Tight(w, h)
      ensures old(Tight(w, h)) && AtMost(fonts[|fonts| - 1].f, w, h) && Room(total, w, h) && |old(packed)| < total ==>
        !atlasFail
    {
      hide AllPacked, Complete, PerShelf, Room, TablesOk, RectOf, TightAt;
      var k := |fonts| - 1;
      var f := fonts[k].f;
      var g := f.glyphs[i];
      if g.w < 1 || g.h < 1 {
        SkippedIsComplete(fonts, packed, i);
        return;
      }
      ghost var s := PackShelf();
      if Tight(w, h) && AtMost(f, w, h) {
        TightNext(w, h, s, |packed|, shelves, onShelf, g, total);
      }
      hide AtMost;
      NextShelf(g.w);
      if packY + g.h + 1 >= ATLAS_H {
        atlasFail := true;
        ShelfOpened(atlas[..], fonts, packed, s, g.w);
        return;
      }
      PlaceGlyph(i, s);
    }

    /** A glyph of width w that does not fit beside the last one starts a shelf. */
    method NextShelf(w: nat)
      modifies `packX, `packY, `packRowH, `shelves, `onShelf
      ensures PackShelf() == ShelfFor(old(PackShelf()), w) && packY == old(Top(w))
      ensures old(Wraps(w)) ==> packX == 1 && packRowH == 0 && shelves == old(shelves) + 1 && onShelf == 0
      ensures !old(Wraps(w)) ==> unchanged(this)
    {
      if packX + w + 1 >= ATLAS_W {
        packX := 1;
        packY := packY + packRowH + 1;
        packRowH := 0;
        shelves, onShelf := shelves + 1, 0;
      }
    }

    /** The glyph is drawn on its spot, on the shelf that took it. */
    method PlaceGlyph(i: nat, ghost s: Shelf)
      requires TablesOk(fonts) && 0 < |fonts| <= MAX_FONTS && !ready && !atlasFail
      requires atlas != null && atlas.Length == ATLAS_W * ATLAS_H && AllPacked(atlas[..], fonts, packed, s)
      requires Complete(fonts, packed, |fonts| - 1, i) && forall p | p in packed && p.0 == |fonts| - 1 :: p.1 < i
      requires i < |fonts[|fonts| - 1].f.glyphs| && NarrowEnough(fonts[|fonts| - 1].f)
      requires var g := fonts[|fonts| - 1].f.glyphs[i];
        Drawable(g) && PackShelf() == ShelfFor(s, g.w) && s.x >= 1 && packY + g.h + 1 < ATLAS_H
      modifies this, atlas
      ensures Packing(i + 1) && atlas == old(atlas) && |fonts| == |old(fonts)|
      ensures forall k | 0 <= k < |fonts| :: fonts[k].f == old(fonts)[k].f
      ensures old(packed) <= packed && |packed| == |old(packed)| + 1
      ensures var g := fonts[|fonts| - 1].f.glyphs[i];
        && RectOf(fonts, (|fonts| - 1, i)) == Rect(old(packX), old(packY), g.w, g.h)
        && packX == old(packX) + g.w + 1 && packY == old(packY) && packRowH == Max(old(packRowH), g.h)
      ensures shelves == old(shelves) && onShelf == old(onShelf) + 1
    {
      hide AllPacked, Shows, SameOutside, ShelfFor, Inside, Moved, Complete;
      var k := |fonts| - 1;
      var f := fonts[k].f;
      var g := f.glyphs[i];
      assert (k, i) !in packed;
      assert RectOf(fonts, (k, i)).w == g.w && RectOf(fonts, (k, i)).h == g.h;
      hide RectOf;
      ghost var img := atlas[..];
      SpotInside(s, g.w, g.h);
      hide NarrowEnough, Drawable;
      fonts := Moved(fonts, (k, i), packX, packY);
      MovedTables(old(fonts), (k, i), packX, packY);
      MovedElsewhere(old(fonts), (k, i), packX, packY, (k, i));
      DrawGlyph(atlas, f, i, packX, packY);
      GlyphJoins(img, atlas[..], old(fonts), packed, (k, i), s);
      PlacedIsComplete(old(fonts), fonts, packed, i);
      packed := packed + {(k, i)};
      packX := packX + g.w + 1;
      onShelf := onShelf + 1;
      if g.h > packRowH {
        packRowH := g.h;
      }
    }

    /** hud_gl_pack_font(): packs every drawable glyph of f, stopping for good at the first one that
        does not fit. mapOk and tablesOk are the outcomes of its allocations. */
    method PackFont(f: Font, mapOk: bool, tablesOk: bool, ghost w: nat, ghost h: nat, ghost total: nat)
      requires Valid() && !ready && NarrowEnough(f)
      modifies this, atlas
      ensures Valid() && !ready && old(packed) <= packed
      ensures old(atlasFail) || |old(fonts)| == MAX_FONTS ==> fonts == old(fonts) && packed == old(packed)
      ensures !atlasFail && |old(fonts)| < MAX_FONTS ==> |fonts| == |old(fonts)| + 1 && fonts[|fonts| - 1].f == f
      ensures forall k | 0 <= k < |old(fonts)| :: k < |fonts| && fonts[k].f == old(fonts)[k].f
      ensures if old(atlas) != null then atlas == old(atlas) else atlas != null ==> fresh(atlas)
      ensures !atlasFail && |old(fonts)| < MAX_FONTS ==>
        atlas != null && |packed| == |old(packed)| + Drawables(f.glyphs)
      ensures old(Tight(w, h)) && AtMost(f, w, h) && !atlasFail ==> Tight(w, h)
      ensures !old(atlasFail) && mapOk && tablesOk && old(Tight(w, h)) && AtMost(f, w, h) && Room(total, w, h)
              && |old(packed)| + Drawables(f.glyphs) <= total ==>
        !atlasFail
    {
      hide AllPacked, Tight, AtMost, Room;
      if |fonts| >= MAX_FONTS || atlasFail {
        return;
      }
      if atlas == null {
        if !mapOk {
          atlasFail := true;
          return;
        }
        atlas := new byte[ATLAS_W * ATLAS_H](_ => 0);
        NothingPacked(atlas[..], fonts, PackShelf());
      }
      ghost var fonts0 := fonts;
      var pf := PackedFont(f, seq(|f.glyphs|, _ => 0), seq(|f.glyphs|, _ => 0));
      FontAdded(atlas[..], fonts, pf, packed, PackShelf());
      fonts := fonts + [pf];
      if !tablesOk {
        atlasFail := true;
        return;
      }
      PackGlyphs(f, w, h, total);
    }

    /** The packing loop. */
    method PackGlyphs(f: Font, ghost w: nat, ghost h: nat, ghost total: nat)
      requires Packing(0) && fonts[|fonts| - 1].f == f && NarrowEnough(f)
      modifies this, atlas
      ensures Valid() && !ready && old(packed) <= packed && atlas == old(atlas) && |fonts| == |old(fonts)|
      ensures forall k | 0 <= k < |fonts| :: fonts[k].f == old(fonts)[k].f
      ensures !atlasFail ==> |packed| == |old(packed)| + Drawables(f.glyphs)
      ensures old(Tight(w, h)) && AtMost(f, w, h) && !atlasFail ==> Tight(w, h)
      ensures old(Tight(w, h)) && AtMost(f, w, h) && Room(total, w, h)
              && |old(packed)| + Drawables(f.glyphs) <= total ==>
        !atlasFail
    {
      hide AllPacked, Tight, AtMost, Room, Complete, TablesOk, RectOf, NarrowEnough;
      for i := 0 to |f.glyphs|
        invariant Packing(i) && |fonts| == |old(fonts)| && fonts[|fonts| - 1].f == f && atlas == old(atlas)
        invariant forall k | 0 <= k < |fonts| :: fonts[k].f == old(fonts)[k].f
        invariant old(packed) <= packed && |packed| == |old(packed)| + Drawables(f.glyphs[..i])
        invariant old(Tight(w, h)) && AtMost(f, w, h) ==> Tight(w, h)
      {
        assert f.glyphs[..i + 1][..i] == f.glyphs[..i];
        FewerDrawables(f.glyphs, i + 1);
        PackGlyph(i, w, h, total);
        if atlasFail {
          return;
        }
      }
      FewerDrawables(f.glyphs, |f.glyphs|);
      PackedIsValid();
    }

    lemma PackedIsValid()
      requires 0 < |fonts| && Packing(|fonts[|fonts| - 1].f.glyphs|)
      ensures Valid()
    {
      hide AllPacked;
    }

    /** hud_gl_finish(): uploads the atlas unless something did not fit, and frees the copy. */
    method Finish(programOk: bool) returns (rc: int)
      requires Valid() && !ready
      modifies this
      ensures Valid() && (rc == 0 <==> ready)
      ensures rc == 0 <==> !old(atlasFail) && old(atlas) != null && programOk
      ensures fonts == old(fonts) && packed == old(packed) && atlasFail == old(atlasFail)
    {
      if atlasFail || atlas == null {
        return -1;
      }
      if !programOk {
        return -1;
      }
      texture := atlas[..];
      atlas := null;
      ready := true;
      return 0;
    }

    /** hud_gl_glyph(): the texture rectangle sampled for glyph idx of f is exactly its bitmap. */
    method GlyphQuad(f: Font, idx: nat) returns (quad: bool, r: Rect)
      requires Valid() && ready
      ensures quad <==> idx < |f.glyphs| && f.glyphs[idx].w >= 1 && f.glyphs[idx].h >= 1
                        && exists k | 0 <= k < |fonts| :: fonts[k].f == f
      ensures quad ==> Shows(texture, r, f, idx, f.glyphs[idx].h)
    {
      quad, r := false, Rect(0, 0, 0, 0);
      if idx >= |f.glyphs| || f.glyphs[idx].w < 1 || f.glyphs[idx].h < 1 {
        return;
      }
      for i := 0 to |fonts|
        invariant forall k | 0 <= k < i :: fonts[k].f != f
        invariant !quad
      {
        if fonts[i].f == f {
          assert (i, idx) in packed;
          assert Packed(texture, fonts, (i, idx), PackShelf());
          return true, RectOf(fonts, (i, idx));
        }
      }
    }
  }

  function AllDrawables(fs: seq<Font>): nat {
    if fs == [] then 0 else AllDrawables(fs[..|fs| - 1]) + Drawables(fs[|fs| - 1].glyphs)
  }

  /** Up to MAX_FONTS fonts whose drawable glyphs are at most w by h are all packed and uploaded if as many shelves as
      glyphs of that size need fit the height. */
  method BakeFonts(fs: seq<Font>, programOk: bool, ghost w: nat, ghost h: nat) returns (hud: HudAtlas, rc: int)
    requires 1 <= |fs| <= MAX_FONTS && forall k | 0 <= k < |fs| :: AtMost(fs[k], w, h)
    requires Room(AllDrawables(fs), w, h)
    ensures hud.Valid() && (rc == 0 <==> programOk)
    ensures |hud.fonts| == |fs| && forall k | 0 <= k < |fs| :: hud.fonts[k].f == fs[k]
    ensures !hud.atlasFail && |hud.packed| == AllDrawables(fs)
  {
    RoomIsNarrow(fs, w, h);
    hud := new HudAtlas();
    assert fs[..0] == [];
    hide AtMost, Room, NarrowEnough, Baked, AllDrawables, hud.Valid, hud.Tight;
    assert Baked(hud, fs, 0, w, h) by { NoneBaked(hud, fs, w, h); }
    for n := 0 to |fs|
      invariant Baked(hud, fs, n, w, h)
      invariant fresh(hud) && (hud.atlas != null ==> fresh(hud.atlas))
    {
      BakeNext(hud, fs, n, w, h);
    }
    BakedAll(hud, fs, w, h);
    rc := hud.Finish(programOk);
  }

  /** The first n fonts are packed. */
  ghost predicate Baked(hud: HudAtlas, fs: seq<Font>, n: nat, w: nat, h: nat)
    reads hud, hud.atlas
  {
    && hud.Valid() && !hud.ready && !hud.atlasFail && hud.Tight(w, h) && |hud.fonts| == n <= |fs|
    && (forall k | 0 <= k < n :: hud.fonts[k].f == fs[k])
    && |hud.packed| == AllDrawables(fs[..n]) && (n > 0 ==> hud.atlas != null)
  }

  lemma NoneBaked(hud: HudAtlas, fs: seq<Font>, w: nat, h: nat)
    requires hud.Valid() && !hud.ready && !hud.atlasFail && hud.Tight(w, h) && hud.fonts == [] && hud.packed == {}
    ensures Baked(hud, fs, 0, w, h)
  {
    assert fs[..0] == [];
  }

  lemma BakedAll(hud: HudAtlas, fs: seq<Font>, w: nat, h: nat)
    requires Baked(hud, fs, |fs|, w, h) && |fs| > 0
    ensures hud.Valid() && !hud.ready && !hud.atlasFail && hud.atlas != null && |hud.packed| == AllDrawables(fs)
    ensures |hud.fonts| == |fs| && forall k | 0 <= k < |fs| :: hud.fonts[k].f == fs[k]
  {
    assert fs[..|fs|] == fs;
  }

  method BakeNext(hud: HudAtlas, fs: seq<Font>, n: nat, ghost w: nat, ghost h: nat)
    requires n < |fs| <= MAX_FONTS && Baked(hud, fs, n, w, h)
    requires AtMost(fs[n], w, h) && NarrowEnough(fs[n]) && Room(AllDrawables(fs), w, h)
    modifies hud, hud.atlas
    ensures Baked(hud, fs, n + 1, w, h)
    ensures if old(hud.atlas) != null then hud.atlas == old(hud.atlas) else hud.atlas != null ==> fresh(hud.atlas)
  {
    hide AtMost, Room, NarrowEnough, hud.Valid, hud.Tight, Drawables;
    FewerInAll(fs, n + 1);
    assert fs[..n + 1][..n] == fs[..n] && fs[..n + 1][n] == fs[n];
    hud.PackFont(fs[n], true, true, w, h, AllDrawables(fs));
  }

  lemma RoomIsNarrow(fs: seq<Font>, w: nat, h: nat)
    requires forall k | 0 <= k < |fs| :: AtMost(fs[k], w, h)
    requires Room(AllDrawables(fs), w, h)
    ensures forall k | 0 <= k < |fs| :: NarrowEnough(fs[k])
  {
    assert w <= ATLAS_W - 1;
  }

  lemma {:induction false} FewerInAll(fs: seq<Font>, n: nat)
    requires n <= |fs|
    ensures AllDrawables(fs[..n]) <= AllDrawables(fs)
  {
    if n < |fs| {
      FewerInAll(fs[..|fs| - 1], n);
      assert fs[..|fs| - 1][..n] == fs[..n];
    } else {
      assert fs[..n] == fs;
    }
  }

  lemma {:induction false} FewerDrawables(gs: seq<Glyph>, n: nat)
    requires n <= |gs|
    ensures Drawables(gs[..n]) <= Drawables(gs)
    ensures n == |gs| ==> gs[..n] == gs
  {
    if n < |gs| {
      FewerDrawables(gs[..|gs| - 1], n);
      assert gs[..|gs| - 1][..n] == gs[..n];
    } else {
      assert gs[..n] == gs;
    }
  }

  // ---- lemmas for the class ----

  lemma PlacedIsComplete(was: seq<PackedFont>, fonts: seq<PackedFont>, packed: set<(nat, nat)>, i: nat)
    requires 0 < |was| == |fonts| && forall k | 0 <= k < |fonts| :: fonts[k].f == was[k].f
    requires Complete(was, packed, |fonts| - 1, i)
    ensures Complete(fonts, packed + {(|fonts| - 1, i)}, |fonts| - 1, i + 1)
  {
  }

  lemma SkippedIsComplete(fonts: seq<PackedFont>, packed: set<(nat, nat)>, i: nat)
    requires 0 < |fonts| && i < |fonts[|fonts| - 1].f.glyphs| && !Drawable(fonts[|fonts| - 1].f.glyphs[i])
    requires Complete(fonts, packed, |fonts| - 1, i)
    ensures Complete(fonts, packed, |fonts| - 1, i + 1)
  {
  }

  lemma SpotInside(s: Shelf, w: nat, h: nat)
    requires s.x >= 1 && w <= ATLAS_W - 1
    ensures var t := ShelfFor(s, w);
      t.x >= 1 && (t.y + h + 1 < ATLAS_H ==> Inside(Rect(t.x, t.y, w, h)))
  {
  }

  lemma ShelfOpened(img: seq<byte>, fonts: seq<PackedFont>, packed: set<(nat, nat)>, s: Shelf, w: nat)
    requires AllPacked(img, fonts, packed, s)
    ensures AllPacked(img, fonts, packed, ShelfFor(s, w))
  {
    forall p | p in packed
      ensures Packed(img, fonts, p, ShelfFor(s, w))
    {
      assert Packed(img, fonts, p, s);
      NextSpotApart(s, w, 0, RectOf(fonts, p));
    }
  }

  lemma MovedTables(fonts: seq<PackedFont>, p: (nat, nat), x: nat, y: nat)
    requires Known(fonts, p)
    ensures var m := Moved(fonts, p, x, y);
      TablesOk(m) && |m| == |fonts| && forall k | 0 <= k < |m| :: m[k].f == fonts[k].f
  {
  }

  lemma NothingPacked(img: seq<byte>, fonts: seq<PackedFont>, s: Shelf)
    ensures AllPacked(img, fonts, {}, s)
  {
  }

  lemma FontAdded(img: seq<byte>, fonts: seq<PackedFont>, pf: PackedFont, packed: set<(nat, nat)>, s: Shelf)
    requires AllPacked(img, fonts, packed, s) && TablesOk(fonts) && |pf.x| == |pf.y| == |pf.f.glyphs|
    ensures AllPacked(img, fonts + [pf], packed, s)
    ensures forall p | p in packed :: p.0 < |fonts|
  {
    hide Shows, Before, Apart;
    forall p | p in packed
      ensures p.0 < |fonts| && Packed(img, fonts + [pf], p, s)
    {
      assert Packed(img, fonts, p, s);
      assert (fonts + [pf])[p.0] == fonts[p.0];
    }
    forall p, q | p in packed && q in packed && p != q
      ensures PairApart(fonts + [pf], p, q)
    {
      assert PairApart(fonts, p, q);
      assert (fonts + [pf])[p.0] == fonts[p.0] && (fonts + [pf])[q.0] == fonts[q.0];
    }
  }
}
