/** Partial update of a display that several controllers drive side by side: one requested rectangle is cut
    along the controllers' bounds, and each piece is told to its controller in that controller's own
    coordinates. Rectangle fields are 16 bits wide; truncations are written out. */
module DsiRoi {

  import opened Common

  const TWO_16: int := 0x1_0000

  datatype Rect = Rect(x: nat, y: nat, w: nat, h: nat)
  {
    predicate Narrow() { x < TWO_16 && y < TWO_16 && w < TWO_16 && h < TWO_16 }

    predicate Has(px: int, py: int) { x <= px < x + w && y <= py < y + h }
  }

  /** A requested rectangle, right and bottom edge exclusive. */
  datatype Clip = Clip(x1: nat, y1: nat, x2: nat, y2: nat)
  {
    predicate Narrow() { x1 < TWO_16 && y1 < TWO_16 && x2 < TWO_16 && y2 < TWO_16 }

    predicate Has(px: int, py: int) { x1 <= px < x2 && y1 <= py < y2 }

    function AsRect(): Rect { Rect(x1, y1, U16(x2 - x1), U16(y2 - y1)) }
  }

  function U16(x: int): (r: nat)
    ensures r < TWO_16
    ensures 0 <= x < TWO_16 ==> r == x
  {
    x % TWO_16
  }

  /** The driver's width and height mean the requested rectangle exactly when its edges are in order, or one
      side is empty. */
  lemma ClipHonouredExactly(c: Clip)
    requires c.Narrow()
    ensures (forall px: int, py: int :: c.AsRect().Has(px, py) <==> c.Has(px, py)) <==>
      (c.x1 <= c.x2 && c.y1 <= c.y2) || c.x1 == c.x2 || c.y1 == c.y2
  {
    var r := c.AsRect();
    if !((c.x1 <= c.x2 && c.y1 <= c.y2) || c.x1 == c.x2 || c.y1 == c.y2) {
      assert r.Has(c.x1, c.y1) && !c.Has(c.x1, c.y1);
    }
  }

  /** What a list of requested rectangles asks for: only the first one counts, and none means everything. */
  predicate Wanted(rects: seq<Clip>, px: int, py: int)
  {
    rects == [] || rects[0].AsRect().Has(px, py)
  }

  /** Whether a pixel of the display lies in a rectangle given relative to the left edge of these bounds. */
  predicate ShownIn(roi: Rect, bounds: Rect, px: int, py: int)
  {
    roi.Has(px - bounds.x, py)
  }

  function Max(a: int, b: int): int { if a < b then b else a }

  function Min(a: int, b: int): int { if a < b then a else b }

  function Intersection(r1: Rect, r2: Rect): Rect
  {
    var l, t := Max(r1.x, r2.x), Max(r1.y, r2.y);
    var r, b := Min(r1.x + r1.w, r2.x + r2.w), Min(r1.y + r1.h, r2.y + r2.h);
    if r <= l || b <= t then Rect(0, 0, 0, 0) else Rect(l, t, r - l, b - t)
  }

  /** A pixel is in the intersection exactly when it is in both rectangles; an empty one is at the origin. */
  lemma IntersectionExactly(r1: Rect, r2: Rect)
    ensures forall px: int, py: int :: Intersection(r1, r2).Has(px, py) <==> r1.Has(px, py) && r2.Has(px, py)
    ensures var r := Intersection(r1, r2); (r.w > 0 && r.h > 0) || r == Rect(0, 0, 0, 0)
  {
  }

  method RectIntersect(r1: Rect, r2: Rect) returns (result: Rect)
    requires r1.Narrow() && r2.Narrow()
    ensures result == Intersection(r1, r2) && result.Narrow()
    ensures forall px: int, py: int :: result.Has(px, py) <==> r1.Has(px, py) && r2.Has(px, py)
  {
    var l, t, r, b := r1.x, r1.y, r1.x + r1.w, r1.y + r1.h;
    if r2.x > l { l := r2.x; }
    if r2.y > t { t := r2.y; }
    if r2.x + r2.w < r { r := r2.x + r2.w; }
    if r2.y + r2.h < b { b := r2.y + r2.h; }
    if r <= l || b <= t {
      result := Rect(0, 0, 0, 0);
    } else {
      result := Rect(U16(l), U16(t), U16(r - l), U16(b - t));
    }
  }

  /** The piece of a request that these bounds get, in their own coordinates. */
  function PieceOf(bounds: Rect, rects: seq<Clip>): Rect
  {
    var whole := if rects == [] then bounds else Intersection(rects[0].AsRect(), bounds);
    whole.(x := U16(whole.x - bounds.x))
  }

  /** The piece holds exactly the wanted pixels within the bounds, and stays within their size. */
  lemma PieceExactly(bounds: Rect, rects: seq<Clip>)
    requires bounds.Narrow()
    ensures forall px: int, py: int :: ShownIn(PieceOf(bounds, rects), bounds, px, py) <==>
      Wanted(rects, px, py) && bounds.Has(px, py)
    ensures var p := PieceOf(bounds, rects); bounds.y == 0 ==>
      p.w == 0 || (p.x + p.w <= bounds.w && p.y + p.h <= bounds.h)
  {
    var whole := if rects == [] then bounds else Intersection(rects[0].AsRect(), bounds);
    if rects != [] {
      IntersectionExactly(rects[0].AsRect(), bounds);
      if whole.w > 0 {
        assert whole.Has(whole.x, whole.y) && whole.Has(whole.x + whole.w - 1, whole.y + whole.h - 1);
      }
    }
    hide Intersection;
    forall px: int, py: int
      ensures ShownIn(PieceOf(bounds, rects), bounds, px, py) <==> whole.Has(px, py)
    {
    }
  }

  /** dsi_display_calc_ctrl_roi(): with too many rectangles only the origin of what was there moves. */
  method CalcCtrlRoi(bounds: Rect, numRoi: nat, rects: seq<Clip>, prior: Rect) returns (rc: int, out: Rect)
    requires bounds.Narrow() && forall i | 0 <= i < |rects| :: rects[i].Narrow()
    ensures rc == if |rects| > numRoi then -EINVAL else 0
    ensures rc == 0 ==> out == PieceOf(bounds, rects)
  {
    out := prior;
    rc := 0;
    if |rects| > numRoi {
      rc := -EINVAL;
    } else if |rects| == 0 {
      out := bounds;
    } else {
      var reqRoi := Rect(rects[0].x1, rects[0].y1, U16(rects[0].x2 - rects[0].x1), U16(rects[0].y2 - rects[0].y1));
      out := RectIntersect(reqRoi, bounds);
    }
    out := out.(x := U16(out.x - bounds.x));
  }

  class RoiCtrl {
    const horizIndex: nat
    var bounds: Rect
    var roi: Rect
    var modeUpdated: bool

    constructor (horizIndex: nat)
      ensures this.horizIndex == horizIndex
    {
      this.horizIndex := horizIndex;
      bounds, roi, modeUpdated := Rect(0, 0, 0, 0), Rect(0, 0, 0, 0), false;
    }

    /** A new mode: the controller's bounds in the display, and a whole-controller region that the panel has
        not been told yet. */
    method UpdateHostConfig(hActive: nat, overlap: nat, vActive: nat)
      modifies this
      ensures Fits(hActive + overlap, vActive, horizIndex + 1) ==>
        bounds == Tile(hActive + overlap, vActive, horizIndex)
      ensures roi == bounds.(x := 0) && modeUpdated
    {
      if Fits(hActive + overlap, vActive, horizIndex + 1) {
        TileEdge(hActive + overlap, horizIndex);
      }
      hide Fits;
      bounds := Rect(U16((hActive + overlap) * horizIndex), 0, U16(hActive + overlap), U16(vActive));
      roi := bounds;
      modeUpdated := true;
      roi := roi.(x := 0);
    }

    method SetRoi(newRoi: Rect) returns (changed: bool)
      modifies this`roi, this`modeUpdated
      ensures changed <==> old(roi) != newRoi || old(modeUpdated)
      ensures roi == newRoi && !modeUpdated
    {
      if roi != newRoi || modeUpdated {
        changed := true;
        roi := newRoi;
        modeUpdated := false;
      } else {
        changed := false;
      }
    }
  }

  function Tile(w: nat, v: nat, i: nat): Rect { Rect(w * i, 0, w, v) }

  /** A row of n tiles stays within 16-bit coordinates. */
  predicate Fits(w: nat, v: nat, n: nat) { w * n < TWO_16 && v < TWO_16 }

  lemma TileEdge(w: nat, i: nat)
    ensures w * (i + 1) == w * i + w && w * i >= 0 && w <= w * (i + 1)
  {
  }

  lemma TilesInOrder(w: nat, i: nat, j: nat)
    requires i < j
    ensures w * i + w <= w * j
  {
    assert w * (i + 1) <= w * j;
  }

  /** The tile that a pixel column belongs to. */
  lemma TileOf(w: nat, n: nat, px: int) returns (i: nat)
    requires 0 <= px < w * n
    ensures i < n && w * i <= px < w * i + w
    decreases n
  {
    if n > 0 {
      TileEdge(w, n - 1);
      if w * (n - 1) <= px {
        i := n - 1;
      } else {
        i := TileOf(w, n - 1, px);
      }
    }
  }

  /** What the panel was last told for a controller. */
  datatype Told = Nothing | Region(roi: Rect)

  class RoiDisplay {
    const ctrls: seq<RoiCtrl>
    /** The last region command that the panel took, for each controller. */
    var told: seq<Told>
    /** How many region commands were attempted. */
    var attempts: nat

    constructor (ctrls: seq<RoiCtrl>)
      ensures this.ctrls == ctrls && told == seq(|ctrls|, _ => Nothing) && attempts == 0
    {
      this.ctrls, told, attempts := ctrls, seq(|ctrls|, _ => Nothing), 0;
    }

    /** The controllers are distinct and numbered from the left. */
    ghost predicate Ordered()
    {
      && (forall i | 0 <= i < |ctrls| :: ctrls[i].horizIndex == i)
      && forall i, j | 0 <= i < j < |ctrls| :: ctrls[i] != ctrls[j]
    }

    ghost predicate Tiled(w: nat, v: nat)
      reads ctrls
    {
      Fits(w, v, |ctrls|) && forall i | 0 <= i < |ctrls| :: ctrls[i].bounds == Tile(w, v, i)
    }

    method UpdateHostConfigs(hActive: nat, overlap: nat, vActive: nat)
      requires Ordered() && Fits(hActive + overlap, vActive, |ctrls|)
      modifies ctrls
      ensures Tiled(hActive + overlap, vActive)
      ensures forall i | 0 <= i < |ctrls| :: ctrls[i].modeUpdated
    {
      for i := 0 to |ctrls|
        invariant forall j | 0 <= j < i ::
            ctrls[j].bounds == Tile(hActive + overlap, vActive, j) && ctrls[j].modeUpdated
      {
        PrefixFits(hActive + overlap, vActive, i + 1, |ctrls|);
        hide Fits, Tile;
        ctrls[i].UpdateHostConfig(hActive, overlap, vActive);
      }
    }

    ghost function State(): (r: seq<Snap>)
      requires |told| == |ctrls|
      reads ctrls, `told
    {
      StateOf(ctrls, told)
    }

    /** One round of the loop below: the region is recorded before the panel is told, so a refusal leaves the
        record ahead of the panel. */
    method SetCtrlRoi(i: nat, numRoi: nat, rects: seq<Clip>, sendRc: int, setupRc: int) returns (rc: int)
      requires Ordered() && i < |ctrls| == |told|
      requires State()[i].bounds.Narrow() && forall k | 0 <= k < |rects| :: rects[k].Narrow()
      modifies `told, `attempts, ctrls
      ensures |told| == |ctrls|
      ensures |rects| > numRoi ==> rc == -EINVAL && attempts == old(attempts) && State() == old(State())
      ensures |rects| <= numRoi ==> State() == old(State())[i := Applied(old(State()[i]), rects, sendRc)]
      ensures |rects| <= numRoi ==> rc == Refusal(old(State()[i]), rects, sendRc, setupRc)
      ensures |rects| <= numRoi ==> attempts == old(attempts) + B2I(!Known(old(State()[i]), rects))
    {
      var roi;
      rc, roi := CalcCtrlRoi(ctrls[i].bounds, numRoi, rects, Rect(0, 0, 0, 0));
      if rc != 0 {
        return;
      }
      hide PieceOf;
      var changed := ctrls[i].SetRoi(roi);
      if !changed {
        return;
      }
      attempts := attempts + 1;
      rc := sendRc;
      if rc != 0 {
        return;
      }
      told := told[i := Region(roi)];
      rc := setupRc;
    }

    /** Every controller gets its piece until one is refused, and the panel is told a piece exactly when it
        differs from the recorded one or the mode is new. */
    method SetRoi(hasMode: bool, enabled: bool, numRoi: nat, rects: seq<Clip>, sendRcs: seq<int>,
        setupRcs: seq<int>) returns (rc: int, ghost upTo: nat)
      requires Ordered() && |sendRcs| == |setupRcs| == |ctrls| == |told|
      requires forall i | 0 <= i < |ctrls| :: State()[i].bounds.Narrow()
      requires forall i | 0 <= i < |rects| :: rects[i].Narrow()
      modifies `told, `attempts, ctrls
      ensures |told| == |ctrls| && upTo <= |ctrls|
      ensures !hasMode || !enabled ==> rc == 0 && upTo == 0
      ensures hasMode && enabled && |rects| > numRoi && ctrls != [] ==> rc == -EINVAL && upTo == 0
      ensures State() == AppliedUpTo(old(State()), upTo, rects, sendRcs)
      ensures attempts == old(attempts) + Attempts(old(State())[..upTo], rects)
      ensures hasMode && enabled && (|rects| <= numRoi || ctrls == []) ==>
        rc == FirstRefusal(old(State()), rects, sendRcs, setupRcs).1
      ensures hasMode && enabled && (|rects| <= numRoi || ctrls == []) ==>
        upTo == FirstRefusal(old(State()), rects, sendRcs, setupRcs).0
    {
      rc, upTo := 0, 0;
      ghost var was := State();
      NothingApplied(was, rects, sendRcs);
      if !hasMode || !enabled {
        return;
      }
      hide State, Applied, AppliedUpTo, Refusal, Known, Attempts, FirstRefusal, Ordered, Clip.Narrow;
      ghost var whole := FirstRefusal(was, rects, sendRcs, setupRcs);
      for i := 0 to |ctrls|
        invariant rc == 0 && upTo == i && (|rects| > numRoi ==> i == 0) && |told| == |ctrls|
        invariant State() == AppliedUpTo(was, i, rects, sendRcs)
        invariant attempts == old(attempts) + Attempts(was[..i], rects)
        invariant |rects| <= numRoi || ctrls == [] ==>
            whole == Later(i, FirstRefusal(was[i..], rects, sendRcs[i..], setupRcs[i..]))
      {
        OneMoreApplied(was, i, rects, sendRcs, setupRcs);
        rc := SetCtrlRoi(i, numRoi, rects, sendRcs[i], setupRcs[i]);
        if |rects| <= numRoi {
          upTo := i + 1;
        }
        if rc != 0 {
          return;
        }
      }
      NoneLeft(was, rects, sendRcs, setupRcs);
    }

    /** A request under a new mode that succeeds is shown whole and only once, by the record and by the panel. */
    method ConfigureAndSetRoi(hActive: nat, overlap: nat, vActive: nat, numRoi: nat, rects: seq<Clip>,
        sendRcs: seq<int>, setupRcs: seq<int>) returns (rc: int)
      requires Ordered() && Fits(hActive + overlap, vActive, |ctrls|)
      requires |sendRcs| == |setupRcs| == |ctrls| == |told| && forall i | 0 <= i < |rects| :: rects[i].Narrow()
      modifies `told, `attempts, ctrls
      ensures |told| == |ctrls|
      ensures rc == 0 ==>
        && TilesRequest(State(), rects, hActive + overlap, vActive) && attempts == old(attempts) + |ctrls|
        && forall i | 0 <= i < |ctrls| :: told[i] == Region(ctrls[i].roi)
    {
      hide State, TilesRequest, Configured, Fits, Tile, Ordered, Clip.Narrow, Applied, AppliedUpTo, Attempts,
        FirstRefusal, Tiled;
      UpdateHostConfigs(hActive, overlap, vActive);
      ghost var was := State();
      ConfiguredState(hActive + overlap, vActive);
      ghost var upTo;
      rc, upTo := SetRoi(true, true, numRoi, rects, sendRcs, setupRcs);
      if rc == 0 {
        NewModeTiles(was, rects, sendRcs, setupRcs, hActive + overlap, vActive);
        AllToldSays();
      }
    }

    /** What configuring leaves behind. */
    lemma ConfiguredState(w: nat, v: nat)
      requires |told| == |ctrls| && Tiled(w, v) && forall i | 0 <= i < |ctrls| :: ctrls[i].modeUpdated
      ensures Configured(State(), w, v) && |State()| == |ctrls|
      ensures forall i | 0 <= i < |ctrls| :: State()[i].bounds.Narrow()
    {
      forall i | 0 <= i < |ctrls| ensures Tile(w, v, i).Narrow() {
        TileNarrow(w, v, i, |ctrls|);
      }
    }

    lemma AllToldSays()
      requires |told| == |ctrls| && AllTold(State())
      ensures forall i | 0 <= i < |ctrls| :: told[i] == Region(ctrls[i].roi)
    {
      assert forall i | 0 <= i < |ctrls| :: told[i] == State()[i].told && State()[i].roi == ctrls[i].roi;
    }
  }

  /** What is recorded for one controller, and what the panel was told for it. */
  datatype Snap = Snap(bounds: Rect, roi: Rect, updated: bool, told: Told)

  ghost function StateOf(ctrls: seq<RoiCtrl>, told: seq<Told>): (r: seq<Snap>)
    requires |told| == |ctrls|
    reads ctrls
    ensures |r| == |ctrls|
    ensures forall i | 0 <= i < |r| :: r[i] == Snap(ctrls[i].bounds, ctrls[i].roi, ctrls[i].modeUpdated, told[i])
  {
    seq(|ctrls|, i requires 0 <= i < |ctrls| && |told| == |ctrls| reads ctrls =>
      Snap(ctrls[i].bounds, ctrls[i].roi, ctrls[i].modeUpdated, told[i]))
  }

  /** The request asks nothing new of this controller. */
  predicate Known(s: Snap, rects: seq<Clip>)
  {
    s.roi == PieceOf(s.bounds, rects) && !s.updated
  }

  /** One controller after the request, the panel answering its region command with sendRc. */
  function Applied(s: Snap, rects: seq<Clip>, sendRc: int): Snap
  {
    var piece := PieceOf(s.bounds, rects);
    if Known(s, rects) then s else Snap(s.bounds, piece, false, if sendRc == 0 then Region(piece) else s.told)
  }

  function Refusal(s: Snap, rects: seq<Clip>, sendRc: int, setupRc: int): int
  {
    if Known(s, rects) then 0 else if sendRc != 0 then sendRc else setupRc
  }

  function AppliedUpTo(was: seq<Snap>, upTo: nat, rects: seq<Clip>, sendRcs: seq<int>): (r: seq<Snap>)
    requires |was| == |sendRcs| && upTo <= |was|
    ensures |r| == |was|
  {
    seq(|was|, i requires 0 <= i < |was| => if i < upTo then Applied(was[i], rects, sendRcs[i]) else was[i])
  }

  function Attempts(was: seq<Snap>, rects: seq<Clip>): nat
  {
    if was == [] then 0 else Attempts(was[..|was| - 1], rects) + B2I(!Known(was[|was| - 1], rects))
  }

  /** How many controllers are dealt with, and the code of the refusal that ends it. */
  function FirstRefusal(was: seq<Snap>, rects: seq<Clip>, sendRcs: seq<int>, setupRcs: seq<int>): (nat, int)
    requires |was| == |sendRcs| == |setupRcs|
  {
    if was == [] then (0, 0)
    else
      var rc := Refusal(was[0], rects, sendRcs[0], setupRcs[0]);
      if rc != 0 then (1, rc) else Later(1, FirstRefusal(was[1..], rects, sendRcs[1..], setupRcs[1..]))
  }

  function Later(i: nat, f: (nat, int)): (nat, int) { (i + f.0, f.1) }

  lemma NothingApplied(was: seq<Snap>, rects: seq<Clip>, sendRcs: seq<int>)
    requires |was| == |sendRcs|
    ensures AppliedUpTo(was, 0, rects, sendRcs) == was && Attempts(was[..0], rects) == 0
  {
  }

  lemma OneMoreApplied(was: seq<Snap>, i: nat, rects: seq<Clip>, sendRcs: seq<int>, setupRcs: seq<int>)
    requires |was| == |sendRcs| == |setupRcs| && i < |was|
    ensures var now := AppliedUpTo(was, i, rects, sendRcs);
      now[i] == was[i] && AppliedUpTo(was, i + 1, rects, sendRcs) == now[i := Applied(was[i], rects, sendRcs[i])]
    ensures Attempts(was[..i + 1], rects) == Attempts(was[..i], rects) + B2I(!Known(was[i], rects))
    ensures var rc := Refusal(was[i], rects, sendRcs[i], setupRcs[i]);
      Later(i, FirstRefusal(was[i..], rects, sendRcs[i..], setupRcs[i..])) ==
      if rc != 0 then (i + 1, rc)
          else Later(i + 1, FirstRefusal(was[i + 1..], rects, sendRcs[i + 1..], setupRcs[i + 1..]))
  {
    hide Applied, Known, Refusal;
    assert was[..i + 1][..i] == was[..i];
    assert was[i..][1..] == was[i + 1..] && sendRcs[i..][1..] == sendRcs[i + 1..]
      && setupRcs[i..][1..] == setupRcs[i + 1..];
  }

  lemma NoneLeft(was: seq<Snap>, rects: seq<Clip>, sendRcs: seq<int>, setupRcs: seq<int>)
    requires |was| == |sendRcs| == |setupRcs|
    ensures var n := |was|; Later(n, FirstRefusal(was[n..], rects, sendRcs[n..], setupRcs[n..])) == (n, 0)
  {
  }

  /** Under a new mode, a request without a refusal deals with every controller and tells the panel each piece. */
  lemma {:induction false} NewModeAllTold(was: seq<Snap>, rects: seq<Clip>, sendRcs: seq<int>, setupRcs: seq<int>)
    requires |was| == |sendRcs| == |setupRcs| && forall i | 0 <= i < |was| :: was[i].updated
    requires FirstRefusal(was, rects, sendRcs, setupRcs).1 == 0
    ensures FirstRefusal(was, rects, sendRcs, setupRcs).0 == |was| == Attempts(was, rects)
    ensures forall i | 0 <= i < |was| ::
      Applied(was[i], rects, sendRcs[i]).told == Region(PieceOf(was[i].bounds, rects))
  {
    AllAttempted(was, rects);
    hide PieceOf;
    if was != [] {
      AllAttempted(was[1..], rects);
      NewModeAllTold(was[1..], rects, sendRcs[1..], setupRcs[1..]);
      forall i | 0 <= i < |was|
        ensures Applied(was[i], rects, sendRcs[i]).told == Region(PieceOf(was[i].bounds, rects))
      {
        assert i > 0 ==> was[i] == was[1..][i - 1] && sendRcs[i] == sendRcs[1..][i - 1];
      }
    }
  }

  /** Every controller has its tile of the display and a new mode. */
  predicate Configured(now: seq<Snap>, w: nat, v: nat)
  {
    Fits(w, v, |now|) && forall i | 0 <= i < |now| :: now[i].bounds == Tile(w, v, i) && now[i].updated
  }

  /** The panel was told what is recorded. */
  predicate AllTold(now: seq<Snap>)
  {
    forall i | 0 <= i < |now| :: now[i].told == Region(now[i].roi)
  }

  lemma NewModeTiles(was: seq<Snap>, rects: seq<Clip>, sendRcs: seq<int>, setupRcs: seq<int>, w: nat, v: nat)
    requires Configured(was, w, v) && |was| == |sendRcs| == |setupRcs|
    requires FirstRefusal(was, rects, sendRcs, setupRcs).1 == 0
    ensures var upTo := FirstRefusal(was, rects, sendRcs, setupRcs).0;
      upTo == |was| == Attempts(was[..upTo], rects)
      && AllTold(AppliedUpTo(was, upTo, rects, sendRcs))
      && TilesRequest(AppliedUpTo(was, upTo, rects, sendRcs), rects, w, v)
  {
    hide PieceOf, Fits, Tile, TilesRequest;
    NewModeAllTold(was, rects, sendRcs, setupRcs);
    RequestTiles(was, rects, sendRcs, w, v);
    assert was[..|was|] == was;
  }

  lemma {:induction false} AllAttempted(was: seq<Snap>, rects: seq<Clip>)
    requires forall i | 0 <= i < |was| :: was[i].updated
    ensures Attempts(was, rects) == |was|
  {
    if was != [] {
      AllAttempted(was[..|was| - 1], rects);
    }
  }

  // ---- the record and the panel ----

  /** The panel was told what is recorded, or will be because the mode is new. */
  predicate InStep(s: Snap)
  {
    s.updated || s.told == Region(s.roi)
  }

  /** A request keeps record and panel in step exactly when it is known, the command is taken, or the panel
      happens to be at the new region already. */
  lemma InStepExactly(s: Snap, rects: seq<Clip>, sendRc: int)
    requires InStep(s)
    ensures InStep(Applied(s, rects, sendRc)) <==>
      Known(s, rects) || sendRc == 0 || s.told == Region(PieceOf(s.bounds, rects))
  {
  }

  /** Asking the same again changes nothing, tells the panel nothing and reports success, whatever the first
      answer was: a refused region is never sent again. */
  lemma RepeatIgnored(s: Snap, rects: seq<Clip>, sendRc: int, again: int, setupRc: int)
    ensures var once := Applied(s, rects, sendRc);
      Known(once, rects) && Applied(once, rects, again) == once && Refusal(once, rects, again, setupRc) == 0
  {
  }

  /** Repeating a whole request that dealt with every controller attempts no command. */
  lemma {:induction false} RepeatAttemptsNothing(was: seq<Snap>, rects: seq<Clip>, sendRcs: seq<int>)
    requires |was| == |sendRcs|
    ensures Attempts(AppliedUpTo(was, |was|, rects, sendRcs), rects) == 0
    decreases |was|
  {
    if was != [] {
      var n := |was| - 1;
      RepeatAttemptsNothing(was[..n], rects, sendRcs[..n]);
      var now := AppliedUpTo(was, |was|, rects, sendRcs);
      assert now[..n] == AppliedUpTo(was[..n], n, rects, sendRcs[..n]);
      RepeatIgnored(was[n], rects, sendRcs[n], 0, 0);
    }
  }

  /** A panel at the whole of a 100 by 50 controller refuses the left half: the record says half, the panel
      shows the whole, and the same request again reports success. */
  lemma StalePanel()
    ensures var whole, half := Rect(0, 0, 100, 50), [Clip(0, 0, 50, 50)];
      var refused := Applied(Snap(whole, whole, false, Region(whole)), half, -EINVAL);
      && refused.roi == Rect(0, 0, 50, 50) && refused.told == Region(whole) && !InStep(refused)
      && Applied(refused, half, 0) == refused && Refusal(refused, half, 0, 0) == 0
  {
    assert PieceOf(Rect(0, 0, 100, 50), [Clip(0, 0, 50, 50)]) == Rect(0, 0, 50, 50);
  }

  lemma PrefixFits(w: nat, v: nat, m: nat, n: nat)
    requires Fits(w, v, n) && m <= n
    ensures Fits(w, v, m)
  {
    assert w * m <= w * n;
  }

  predicate ShownBy(now: seq<Snap>, i: int, px: int, py: int)
  {
    0 <= i < |now| && ShownIn(now[i].roi, now[i].bounds, px, py)
  }

  /** The recorded regions tile the part of the request that lies in the display: each pixel of it is shown by
      exactly one controller, and no region is wider than its controller. */
  ghost predicate TilesRequest(now: seq<Snap>, rects: seq<Clip>, w: nat, v: nat)
  {
    && (forall px: int, py: int :: Wanted(rects, px, py) && 0 <= px < w * |now| && 0 <= py < v <==>
        exists i :: ShownBy(now, i, px, py))
    && (forall i, j, px: int, py: int :: ShownBy(now, i, px, py) && ShownBy(now, j, px, py) ==> i == j)
    && forall i | 0 <= i < |now| :: now[i].roi.w == 0 || now[i].roi.x + now[i].roi.w <= w
  }

  /** The pieces of one request, cut along tiles. */
  lemma PiecesTile(now: seq<Snap>, rects: seq<Clip>, w: nat, v: nat)
    requires Fits(w, v, |now|)
    requires forall i | 0 <= i < |now| :: now[i].bounds == Tile(w, v, i) && now[i].roi == PieceOf(now[i].bounds, rects)
    ensures TilesRequest(now, rects, w, v)
  {
    forall i | 0 <= i < |now|
      ensures Cut(now[i].roi, Tile(w, v, i), rects)
    {
      TileNarrow(w, v, i, |now|);
      PieceExactly(now[i].bounds, rects);
    }
    hide PieceOf, Fits;
    forall px: int, py: int
      ensures Wanted(rects, px, py) && 0 <= px < w * |now| && 0 <= py < v <==> exists i :: ShownBy(now, i, px, py)
    {
      PixelShown(now, rects, w, v, px, py);
    }
    forall i, j, px: int, py: int | ShownBy(now, i, px, py) && ShownBy(now, j, px, py)
      ensures i == j
    {
      TilesApart(w, v, i, j, px, py);
    }
  }

  /** So a request that dealt with every controller is shown whole and only once, whatever the panel said. */
  lemma RequestTiles(was: seq<Snap>, rects: seq<Clip>, sendRcs: seq<int>, w: nat, v: nat)
    requires Fits(w, v, |was|) && |was| == |sendRcs| && forall i | 0 <= i < |was| :: was[i].bounds == Tile(w, v, i)
    ensures TilesRequest(AppliedUpTo(was, |was|, rects, sendRcs), rects, w, v)
  {
    PiecesTile(AppliedUpTo(was, |was|, rects, sendRcs), rects, w, v);
  }

  lemma TileNarrow(w: nat, v: nat, i: nat, n: nat)
    requires Fits(w, v, n) && i < n
    ensures Tile(w, v, i).Narrow()
  {
    PrefixFits(w, v, i + 1, n);
    TileEdge(w, i);
  }

  /** A region is the request within these bounds, in their own coordinates. */
  ghost predicate Cut(roi: Rect, bounds: Rect, rects: seq<Clip>)
  {
    && (bounds.y == 0 ==> roi.w == 0 || (roi.x + roi.w <= bounds.w && roi.y + roi.h <= bounds.h))
    && forall px: int, py: int :: ShownIn(roi, bounds, px, py) <==> Wanted(rects, px, py) && bounds.Has(px, py)
  }

  lemma TilesApart(w: nat, v: nat, i: nat, j: nat, px: int, py: int)
    requires Tile(w, v, i).Has(px, py) && Tile(w, v, j).Has(px, py)
    ensures i == j
  {
    if i < j {
      TilesInOrder(w, i, j);
    }
    if j < i {
      TilesInOrder(w, j, i);
    }
  }

  lemma PixelShown(now: seq<Snap>, rects: seq<Clip>, w: nat, v: nat, px: int, py: int)
    requires forall i | 0 <= i < |now| :: now[i].bounds == Tile(w, v, i) && Cut(now[i].roi, Tile(w, v, i), rects)
    ensures Wanted(rects, px, py) && 0 <= px < w * |now| && 0 <= py < v <==> exists i :: ShownBy(now, i, px, py)
  {
    if Wanted(rects, px, py) && 0 <= px < w * |now| && 0 <= py < v {
      var i := TileOf(w, |now|, px);
      assert Tile(w, v, i).Has(px, py);
      assert ShownBy(now, i, px, py);
    }
    if i :| ShownBy(now, i, px, py) {
      assert Tile(w, v, i).Has(px, py);
      TileEdge(w, i);
      if i + 1 < |now| {
        TilesInOrder(w, i + 1, |now|);
      }
    }
  }
}
