/** Two places compute the clock rates of the link: a host configuration update, from the mode or from an
    override bit clock, and a dynamic bit clock switch. Each goes through its own chain of rounding
    divisions; here every rate is stated as one division, so that the two can be compared. */
module DsiLinkRates {

  import opened Common
  import opened DsiTiming

  const TICKS_IN_MICRO_SECOND: nat := 1_000_000

  datatype PixelFormat = Rgb565 | Rgb666 | Rgb666Loose | Rgb888 | Rgb111 | Rgb332 | Rgb444 | FormatMax

  /** The controller's table of bits per pixel. */
  function CtrlBpp(format: PixelFormat): (r: nat)
    ensures r > 0
  {
    match format
    case Rgb111 => 3
    case Rgb332 => 8
    case Rgb444 => 12
    case Rgb565 => 16
    case Rgb666 => 18
    case Rgb666Loose => 18
    case Rgb888 => 24
    case _ => 24
  }

  /** The display's table of bits per pixel. */
  function DisplayBpp(format: PixelFormat): nat
  {
    match format
    case Rgb888 => 24
    case FormatMax => 24
    case Rgb666 => 18
    case Rgb666Loose => 18
    case Rgb565 => 16
    case Rgb111 => 3
    case Rgb332 => 8
    case Rgb444 => 12
  }

  lemma TablesAgree(format: PixelFormat)
    ensures CtrlBpp(format) == DisplayBpp(format)
  {
  }

  datatype DataLanes = DataLanes(lane0: bool, lane1: bool, lane2: bool, lane3: bool)
  {
    function Count(): nat
    {
      (if lane0 then 1 else 0) + (if lane1 then 1 else 0) + (if lane2 then 1 else 0) + (if lane3 then 1 else 0)
    }
  }

  datatype HostCfg = HostCfg(format: PixelFormat, lanes: DataLanes, phy: PhyType, cmdMode: bool, splitLink: bool,
      lanesPerSublink: nat)
  {
    /** Lanes that a configuration update counts; the bit clock switch always counts the data lanes. */
    function LinkLanes(): nat { if splitLink then lanesPerSublink else lanes.Count() }
  }

  datatype Freq = Freq(byteClk: nat, byteIntfClk: nat, pixClk: nat, escClk: nat)

  /** The frequencies are kept in 32 bits. */
  function Kept(phy: PhyType, byteClk: nat, pixClk: nat, escClk: nat): Freq
  {
    Freq(U32(byteClk), U32(IntfClk(phy, byteClk)), U32(pixClk), U32(escClk))
  }

  /** Bits, or symbols of a C-PHY, in one byte clock. */
  function PerByteClk(phy: PhyType): nat { if phy == DPhy then 8 else NUM_OF_SYMBOLS }

  /** Payload bits that one lane moves in one byte clock. */
  function BitsPerByteClk(phy: PhyType): nat { if phy == DPhy then 8 else BITS_PER_SYMBOL }

  lemma QuotQuot(n: nat, a: nat, b: nat)
    requires a > 0 && b > 0
    ensures a * b > 0 && Quot(Quot(n, a), b) == Quot(n, a * b)
  {
    ProductPositive(a, b);
    var q := Quot(n, a);
    var p := Quot(q, b);
    NestedQuotient(n, a, b, q, p);
    QuotientUnique(p, Quot(n, a * b), n, a * b);
  }

  lemma ProductPositive(a: nat, b: nat)
    requires a > 0 && b > 0
    ensures a * b > 0
  {
  }

  lemma NestedQuotient(n: int, a: nat, b: nat, q: int, p: int)
    requires a > 0 && b > 0 && IsQuotient(q, n, a) && IsQuotient(p, q, b)
    ensures IsQuotient(p, n, a * b)
  {
    Times(a, b * p, q);
    Times(a, q + 1, b * (p + 1));
    assert a * (b * p) == a * b * p;
    assert a * (b * (p + 1)) == a * b * (p + 1);
  }

  lemma QuotCancel(n: nat, a: nat, c: nat)
    requires a > 0 && c > 0
    ensures a * c > 0 && Quot(n * c, a * c) == Quot(n, a)
  {
    ProductPositive(a, c);
    var q := Quot(n, a);
    CancelledQuotient(n, a, c, q);
    QuotientUnique(q, Quot(n * c, a * c), n * c, a * c);
  }

  lemma CancelledQuotient(n: int, a: nat, c: nat, q: int)
    requires c > 0 && IsQuotient(q, n, a)
    ensures IsQuotient(q, n * c, a * c)
  {
    Times(c, a * q, n);
    Times(c, n + 1, a * (q + 1));
    assert c * (a * q) == a * c * q;
    assert c * (a * (q + 1)) == a * c * (q + 1);
    assert c * (n + 1) == c * n + c;
    assert c * n == n * c;
  }

  function HActiveDsc(t: Timing): nat
    reads t`dsc, t`hActive
  {
    if t.dsc.Dsc? then t.dsc.pclkPerLine else t.hActive
  }

  function Product(a: nat, b: nat, c: nat): nat
  {
    ProductIsNat(a, b);
    ProductIsNat(a * b, c);
    a * b * c
  }

  /** Pixels per second that the mode asks for. */
  function ModePixels(t: Timing, cmdMode: bool, overlap: nat, transferUs: nat): nat
    requires cmdMode ==> transferUs > 0
    reads t
  {
    if cmdMode then Product(HActiveDsc(t) + overlap, t.vActive, Ticks(transferUs))
        else Product(t.HTotalDsc(), t.VTotal(), t.refreshRate)
  }

  /** Pixels per second of a video mode, field by field: refresh rate times a line with its blanking times the lines
      with theirs. */
  function VideoPixels(t: Timing): nat
    reads t
  {
    Product(t.refreshRate, HPixels(t), t.vActive + t.vBackPorch + t.vSyncWidth + t.vFrontPorch)
  }

  function HPixels(t: Timing): nat
    reads t
  {
    (if t.dsc.Dsc? then t.dsc.pclkPerLine else t.hActive) + t.hBackPorch + t.hSyncWidth + t.hFrontPorch
  }

  /** The bit rate fits 64 bits and the lines 32. */
  predicate VideoFits(t: Timing, bpp: nat)
    reads t
  {
    VideoPixels(t) * bpp < TWO_64 && t.vActive + t.vBackPorch + t.vSyncWidth + t.vFrontPorch < TWO_32
  }

  /** Pixels of a frame sent to a command panel: no blanking, but the overlap of the controllers. */
  function CommandPixels(t: Timing, overlap: nat): nat
    reads t
  {
    ProductIsNat((if t.dsc.Dsc? then t.dsc.pclkPerLine else t.hActive) + overlap, t.vActive);
    ((if t.dsc.Dsc? then t.dsc.pclkPerLine else t.hActive) + overlap) * t.vActive
  }

  predicate CommandFits(t: Timing, overlap: nat, transferUs: nat, bpp: nat)
    reads t
  {
    && CommandPixels(t, overlap) * TICKS_IN_MICRO_SECOND * bpp < TWO_64
    && CommandPixels(t, overlap) * TICKS_IN_MICRO_SECOND < TWO_32 * transferUs
  }

  /** In the transfer time a pixel clock sends at most one frame, and one frame more per second would be too many. */
  predicate FillsTransfer(pixClk: nat, frame: nat, transferUs: nat)
  {
    && pixClk * transferUs <= frame * TICKS_IN_MICRO_SECOND
    && (frame > 0 ==> frame * TICKS_IN_MICRO_SECOND < (pixClk + frame) * transferUs)
  }

  lemma VideoRate(t: Timing, overlap: nat, transferUs: nat)
    requires t.vActive + t.vBackPorch + t.vSyncWidth + t.vFrontPorch < TWO_32
    ensures ModePixels(t, false, overlap, transferUs) == VideoPixels(t)
  {
    var h, v, r := t.HTotalDsc(), t.VTotal(), t.refreshRate;
    assert h * v * r == r * h * v;
  }

  lemma CommandRate(t: Timing, overlap: nat, transferUs: nat, bpp: nat)
    requires transferUs > 0 && CommandFits(t, overlap, transferUs, bpp)
    ensures var pixels := ModePixels(t, true, overlap, transferUs);
      pixels < TWO_32 && ModeBits(bpp, pixels) < TWO_64 && FillsTransfer(pixels, CommandPixels(t, overlap), transferUs)
  {
    RateFillsTransfer(CommandPixels(t, overlap), transferUs, bpp);
  }

  lemma RateFillsTransfer(frame: nat, us: nat, bpp: nat)
    requires us > 0 && frame * TICKS_IN_MICRO_SECOND * bpp < TWO_64 && frame * TICKS_IN_MICRO_SECOND < TWO_32 * us
    ensures var pixels := frame * Ticks(us);
      pixels < TWO_32 && ModeBits(bpp, pixels) < TWO_64 && FillsTransfer(pixels, frame, us)
  {
    var q := Ticks(us);
    var pixels := frame * q;
    QuotientIs(TICKS_IN_MICRO_SECOND, us);
    Times(frame, us * q, TICKS_IN_MICRO_SECOND);
    assert frame * (us * q) == pixels * us;
    if frame > 0 {
      Times(frame, TICKS_IN_MICRO_SECOND + 1, us * (q + 1));
      assert frame * (us * (q + 1)) == (pixels + frame) * us;
    }
    if pixels >= TWO_32 {
      Times(us, TWO_32, pixels);
    }
    Times(frame, q, TICKS_IN_MICRO_SECOND);
    Times(bpp, pixels, frame * TICKS_IN_MICRO_SECOND);
  }

  /** Frames per second of a transfer time in microseconds. */
  function Ticks(transferUs: nat): nat
    requires transferUs > 0
  {
    SmallerQuotient(TICKS_IN_MICRO_SECOND, transferUs);
    TICKS_IN_MICRO_SECOND / transferUs
  }

  /** Pixel rate of a configuration update for an override bit clock, rounded once. */
  function OverridePix(phy: PhyType, bpp: nat, lanes: nat, rate: nat): nat
    requires bpp > 0
  {
    if phy == DPhy then Quot(rate * lanes, bpp) else Quot(rate * lanes * BITS_PER_SYMBOL, NUM_OF_SYMBOLS * bpp)
  }

  /** Pixel rate of a bit clock switch: on a C-PHY it is rounded before it is scaled. */
  function SwitchPix(phy: PhyType, bpp: nat, lanes: nat, rate: nat): nat
    requires bpp > 0
  {
    if phy == DPhy then Quot(rate * lanes, bpp) else Quot(Quot(rate * lanes, bpp) * BITS_PER_SYMBOL, NUM_OF_SYMBOLS)
  }

  /** A C-PHY rate goes bit clock -> symbols -> lanes -> byte clock and is still the bit clock over seven. */
  lemma CPhyByteClk(rate: nat, lanes: nat)
    requires lanes > 0
    ensures Quot(Quot(Quot(Quot(rate * lanes * 16, 7), 16) * 7, lanes), 7) == Quot(rate, 7)
  {
    var n := rate * lanes;
    QuotQuot(n * 16, 7, 16);
    QuotCancel(n, 7, 16);
    var q := Quot(n, 7);
    assert Quot(Quot(n * 16, 7), 16) == q;
    QuotQuot(q * 7, lanes, 7);
    QuotCancel(q, lanes, 7);
    QuotQuot(n, 7, lanes);
    QuotCancel(rate, 7, lanes);
  }

  lemma CPhyModeByteClk(n: nat, lanes: nat)
    requires lanes > 0
    ensures Quot(Quot(Quot(n, 16) * 7, lanes), 7) == Quot(n, 16 * lanes)
  {
    var q := Quot(n, 16);
    QuotQuot(q * 7, lanes, 7);
    QuotCancel(q, lanes, 7);
    QuotQuot(n, 16, lanes);
  }

  class LinkCtrl {
    var freq: Freq
    /** The bit clock recorded for the PHY. */
    var bitClkRate: nat

    /** Every chain of divisions is one division: the byte clock is the bit rate over the bits that all lanes
        move in a byte clock, and an override bit clock over its own bits. */
    method UpdateLinkFreqs(cfg: HostCfg, timing: Timing, overlap: nat, transferUs: nat, override: nat, escRate: nat,
        setRc: int) returns (rc: int)
      requires cfg.LinkLanes() > 0 && (override == 0 && cfg.cmdMode ==> transferUs > 0)
      modifies this
      ensures rc == setRc
      ensures RatesFor(cfg, LinkBits(cfg, override, ModePixelsOrNone(timing, cfg, overlap, transferUs, override)),
          escRate)
      ensures override == 0 && !cfg.cmdMode && VideoFits(timing, CtrlBpp(cfg.format)) ==>
        freq.pixClk == U32(VideoPixels(timing))
      ensures override == 0 && cfg.cmdMode && CommandFits(timing, overlap, transferUs, CtrlBpp(cfg.format)) ==>
        FillsTransfer(freq.pixClk, CommandPixels(timing, overlap), transferUs)
    {
      var numOfLanes := CountLanes(cfg.lanes);
      if cfg.splitLink {
        numOfLanes := cfg.lanesPerSublink;
      }
      var bpp := CtrlBpp(cfg.format);
      var bitRate := BitRate(cfg, timing, overlap, transferUs, override, numOfLanes);
      var pclkRate := Quot(bitRate, bpp);
      var byteClkRate, byteIntfClkRate, bitClk;
      if cfg.phy == DPhy {
        byteClkRate := Quot(Quot(bitRate, numOfLanes), 8);
        byteIntfClkRate := Quot(byteClkRate, 2);
        bitClk := byteClkRate * 8;
      } else {
        byteClkRate := Quot(Quot(Quot(bitRate, BITS_PER_SYMBOL) * NUM_OF_SYMBOLS, numOfLanes), 7);
        byteIntfClkRate := byteClkRate;
        bitClk := byteClkRate * 7;
      }
      assert byteClkRate == NestedByteClk(cfg.phy, numOfLanes, bitRate);
      freq := Freq(U32(byteClkRate), U32(byteIntfClkRate), U32(pclkRate), U32(escRate));
      bitClkRate := bitClk;
      rc := setRc;
      assert byteIntfClkRate == IntfClk(cfg.phy, byteClkRate) && bitClk == byteClkRate * PerByteClk(cfg.phy);
      NestedDivisions(cfg.phy, numOfLanes, bitRate);
      if override == 0 && !cfg.cmdMode && VideoFits(timing, bpp) {
        VideoRate(timing, overlap, transferUs);
        ModePixExactly(cfg, VideoPixels(timing));
      }
      if override == 0 && cfg.cmdMode && CommandFits(timing, overlap, transferUs, bpp) {
        CommandRate(timing, overlap, transferUs, bpp);
        ModePixExactly(cfg, ModePixels(timing, true, overlap, transferUs));
      }
    }

    method CountLanes(lanes: DataLanes) returns (numOfLanes: nat)
      ensures numOfLanes == lanes.Count()
    {
      numOfLanes := 0;
      if lanes.lane0 { numOfLanes := numOfLanes + 1; }
      if lanes.lane1 { numOfLanes := numOfLanes + 1; }
      if lanes.lane2 { numOfLanes := numOfLanes + 1; }
      if lanes.lane3 { numOfLanes := numOfLanes + 1; }
    }

    /** The bit rate of the whole link. */
    method BitRate(cfg: HostCfg, timing: Timing, overlap: nat, transferUs: nat, override: nat,
        numOfLanes: nat) returns (bitRate: nat)
      requires numOfLanes == cfg.LinkLanes() && (override == 0 && cfg.cmdMode ==> transferUs > 0)
      ensures bitRate == LinkBits(cfg, override, ModePixelsOrNone(timing, cfg, overlap, transferUs, override))
    {
      if override == 0 {
        var hPeriod, vPeriod, refreshRate;
        if cfg.cmdMode {
          hPeriod := HActiveDsc(timing) + overlap;
          vPeriod, refreshRate := timing.vActive, Ticks(transferUs);
        } else {
          hPeriod, vPeriod, refreshRate := timing.HTotalDsc(), timing.VTotal(), timing.refreshRate;
        }
        bitRate := U64(hPeriod * vPeriod * refreshRate * CtrlBpp(cfg.format));
        assert hPeriod * vPeriod * refreshRate == ModePixels(timing, cfg.cmdMode, overlap, transferUs);
        hide U64, CtrlBpp;
      } else {
        bitRate := U64(override * numOfLanes);
        if cfg.phy == CPhy {
          bitRate := Quot(U64(bitRate * BITS_PER_SYMBOL), NUM_OF_SYMBOLS);
        }
        hide U64, Quot, CtrlBpp;
      }
    }

    /** The rates that go with a bit rate of the whole link: one division each. */
    ghost predicate RatesFor(cfg: HostCfg, bits: nat, escRate: nat)
      requires cfg.LinkLanes() > 0
      reads this
    {
      var byteClk := ByteClkOf(cfg.phy, cfg.LinkLanes(), bits);
      && freq == Kept(cfg.phy, byteClk, Quot(bits, CtrlBpp(cfg.format)), escRate)
      && bitClkRate == byteClk * PerByteClk(cfg.phy)
    }
  }

  class LinkDisplay {
    const ctrls: seq<LinkCtrl>
    const cfg: HostCfg
    var bitClkRate: nat

    constructor (ctrls: seq<LinkCtrl>, cfg: HostCfg)
      ensures this.ctrls == ctrls && this.cfg == cfg && bitClkRate == 0
    {
      this.ctrls, this.cfg, bitClkRate := ctrls, cfg, 0;
    }

    ghost predicate Distinct()
    {
      forall i, j | 0 <= i < j < |ctrls| :: ctrls[i] != ctrls[j]
    }

    /** The controllers are switched in turn; the first one whose clock manager refuses keeps its old recorded
        bit clock but not its old frequencies, and those after it keep both. */
    method UpdateDsiBitrate(rate: nat, setRcs: seq<int>) returns (rc: int)
      requires Distinct() && |setRcs| == |ctrls| && rate < TWO_32
      modifies this, ctrls
      ensures rate == 0 ==>
        rc == -EINVAL && forall i | 0 <= i < |ctrls| ::
            Untouched(old(ctrls[i].freq), old(ctrls[i].bitClkRate), ctrls[i])
      ensures rate != 0 && cfg.lanes.Count() == 0 && ctrls != [] ==>
        rc == -EINVAL && forall i | 0 <= i < |ctrls| ::
            Untouched(old(ctrls[i].freq), old(ctrls[i].bitClkRate), ctrls[i])
      ensures rate != 0 && cfg.lanes.Count() > 0 ==>
        rc == if Accepted(setRcs) < |setRcs| then setRcs[Accepted(setRcs)] else 0
      ensures rate != 0 && cfg.lanes.Count() > 0 ==>
        forall i | 0 <= i < Accepted(setRcs) ::
            ctrls[i].freq == SwitchFreq(cfg, rate, old(ctrls[i].freq.escClk)) && ctrls[i].bitClkRate == rate
      ensures rate != 0 && cfg.lanes.Count() > 0 && rc != 0 ==>
        var k := Accepted(setRcs);
        && ctrls[k].freq == SwitchFreq(cfg, rate, old(ctrls[k].freq.escClk))
        && ctrls[k].bitClkRate == old(ctrls[k].bitClkRate)
      ensures rate != 0 && cfg.lanes.Count() > 0 ==>
        forall i | Accepted(setRcs) < i < |ctrls| :: Untouched(old(ctrls[i].freq), old(ctrls[i].bitClkRate), ctrls[i])
    {
      rc := 0;
      if rate == 0 {
        return -EINVAL;
      }
      bitClkRate := rate;
      for i := 0 to |ctrls|
        invariant bitClkRate == rate
        invariant cfg.lanes.Count() == 0 ==> i == 0
        invariant forall j | 0 <= j < i :: setRcs[j] == 0
        invariant forall j | 0 <= j < i ::
            ctrls[j].freq == SwitchFreq(cfg, rate, old(ctrls[j].freq.escClk)) && ctrls[j].bitClkRate == rate
        invariant forall j | i <= j < |ctrls| :: Untouched(old(ctrls[j].freq), old(ctrls[j].bitClkRate), ctrls[j])
      {
        var ctrl := ctrls[i];
        var numOfLanes := ctrl.CountLanes(cfg.lanes);
        if numOfLanes == 0 {
          return -EINVAL;
        }
        var bpp := DisplayBpp(cfg.format);
        var bits := bitClkRate * numOfLanes;
        var pclkRate := Quot(bits, bpp);
        var byteClkRate, byteIntfClkRate;
        if cfg.phy == DPhy {
          OverrideDivisions(DPhy, bpp, numOfLanes, rate);
          byteClkRate := Quot(Quot(bits, numOfLanes), 8);
          byteIntfClkRate := Quot(byteClkRate, 2);
        } else {
          pclkRate := Quot(pclkRate * BITS_PER_SYMBOL, NUM_OF_SYMBOLS);
          byteClkRate := Quot(bitClkRate, NUM_OF_SYMBOLS);
          byteIntfClkRate := byteClkRate;
        }
        assert Freq(U32(byteClkRate), U32(byteIntfClkRate), U32(pclkRate), ctrl.freq.escClk) ==
            SwitchFreq(cfg, rate, ctrl.freq.escClk);
        hide SwitchFreq, Quot, U32, DataLanes.Count, DisplayBpp;
        ctrl.freq := Freq(U32(byteClkRate), U32(byteIntfClkRate), U32(pclkRate), ctrl.freq.escClk);
        rc := setRcs[i];
        if rc != 0 {
          return;
        }
        ctrl.bitClkRate := rate;
      }
    }
  }

  predicate Untouched(freq: Freq, bitClkRate: nat, ctrl: LinkCtrl)
    reads ctrl
  {
    ctrl.freq == freq && ctrl.bitClkRate == bitClkRate
  }

  /** How many controllers accept before the first one that refuses. */
  function Accepted(rcs: seq<int>): (k: nat)
    ensures k <= |rcs| && (forall i | 0 <= i < k :: rcs[i] == 0) && (k < |rcs| ==> rcs[k] != 0)
  {
    if rcs == [] || rcs[0] != 0 then 0 else 1 + Accepted(rcs[1..])
  }

  /** The frequencies of a configuration update for an override bit clock. */
  function OverrideFreq(cfg: HostCfg, rate: nat, escRate: nat): Freq
  {
    var pixClk := OverridePix(cfg.phy, CtrlBpp(cfg.format), cfg.LinkLanes(), rate);
    Kept(cfg.phy, Quot(rate, PerByteClk(cfg.phy)), pixClk, escRate)
  }

  /** The frequencies of a bit clock switch; the escape clock stays. */
  function SwitchFreq(cfg: HostCfg, rate: nat, escClk: nat): Freq
  {
    var pixClk := SwitchPix(cfg.phy, DisplayBpp(cfg.format), cfg.lanes.Count(), rate);
    Kept(cfg.phy, Quot(rate, PerByteClk(cfg.phy)), pixClk, 0).(escClk := escClk)
  }

  /** A configuration update for an override bit clock on one controller, and a bit clock switch to the same
      rate on others: all byte clocks agree, whatever the PHY and the lanes; on a D-PHY without split link
      everything does. */
  method ConfigureAndSwitch(ctrl: LinkCtrl, display: LinkDisplay, timing: Timing, overlap: nat, transferUs: nat,
                            rate: nat, escRate: nat, setRc: int, setRcs: seq<int>)
    returns (rc: int)
    requires display.Distinct() && ctrl !in display.ctrls && |setRcs| == |display.ctrls|
    requires 0 < rate < TWO_32 && display.cfg.lanes.Count() > 0 && display.cfg.LinkLanes() > 0
    requires forall i | 0 <= i < |display.ctrls| :: display.ctrls[i].freq.escClk == U32(escRate)
    modifies ctrl, display, display.ctrls
    ensures rc == 0 && rate * display.cfg.LinkLanes() * BITS_PER_SYMBOL < TWO_64 ==>
      forall i | 0 <= i < |display.ctrls| ::
        display.ctrls[i].freq.byteClk == ctrl.freq.byteClk && display.ctrls[i].freq.byteIntfClk == ctrl.freq.byteIntfClk
    ensures rc == 0 && display.cfg.phy == DPhy && !display.cfg.splitLink ==>
      forall i | 0 <= i < |display.ctrls| :: display.ctrls[i].freq == ctrl.freq
  {
    var cfg := display.cfg;
    rc := ctrl.UpdateLinkFreqs(cfg, timing, overlap, transferUs, rate, escRate, setRc);
    assert ctrl.RatesFor(cfg, LinkBits(cfg, rate, 0), escRate);
    if rate * cfg.LinkLanes() * BITS_PER_SYMBOL < TWO_64 {
      OverrideRates(cfg, rate);
      assert ctrl.freq == OverrideFreq(cfg, rate, escRate);
    }
    CarriedExactly(cfg.phy, rate, cfg.lanes.Count());
    if cfg.phy == DPhy && !cfg.splitLink {
      DPhyAgrees(cfg, rate, escRate);
    }
    hide Quot, Kept, OverridePix, SwitchPix, LinkBits;
    ByteClocksAgree(cfg, rate, escRate, U32(escRate));
    rc := display.UpdateDsiBitrate(rate, setRcs);
  }

  /** The bits per second that one more pixel in every line, respectively one more line, takes. */
  function UnitBits(t: Timing, kind: DynClkType, bpp: nat): nat
    reads t
  {
    if kind == AdjustHfp then Product(bpp, t.vActive + t.vBackPorch + t.vSyncWidth + t.vFrontPorch, t.refreshRate)
        else Product(bpp, HPixels(t), t.refreshRate)
  }

  /** The fixed part of the axis that is adjusted. */
  function FixedPart(t: Timing, kind: DynClkType): nat
    reads t
  {
    if kind == AdjustHfp then HPixels(t) - t.hFrontPorch else t.vActive + t.vBackPorch + t.vSyncWidth
  }

  /** The bit clock leaves room for the fixed part of the adjusted axis and the porch fits its field. */
  predicate ClockFits(t: Timing, kind: DynClkType, unit: nat, carried: nat)
    reads t
  {
    && carried < TWO_64 && unit * FixedPart(t, kind) <= carried < unit * (FixedPart(t, kind) + TWO_32)
    && t.vActive + t.vBackPorch + t.vSyncWidth + t.vFrontPorch < TWO_32
  }

  /** The bit rate of the mode is at most this, and one more unit of the adjusted total would be too many. */
  predicate Carries(t: Timing, bpp: nat, unit: nat, carried: nat)
    reads t
  {
    VideoPixels(t) * bpp <= carried < VideoPixels(t) * bpp + unit
  }

  method AdjustTo(timing: Timing, kind: DynClkType, lanes: nat, bpp: nat)
    requires kind != Legacy && 0 < UnitBits(timing, kind, bpp) < TWO_32
    requires timing.vActive + timing.vBackPorch + timing.vSyncWidth + timing.vFrontPorch < TWO_32
    modifies timing`hFrontPorch, timing`vFrontPorch
    ensures var unit, carried := old(UnitBits(timing, kind, bpp)), timing.clkRateHz * lanes;
      ClockFits(timing, kind, unit, carried) ==> Carries(timing, bpp, unit, carried)
  {
    ghost var unit := UnitBits(timing, kind, bpp);
    DivisorIs(timing, kind, bpp);
    hide VideoPixels, Product;
    timing.AdjustModeTiming(true, kind, DPhy, lanes, bpp);
    ProductIsNat(timing.clkRateHz, lanes);
    AdjustedBits(timing, kind, bpp, unit, timing.clkRateHz * lanes);
  }

  /** A mode is adjusted to a new bit clock of a D-PHY, then the link is configured for it: the bit rate of the mode
      is at most what the clock carries on all lanes, and one more unit of the adjusted total would be too many, so
      the link's byte clock does not exceed the new one. */
  method AdjustAndConfigure(timing: Timing, ctrl: LinkCtrl, cfg: HostCfg, kind: DynClkType, overlap: nat,
                            transferUs: nat, escRate: nat, setRc: int)
    returns (rc: int)
    requires cfg.phy == DPhy && !cfg.cmdMode && cfg.LinkLanes() > 0 && kind != Legacy
    requires 0 < UnitBits(timing, kind, CtrlBpp(cfg.format)) < TWO_32
    requires timing.vActive + timing.vBackPorch + timing.vSyncWidth + timing.vFrontPorch < TWO_32
    modifies timing`hFrontPorch, timing`vFrontPorch, ctrl
    ensures rc == setRc
    ensures var bpp, carried := CtrlBpp(cfg.format), timing.clkRateHz * cfg.LinkLanes();
      var unit := old(UnitBits(timing, kind, bpp));
      ClockFits(timing, kind, unit, carried) ==>
        && Carries(timing, bpp, unit, carried)
        && ctrl.freq.pixClk == U32(VideoPixels(timing)) && ctrl.bitClkRate <= timing.clkRateHz
  {
    hide UnitBits, VideoPixels, Product, FixedPart, ModePixels;
    var bpp, lanes := CtrlBpp(cfg.format), cfg.LinkLanes();
    AdjustTo(timing, kind, lanes, bpp);
    if VideoPixels(timing) * bpp <= timing.clkRateHz * lanes {
      WithinClock(VideoPixels(timing) * bpp, timing.clkRateHz, lanes);
    }
    rc := ctrl.UpdateLinkFreqs(cfg, timing, overlap, transferUs, 0, escRate, setRc);
    if VideoFits(timing, bpp) {
      VideoRate(timing, overlap, transferUs);
      ModePixExactly(cfg, VideoPixels(timing));
    }
  }

  lemma DivisorIs(t: Timing, kind: DynClkType, bpp: nat)
    requires t.vActive + t.vBackPorch + t.vSyncWidth + t.vFrontPorch < TWO_32
    ensures kind == AdjustHfp ==> Divisor(DPhy, bpp, t.VTotal(), t.refreshRate) == UnitBits(t, kind, bpp)
    ensures kind == AdjustVfp ==> Divisor(DPhy, bpp, t.HTotalDsc(), t.refreshRate) == UnitBits(t, kind, bpp)
  {
  }

  /** The total on the adjusted axis, as a bit rate. */
  lemma AdjustedBits(t: Timing, kind: DynClkType, bpp: nat, unit: nat, carried: nat)
    requires kind != Legacy
    requires unit == UnitBits(t, kind, bpp)
    ensures var total := if kind == AdjustHfp then HPixels(t)
                         else t.vActive + t.vBackPorch + t.vSyncWidth + t.vFrontPorch;
      IsQuotient(total, carried, unit) <==>
        VideoPixels(t) * bpp <= carried < VideoPixels(t) * bpp + unit
  {
    var h, v, r := HPixels(t), t.vActive + t.vBackPorch + t.vSyncWidth + t.vFrontPorch, t.refreshRate;
    assert VideoPixels(t) * bpp == r * h * v * bpp;
    if kind == AdjustHfp {
      assert bpp * v * r * h == r * h * v * bpp;
      assert unit * (h + 1) == unit * h + unit;
    } else {
      assert bpp * h * r * v == r * h * v * bpp;
      assert unit * (v + 1) == unit * v + unit;
    }
  }

  /** Bits within what a bit clock carries on all lanes give a byte clock within it. */
  lemma WithinClock(bits: nat, clk: nat, lanes: nat)
    requires lanes > 0 && bits <= clk * lanes
    ensures ByteClkOf(DPhy, lanes, bits) * 8 <= clk
  {
    var q := ByteClkOf(DPhy, lanes, bits);
    assert (8 * lanes) * q == lanes * (8 * q);
    if 8 * q > clk {
      Times(lanes, clk + 1, 8 * q);
    }
  }

  lemma ByteClocksAgree(cfg: HostCfg, rate: nat, escRate: nat, escClk: nat)
    ensures OverrideFreq(cfg, rate, escRate).byteClk == SwitchFreq(cfg, rate, escClk).byteClk
    ensures OverrideFreq(cfg, rate, escRate).byteIntfClk == SwitchFreq(cfg, rate, escClk).byteIntfClk
  {
  }

  /** On a D-PHY without split link the two computations agree, whatever the rate, lanes and format. */
  lemma DPhyAgrees(cfg: HostCfg, rate: nat, escRate: nat)
    requires cfg.phy == DPhy && !cfg.splitLink
    ensures OverrideFreq(cfg, rate, escRate) == SwitchFreq(cfg, rate, U32(escRate))
  {
    TablesAgree(cfg.format);
  }

  /** With split link they count different lanes. The pixel clocks agree exactly when the additional lanes do
      not complete another pixel. */
  lemma DPhyPixAgreesExactly(cfg: HostCfg, rate: nat)
    requires cfg.phy == DPhy
    ensures var bpp, a, b := CtrlBpp(cfg.format), cfg.LinkLanes(), cfg.lanes.Count();
      var few, many := if a < b then a else b, if a < b then b else a;
      OverridePix(DPhy, bpp, a, rate) == SwitchPix(DPhy, DisplayBpp(cfg.format), b, rate) <==>
        Rem(rate * few, bpp) + rate * (many - few) < bpp
  {
    TablesAgree(cfg.format);
    var bpp, a, b := CtrlBpp(cfg.format), cfg.LinkLanes(), cfg.lanes.Count();
    if a < b {
      SamePixExactly(rate, bpp, a, b);
    } else {
      SamePixExactly(rate, bpp, b, a);
    }
  }

  lemma SamePixExactly(rate: nat, bpp: nat, few: nat, many: nat)
    requires bpp > 0 && few <= many
    ensures Quot(rate * few, bpp) == Quot(rate * many, bpp) <==> Rem(rate * few, bpp) + rate * (many - few) < bpp
  {
    ProductIsNat(rate, few);
    ProductIsNat(rate, many);
    ProductIsNat(rate, many - few);
    var q, e := Quot(rate * few, bpp), Rem(rate * few, bpp) + rate * (many - few);
    assert rate * many == rate * few + rate * (many - few);
    SameQuotient(rate * many, bpp, q, e, Quot(rate * many, bpp));
  }

  lemma SameQuotient(n: int, d: nat, q: int, e: nat, o: int)
    requires d > 0 && n == d * q + e && IsQuotient(o, n, d)
    ensures o == q <==> e < d
  {
    if e < d {
      QuotientUnique(q, o, n, d);
    }
  }

  /** A clock of at least one pixel per second tells the lane counts apart. */
  lemma DPhyPixAgreesForPixels(cfg: HostCfg, rate: nat)
    requires cfg.phy == DPhy && rate >= CtrlBpp(cfg.format)
    ensures var a, b := cfg.LinkLanes(), cfg.lanes.Count();
      OverridePix(DPhy, CtrlBpp(cfg.format), a, rate) == SwitchPix(DPhy, DisplayBpp(cfg.format), b, rate) <==> a == b
  {
    TablesAgree(cfg.format);
    var bpp := CtrlBpp(cfg.format);
    if cfg.LinkLanes() < cfg.lanes.Count() {
      MoreLanes(rate, bpp, cfg.LinkLanes(), cfg.lanes.Count());
    }
    if cfg.lanes.Count() < cfg.LinkLanes() {
      MoreLanes(rate, bpp, cfg.lanes.Count(), cfg.LinkLanes());
    }
  }

  /** Four data lanes split into sublinks of two, 24 bits per pixel, 240 bits per second on each lane: 20
      pixels by the update, 40 by the switch. */
  lemma SplitLinkDisagrees()
    ensures OverridePix(DPhy, 24, 2, 240) == 20 && SwitchPix(DPhy, 24, 4, 240) == 40
  {
    QuotientUnique(Quot(240 * 2, 24), 20, 240 * 2, 24);
    QuotientUnique(Quot(240 * 4, 24), 40, 240 * 4, 24);
  }

  /** Seven symbols per second on one lane of a C-PHY, 8 bits per pixel: the update counts 2 pixels, the
      switch none. */
  lemma CPhyDisagrees()
    ensures OverridePix(CPhy, 8, 1, 7) == 2 && SwitchPix(CPhy, 8, 1, 7) == 0
  {
    QuotientUnique(Quot(7 * 1 * 16, 7 * 8), 2, 7 * 1 * 16, 7 * 8);
    QuotientUnique(Quot(7 * 1, 8), 0, 7 * 1, 8);
    QuotientUnique(Quot(0 * 16, 7), 0, 0 * 16, 7);
  }

  lemma MoreLanes(rate: nat, bpp: nat, a: nat, b: nat)
    requires 0 < bpp <= rate && a < b
    ensures Quot(rate * a, bpp) < Quot(rate * b, bpp)
  {
    var p, q := Quot(rate * a, bpp), Quot(rate * b, bpp);
    Times(rate, a + 1, b);
    assert rate * (a + 1) == rate * a + rate;
    if q <= p {
      Times(bpp, q + 1, p + 1);
    }
  }

  /** On a C-PHY the byte clocks agree, and the pixel clocks exactly when the remainder that the switch drops
      before scaling, together with the remainder of the scaling, stays short of one pixel. */
  lemma CPhyPixAgreesExactly(bpp: nat, lanes: nat, rate: nat)
    requires bpp > 0
    ensures var s := SwitchPix(CPhy, bpp, lanes, rate); s <= OverridePix(CPhy, bpp, lanes, rate) <= s + 3
    ensures OverridePix(CPhy, bpp, lanes, rate) == SwitchPix(CPhy, bpp, lanes, rate) <==>
            16 * (rate * lanes % bpp) + (16 * (rate * lanes / bpp) % 7) * bpp < 7 * bpp
  {
    var n := rate * lanes;
    var s, o := SwitchPix(CPhy, bpp, lanes, rate), OverridePix(CPhy, bpp, lanes, rate);
    ScaledQuotient(n, n / bpp, n % bpp, bpp, s, o, 16 * (n / bpp) % 7);
  }

  lemma ScaledQuotient(n: nat, k: int, r: int, bpp: nat, s: int, o: int, t: int)
    requires bpp > 0 && n == k * bpp + r && 0 <= r < bpp
    requires IsQuotient(s, k * 16, 7) && t == 16 * k - 7 * s
    requires IsQuotient(o, n * 16, 7 * bpp)
    ensures s <= o <= s + 3
    ensures o == s <==> 16 * r + t * bpp < 7 * bpp
  {
    var e := t * bpp + 16 * r;
    assert n * 16 == 7 * bpp * s + e by { Expanded(n, k, r, bpp, s, t); }
    assert 0 <= t * bpp <= 6 * bpp by { Times(bpp, 0, t); Times(bpp, t, 6); }
    NearQuotient(n * 16, 7 * bpp, s, e, o);
  }

  lemma Expanded(n: nat, k: int, r: int, bpp: nat, s: int, t: int)
    requires n == k * bpp + r && 16 * k == 7 * s + t
    ensures n * 16 == 7 * bpp * s + (t * bpp + 16 * r)
  {
    assert n * 16 == 16 * k * bpp + 16 * r;
    assert 16 * k * bpp == (7 * s + t) * bpp;
    assert (7 * s + t) * bpp == 7 * bpp * s + t * bpp;
  }

  /** The quotient of d * s + e is near s when e is a few times d. */
  lemma NearQuotient(n: int, d: nat, s: int, e: int, o: int)
    requires d > 0 && n == d * s + e && 0 <= e < 4 * d && IsQuotient(o, n, d)
    ensures s <= o <= s + 3
    ensures o == s <==> e < d
  {
    if o < s {
      Times(d, o + 1, s);
    }
    if o > s + 3 {
      Times(d, s + 4, o);
    }
    if e < d {
      QuotientUnique(s, o, n, d);
    }
  }

  /** Feeding the recorded bit clock back as a switch gives the recorded byte clock. */
  lemma RecordedRateRoundTrip(cfg: HostCfg, bits: nat, escClk: nat)
    requires cfg.LinkLanes() > 0
    ensures var byteClk := ByteClkOf(cfg.phy, cfg.LinkLanes(), bits);
      SwitchFreq(cfg, byteClk * PerByteClk(cfg.phy), escClk).byteClk == U32(byteClk)
  {
    var byteClk := ByteClkOf(cfg.phy, cfg.LinkLanes(), bits);
    QuotCancel(byteClk, 1, PerByteClk(cfg.phy));
    QuotientUnique(Quot(byteClk, 1), byteClk, byteClk, 1);
  }

  function IntfClk(phy: PhyType, byteClk: nat): nat { if phy == DPhy then Quot(byteClk, 2) else byteClk }

  /** Pixels per second of the mode, where the mode decides. */
  function ModePixelsOrNone(timing: Timing, cfg: HostCfg, overlap: nat, transferUs: nat, override: nat): nat
    requires override == 0 && cfg.cmdMode ==> transferUs > 0
    reads timing
  {
    if override == 0 then ModePixels(timing, cfg.cmdMode, overlap, transferUs) else 0
  }

  /** The bit rate in the driver's 64 bits, from the mode or from an override bit clock. */
  function LinkBits(cfg: HostCfg, override: nat, pixels: nat): nat
  {
    if override == 0 then U64(ModeBits(CtrlBpp(cfg.format), pixels))
    else if cfg.phy == DPhy then U64(override * cfg.LinkLanes())
    else Quot(U64(U64(override * cfg.LinkLanes()) * BITS_PER_SYMBOL), NUM_OF_SYMBOLS)
  }

  function ModeBits(bpp: nat, pixels: nat): nat { pixels * bpp }

  function ByteClkOf(phy: PhyType, lanes: nat, bits: nat): nat
    requires lanes > 0
  {
    Quot(bits, BitsPerByteClk(phy) * lanes)
  }

  /** The byte clock through the driver's chain of divisions. */
  function NestedByteClk(phy: PhyType, lanes: nat, bits: nat): nat
    requires lanes > 0
  {
    if phy == DPhy then Quot(Quot(bits, lanes), 8)
        else Quot(Quot(Quot(bits, BITS_PER_SYMBOL) * NUM_OF_SYMBOLS, lanes), NUM_OF_SYMBOLS)
  }

  function OverrideBits(phy: PhyType, lanes: nat, rate: nat): nat
  {
    if phy == DPhy then rate * lanes else Quot(rate * lanes * BITS_PER_SYMBOL, NUM_OF_SYMBOLS)
  }

  /** The driver's chain of divisions is one division. */
  lemma NestedDivisions(phy: PhyType, lanes: nat, bits: nat)
    requires lanes > 0
    ensures NestedByteClk(phy, lanes, bits) == ByteClkOf(phy, lanes, bits)
  {
    if phy == DPhy {
      QuotQuot(bits, lanes, 8);
    } else {
      CPhyModeByteClk(bits, lanes);
    }
  }

  /** A mode whose bit rate fits in 64 bits gets exactly its pixel rate as pixel clock. */
  lemma ModePixExactly(cfg: HostCfg, pixels: nat)
    requires ModeBits(CtrlBpp(cfg.format), pixels) < TWO_64
    ensures LinkBits(cfg, 0, pixels) == ModeBits(CtrlBpp(cfg.format), pixels)
    ensures Quot(LinkBits(cfg, 0, pixels), CtrlBpp(cfg.format)) == pixels
  {
    QuotCancel(pixels, 1, CtrlBpp(cfg.format));
    QuotientUnique(Quot(pixels, 1), pixels, pixels, 1);
  }

  /** An override bit clock whose bit rate fits in 64 bits gives its own byte clock, whatever the lanes. */
  lemma OverrideRates(cfg: HostCfg, rate: nat)
    requires cfg.LinkLanes() > 0 && rate > 0 && rate * cfg.LinkLanes() * BITS_PER_SYMBOL < TWO_64
    ensures ByteClkOf(cfg.phy, cfg.LinkLanes(), LinkBits(cfg, rate, 0)) == Quot(rate, PerByteClk(cfg.phy))
    ensures Quot(LinkBits(cfg, rate, 0), CtrlBpp(cfg.format)) ==
        OverridePix(cfg.phy, CtrlBpp(cfg.format), cfg.LinkLanes(), rate)
  {
    OverrideDivisions(cfg.phy, CtrlBpp(cfg.format), cfg.LinkLanes(), rate);
    NestedDivisions(cfg.phy, cfg.LinkLanes(), LinkBits(cfg, rate, 0));
  }

  lemma OverrideDivisions(phy: PhyType, bpp: nat, lanes: nat, rate: nat)
    requires lanes > 0 && bpp > 0
    ensures Quot(OverrideBits(phy, lanes, rate), bpp) == OverridePix(phy, bpp, lanes, rate)
    ensures NestedByteClk(phy, lanes, OverrideBits(phy, lanes, rate)) == Quot(rate, PerByteClk(phy))
  {
    if phy == DPhy {
      QuotCancel(rate, 1, lanes);
      QuotientUnique(Quot(rate, 1), rate, rate, 1);
    } else {
      QuotQuot(rate * lanes * BITS_PER_SYMBOL, NUM_OF_SYMBOLS, bpp);
      CPhyByteClk(rate, lanes);
    }
  }
}
