/** Reference-counted status interrupts of a DSI controller: API calls and the interrupt handler share
    one mask, and the interrupt line is enabled only while somebody waits for something. Every enable and
    disable runs under a spin lock, so an interleaving is a sequence of whole calls. */
module DsiStatusIrq {

  const DSI_STATUS_INTERRUPT_COUNT: nat := 11

  const SINT_CMD_MODE_DMA_DONE: nat := 0
  const SINT_VIDEO_MODE_FRAME_DONE: nat := 4
  const SINT_BTA_DONE: nat := 5
  const SINT_CMD_FRAME_DONE: nat := 6

  const BITS: nat := 32

  /** A 32-bit register, lowest bit first. */
  type Word = w: seq<bool> | |w| == BITS witness seq(BITS, _ => false)

  const NO_BITS: Word := seq(BITS, _ => false)

  function Pow2(k: nat): (r: nat)
    ensures r > 0
  {
    if k == 0 then 1 else 2 * Pow2(k - 1)
  }

  /** The number that a row of bits stands for. */
  function Value(w: seq<bool>): nat
  {
    if w == [] then 0 else Value(w[..|w| - 1]) + if w[|w| - 1] then Pow2(|w| - 1) else 0
  }

  /** mask |= BIT(i): the number gains 2^i unless the bit was set. */
  function Raised(w: Word, i: nat): Word
    requires i < BITS
  {
    w[i := true]
  }

  /** mask &= ~BIT(i). */
  function Lowered(w: Word, i: nat): Word
    requires i < BITS
  {
    w[i := false]
  }

  lemma {:induction false} ValueMoved(w: seq<bool>, i: nat, bit: bool)
    requires i < |w|
    ensures Value(w[i := bit]) ==
      Value(w) + (if bit && !w[i] then Pow2(i) else 0) - (if !bit && w[i] then Pow2(i) else 0)
  {
    var n := |w| - 1;
    if i < n {
      ValueMoved(w[..n], i, bit);
      assert w[i := bit][..n] == w[..n][i := bit];
    } else {
      assert w[i := bit][..n] == w[..n];
    }
  }

  /** What the bit operations do to the mask as a number: they add or take the bit's power of two, or
      nothing. */
  lemma BitArithmetic(w: Word, i: nat)
    requires i < BITS
    ensures Value(Raised(w, i)) == Value(w) + (if w[i] then 0 else Pow2(i))
    ensures Value(Lowered(w, i)) == Value(w) - (if w[i] then Pow2(i) else 0)
  {
    ValueMoved(w, i, true);
    ValueMoved(w, i, false);
  }

  /** A register reads zero exactly when no bit is set. */
  lemma {:induction false} ZeroExactly(w: seq<bool>)
    ensures Value(w) == 0 <==> forall i | 0 <= i < |w| :: !w[i]
  {
    if w != [] {
      var n := |w| - 1;
      ZeroExactly(w[..n]);
      assert forall i | 0 <= i < n :: w[..n][i] == w[i];
    }
  }

  datatype Op = Want(intr: nat) | Drop(intr: nat)

  /** The reference count of one interrupt after one call: a drop never goes below zero. */
  function CountAfter(count: nat, op: Op): nat
  {
    match op
    case Want(_) => count + 1
    case Drop(_) => if count == 0 then 0 else count - 1
  }

  /** All reference counts after one call; an index past the last interrupt is ignored. */
  function After(counts: seq<nat>, op: Op): (r: seq<nat>)
    ensures |r| == |counts|
  {
    if op.intr < |counts| then counts[op.intr := CountAfter(counts[op.intr], op)] else counts
  }

  function AfterAll(counts: seq<nat>, ops: seq<Op>): (r: seq<nat>)
    ensures |r| == |counts|
    decreases |ops|
  {
    if ops == [] then counts else After(AfterAll(counts, ops[..|ops| - 1]), ops[|ops| - 1])
  }

  /** The calls about interrupt i, in their order. */
  function About(ops: seq<Op>, i: nat): seq<Op>
    decreases |ops|
  {
    if ops == [] then []
    else
      var before := About(ops[..|ops| - 1], i);
      if ops[|ops| - 1].intr == i then before + [ops[|ops| - 1]] else before
  }

  /** How the calls about different interrupts interleave does not matter: each count depends on the
      calls about that interrupt alone. */
  lemma {:induction false} InterleavingIsInvisible(counts: seq<nat>, ops: seq<Op>, i: nat)
    requires i < |counts|
    ensures AfterAll(counts, ops)[i] == AfterAll(counts, About(ops, i))[i]
    decreases |ops|
  {
    if ops != [] {
      var before := ops[..|ops| - 1];
      InterleavingIsInvisible(counts, before, i);
      if ops[|ops| - 1].intr == i {
        assert About(ops, i)[..|About(ops, i)| - 1] == About(before, i);
      }
    }
  }

  lemma AfterMore(counts: seq<nat>, ops: seq<Op>, op: Op)
    ensures AfterAll(counts, ops + [op]) == After(AfterAll(counts, ops), op)
  {
    assert (ops + [op])[..|ops|] == ops;
  }

  /** The mask holds exactly the interrupts somebody waits for. */
  ghost predicate MaskCounts(mask: Word, counts: seq<nat>)
  {
    && |counts| == DSI_STATUS_INTERRUPT_COUNT
    && forall i | 0 <= i < BITS :: mask[i] <==> i < |counts| && counts[i] > 0
  }

  lemma EmptyMaskExactly(mask: Word, counts: seq<nat>)
    requires MaskCounts(mask, counts)
    ensures Value(mask) == 0 <==> forall i | 0 <= i < |counts| :: counts[i] == 0
  {
    ZeroExactly(mask);
    if Value(mask) == 0 {
      forall i | 0 <= i < |counts|
        ensures counts[i] == 0
      {
        assert !mask[i];
      }
    }
  }

  lemma SetIsNotZero(mask: Word, i: nat)
    requires i < BITS && mask[i]
    ensures Value(mask) != 0
  {
    ZeroExactly(mask);
  }

  /** The first wait for an interrupt raises its bit, the last drop lowers it. */
  lemma MaskFollows(mask: Word, counts: seq<nat>, op: Op)
    requires MaskCounts(mask, counts) && op.intr < DSI_STATUS_INTERRUPT_COUNT
    ensures var moved := if op.Want? then Raised(mask, op.intr) else Lowered(mask, op.intr);
      var count, after := counts[op.intr], After(counts, op);
      && (count == (if op.Want? then 0 else 1) ==> MaskCounts(moved, after))
      && (count > (if op.Want? then 0 else 1) ==> MaskCounts(mask, after))
      && (count > 0 ==> Value(mask) != 0)
      && (op.Want? ==> Value(Raised(mask, op.intr)) != 0)
  {
    if counts[op.intr] > 0 {
      SetIsNotZero(mask, op.intr);
    }
    SetIsNotZero(Raised(mask, op.intr), op.intr);
  }

  function DropIf(reported: bool, counts: seq<nat>, i: nat): seq<nat>
  {
    if reported then After(counts, Drop(i)) else counts
  }

  /** The counts after the handler has seen this status word, in the order it looks at the word. */
  function AfterIsr(counts: seq<nat>, status: Word): seq<nat>
  {
    var dma := DropIf(status[SINT_CMD_MODE_DMA_DONE], counts, SINT_CMD_MODE_DMA_DONE);
    var frame := DropIf(status[SINT_CMD_FRAME_DONE], dma, SINT_CMD_FRAME_DONE);
    var video := DropIf(status[SINT_VIDEO_MODE_FRAME_DONE], frame, SINT_VIDEO_MODE_FRAME_DONE);
    DropIf(status[SINT_BTA_DONE], video, SINT_BTA_DONE)
  }

  /** The handler acts on four of the completions that the status word can report. */
  predicate Served(status: Word, i: nat)
  {
    && i in {SINT_CMD_MODE_DMA_DONE, SINT_CMD_FRAME_DONE, SINT_VIDEO_MODE_FRAME_DONE, SINT_BTA_DONE}
    && status[i]
  }

  lemma DropIfAt(reported: bool, counts: seq<nat>, i: nat, k: nat)
    requires k < |counts|
    ensures |DropIf(reported, counts, i)| == |counts|
    ensures DropIf(reported, counts, i)[k] == if reported && i == k then CountAfter(counts[k], Drop(k)) else counts[k]
  {
  }

  /** Each reported completion of the four drops one wait for it, and no other count moves. */
  lemma IsrServes(counts: seq<nat>, status: Word, k: nat)
    requires k < |counts|
    ensures |AfterIsr(counts, status)| == |counts|
    ensures AfterIsr(counts, status)[k] == if Served(status, k) then CountAfter(counts[k], Drop(k)) else counts[k]
  {
    hide DropIf, CountAfter;
    DropIfAt(status[SINT_CMD_MODE_DMA_DONE], counts, SINT_CMD_MODE_DMA_DONE, k);
    var dma := DropIf(status[SINT_CMD_MODE_DMA_DONE], counts, SINT_CMD_MODE_DMA_DONE);
    DropIfAt(status[SINT_CMD_FRAME_DONE], dma, SINT_CMD_FRAME_DONE, k);
    var frame := DropIf(status[SINT_CMD_FRAME_DONE], dma, SINT_CMD_FRAME_DONE);
    DropIfAt(status[SINT_VIDEO_MODE_FRAME_DONE], frame, SINT_VIDEO_MODE_FRAME_DONE, k);
    var video := DropIf(status[SINT_VIDEO_MODE_FRAME_DONE], frame, SINT_VIDEO_MODE_FRAME_DONE);
    DropIfAt(status[SINT_BTA_DONE], video, SINT_BTA_DONE, k);
  }

  class StatusIrq {
    var irqNum: int
    var mask: Word
    const refcount: array<nat>
    /** The mask last written to the controller. */
    var hwMask: Word
    /** How many times the interrupt line is disabled; it is enabled at zero. */
    ghost var depth: nat

    ghost predicate Counted()
      reads this, refcount
    {
      MaskCounts(mask, refcount[..]) && hwMask == mask
    }

    /** Within a registration the interrupt line is enabled exactly while the mask is non-empty. */
    ghost predicate LineFollows()
      reads this
    {
      irqNum != -1 ==> depth == (if Value(mask) == 0 then 1 else 0)
    }

    constructor ()
      ensures Counted() && LineFollows() && fresh(refcount)
      ensures irqNum == -1 && mask == NO_BITS && forall i | 0 <= i < refcount.Length :: refcount[i] == 0
    {
      irqNum, mask, hwMask, depth := -1, NO_BITS, NO_BITS, 0;
      refcount := new nat[DSI_STATUS_INTERRUPT_COUNT](_ => 0);
      new;
    }

    /** Requesting the line leaves it enabled, and the driver disables it at once. The invariant of the
        new registration starts to hold exactly when the mask is empty at that moment. */
    method SetupIsr(irq: int, requestRc: int) returns (rc: int)
      requires Counted() && LineFollows()
      modifies this`irqNum, this`depth
      ensures Counted()
      ensures old(irqNum) != -1 ==> rc == 0 && irqNum == old(irqNum) && depth == old(depth)
      ensures old(irqNum) == -1 && irq < 0 ==> rc == irq && irqNum == -1
      ensures old(irqNum) == -1 && irq >= 0 ==> rc == requestRc && irqNum == (if requestRc == 0 then irq else -1)
      ensures old(irqNum) == -1 && irqNum != -1 ==> depth == 1
      ensures LineFollows() <==> old(irqNum) != -1 || irqNum == -1 || Value(mask) == 0
    {
      if irqNum != -1 {
        return 0;
      }
      if irq < 0 {
        rc := irq;
      } else {
        rc := requestRc;
        if rc == 0 {
          irqNum := irq;
          depth := 0;
          DisableIrq();
        }
      }
    }

    method DestroyIsr()
      requires Counted() && LineFollows()
      modifies this`irqNum
      ensures Counted() && LineFollows()
      ensures irqNum == if old(irqNum) >= 0 then -1 else old(irqNum)
    {
      if irqNum < 0 {
        return;
      }
      irqNum := -1;
    }

    /** The kernel's depth counter must be positive when a driver enables the line. */
    method EnableIrq()
      requires depth > 0
      modifies this`depth
      ensures depth == old(depth) - 1
    {
      depth := depth - 1;
    }

    /** Disabling an enabled line; the driver never nests two disables. */
    method DisableIrq()
      requires depth == 0
      modifies this`depth
      ensures depth == 1
    {
      depth := depth + 1;
    }

    method Enable(intr: nat)
      requires Counted() && LineFollows()
      modifies this`mask, this`hwMask, this`depth, refcount
      ensures Counted() && LineFollows()
      ensures irqNum == -1 ==> refcount[..] == old(refcount[..]) && mask == old(mask)
      ensures irqNum != -1 ==> refcount[..] == After(old(refcount[..]), Want(intr))
    {
      if irqNum == -1 || intr >= DSI_STATUS_INTERRUPT_COUNT {
        return;
      }
      MaskFollows(mask, refcount[..], Want(intr));
      hide Value;
      if refcount[intr] == 0 {
        if Value(mask) == 0 {
          EnableIrq();
        }
        mask := Raised(mask, intr);
        hwMask := mask;
      }
      refcount[intr] := refcount[intr] + 1;
      assert refcount[..] == After(old(refcount[..]), Want(intr));
    }

    method Disable(intr: nat)
      requires Counted() && LineFollows()
      modifies this`mask, this`hwMask, this`depth, refcount
      ensures Counted() && LineFollows()
      ensures irqNum == -1 ==> refcount[..] == old(refcount[..]) && mask == old(mask)
      ensures irqNum != -1 ==> refcount[..] == After(old(refcount[..]), Drop(intr))
    {
      if irqNum == -1 || intr >= DSI_STATUS_INTERRUPT_COUNT {
        return;
      }
      MaskFollows(mask, refcount[..], Drop(intr));
      hide Value;
      if refcount[intr] != 0 {
        refcount[intr] := refcount[intr] - 1;
        if refcount[intr] == 0 {
          mask := Lowered(mask, intr);
          hwMask := mask;
          if Value(mask) == 0 {
            DisableIrq();
          }
        }
      }
      assert refcount[..] == After(old(refcount[..]), Drop(intr));
    }

    /** The interrupt handler drops one wait for each of the four completions the status word reports. */
    method Isr(status: Word)
      requires Counted() && LineFollows() && irqNum != -1
      modifies this`mask, this`hwMask, this`depth, refcount
      ensures Counted() && LineFollows()
      ensures refcount[..] == AfterIsr(old(refcount[..]), status)
    {
      hide Value, MaskCounts, After, Counted, LineFollows;
      if status[SINT_CMD_MODE_DMA_DONE] {
        Disable(SINT_CMD_MODE_DMA_DONE);
      }
      if status[SINT_CMD_FRAME_DONE] {
        Disable(SINT_CMD_FRAME_DONE);
      }
      if status[SINT_VIDEO_MODE_FRAME_DONE] {
        Disable(SINT_VIDEO_MODE_FRAME_DONE);
      }
      if status[SINT_BTA_DONE] {
        Disable(SINT_BTA_DONE);
      }
    }

    /** Any interleaving of calls within one registration: the counts are those of the history, the mask
        holds exactly the positive ones, and the line is enabled exactly while one of them is positive. */
    method Run(ops: seq<Op>)
      requires Counted() && LineFollows() && irqNum != -1
      modifies this`mask, this`hwMask, this`depth, refcount
      ensures Counted() && LineFollows()
      ensures refcount[..] == AfterAll(old(refcount[..]), ops)
      ensures depth == 0 <==> exists i :: 0 <= i < refcount.Length && refcount[i] > 0
    {
      ghost var was := refcount[..];
      for k := 0 to |ops|
        invariant Counted() && LineFollows()
        invariant refcount[..] == AfterAll(was, ops[..k])
      {
        assert ops[..k + 1] == ops[..k] + [ops[k]];
        AfterMore(was, ops[..k], ops[k]);
        match ops[k]
        case Want(i) => Enable(i);
        case Drop(i) => Disable(i);
      }
      assert ops[..|ops|] == ops;
      EmptyMaskExactly(mask, refcount[..]);
    }
  }

  /** A wait that outlives its registration: after the next one the line stays disabled although the wait
      is still counted and its bit still set. */
  method WaitOutlivesRegistration() returns (s: StatusIrq)
    ensures s.Counted() && s.irqNum != -1
            && s.refcount[..] == After(seq(DSI_STATUS_INTERRUPT_COUNT, _ => 0), Want(SINT_BTA_DONE))
    ensures s.mask[SINT_BTA_DONE] && s.depth == 1 && !s.LineFollows()
  {
    s := new StatusIrq();
    assert s.refcount[..] == seq(DSI_STATUS_INTERRUPT_COUNT, _ => 0);
    ZeroExactly(s.mask);
    var rc := s.SetupIsr(7, 0);
    s.Enable(SINT_BTA_DONE);
    s.DestroyIsr();
    SetIsNotZero(s.mask, SINT_BTA_DONE);
    rc := s.SetupIsr(7, 0);
  }
}
