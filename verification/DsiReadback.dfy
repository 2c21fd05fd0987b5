/** Reading a panel register of any length through the 16-byte read-back window of the DSI
    controller. The window keeps only the tail of a reply, so a long read asks again with a growing
    maximum return size and works out how much of each window it has already seen. */
module DsiReadback {

  import opened Common

  const WINDOW: nat := 16

  // Response types of the MIPI DSI specification.
  const RX_GENERIC_SHORT_1: byte := 0x11
  const RX_GENERIC_SHORT_2: byte := 0x12
  const RX_GENERIC_LONG: byte := 0x1a
  const RX_DCS_LONG: byte := 0x1c
  const RX_DCS_SHORT_1: byte := 0x21
  const RX_DCS_SHORT_2: byte := 0x22

  predicate IsLong(t: byte) { t == RX_GENERIC_LONG || t == RX_DCS_LONG }
  predicate IsShort1(t: byte) { t == RX_GENERIC_SHORT_1 || t == RX_DCS_SHORT_1 }
  predicate IsShort2(t: byte) { t == RX_GENERIC_SHORT_2 || t == RX_DCS_SHORT_2 }

  /** A panel holding a payload, with the framing it puts around it. */
  datatype RawPanel = RawPanel(payload: seq<byte>, header: seq<byte>, crc: seq<byte>, shortTypes: seq<byte>, ecc: byte)

  predicate WellFramed(p: RawPanel) {
    && |p.header| == 4 && IsLong(p.header[0]) && |p.crc| == 2
    && |p.shortTypes| == 2 && IsShort1(p.shortTypes[0]) && IsShort2(p.shortTypes[1])
  }

  type Panel = p: RawPanel | WellFramed(p)
    witness RawPanel([], [RX_DCS_LONG, 0, 0, 0], [0, 0], [RX_DCS_SHORT_1, RX_DCS_SHORT_2], 0)

  function Min(a: nat, b: nat): nat { if a < b then a else b }

  function Zeros(k: nat): (r: seq<byte>)
    ensures |r| == k
  {
    seq(k, _ => 0)
  }

  function ByteAt(s: seq<byte>, i: nat): byte { if i < |s| then s[i] else 0 }

  /** The panel's answer to a read of n bytes under maximum return size m: up to two bytes travel in a
      short packet, more in a long packet with header and CRC. */
  function Reply(p: Panel, n: nat, m: nat): (r: seq<byte>)
  {
    if n <= 2 then
      [p.shortTypes[if n == 2 then 1 else 0], ByteAt(p.payload, 0), ByteAt(p.payload, 1), p.ecc]
    else
      p.header + p.payload[..Min(m, |p.payload|)] + p.crc
  }

  /** What the cleared window holds after a reply has been shifted through it. */
  function WindowOf(reply: seq<byte>): (w: seq<byte>)
    ensures |w| == WINDOW
  {
    if |reply| >= WINDOW then reply[|reply| - WINDOW..] else Zeros(WINDOW - |reply|) + reply
  }

  /** The driver's estimate of how many window bytes it has read before. */
  function RepeatedBytes(readOffset: int, rxByte: int, readCnt: int): int {
    if readCnt > WINDOW then
      var shifted := readCnt - rxByte;
      var dataLost := if shifted >= 4 then shifted - 4 else 0;
      var remHeader := if shifted >= 4 then 0 else 4 - shifted;
      readOffset - 4 - dataLost + remHeader
    else
      0
  }

  /** The estimate is exact, whether or not part of the header is still in the window: the window ends
      at byte readCnt of the reply and starts readCnt - rxByte bytes in. */
  lemma RepeatedBytesExact(readOffset: int, rxByte: int, readCnt: int)
    ensures RepeatedBytes(readOffset, rxByte, readCnt) ==
      if readCnt > WINDOW then readOffset - (readCnt - rxByte) else 0
  {
  }

  /** The longest read whose reply the 16-bit counter can count: 4 header and 2 CRC bytes ride along. */
  const MAX_READ: nat := 0xFFFF - 6

  /** The whole reply to a long read of n bytes. */
  function Framed(p: Panel, n: nat): (r: seq<byte>)
    requires n <= |p.payload|
    ensures |r| == n + 6
  {
    p.header + p.payload[..n] + p.crc
  }

  /** How much of its buffer a read of n bytes writes: the reply with its framing, and for a long read never less
      than a whole window. */
  function Extent(n: nat): nat { if n <= 2 then 4 else if n < 10 then WINDOW else n + 6 }

  /** What a long read of n bytes leaves in its buffer before the header is stripped. */
  function Landed(p: Panel, n: nat): (r: seq<byte>)
    requires 3 <= n <= |p.payload|
    ensures |r| == Extent(n)
  {
    Zeros(if n < 10 then 10 - n else 0) + Framed(p, n)
  }

  /** The rounds a long read goes through: `at` bytes of the reply have been kept, and round k asks
      for up to 10 more payload bytes the first time and 14 thereafter. */
  predicate Round(p: Panel, n: nat, k: nat, at: nat, m: nat) {
    && 3 <= n <= |p.payload| && m <= MAX_READ + 1
    && at == 14 * k
    && if k == 0 then m == Min(n, 10) else at - 4 < n && m == at - 4 + Min(n - (at - 4), 14)
  }

  lemma FramedPrefix(p: Panel, n: nat, m: nat)
    requires m <= n <= |p.payload|
    ensures Framed(p, m)[..m + 4] == Framed(p, n)[..m + 4]
  {
    assert p.payload[..m] == p.payload[..n][..m];
  }

  /** How much of a round's window repeats bytes kept before. */
  function Overlap(at: nat, m: nat): int {
    if m + 6 > WINDOW then at - (m + 6 - WINDOW) else 0
  }

  /** Where a round's window lies in the reply. */
  lemma RoundBounds(p: Panel, n: nat, k: nat, at: nat, m: nat)
    requires Round(p, n, k, at, m)
    ensures m <= n && 0 <= Overlap(at, m) < WINDOW
    ensures m < 10 ==> at == 0 && m == n
    ensures m >= 10 ==> at <= m + 4 && m - 10 + Overlap(at, m) == at
  {
  }

  /** What a round's window adds: once the repeated bytes are skipped, it continues the reply exactly
      where the bytes kept so far end. */
  lemma RoundWindow(p: Panel, n: nat, k: nat, at: nat, m: nat)
    requires Round(p, n, k, at, m)
    ensures m <= n && 0 <= Overlap(at, m) < WINDOW
    ensures Reply(p, n, m) == Framed(p, m)
    ensures m < 10 ==> at == 0 && m == n && WindowOf(Framed(p, m)) == Zeros(10 - m) + Framed(p, m)
    ensures m >= 10 ==> at <= m + 4 && WindowOf(Framed(p, m))[Overlap(at, m)..] == Framed(p, m)[at..]
  {
    hide Framed, Reply, WindowOf, Round, Overlap, Zeros;
    RoundBounds(p, n, k, at, m);
    assert 3 <= n <= |p.payload| by { RoundAsks(p, n, k, at, m); }
    ReplyIsFramed(p, n, m);
    if m >= 10 {
      WindowSuffix(Framed(p, m), Overlap(at, m));
    } else {
      ShortWindow(Framed(p, m));
    }
  }

  lemma RoundAsks(p: Panel, n: nat, k: nat, at: nat, m: nat)
    requires Round(p, n, k, at, m)
    ensures 3 <= n <= |p.payload|
  {
  }

  lemma ReplyIsFramed(p: Panel, n: nat, m: nat)
    requires 3 <= n && m <= |p.payload|
    ensures Reply(p, n, m) == Framed(p, m)
  {
  }

  lemma WindowSuffix(reply: seq<byte>, k: nat)
    requires |reply| >= WINDOW && k <= WINDOW
    ensures WindowOf(reply)[k..] == reply[|reply| - WINDOW + k..]
  {
  }

  lemma ShortWindow(reply: seq<byte>)
    requires |reply| < WINDOW
    ensures WindowOf(reply) == Zeros(WINDOW - |reply|) + reply
  {
  }

  /** Bytes kept from a prefix of the reply, continued by the rest of it, are the reply. */
  lemma Appended(p: Panel, n: nat, at: nat, m: nat, before: seq<byte>, after: seq<byte>)
    requires m <= n <= |p.payload| && at <= m + 4 && at <= |before|
    requires at > 0 ==> before[..at] == Framed(p, n)[..at]
    requires m + 6 <= |after| && after[..m + 6] == before[..at] + Framed(p, m)[at..]
    ensures after[..m + 6] == Framed(p, m)
  {
    hide Framed;
    FramedPrefix(p, n, m);
    assert before[..at] == Framed(p, n)[..m + 4][..at] == Framed(p, m)[..at];
  }

  /** Where the long read's header and payload end up. */
  lemma HeaderFound(p: Panel, n: nat, s: seq<byte>)
    requires 3 <= n <= |p.payload| && |s| >= Extent(n)
    requires s[..Extent(n)] == Landed(p, n)
    ensures var buff := if n < 10 then 10 - n else 0;
      s[buff] == p.header[0] && s[buff + 4..buff + 4 + n] == p.payload[..n]
  {
    var buff := if n < 10 then 10 - n else 0;
    var framed := Framed(p, n);
    assert framed[0] == p.header[0] && framed[4..4 + n] == p.payload[..n];
    hide Framed, Zeros;
    assert s[..Extent(n)][buff..] == framed;
    assert s[buff + 4..buff + 4 + n] == s[..Extent(n)][buff..][4..4 + n];
    assert s[buff] == s[..Extent(n)][buff..][0];
  }

  /** A short reply fills the last word of the window. */
  lemma ShortReplyWindow(reply: seq<byte>)
    requires |reply| == 4
    ensures WindowOf(reply)[WINDOW - 4..] == reply
  {
  }

  /** The low two bytes. */
  function Low16(x: nat): nat { (x % 0x100) + 0x100 * (x / 0x100 % 0x100) }

  lemma Low16Small(x: nat)
    ensures x < 0x1_0000 ==> Low16(x) == x
    ensures x == 0x1_0000 ==> Low16(x) == 0
    ensures Low16(x) <= x
  {
    assert x / 0x100 % 0x100 <= x / 0x100;
  }

  class ReadCtrl {
    const panel: Panel
    // Return codes of the transfers, in call order.
    const txRc: nat -> int

    var txCalls: nat
    var maxReturn: nat
    var window: seq<byte>
    // The 16-bit read counter in the upper half of DSI_RDBK_DATA_CTRL.
    var readCnt: nat

    constructor (panel: Panel, txRc: nat -> int)
      ensures this.panel == panel && this.txRc == txRc && |window| == WINDOW
    {
      this.panel, this.txRc := panel, txRc;
      txCalls, maxReturn, window, readCnt := 0, 0, Zeros(WINDOW), 0;
    }

    /** Read-back word j, most significant byte first. */
    function RdbkData(j: nat): (r: seq<byte>)
      requires |window| == WINDOW && j < 4
      reads this
      ensures |r| == 4
    {
      window[12 - 4 * j..16 - 4 * j]
    }

    /** dsi_set_max_return_size(): the size travels in two bytes. */
    method SetMaxReturnSize(size: nat) returns (rc: int)
      modifies `txCalls, `maxReturn
      ensures rc == 0 ==> maxReturn == Low16(size)
      ensures rc == txRc(old(txCalls)) && txCalls == old(txCalls) + 1
    {
      rc := txRc(txCalls);
      txCalls := txCalls + 1;
      if rc == 0 {
        maxReturn := (size % 0x100) + 0x100 * (size / 0x100 % 0x100);
      }
    }

    method ClearRdbk()
      modifies `window, `readCnt
      ensures window == Zeros(WINDOW) && readCnt == 0
    {
      window, readCnt := Zeros(WINDOW), 0;
    }

    /** Sends the read command; the panel's reply passes through the cleared window. */
    method Transmit(n: nat) returns (rc: int)
      requires window == Zeros(WINDOW)
      modifies `txCalls, `window, `readCnt
      ensures |window| == WINDOW
      ensures rc == 0 ==> window == WindowOf(Reply(panel, n, maxReturn))
      ensures rc == 0 ==> readCnt == Low16(|Reply(panel, n, maxReturn)|)
      ensures rc == txRc(old(txCalls)) && txCalls == old(txCalls) + 1
    {
      rc := txRc(txCalls);
      txCalls := txCalls + 1;
      if rc == 0 {
        var reply := Reply(panel, n, maxReturn);
        window := WindowOf(reply);
        readCnt := Low16(|reply|);
      }
    }

    /** Copies the last cnt words of the window, highest word first, to dst[at..]. */
    method CopyWords(dst: array<byte>, at: nat, cnt: nat)
      requires |window| == WINDOW && cnt <= 4 && at + 4 * cnt <= dst.Length
      modifies dst
      ensures dst[..] == old(dst[..at]) + window[WINDOW - 4 * cnt..] + old(dst[at + 4 * cnt..])
    {
      var off := cnt;
      for i := 0 to cnt
        invariant off == cnt - i
        invariant forall b | at <= b < at + 4 * i :: dst[b] == window[WINDOW - 4 * cnt + b - at]
        invariant forall b | 0 <= b < dst.Length && !(at <= b < at + 4 * i) :: dst[b] == old(dst[b])
      {
        off := off - 1;
        var data := RdbkData(off);
        forall b | 0 <= b < 4 {
          dst[at + 4 * i + b] := data[b];
        }
      }
    }

    /** Copies reg[from..] to rx[at..]. */
    method CopyFrom(rx: array<byte>, at: nat, reg: array<byte>, from: nat)
      requires rx != reg && from <= reg.Length && at + reg.Length - from <= rx.Length
      modifies rx
      ensures rx[..] == old(rx[..at]) + reg[from..] + old(rx[at + reg.Length - from..])
    {
      var j := 0;
      for i := from to reg.Length
        invariant j == i - from
        invariant forall b | at <= b < at + j :: rx[b] == reg[from + b - at]
        invariant forall b | 0 <= b < rx.Length && !(at <= b < at + j) :: rx[b] == old(rx[b])
      {
        rx[at + j] := reg[i];
        j := j + 1;
      }
    }

    /** dsi_ctrl_hw_cmn_get_cmd_read_data(): copies the part of the window that has not been seen yet
        to rx[at..]. A zero count reads as a panel error. */
    method GetCmdReadData(rx: array<byte>, at: nat, readOffset: nat, rxByte: nat, pktSize: nat)
      returns (dlen: nat, hwReadCnt: nat)
      requires |window| == WINDOW
      requires (rxByte == 4 && readCnt == 4) || (rxByte == WINDOW && readCnt == Low16(pktSize + 6))
      requires 0 <= Seen(readOffset) <= WINDOW
      requires at + Min(WINDOW, rxByte) - Seen(readOffset) <= rx.Length
      modifies rx
      ensures dlen == 0 <==> readCnt == 0
      ensures dlen == 0 ==> rx[..] == old(rx[..])
      ensures dlen != 0 ==> dlen == rxByte && hwReadCnt == readCnt
      ensures dlen != 0 ==> var tail := window[WINDOW - rxByte + Seen(readOffset)..];
        rx[..] == old(rx[..at]) + tail + old(rx[at + |tail|..])
    {
      hide Low16, RepeatedBytes, WindowOf, Zeros;
      Low16Small(pktSize + 6);
      var cnt := (rxByte + 3) / 4;
      if cnt > 4 {
        cnt := 4;
      }
      var got: int := readCnt;
      var ackErr := if rxByte == 4 then got == 8 else got - 4 == pktSize + 6;
      if ackErr {
        got := got - 4;
      }
      if got == 0 {
        return 0, 0;
      }
      RepeatedBytesExact(readOffset, rxByte, got);
      var repeated := RepeatedBytes(readOffset, rxByte, got);
      CopyUnseen(rx, at, cnt, repeated);
      return rxByte, got;
    }

    /** The words go straight to rx, or through a scratch window when some of their bytes were seen. */
    method CopyUnseen(rx: array<byte>, at: nat, cnt: nat, repeated: nat)
      requires |window| == WINDOW && cnt <= 4 && (repeated > 0 ==> cnt == 4 && repeated <= WINDOW)
      requires at + 4 * cnt - repeated <= rx.Length
      modifies rx
      ensures var tail := window[WINDOW - 4 * cnt + repeated..];
        rx[..] == old(rx[..at]) + tail + old(rx[at + |tail|..])
    {
      if repeated == 0 {
        CopyWords(rx, at, cnt);
      } else {
        var reg := new byte[WINDOW](_ => 0);
        CopyWords(reg, 0, cnt);
        assert reg[..] == window;
        CopyFrom(rx, at, reg, repeated);
      }
    }

    /** How many bytes of the window have been read before, when readOffset bytes have been read. */
    function Seen(readOffset: nat): int
      reads this
    {
      if readCnt > WINDOW then readOffset - (readCnt - WINDOW) else 0
    }

    /** One round of dsi_message_rx(): asks again with a larger maximum return size and appends what is
        new. A reply of exactly 65536 bytes counts as none. */
    method ReadRound(rx: array<byte>, rxLen: nat, at: nat, rdPktSize: nat, ghost k: nat)
      returns (rc: int, dlen: nat, hwReadCnt: nat)
      requires |window| == WINDOW && Round(panel, rxLen, k, at, rdPktSize)
      requires rx.Length >= Extent(rxLen)
      requires at > 0 ==> rx[..at] == Framed(panel, rxLen)[..at]
      modifies this, rx
      ensures |window| == WINDOW
      ensures rc != 0 ==> !(forall t :: txRc(t) == 0)
      ensures rc == 0 ==> (dlen == 0 <==> rdPktSize == MAX_READ + 1) && (dlen != 0 ==> dlen == WINDOW)
      ensures rc == 0 && dlen != 0 ==> hwReadCnt == rdPktSize + 6
      ensures rc == 0 && dlen != 0 && rdPktSize >= 10 ==> rx[..rdPktSize + 6] == Framed(panel, rdPktSize)
      ensures rc == 0 && rdPktSize < 10 ==> rx[..WINDOW] == Zeros(10 - rdPktSize) + Framed(panel, rdPktSize)
      ensures rx[Extent(rxLen)..] == old(rx[Extent(rxLen)..])
    {
      hide WindowOf, Framed, Low16, Reply, Zeros;
      dlen, hwReadCnt := 0, 0;
      Low16Small(rdPktSize);
      Low16Small(rdPktSize + 6);
      rc := SetMaxReturnSize(rdPktSize);
      if rc != 0 {
        return;
      }
      ClearRdbk();
      rc := Transmit(rxLen);
      if rc != 0 {
        return;
      }
      RoundWindow(panel, rxLen, k, at, rdPktSize);
      ghost var before, reply := rx[..], Framed(panel, rdPktSize);
      dlen, hwReadCnt := GetCmdReadData(rx, at, at, WINDOW, rdPktSize);
      if dlen != 0 && rdPktSize >= 10 {
        Appended(panel, rxLen, at, rdPktSize, before, rx[..]);
      }
    }

    /** dsi_message_rx(): on a working link the read is completed exactly when its reply fits the read
        counter, and then rx starts with the panel's payload. A longer read runs into the one request
        size whose count reads as zero, and is given up with return code 0. */
    method MessageRx(rx: array<byte>, rxLen: nat) returns (rc: int, parsed: bool)
      requires |window| == WINDOW && rxLen <= |panel.payload|
      requires rx.Length >= Extent(rxLen)
      modifies this, rx
      ensures rx[Extent(rxLen)..] == old(rx[Extent(rxLen)..])
      ensures parsed && rxLen > 2 ==> rx[rxLen..Extent(rxLen)] == Landed(panel, rxLen)[rxLen..]
      ensures parsed ==> rc == rxLen && rx[..rxLen] == panel.payload[..rxLen]
      ensures parsed ==> rxLen <= MAX_READ
      ensures !parsed && rc == 0 ==> rxLen > MAX_READ
      ensures (forall t :: txRc(t) == 0) ==> (parsed <==> rxLen <= MAX_READ) && (!parsed ==> rc == 0)
    {
      if rxLen <= 2 {
        rc, parsed := ShortRx(rx, rxLen);
        return;
      }
      hide WindowOf, Reply, Zeros;
      ghost var framed := Framed(panel, rxLen);
      var rlen, buff, totalBytesRead := rxLen, 0, 0;
      var currentReadLen := 10;
      var rdPktSize := if rxLen < currentReadLen then rxLen else currentReadLen;
      var readDone := false;
      var hwReadCnt := 0;
      ghost var k := 0;
      while !readDone
        invariant |window| == WINDOW && buff == totalBytesRead
        invariant 0 <= totalBytesRead && 0 <= rdPktSize && 0 <= rlen
        invariant !readDone ==> Round(panel, rxLen, k, totalBytesRead, rdPktSize)
        invariant !readDone ==> rlen == rxLen - (if totalBytesRead == 0 then 0 else totalBytesRead - 4)
        invariant !readDone ==> currentReadLen == (if totalBytesRead == 0 then 10 else 14)
        invariant totalBytesRead > 0 && !readDone ==> rx[..totalBytesRead] == framed[..totalBytesRead]
        invariant readDone ==> hwReadCnt == rxLen + 6 && rxLen <= MAX_READ
        invariant readDone ==> rx[..Extent(rxLen)] == Landed(panel, rxLen)
        invariant rx[Extent(rxLen)..] == old(rx[Extent(rxLen)..])
        decreases !readDone, rlen
      {
        var dlen;
        rc, dlen, hwReadCnt := ReadRound(rx, rxLen, buff, rdPktSize, k);
        if rc != 0 {
          return rc, false;
        }
        if dlen == 0 {
          return 0, false;
        }
        FramedPrefix(panel, rxLen, rdPktSize);
        var diff := 0;
        if rlen <= currentReadLen {
          diff := currentReadLen - rlen;
          readDone := true;
        } else {
          rlen := rlen - currentReadLen;
        }
        dlen := dlen - 2;
        dlen := dlen - diff;
        buff := buff + dlen;
        totalBytesRead := totalBytesRead + dlen;
        k := k + 1;
        if !readDone {
          currentReadLen := 14;
          if rlen < currentReadLen {
            rdPktSize := rdPktSize + rlen;
          } else {
            rdPktSize := rdPktSize + currentReadLen;
          }
        }
      }
      rc := FinishLongRead(rx, rxLen, hwReadCnt);
      parsed := true;
    }

    /** The end of dsi_message_rx() for long replies: finds the header and strips it. */
    method FinishLongRead(rx: array<byte>, rxLen: nat, hwReadCnt: nat) returns (rc: int)
      requires 3 <= rxLen <= |panel.payload| && hwReadCnt == rxLen + 6
      requires rx.Length >= Extent(rxLen) && rx[..Extent(rxLen)] == Landed(panel, rxLen)
      modifies rx
      ensures rc == rxLen && rx[..rxLen] == panel.payload[..rxLen] && rx[rxLen..] == old(rx[rxLen..])
    {
      var buff := if hwReadCnt < WINDOW then WINDOW - hwReadCnt else 0;
      HeaderFound(panel, rxLen, rx[..]);
      hide Framed, Zeros;
      var cmd := rx[buff];
      if IsLong(cmd) {
        rc := ParseLongRead(rx, buff, rxLen);
      } else {
        assert false;
      }
    }

    /** dsi_parse_long_read_resp(): drops the header by moving the payload down to the front. */
    method ParseLongRead(rx: array<byte>, buff: nat, rxLen: nat) returns (rc: int)
      requires buff + 4 + rxLen <= rx.Length
      modifies rx
      ensures rc == rxLen && rx[..rxLen] == old(rx[buff + 4..buff + 4 + rxLen]) && rx[rxLen..] == old(rx[rxLen..])
    {
      for k := 0 to rxLen
        invariant forall b | 0 <= b < k :: rx[b] == old(rx[buff + 4 + b])
        invariant forall b | k <= b < rx.Length :: rx[b] == old(rx[b])
      {
        rx[k] := rx[buff + 4 + k];
      }
      return rxLen;
    }

    /** The short path of dsi_message_rx(): the whole reply fits one read-back word. */
    method ShortRx(rx: array<byte>, rxLen: nat) returns (rc: int, parsed: bool)
      requires |window| == WINDOW && rxLen <= 2 && rxLen <= |panel.payload| && rx.Length >= 4
      modifies this, rx
      ensures rx[4..] == old(rx[4..])
      ensures parsed ==> rc == rxLen && rx[..rxLen] == panel.payload[..rxLen]
      ensures !parsed ==> rc != 0
      ensures (forall t :: txRc(t) == 0) ==> parsed
    {
      hide Low16, WindowOf, Zeros;
      Low16Small(rxLen);
      Low16Small(4);
      rc := SetMaxReturnSize(rxLen);
      if rc != 0 {
        return rc, false;
      }
      ClearRdbk();
      rc := Transmit(rxLen);
      if rc != 0 {
        return rc, false;
      }
      ghost var reply := Reply(panel, rxLen, maxReturn);
      ShortReplyWindow(reply);
      var dlen, hwReadCnt := GetCmdReadData(rx, 0, 0, 4, rxLen);
      assert rx[..4] == reply;
      var cmd := rx[0];
      if IsShort1(cmd) {
        if rxLen >= 1 {
          rx[0] := rx[1];
        }
        rc := if rxLen >= 1 then 1 else 0;
      } else {
        rx[0], rx[1] := rx[1], rx[2];
        rc := 2;
      }
      parsed := true;
    }
  }

  /** A payload one byte beyond the longest read, on a working link: the read reports success without data. */
  method LongestReadExceeded() returns (rc: int, parsed: bool)
    ensures rc == 0 && !parsed
  {
    var panel := RawPanel(Zeros(MAX_READ + 1), [RX_DCS_LONG, 0, 0, 0], [0, 0], [RX_DCS_SHORT_1, RX_DCS_SHORT_2], 0);
    var ctrl := new ReadCtrl(panel, _ => 0);
    var rx := new byte[MAX_READ + 7](_ => 0);
    rc, parsed := ctrl.MessageRx(rx, MAX_READ + 1);
  }
}
