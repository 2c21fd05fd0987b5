/** Command batching in the DSI controller: embedded-mode commands are padded to words and laid end to
    end in a 4 KiB DMA buffer until the last one of a batch kicks the transfer off. */
module DsiCmdDma {

  import opened Common

  const SZ_4K: nat := 4096
  const EMBEDDED_MODE_DMA_MAX: nat := 256

  const DCS_READ: bv8 := 0x06
  const GENERIC_READ_0: bv8 := 0x04
  const GENERIC_READ_1: bv8 := 0x14
  const GENERIC_READ_2: bv8 := 0x24

  /** A packet as mipi_dsi_create_packet() builds it: four header bytes whose three flag bits are
      still clear, and the payload of a long packet (none for a short one). */
  datatype RawPacket = RawPacket(header: seq<bv8>, payload: seq<bv8>)

  type Packet = p: RawPacket | |p.header| == 4 && p.header[3] & 0xE0 == 0
    witness RawPacket([0, 0, 0, 0], [])

  /** A message and the packet made of it: a short packet carries its data in the header, a long one
      all of its txLen bytes as payload. */
  datatype RawMsg = RawMsg(txLen: nat, packet: Packet, last: bool)

  type Msg = m: RawMsg | m.packet.payload == [] || |m.packet.payload| == m.txLen
    witness RawMsg(0, RawPacket([0, 0, 0, 0], []), false)

  function Size(p: Packet): nat { 4 + |p.payload| }

  function Align4(n: nat): nat { (n + 3) / 4 * 4 }

  predicate WholeWords(n: nat) { n % 4 == 0 }

  predicate IsRead(p: Packet) {
    (p.header[2] & 0x3F) in {DCS_READ, GENERIC_READ_0, GENERIC_READ_1, GENERIC_READ_2}
  }

  /** The flags the controller reads in byte 3: bit 7 last command, bit 6 long packet, bit 5 read. */
  function FlagBits(last: bool, long: bool, read: bool): bv8 {
    (if last then 0x80 else 0) | (if long then 0x40 else 0) | (if read then 0x20 else 0)
  }

  function Flags(m: Msg): bv8 {
    FlagBits(m.last, |m.packet.payload| > 0, IsRead(m.packet))
  }

  /** Header and payload, filled up with 0xFF to whole words. */
  function Words(p: Packet): (r: seq<bv8>)
    ensures |r| == Align4(Size(p))
  {
    seq(Align4(Size(p)), i requires 0 <= i < Align4(Size(p)) =>
      if i < 4 then p.header[i] else if i < Size(p) then p.payload[i - 4] else 0xFF)
  }

  /** The bytes of a message in the buffer. */
  function Padded(m: Msg): (r: seq<bv8>)
    ensures |r| == Align4(Size(m.packet))
  {
    AlignBounds(Size(m.packet));
    Words(m.packet)[3 := m.packet.header[3] | Flags(m)]
  }

  /** A padded message still tells everything: header, flags and payload can be read back, and only
      0xFF follows. */
  lemma PaddedReadable(m: Msg)
    ensures var b := Padded(m);
      && |b| % 4 == 0 && Size(m.packet) <= |b| < Size(m.packet) + 4
      && b[..3] == m.packet.header[..3] && b[3] & 0x1F == m.packet.header[3]
      && b[4..Size(m.packet)] == m.packet.payload
      && (forall i | Size(m.packet) <= i < |b| :: b[i] == 0xFF)
      && (b[3] & 0x80 != 0 <==> m.last) && (b[3] & 0x40 != 0 <==> |m.packet.payload| > 0)
      && (b[3] & 0x20 != 0 <==> IsRead(m.packet))
  {
    AlignBounds(Size(m.packet));
    assert Padded(m)[3] == m.packet.header[3] | Flags(m);
    FlagsReadable(m.packet.header[3], m.last, |m.packet.payload| > 0, IsRead(m.packet));
  }

  lemma FlagsReadable(h: bv8, last: bool, long: bool, read: bool)
    requires h & 0xE0 == 0
    ensures (h | FlagBits(last, long, read)) & 0x1F == h
    ensures (h | FlagBits(last, long, read)) & 0x80 != 0 <==> last
    ensures (h | FlagBits(last, long, read)) & 0x40 != 0 <==> long
    ensures (h | FlagBits(last, long, read)) & 0x20 != 0 <==> read
  {
  }

  /** The flags are set one after the other. */
  lemma FlagsInTurn(h: bv8, last: bool, long: bool, read: bool)
    ensures var a := if long then h | 0x40 else h;
      var b := if read then a | 0x20 else a;
      (if last then b | 0x80 else b) == h | FlagBits(last, long, read)
  {
  }

  lemma AlignBounds(n: nat)
    ensures Align4(n) % 4 == 0 && n <= Align4(n) < n + 4
  {
  }

  /** Checking the unpadded length against the buffer is as good as checking the padded one, because
      the fill level is always whole words. */
  lemma UnpaddedCheckSuffices(cmdLen: nat, n: nat)
    requires WholeWords(cmdLen)
    ensures cmdLen + Align4(n) <= SZ_4K <==> cmdLen + n <= SZ_4K
    ensures WholeWords(cmdLen + Align4(n))
  {
    var a, b := cmdLen / 4, (n + 3) / 4;
    assert cmdLen == 4 * a && Align4(n) == 4 * b;
    FourTimes(a + b);
  }

  lemma FourTimes(k: nat)
    ensures WholeWords(4 * k)
  {
  }

  function Concat(parts: seq<seq<bv8>>): seq<bv8> {
    if parts == [] then [] else Concat(parts[..|parts| - 1]) + parts[|parts| - 1]
  }

  function TotalSize(parts: seq<seq<bv8>>): nat {
    if parts == [] then 0 else TotalSize(parts[..|parts| - 1]) + |parts[|parts| - 1]|
  }

  lemma {:induction false} ConcatSize(parts: seq<seq<bv8>>)
    ensures |Concat(parts)| == TotalSize(parts)
  {
    if parts != [] {
      ConcatSize(parts[..|parts| - 1]);
    }
  }

  lemma ConcatSnoc(parts: seq<seq<bv8>>, p: seq<bv8>)
    ensures Concat(parts + [p]) == Concat(parts) + p
  {
    assert (parts + [p])[..|parts|] == parts;
  }

  /** A message is taken when it fits and could be built. */
  predicate Taken(cmdLen: nat, m: Msg, createRc: int, allocOk: bool) {
    cmdLen + m.txLen + 4 <= SZ_4K && createRc == 0 && allocOk
  }

  class CmdDma {
    const vaddr: array<bv8>
    var cmdLen: nat
    // The padded messages since the last kickoff, and the buffers kicked off so far.
    ghost var pending: seq<seq<bv8>>
    ghost var kicked: seq<seq<bv8>>

    constructor ()
      ensures Valid() && pending == [] && kicked == []
    {
      vaddr := new bv8[SZ_4K](_ => 0);
      cmdLen, pending, kicked := 0, [], [];
    }

    /** The buffer holds the pending messages end to end. */
    ghost predicate Valid()
      reads this, vaddr
    {
      && vaddr.Length == SZ_4K && WholeWords(cmdLen) && cmdLen <= SZ_4K
      && vaddr[..cmdLen] == Concat(pending)
    }

    method CopyWords(p: Packet) returns (buf: array<bv8>)
      ensures fresh(buf) && buf[..] == Words(p)
    {
      AlignBounds(Size(p));
      buf := new bv8[Align4(Size(p))](_ => 0);
      for i := 0 to buf.Length
        invariant forall j | 0 <= j < i :: buf[j] == Words(p)[j]
      {
        if i >= Size(p) {
          buf[i] := 0xFF;
        } else if i < 4 {
          buf[i] := p.header[i];
        } else {
          buf[i] := p.payload[i - 4];
        }
      }
    }

    /** dsi_ctrl_copy_and_pad_cmd(), and the last-command flag its caller adds. */
    method CopyAndPad(m: Msg) returns (buf: array<bv8>)
      ensures fresh(buf) && buf[..] == Padded(m)
    {
      var p := m.packet;
      AlignBounds(Size(p));
      buf := CopyWords(p);
      ghost var h := buf[3];
      assert h == p.header[3];
      hide Words, Align4;
      if |p.payload| > 0 {
        buf[3] := buf[3] | 0x40;
      }
      if IsRead(p) {
        buf[3] := buf[3] | 0x20;
      }
      if m.last {
        buf[3] := buf[3] | 0x80;
      }
      FlagsInTurn(h, m.last, |p.payload| > 0, IsRead(p));
      assert buf[..] == Words(p)[3 := buf[3]];
    }

    /** Lays a buffer down at the fill level. */
    method CopyIn(buffer: array<bv8>)
      requires vaddr.Length == SZ_4K && cmdLen + buffer.Length <= SZ_4K && buffer != vaddr
      modifies vaddr
      ensures vaddr[..cmdLen + buffer.Length] == old(vaddr[..cmdLen]) + buffer[..]
    {
      for cnt := 0 to buffer.Length
        invariant forall j | 0 <= j < cmdLen :: vaddr[j] == old(vaddr[j])
        invariant forall j | cmdLen <= j < cmdLen + cnt :: vaddr[j] == buffer[j - cmdLen]
      {
        vaddr[cmdLen + cnt] := buffer[cnt];
      }
    }

    /** dsi_message_tx() for an embedded fetch-memory command outside a secure session. createRc and
        allocOk are the outcomes of building the packet and its buffer; doneInTime, of waiting for the
        transfer. */
    method MessageTx(m: Msg, createRc: int, allocOk: bool, doneInTime: bool) returns (rc: int)
      requires Valid() && m.txLen + 4 <= EMBEDDED_MODE_DMA_MAX
      modifies this, vaddr
      ensures Valid()
      ensures old(cmdLen) + m.txLen + 4 > SZ_4K ==> rc == -ENOTSUPP
      ensures !Taken(old(cmdLen), m, createRc, allocOk) ==>
        rc != 0 && cmdLen == old(cmdLen) && pending == old(pending) && kicked == old(kicked)
      ensures !Taken(old(cmdLen), m, createRc, allocOk) ==> vaddr[..] == old(vaddr[..])
      ensures Taken(old(cmdLen), m, createRc, allocOk) && !m.last ==>
        rc == 0 && pending == old(pending) + [Padded(m)] && kicked == old(kicked)
      ensures Taken(old(cmdLen), m, createRc, allocOk) && m.last ==>
        pending == [] && cmdLen == 0 && kicked == old(kicked) + [Concat(old(pending) + [Padded(m)])]
      ensures Taken(old(cmdLen), m, createRc, allocOk) && m.last ==>
        |kicked[|kicked| - 1]| == TotalSize(old(pending) + [Padded(m)])
      ensures Taken(old(cmdLen), m, createRc, allocOk) && m.last ==> rc == if doneInTime then 0 else -ETIMEDOUT
    {
      assert Concat([]) == [] && WholeWords(0);
      hide Padded, Concat, TotalSize, Align4, WholeWords;
      if cmdLen + m.txLen + 4 > SZ_4K {
        return -ENOTSUPP;
      }
      if createRc != 0 {
        return createRc;
      }
      if !allocOk {
        return -ENOMEM;
      }
      var buffer := CopyAndPad(m);
      UnpaddedCheckSuffices(cmdLen, Size(m.packet));
      AlignBounds(Size(m.packet));
      ConcatSnoc(pending, Padded(m));
      CopyIn(buffer);
      cmdLen := cmdLen + buffer.Length;
      pending := pending + [Padded(m)];
      if !m.last {
        return 0;
      }
      ConcatSize(pending);
      kicked := kicked + [vaddr[..cmdLen]];
      cmdLen := 0;
      pending := [];
      rc := if doneInTime then 0 else -ETIMEDOUT;
    }
  }
}
