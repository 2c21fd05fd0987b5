/** The clock hardware the DSI clock manager drives: per controller, the votes it has outstanding on
    every core and link clock, on the power resource and on the bus, and the regulator votes of the
    display callbacks. Counts are votes taken minus votes given back, so an unbalanced sequence
    shows as a count other than 0 or 1. */
module DsiClkBoard {

  import opened Common
  import opened DsiClkVotes

  const MAX_DSI_CTRL: nat := 2

  /** The optional parts of one controller. */
  datatype Parts = Parts(mdp: bool, mnoc: bool, iface: bool, bus: bool, mmss: bool, busHandle: bool, byteIntf: bool)

  datatype ClkInfo = ClkInfo(master: nat, parts: seq<Parts>)

  /** What registration accepts: one or two controllers, one of them the clock master. */
  predicate Registrable(info: ClkInfo) {
    1 <= |info.parts| <= MAX_DSI_CTRL && info.master < |info.parts|
  }

  type Config = c: ClkInfo | Registrable(c)
    witness ClkInfo(0, [Parts(false, false, false, false, false, false, false)])

  datatype CoreClk = Mdp | Mnoc | Iface | Bus | Mmss

  datatype CoreClks = CoreClks(mdp: int, mnoc: int, iface: int, bus: int, mmss: int, busLevel: int, power: int)

  /** Prepare and enable counts of the escape, byte, pixel and byte interface clocks. */
  datatype LinkClks = LinkClks(escP: int, escE: int, byteP: int, byteE: int, pixP: int, pixE: int,
                               intfP: int, intfE: int)

  datatype LinkMask = LinkMask(lp: bool, hs: bool)

  const LP := LinkMask(true, false)
  const HS := LinkMask(false, true)
  const BOTH := LinkMask(true, true)

  /** DSI_LINK_LP_CLK & DSI_LINK_HS_CLK: two distinct bits, so the mask is empty. */
  const LP_AND_HS := LinkMask(LP.lp && HS.lp, LP.hs && HS.hs)

  datatype Board = Board(core: seq<CoreClks>, link: seq<LinkClks>, ctrlVreg: nat, phyVreg: nat)

  function Present(p: Parts, k: CoreClk): bool {
    match k
    case Mdp => p.mdp
    case Mnoc => p.mnoc
    case Iface => p.iface
    case Bus => p.bus
    case Mmss => p.mmss
  }

  /** Moves the count of one core clock. */
  function Bump(c: CoreClks, k: CoreClk, d: int): CoreClks {
    match k
    case Mdp => c.(mdp := c.mdp + d)
    case Mnoc => c.(mnoc := c.mnoc + d)
    case Iface => c.(iface := c.iface + d)
    case Bus => c.(bus := c.bus + d)
    case Mmss => c.(mmss := c.mmss + d)
  }

  /** Every present clock of the controller voted for once more, and the bus request up. */
  function ClocksUp(p: Parts, c: CoreClks): CoreClks {
    CoreClks(c.mdp + B2I(p.mdp), c.mnoc + B2I(p.mnoc), c.iface + B2I(p.iface), c.bus + B2I(p.bus),
             c.mmss + B2I(p.mmss), if p.busHandle then 1 else c.busLevel, c.power)
  }

  /** The part of ClocksUp that the upper rungs of the start ladder do. */
  function UpperUp(p: Parts, c: CoreClks): CoreClks {
    c.(bus := c.bus + B2I(p.bus), mmss := c.mmss + B2I(p.mmss), busLevel := if p.busHandle then 1 else c.busLevel)
  }

  /** Every present clock of the controller given back once, and the bus request down. */
  function ClocksDown(p: Parts, c: CoreClks): CoreClks {
    CoreClks(c.mdp - B2I(p.mdp), c.mnoc - B2I(p.mnoc), c.iface - B2I(p.iface), c.bus - B2I(p.bus),
             c.mmss - B2I(p.mmss), if p.busHandle then 0 else c.busLevel, c.power)
  }

  /** The same for the whole core side, power included. */
  function CoreUpOnce(p: Parts, c: CoreClks): CoreClks {
    ClocksUp(p, c.(power := c.power + 1))
  }

  function CoreDownOnce(p: Parts, c: CoreClks): CoreClks {
    ClocksDown(p, c.(power := c.power - 1))
  }

  /** Only a power vote more than before. */
  function PowerLeft(c: CoreClks): CoreClks {
    c.(power := c.power + 1)
  }

  function LpMoved(l: LinkClks, d: int): LinkClks {
    l.(escP := l.escP + d, escE := l.escE + d)
  }

  function HsMoved(p: Parts, l: LinkClks, d: int): LinkClks {
    l.(byteP := l.byteP + d, byteE := l.byteE + d, pixP := l.pixP + d, pixE := l.pixE + d,
       intfP := if p.byteIntf then l.intfP + d else l.intfP, intfE := if p.byteIntf then l.intfE + d else l.intfE)
  }

  function LinkMoved(p: Parts, l: LinkClks, m: LinkMask, d: int): LinkClks {
    var l1 := if m.lp then LpMoved(l, d) else l;
    if m.hs then HsMoved(p, l1, d) else l1
  }

  predicate Shape(cfg: Config, b: Board) {
    |b.core| == |b.link| == |cfg.parts|
  }

  /** Every present core clock, the power vote and the bus request held exactly once, or nothing. */
  function CoreAt(p: Parts, on: bool): CoreClks {
    CoreClks(B2I(on && p.mdp), B2I(on && p.mnoc), B2I(on && p.iface), B2I(on && p.bus), B2I(on && p.mmss),
             B2I(on && p.busHandle), B2I(on))
  }

  function LinkAt(p: Parts, lp: int, hs: int): LinkClks {
    HsMoved(p, LpMoved(LinkClks(0, 0, 0, 0, 0, 0, 0, 0), lp), hs)
  }

  predicate AllCoreAt(cfg: Config, b: Board, on: bool) {
    Shape(cfg, b) && forall i | 0 <= i < |cfg.parts| :: b.core[i] == CoreAt(cfg.parts[i], on)
  }

  predicate AllLinkAt(cfg: Config, b: Board, lp: int, hs: int) {
    Shape(cfg, b) && forall i | 0 <= i < |cfg.parts| :: b.link[i] == LinkAt(cfg.parts[i], lp, hs)
  }

  // ---- ordering ----

  /** Everything on the core side of the controller is up. */
  predicate CoreUp(p: Parts, c: CoreClks) {
    && c.power > 0
    && (p.mdp ==> c.mdp > 0) && (p.mnoc ==> c.mnoc > 0) && (p.iface ==> c.iface > 0)
    && (p.bus ==> c.bus > 0) && (p.mmss ==> c.mmss > 0) && (p.busHandle ==> c.busLevel > 0)
  }

  /** Something on the core side of the controller is up. */
  predicate CoreAny(c: CoreClks) {
    c.power > 0 || c.mdp > 0 || c.mnoc > 0 || c.iface > 0 || c.bus > 0 || c.mmss > 0 || c.busLevel > 0
  }

  predicate LpUp(l: LinkClks) { l.escP > 0 && l.escE > 0 }

  predicate LpAny(l: LinkClks) { l.escP > 0 || l.escE > 0 }

  predicate HsUp(p: Parts, l: LinkClks) {
    && l.byteP > 0 && l.byteE > 0 && l.pixP > 0 && l.pixE > 0
    && (p.byteIntf ==> l.intfP > 0 && l.intfE > 0)
  }

  predicate HsAny(l: LinkClks) {
    l.byteP > 0 || l.byteE > 0 || l.pixP > 0 || l.pixE > 0 || l.intfP > 0 || l.intfE > 0
  }

  predicate CoresUp(cfg: Config, b: Board)
    requires Shape(cfg, b)
  {
    forall i | 0 <= i < |cfg.parts| :: CoreUp(cfg.parts[i], b.core[i])
  }

  predicate LinksIdle(cfg: Config, b: Board)
    requires Shape(cfg, b)
  {
    forall i | 0 <= i < |cfg.parts| :: !LpAny(b.link[i]) && !HsAny(b.link[i])
  }

  /** The two ordering rules: link clocks only while all core clocks are up, and a slave
      controller's clocks only while the master's are up. */
  predicate Safe(cfg: Config, b: Board) {
    && Shape(cfg, b)
    && (CoresUp(cfg, b) || LinksIdle(cfg, b))
    && forall i | 0 <= i < |cfg.parts| && i != cfg.master ::
         && (CoreAny(b.core[i]) ==> CoreUp(cfg.parts[cfg.master], b.core[cfg.master]))
         && (LpAny(b.link[i]) ==> LpUp(b.link[cfg.master]))
         && (HsAny(b.link[i]) ==> HsUp(cfg.parts[cfg.master], b.link[cfg.master]))
  }

  /** Both regulators are up. */
  predicate RegsUp(b: Board) { b.ctrlVreg > 0 && b.phyVreg > 0 }

  predicate SameRegs(a: Board, b: Board) { a.ctrlVreg == b.ctrlVreg && a.phyVreg == b.phyVreg }

  /** Nothing on the core side runs. */
  predicate CoresDown(b: Board) { forall i | 0 <= i < |b.core| :: !CoreAny(b.core[i]) }

  /** Nothing on the core side runs without the regulators. */
  predicate Supplied(b: Board) { RegsUp(b) || CoresDown(b) }

  /** One of the boards has something on the core side running without the regulators. */
  ghost predicate AnyBare(visited: set<Board>) {
    exists b | b in visited :: !Supplied(b)
  }

  /** A controller's core side as its ladder leaves it at any moment: power, MDP, MNOC, interface, bus and MMSS clock
      go up in this order and down in the opposite one, and the bus request comes on top. */
  predicate Ladder(p: Parts, c: CoreClks) {
    var mdp := if p.mdp then c.mdp else c.power;
    var mnoc := if p.mnoc then c.mnoc else mdp;
    var iface := if p.iface then c.iface else mnoc;
    var bus := if p.bus then c.bus else iface;
    var mmss := if p.mmss then c.mmss else bus;
    && 0 <= mmss <= bus <= iface <= mnoc <= mdp <= c.power
    && (p.busHandle && c.busLevel > 0 ==> mmss > 0)
  }

  /** Its HS clocks: byte, pixel and interface clock go up in this order and down in the opposite one, and none is
      enabled more often than it is prepared. */
  predicate Stepped(p: Parts, l: LinkClks) {
    && l.pixP <= l.byteP && l.pixE <= l.byteE
    && (p.byteIntf ==> l.intfP <= l.pixP && l.intfE <= l.pixE && l.intfE <= l.intfP)
    && l.byteE <= l.byteP && l.pixE <= l.pixP
  }

  /** One of the HS clocks is prepared. */
  predicate HsHeld(p: Parts, l: LinkClks) {
    l.byteP > 0 || l.pixP > 0 || (p.byteIntf && l.intfP > 0)
  }

  predicate HsLoose(cfg: Config, b: Board) {
    Shape(cfg, b) && forall i | 0 <= i < |cfg.parts| :: !HsHeld(cfg.parts[i], b.link[i])
  }

  lemma StandLoose(cfg: Config, b: Board, up: bool, lp: int, hs: int, regs: int)
    requires Stand(cfg, b, up, lp, hs, regs) && hs <= 0
    ensures HsLoose(cfg, b)
  {
  }

  lemma SlaveLoose(cfg: Config, base: Board, b: Board, mask: LinkMask, i: nat)
    requires LinksMovedBelow(cfg, base, b, mask, 1, true, i) && i < |cfg.parts| && i != cfg.master
    ensures HsLoose(cfg, base) ==> !HsHeld(cfg.parts[i], b.link[i])
  {
  }

  predicate OnLadder(cfg: Config, b: Board) {
    Shape(cfg, b) && forall i | 0 <= i < |cfg.parts| :: Ladder(cfg.parts[i], b.core[i])
  }

  predicate InStep(cfg: Config, b: Board) {
    Shape(cfg, b) && forall i | 0 <= i < |cfg.parts| :: Stepped(cfg.parts[i], b.link[i])
  }

  ghost predicate AllOnLadder(cfg: Config, visited: set<Board>) {
    forall b | b in visited :: OnLadder(cfg, b)
  }

  ghost predicate AllInStep(cfg: Config, visited: set<Board>) {
    forall b | b in visited :: InStep(cfg, b)
  }

  /** Every controller's core side can be taken down once. */
  predicate CanLower(cfg: Config, b: Board) {
    Shape(cfg, b) && forall i | 0 <= i < |cfg.parts| :: Ladder(cfg.parts[i], CoreDownOnce(cfg.parts[i], b.core[i]))
  }

  /** Present or not, the clock's count moved by d. */
  function Rung(p: Parts, c: CoreClks, k: CoreClk, d: int): CoreClks {
    Bump(c, k, d * B2I(Present(p, k)))
  }

  /** The rungs of the way up, and down again from each of them. */
  lemma LowerRungs(p: Parts, c: CoreClks)
    ensures var c1 := Rung(p, c, Mdp, 1); var c2 := Rung(p, c1, Mnoc, 1); var c3 := Rung(p, c2, Iface, 1);
      && Rung(p, c3, Iface, -1) == c2 && Rung(p, c2, Mnoc, -1) == c1 && Rung(p, c1, Mdp, -1) == c
      && UpperUp(p, c3) == ClocksUp(p, c)
  {
  }

  lemma LowerRungsHold(p: Parts, c: CoreClks)
    ensures var c1 := Rung(p, c, Mdp, 1); var c2 := Rung(p, c1, Mnoc, 1); var c3 := Rung(p, c2, Iface, 1);
      Ladder(p, c) && Ladder(p, ClocksUp(p, c)) ==> Ladder(p, c1) && Ladder(p, c2) && Ladder(p, c3)
  {
  }

  lemma UpperRungs(p: Parts, c: CoreClks)
    ensures var c1 := Rung(p, c, Bus, 1); var c2 := Rung(p, c1, Mmss, 1);
      && (Ladder(p, c) && Ladder(p, UpperUp(p, c)) ==> Ladder(p, c1) && Ladder(p, c2))
      && Rung(p, c2, Mmss, -1) == c1 && Rung(p, c1, Bus, -1) == c
      && (if p.busHandle then c2.(busLevel := 1) else c2) == UpperUp(p, c)
  {
  }

  lemma RungsDown(p: Parts, c: CoreClks)
    ensures var c0 := if p.busHandle then c.(busLevel := 0) else c;
      var c1 := Rung(p, c0, Mmss, -1); var c2 := Rung(p, c1, Bus, -1); var c3 := Rung(p, c2, Iface, -1);
      var c4 := Rung(p, c3, Mnoc, -1);
      && (Ladder(p, c) && Ladder(p, ClocksDown(p, c)) ==>
          Ladder(p, c0) && Ladder(p, c1) && Ladder(p, c2) && Ladder(p, c3) && Ladder(p, c4))
      && Rung(p, c4, Mdp, -1) == ClocksDown(p, c)
  {
  }

  lemma PowerLast(p: Parts, c: CoreClks)
    ensures ClocksDown(p, c).(power := c.power - 1) == CoreDownOnce(p, c)
    ensures ClocksDown(p, c).power == c.power
    ensures Ladder(p, c) && Ladder(p, CoreDownOnce(p, c)) ==> Ladder(p, ClocksDown(p, c))
    ensures Ladder(p, c) ==> Ladder(p, CoreDownOnce(p, CoreUpOnce(p, c)))
  {
  }

  /** Undoing the master under a refused slave goes down its ladder. */
  lemma MasterLowers(cfg: Config, base: Board, b: Board, i: nat)
    requires RaisedBelow(cfg, base, b, i)
    ensures OnLadder(cfg, base) ==>
      Ladder(cfg.parts[cfg.master], CoreDownOnce(cfg.parts[cfg.master], b.core[cfg.master]))
  {
    PowerLast(cfg.parts[cfg.master], base.core[cfg.master]);
  }

  /** The steps of preparing and of enabling one controller's HS clocks. */
  lemma PrepareSteps(p: Parts, l: LinkClks)
    ensures var l1 := l.(byteP := l.byteP + 1); var l2 := l1.(pixP := l1.pixP + 1);
      Stepped(p, l) ==> Stepped(p, l1) && Stepped(p, l2) && Stepped(p, l2.(intfP := l2.intfP + 1))
  {
  }

  lemma EnableSteps(p: Parts, l: LinkClks)
    ensures var l1 := l.(byteE := l.byteE + 1); var l2 := l1.(pixE := l1.pixE + 1);
      Stepped(p, l) && Stepped(p, HsEnabled(p, l, 1)) ==>
        Stepped(p, l1) && Stepped(p, l2) && (p.byteIntf ==> Stepped(p, l2.(intfE := l2.intfE + 1)))
  {
  }

  /** Enabling what was prepared, and going back from either. */
  lemma StartSteps(p: Parts, l: LinkClks)
    requires Stepped(p, l)
    ensures Stepped(p, HsEnabled(p, HsPrepared(p, l, 1), 1)) && HsPrepared(p, HsPrepared(p, l, 1), -1) == l
    ensures Stepped(p, HsPrepared(p, HsEnabled(p, l, -1), -1))
  {
  }

  lemma StandLowers(cfg: Config, b: Board, lp: int, hs: int, regs: int)
    requires Stand(cfg, b, true, lp, hs, regs)
    ensures CanLower(cfg, b)
  {
  }

  lemma StandSupplied(cfg: Config, b: Board, up: bool, lp: int, hs: int, regs: int)
    requires Stand(cfg, b, up, lp, hs, regs)
    ensures Supplied(b) <==> regs > 0 || !up
    ensures (RegsUp(b) <==> regs > 0) && (CoresDown(b) <==> !up)
  {
    assert up ==> CoreAny(b.core[cfg.master]);
  }

  /** Every board the hardware has been through obeys the ordering rules. */
  ghost predicate AllSafe(cfg: Config, visited: set<Board>) {
    forall b | b in visited :: Safe(cfg, b)
  }

  /** The board stands at: core side up or down, link votes at lp and hs, regulators at regs. */
  predicate Stand(cfg: Config, b: Board, up: bool, lp: int, hs: int, regs: int) {
    AllCoreAt(cfg, b, up) && AllLinkAt(cfg, b, lp, hs) && b.ctrlVreg == b.phyVreg == regs
  }

  /** The regulators are outside the ordering rules. */
  lemma RegsApart(cfg: Config, b: Board, ctrl: nat, phy: nat)
    ensures Safe(cfg, b.(ctrlVreg := ctrl, phyVreg := phy)) <==> Safe(cfg, b)
    ensures CoresDown(b.(ctrlVreg := ctrl, phyVreg := phy)) <==> CoresDown(b)
  {
  }

  /** What a fault-free manager in states cs and ls has outstanding, when `drains` link votes have
      been given back twice. */
  predicate Level(cfg: Config, b: Board, cs: ClkState, ls: ClkState, drains: int) {
    Stand(cfg, b, cs == On, B2I(ls == On) - drains, B2I(ls == On) - drains, B2I(cs != Off))
  }

  // ---- single steps that keep the ordering ----

  function WithCore(b: Board, i: nat, c: CoreClks): Board
    requires i < |b.core|
  {
    b.(core := b.core[i := c])
  }

  function WithLink(b: Board, i: nat, l: LinkClks): Board
    requires i < |b.link|
  {
    b.(link := b.link[i := l])
  }

  /** Controller i's core side may be moved freely: links are idle, and i is the master with idle
      slaves or a slave under a running master. */
  predicate CanMoveCore(cfg: Config, b: Board, i: nat) {
    && Safe(cfg, b) && LinksIdle(cfg, b) && i < |cfg.parts|
    && if i == cfg.master then forall j | 0 <= j < |cfg.parts| && j != i :: !CoreAny(b.core[j])
       else CoreUp(cfg.parts[cfg.master], b.core[cfg.master])
  }

  predicate CanMoveLp(cfg: Config, b: Board, i: nat) {
    && Safe(cfg, b) && CoresUp(cfg, b) && i < |cfg.parts|
    && if i == cfg.master then forall j | 0 <= j < |cfg.parts| && j != i :: !LpAny(b.link[j])
       else LpUp(b.link[cfg.master])
  }

  predicate CanMoveHs(cfg: Config, b: Board, i: nat) {
    && Safe(cfg, b) && CoresUp(cfg, b) && i < |cfg.parts|
    && if i == cfg.master then forall j | 0 <= j < |cfg.parts| && j != i :: !HsAny(b.link[j])
       else HsUp(cfg.parts[cfg.master], b.link[cfg.master])
  }

  predicate SameHs(l: LinkClks, m: LinkClks) {
    l.byteP == m.byteP && l.byteE == m.byteE && l.pixP == m.pixP && l.pixE == m.pixE
    && l.intfP == m.intfP && l.intfE == m.intfE
  }

  predicate SameLp(l: LinkClks, m: LinkClks) {
    l.escP == m.escP && l.escE == m.escE
  }

  /** l and m agree on the link clocks the mask does not select. */
  predicate Kept(mask: LinkMask, l: LinkClks, m: LinkClks) {
    (mask.lp || SameLp(l, m)) && (mask.hs || SameHs(l, m))
  }

  predicate CanMoveLink(cfg: Config, b: Board, i: nat, mask: LinkMask) {
    (mask.lp ==> CanMoveLp(cfg, b, i)) && (mask.hs ==> CanMoveHs(cfg, b, i))
  }

  /** Every link clock the mask selects stands at v. */
  predicate MaskAt(cfg: Config, b: Board, m: LinkMask, v: int) {
    && Shape(cfg, b)
    && forall i | 0 <= i < |cfg.parts| ::
         && (m.lp ==> SameLp(b.link[i], LinkAt(cfg.parts[i], v, v)))
         && (m.hs ==> SameHs(b.link[i], LinkAt(cfg.parts[i], v, v)))
  }

  /** A walk that only moves a movable controller's core side meets no unsafe board. */
  lemma CoreWalkSafe(cfg: Config, base: Board, i: nat, before: set<Board>, visited: set<Board>)
    requires CanMoveCore(cfg, base, i) && AllSafe(cfg, before)
    requires forall b | b in visited :: b in before || (i < |b.core| && b == WithCore(base, i, b.core[i]))
    ensures AllSafe(cfg, visited)
  {
    forall b | b in visited && b !in before
      ensures Safe(cfg, b)
    {
      MoveCoreSafe(cfg, base, i, b.core[i]);
    }
  }

  lemma MoveCoreSafe(cfg: Config, base: Board, i: nat, c: CoreClks)
    requires CanMoveCore(cfg, base, i)
    ensures CanMoveCore(cfg, WithCore(base, i, c), i)
  {
    var b := WithCore(base, i, c);
    assert forall j | 0 <= j < |cfg.parts| && j != i :: b.core[j] == base.core[j];
  }

  /** The core side of every controller moved up by one vote. */
  function CoresRaised(cfg: Config, b: Board): (r: Board)
    requires Shape(cfg, b)
    ensures Shape(cfg, r)
  {
    b.(core := seq(|cfg.parts|, i requires 0 <= i < |cfg.parts| => CoreUpOnce(cfg.parts[i], b.core[i])))
  }

  function CoresLowered(cfg: Config, b: Board): (r: Board)
    requires Shape(cfg, b)
    ensures Shape(cfg, r)
  {
    b.(core := seq(|cfg.parts|, i requires 0 <= i < |cfg.parts| => CoreDownOnce(cfg.parts[i], b.core[i])))
  }

  /** Nothing has changed, except that the master's bus request may have been withdrawn: the request
      is a level, so giving it back cannot tell whether it was up before. */
  predicate RestoredButBus(cfg: Config, b: Board, after: Board) {
    && Shape(cfg, b) && Shape(cfg, after)
    && (after == b
        || (cfg.parts[cfg.master].busHandle
            && after == WithCore(b, cfg.master, b.core[cfg.master].(busLevel := 0))))
  }

  /** Board b is base with the master and the controllers below `upto` raised by one vote. */
  predicate RaisedBelow(cfg: Config, base: Board, b: Board, upto: nat) {
    && Shape(cfg, base) && Shape(cfg, b) && b == base.(core := b.core)
    && forall j | 0 <= j < |cfg.parts| ::
         b.core[j] == if j == cfg.master || j < upto then CoreUpOnce(cfg.parts[j], base.core[j]) else base.core[j]
  }

  predicate CoresQuiet(cfg: Config, b: Board) {
    Shape(cfg, b) && LinksIdle(cfg, b) && AllCoreAt(cfg, b, false)
  }

  lemma QuietMasterMovable(cfg: Config, b: Board)
    requires CoresQuiet(cfg, b)
    ensures CanMoveCore(cfg, b, cfg.master)
  {
  }

  lemma RaisedSlaveMovable(cfg: Config, base: Board, b: Board, i: nat)
    requires CoresQuiet(cfg, base) && RaisedBelow(cfg, base, b, i) && i < |cfg.parts| && i != cfg.master
    ensures CanMoveCore(cfg, b, i)
    ensures CanMoveCore(cfg, b, cfg.master)
  {
  }

  /** With at most two controllers, a slave that did not come up leaves only the master to undo. */
  lemma UndoRestores(cfg: Config, base: Board, b: Board, i: nat)
    requires RaisedBelow(cfg, base, b, i) && i < |cfg.parts| && i != cfg.master
    ensures RestoredButBus(cfg, base,
      WithCore(b, cfg.master, CoreDownOnce(cfg.parts[cfg.master], b.core[cfg.master])))
  {
    var m := cfg.master;
    var after := WithCore(b, m, CoreDownOnce(cfg.parts[m], b.core[m]));
    if cfg.parts[m].busHandle {
      assert after.core == base.core[m := base.core[m].(busLevel := 0)];
    } else {
      assert after.core == base.core;
    }
  }

  lemma MoveLinkSafe(cfg: Config, base: Board, i: nat, mask: LinkMask, l: LinkClks)
    requires mask == LP || mask == HS
    requires CanMoveLink(cfg, base, i, mask) && Kept(mask, base.link[i], l)
    ensures CanMoveLink(cfg, WithLink(base, i, l), i, mask) && Safe(cfg, WithLink(base, i, l))
  {
    var b := WithLink(base, i, l);
    assert forall j | 0 <= j < |cfg.parts| && j != i :: b.link[j] == base.link[j];
  }

  /** A walk that only moves the selected link clocks of a movable controller meets no unsafe board. */
  lemma LinkWalkSafe(cfg: Config, base: Board, i: nat, mask: LinkMask, before: set<Board>, visited: set<Board>)
    requires mask == LP || mask == HS
    requires CanMoveLink(cfg, base, i, mask) && AllSafe(cfg, before)
    requires forall b | b in visited ::
      b in before || (i < |b.link| && b == WithLink(base, i, b.link[i]) && Kept(mask, base.link[i], b.link[i]))
    ensures AllSafe(cfg, visited)
  {
    forall b | b in visited && b !in before
      ensures Safe(cfg, b)
    {
      MoveLinkSafe(cfg, base, i, mask, b.link[i]);
    }
  }

  /** The selected link clocks of every controller moved by d votes. */
  function LinksMoved(cfg: Config, b: Board, mask: LinkMask, d: int): (r: Board)
    requires Shape(cfg, b)
    ensures Shape(cfg, r)
  {
    b.(link := seq(|cfg.parts|, i requires 0 <= i < |cfg.parts| => LinkMoved(cfg.parts[i], b.link[i], mask, d)))
  }

  function HsPrepared(p: Parts, l: LinkClks, d: int): LinkClks {
    l.(byteP := l.byteP + d, pixP := l.pixP + d, intfP := if p.byteIntf then l.intfP + d else l.intfP)
  }

  function HsEnabled(p: Parts, l: LinkClks, d: int): LinkClks {
    l.(byteE := l.byteE + d, pixE := l.pixE + d, intfE := if p.byteIntf then l.intfE + d else l.intfE)
  }

  /** One escape clock unprepared once too often. */
  function LpOvershot(cfg: Config, b: Board, i: nat): (r: Board)
    requires Shape(cfg, b) && i < |cfg.parts|
    ensures Shape(cfg, r)
  {
    WithLink(b, i, b.link[i].(escP := b.link[i].escP - 1))
  }

  /** Board b is base with the slaves below `upto` lowered by one vote. */
  predicate LoweredBelow(cfg: Config, base: Board, b: Board, upto: nat) {
    && Shape(cfg, base) && Shape(cfg, b) && b == base.(core := b.core)
    && forall j | 0 <= j < |cfg.parts| ::
         b.core[j] == if j != cfg.master && j < upto then CoreDownOnce(cfg.parts[j], base.core[j]) else base.core[j]
  }

  /** With at most two controllers, nothing has moved when the slave's turn comes. */
  lemma FirstSlave(cfg: Config, base: Board, b: Board, i: nat)
    requires LoweredBelow(cfg, base, b, i) && i < |cfg.parts| && i != cfg.master
    ensures b == base
  {
    assert b.core == base.core;
  }

  lemma SlavesLowered(cfg: Config, base: Board, b: Board)
    requires LoweredBelow(cfg, base, b, |cfg.parts|)
    ensures |cfg.parts| == 1 ==> b == base
    ensures |cfg.parts| == 2 ==>
      var s := 1 - cfg.master; b == WithCore(base, s, CoreDownOnce(cfg.parts[s], base.core[s]))
  {
    if |cfg.parts| == 1 {
      assert b.core == base.core;
    } else {
      var s := 1 - cfg.master;
      assert b.core == base.core[s := CoreDownOnce(cfg.parts[s], base.core[s])];
    }
  }

  lemma LoweredSlaveMovable(cfg: Config, base: Board, b: Board, i: nat)
    requires Shape(cfg, base) && LinksIdle(cfg, base) && AllCoreAt(cfg, base, true)
    requires LoweredBelow(cfg, base, b, i) && i < |cfg.parts| && i != cfg.master
    ensures CanMoveCore(cfg, b, i)
  {
  }

  lemma LoweredMasterMovable(cfg: Config, base: Board, b: Board)
    requires Shape(cfg, base) && LinksIdle(cfg, base) && AllCoreAt(cfg, base, true)
    requires LoweredBelow(cfg, base, b, |cfg.parts|)
    ensures CanMoveCore(cfg, b, cfg.master)
  {
  }

  /** Board b is base with the selected link clocks of the master (if `master`) and of the slaves
      below `upto` moved by d votes. */
  predicate LinksMovedBelow(cfg: Config, base: Board, b: Board, mask: LinkMask, d: int, master: bool, upto: nat) {
    && Shape(cfg, base) && Shape(cfg, b) && b == base.(link := b.link)
    && forall j | 0 <= j < |cfg.parts| ::
         b.link[j] == if (j == cfg.master && master) || (j != cfg.master && j < upto)
                      then LinkMoved(cfg.parts[j], base.link[j], mask, d) else base.link[j]
  }

  predicate LinksReady(cfg: Config, b: Board, mask: LinkMask, v: int) {
    Safe(cfg, b) && CoresUp(cfg, b) && MaskAt(cfg, b, mask, v)
  }

  lemma IdleMasterLinkMovable(cfg: Config, b: Board, mask: LinkMask)
    requires LinksReady(cfg, b, mask, 0)
    ensures CanMoveLink(cfg, b, cfg.master, mask)
  {
  }

  lemma SlaveLinkMovable(cfg: Config, base: Board, b: Board, mask: LinkMask, i: nat)
    requires LinksReady(cfg, base, mask, 0) && Safe(cfg, b)
    requires LinksMovedBelow(cfg, base, b, mask, 1, true, i) && i < |cfg.parts| && i != cfg.master
    ensures CanMoveLink(cfg, b, i, mask)
  {
    assert CoresUp(cfg, b);
    var m := cfg.master;
    assert b.link[m] == LinkMoved(cfg.parts[m], base.link[m], mask, 1);
  }

  lemma LoadedSlaveLinkMovable(cfg: Config, base: Board, b: Board, mask: LinkMask, i: nat)
    requires LinksReady(cfg, base, mask, 1) && Safe(cfg, b)
    requires LinksMovedBelow(cfg, base, b, mask, -1, false, i) && i < |cfg.parts| && i != cfg.master
    ensures CanMoveLink(cfg, b, i, mask)
  {
    assert CoresUp(cfg, b);
    assert b.link[cfg.master] == base.link[cfg.master];
  }

  lemma LoadedMasterLinkMovable(cfg: Config, base: Board, b: Board, mask: LinkMask)
    requires LinksReady(cfg, base, mask, 1) && Safe(cfg, b)
    requires LinksMovedBelow(cfg, base, b, mask, -1, false, |cfg.parts|)
    ensures CanMoveLink(cfg, b, cfg.master, mask)
  {
    assert CoresUp(cfg, b);
    forall j | 0 <= j < |cfg.parts| && j != cfg.master
      ensures (mask.lp ==> !LpAny(b.link[j])) && (mask.hs ==> !HsAny(b.link[j]))
    {
      LoweredIsIdle(cfg.parts[j], base.link[j], mask);
    }
  }

  lemma LoweredIsIdle(p: Parts, l: LinkClks, mask: LinkMask)
    requires (mask.lp ==> SameLp(l, LinkAt(p, 1, 1))) && (mask.hs ==> SameHs(l, LinkAt(p, 1, 1)))
    ensures (mask.lp ==> !LpAny(LinkMoved(p, l, mask, -1))) && (mask.hs ==> !HsAny(LinkMoved(p, l, mask, -1)))
  {
  }

  /** The walk over the controllers' link clocks, step by step. */
  lemma FirstMoved(cfg: Config, base: Board, b: Board, mask: LinkMask, d: int, master: bool)
    requires Shape(cfg, base)
    requires var m := cfg.master; b == if master
        then WithLink(base, m, LinkMoved(cfg.parts[m], base.link[m], mask, d)) else base
    ensures LinksMovedBelow(cfg, base, b, mask, d, master, 0)
  {
  }

  lemma OneMoreMoved(cfg: Config, base: Board, b: Board, mask: LinkMask, d: int, master: bool, i: nat)
    requires LinksMovedBelow(cfg, base, b, mask, d, master, i) && i < |cfg.parts|
    ensures i == cfg.master ==> LinksMovedBelow(cfg, base, b, mask, d, master, i + 1)
    ensures i != cfg.master ==>
      LinksMovedBelow(cfg, base, WithLink(b, i, LinkMoved(cfg.parts[i], b.link[i], mask, d)), mask, d, master, i + 1)
  {
  }

  lemma AllMoved(cfg: Config, base: Board, b: Board, mask: LinkMask, d: int)
    requires LinksMovedBelow(cfg, base, b, mask, d, true, |cfg.parts|)
    ensures b == LinksMoved(cfg, base, mask, d)
  {
    assert b.link == LinksMoved(cfg, base, mask, d).link;
  }

  lemma OnlySlave(cfg: Config, i: nat)
    requires i < |cfg.parts| && i != cfg.master
    ensures i == 1 - cfg.master && |cfg.parts| == 2
  {
  }

  /** With at most two controllers, only the master has moved when the slave's turn comes. */
  lemma OnlyMasterMoved(cfg: Config, base: Board, b: Board, mask: LinkMask, i: nat)
    requires LinksMovedBelow(cfg, base, b, mask, 1, true, i) && i < |cfg.parts| && i != cfg.master
    ensures i == 1 - cfg.master && |cfg.parts| == 2
    ensures var m := cfg.master; b == WithLink(base, m, LinkMoved(cfg.parts[m], base.link[m], mask, 1))
  {
    var m := cfg.master;
    assert b.link == base.link[m := LinkMoved(cfg.parts[m], base.link[m], mask, 1)];
  }

  /** Undoing the master after slave i failed to come up leaves what the slave alone left: nothing, or one
      escape clock unprepared once too often. */
  lemma UndoLinkRestores(cfg: Config, base: Board, b: Board, failed: Board, mask: LinkMask, i: nat)
    requires LinksMovedBelow(cfg, base, b, mask, 1, true, i) && i < |cfg.parts| && i != cfg.master
    requires mask == LP || mask == HS
    requires failed == b || (mask == LP && failed == LpOvershot(cfg, b, i))
    ensures var m := cfg.master;
      WithLink(failed, m, LinkMoved(cfg.parts[m], failed.link[m], mask, -1)) == if failed == b then base
          else LpOvershot(cfg, base, i)
  {
    var m := cfg.master;
    var after := WithLink(failed, m, LinkMoved(cfg.parts[m], failed.link[m], mask, -1));
    if failed == b {
      assert after.link == base.link;
    } else {
      assert after.link == LpOvershot(cfg, base, i).link;
    }
  }

  // ---- whole-board moves between standings ----

  lemma StandRaise(cfg: Config, b: Board, lp: int, hs: int, regs: int)
    requires Stand(cfg, b, false, lp, hs, regs)
    ensures Stand(cfg, CoresRaised(cfg, b), true, lp, hs, regs)
  {
  }

  lemma StandLower(cfg: Config, b: Board, lp: int, hs: int, regs: int)
    requires Stand(cfg, b, true, lp, hs, regs)
    ensures Stand(cfg, CoresLowered(cfg, b), false, lp, hs, regs)
  {
  }

  lemma StandLinks(cfg: Config, b: Board, up: bool, lp: int, hs: int, regs: int, mask: LinkMask, d: int)
    requires Stand(cfg, b, up, lp, hs, regs)
    ensures Stand(cfg, LinksMoved(cfg, b, mask, d), up,
                  if mask.lp then lp + d else lp, if mask.hs then hs + d else hs, regs)
  {
  }

  /** An ON whose HS clocks were refused left the LP clocks on; the next ON that succeeds leaves each escape
      clock with two votes, and the OFF after that leaves one. */
  lemma EscapeLeftOn(cfg: Config, b: Board, up: bool, k: int, regs: int)
    requires Stand(cfg, b, up, k, k, regs)
    ensures var on := LinksMoved(cfg, LinksMoved(cfg, LinksMoved(cfg, b, LP, 1), LP, 1), HS, 1);
      && Stand(cfg, on, up, k + 2, k + 1, regs)
      && Stand(cfg, LinksMoved(cfg, LinksMoved(cfg, on, HS, -1), LP, -1), up, k + 1, k, regs)
  {
    var lp := LinksMoved(cfg, b, LP, 1);
    var twice := LinksMoved(cfg, lp, LP, 1);
    var on := LinksMoved(cfg, twice, HS, 1);
    StandLinks(cfg, b, up, k, k, regs, LP, 1);
    StandLinks(cfg, lp, up, k + 1, k, regs, LP, 1);
    StandLinks(cfg, twice, up, k + 2, k, regs, HS, 1);
    StandLinks(cfg, on, up, k + 2, k + 1, regs, HS, -1);
    StandLinks(cfg, LinksMoved(cfg, on, HS, -1), up, k + 2, k, regs, LP, -1);
  }

  lemma StandQuiet(cfg: Config, b: Board, lp: int, hs: int, regs: int)
    requires Stand(cfg, b, false, lp, hs, regs) && lp <= 0 && hs <= 0
    ensures CoresQuiet(cfg, b) && Safe(cfg, b)
  {
  }

  lemma StandLoaded(cfg: Config, b: Board, lp: int, hs: int, regs: int)
    requires Stand(cfg, b, true, lp, hs, regs)
    ensures Safe(cfg, b) && CoresUp(cfg, b) && LinksReady(cfg, b, LP, lp) && LinksReady(cfg, b, HS, hs)
    ensures lp == hs ==> LinksReady(cfg, b, BOTH, lp)
    ensures lp <= 0 && hs <= 0 ==> LinksIdle(cfg, b)
  {
  }

  /** Taking the link clocks down and up again (or the reverse) is invisible. */
  lemma LinksBounce(cfg: Config, b: Board, mask: LinkMask, d: int)
    requires Shape(cfg, b)
    ensures LinksMoved(cfg, LinksMoved(cfg, b, mask, d), mask, -d) == b
  {
    assert LinksMoved(cfg, LinksMoved(cfg, b, mask, d), mask, -d).link == b.link;
  }

  /** The link clocks hold exactly the votes the link state calls for, if and only if no vote has been
      given back twice. */
  lemma LinkBalancedIffNoDrain(cfg: Config, b: Board, cs: ClkState, ls: ClkState, drains: int)
    requires Level(cfg, b, cs, ls, drains)
    ensures AllLinkAt(cfg, b, B2I(ls == On), B2I(ls == On)) <==> drains == 0
  {
    assert b.link[cfg.master].escP == B2I(ls == On) - drains;
  }
}
