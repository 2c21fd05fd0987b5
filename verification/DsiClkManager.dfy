/** The DSI clock manager: any number of clients vote on core and link clocks, and the manager drives
    the hardware to the most demanding vote. */
module DsiClkManager {

  import opened Common
  import opened DsiClkVotes
  import opened DsiClkBoard
  import opened DsiClkHw

  /** enum dsi_clk_type as the set of clocks it names. */
  datatype ClkMask = ClkMask(core: bool, link: bool)

  /** One call on the clock manager; clients are named by their place in its list. */
  datatype Op = Register | Request(client: nat, clk: ClkMask, st: ClkState) | Deregister(client: nat) | Force

  class ClkClient {
    var coreRefcount: u32
    var linkRefcount: u32
    var coreState: ClkState
    var linkState: ClkState

    constructor ()
      ensures CoreVote() == NoVote && LinkVote() == NoVote
    {
      coreRefcount, linkRefcount, coreState, linkState := 0, 0, Off, Off;
    }

    function CoreVote(): Vote
      reads this
    {
      Vote(coreRefcount, coreState)
    }

    function LinkVote(): Vote
      reads this
    {
      Vote(linkRefcount, linkState)
    }
  }

  function CoreVotesOf(cs: seq<ClkClient>): (r: seq<Vote>)
    reads cs
    ensures |r| == |cs| && forall i | 0 <= i < |cs| :: r[i] == cs[i].CoreVote()
  {
    seq(|cs|, i requires 0 <= i < |cs| reads cs => cs[i].CoreVote())
  }

  function LinkVotesOf(cs: seq<ClkClient>): (r: seq<Vote>)
    reads cs
    ensures |r| == |cs| && forall i | 0 <= i < |cs| :: r[i] == cs[i].LinkVote()
  {
    seq(|cs|, i requires 0 <= i < |cs| reads cs => cs[i].LinkVote())
  }

  function PairsOf(cs: seq<ClkClient>): (r: seq<Pair>)
    reads cs
    ensures |r| == |cs| && forall i | 0 <= i < |cs| :: r[i] == Pair(cs[i].CoreVote(), cs[i].LinkVote())
  {
    seq(|cs|, i requires 0 <= i < |cs| reads cs => Pair(cs[i].CoreVote(), cs[i].LinkVote()))
  }

  class ClkManager {
    const hw: ClkHw
    var clients: seq<ClkClient>
    var coreState: ClkState
    var linkState: ClkState
    // How many link votes have been given back twice so far.
    ghost var drains: nat

    constructor (hw: ClkHw)
      requires hw.Valid() && Level(hw.cfg, hw.board, Off, Off, 0)
      ensures Valid() && Clean() && this.hw == hw && clients == [] && drains == 0 && LinkPlain()
    {
      this.hw, clients, coreState, linkState, drains := hw, [], Off, Off, 0;
    }

    ghost predicate Valid()
      reads this, hw
    {
      hw.Valid() && forall i, j | 0 <= i < j < |clients| :: clients[i] != clients[j]
    }

    function CoreVotes(): seq<Vote>
      reads `clients, clients
    {
      CoreVotesOf(clients)
    }

    function LinkVotes(): seq<Vote>
      reads `clients, clients
    {
      LinkVotesOf(clients)
    }

    /** The outstanding hardware votes are exactly those the manager's states call for. */
    ghost predicate Balanced()
      reads this, hw
    {
      hw.Valid() && Level(hw.cfg, hw.board, coreState, linkState, drains)
    }

    /** Both manager states are the most demanding vote. */
    ghost predicate Aggregated()
      reads this, clients
    {
      IsMax(coreState, CoreVotes()) && IsMax(linkState, LinkVotes())
    }

    /** What every fault-free run keeps. */
    ghost predicate Clean()
      reads this, hw, clients
    {
      Balanced() && Aggregated() && AllHeld(CoreVotes()) && AllHeld(LinkVotes())
    }

    /** Stuck, with core votes ON and OFF alone. */
    predicate StuckPlain()
      reads this, hw, clients
    {
      Stuck() && NoneEarlyGated(CoreVotes())
    }

    /** The link clocks are only ever asked ON or OFF, and no link vote has been lost. */
    ghost predicate LinkPlain()
      reads this, clients
    {
      drains == 0 && linkState != EarlyGate && NoneEarlyGated(LinkVotes())
    }

    /** What every fault-free run with plain link requests by careful clients keeps. */
    ghost predicate CleanAndOrdered()
      reads this, hw, clients
    {
      Clean() && hw.Ordered() && LinkPlain() && LinkNeedsCore(CoreVotes(), LinkVotes())
    }

    ghost predicate NoFaultSince(on: nat, off: nat)
      reads hw
    {
      hw.onFaults == on && hw.offFaults == off
    }

    /** Core side up or down, every link clock at k, regulators as the core state demands. */
    ghost predicate Standing(up: bool, k: int)
      reads this, hw
    {
      hw.Valid() && Stand(hw.cfg, hw.board, up, k, k, B2I(coreState != Off))
    }

    /** Link clocks exactly ON or OFF, none lost, core clocks up whenever they may be touched. */
    ghost predicate Plain()
      reads this, hw
    {
      coreState == On && drains == 0 && linkState != EarlyGate && Standing(true, B2I(linkState == On))
    }

    // ---- driving the hardware ----

    /** dsi_clk_update_link_clk_state(): callbacks around a link clock change. */
    method LinkClksOn(mask: LinkMask) returns (rc: int)
      requires hw.Valid()
      modifies hw
      ensures hw.Valid() && hw.onFaults >= old(hw.onFaults) && hw.offFaults == old(hw.offFaults)
      ensures rc == 0 <==> hw.onFaults == old(hw.onFaults)
      ensures rc == 0 ==> hw.board == LinksMoved(hw.cfg, old(hw.board), mask, 1)
      ensures rc == 0 ==> hw.onCalls == old(hw.onCalls) + 2 + hw.AllLinkCalls(mask)
      ensures old(hw.onCalls) < hw.onCalls <= old(hw.onCalls) + 2 + hw.AllLinkCalls(mask)
              && hw.contSplash == old(hw.contSplash)
      ensures rc != 0 ==> hw.board == hw.AfterRefusedClks(old(hw.board), mask, old(hw.onCalls), hw.onCalls)
      ensures rc == 0 && old(hw.Ordered()) && LinksReady(hw.cfg, old(hw.board), mask, 0) ==> hw.Ordered()
      ensures rc == 0 && old(hw.RanBare() || Supplied(hw.board)) ==> hw.RanBare() == old(hw.RanBare())
      ensures SameRegs(hw.board, old(hw.board))
      ensures old(hw.HsInStep()) ==> hw.HsInStep()
      ensures old(hw.Laddered()) ==> hw.Laddered()
      ensures !mask.hs || HsLoose(hw.cfg, old(hw.board)) ==> hw.ratedLive == old(hw.ratedLive)
    {
      rc := hw.OnCall();
      if rc != 0 {
        return;
      }
      rc := hw.LinkEnable(mask);
      if rc != 0 {
        return;
      }
      rc := hw.OnCall();
    }

    method LinkClksOff(mask: LinkMask) returns (rc: int)
      requires hw.Valid()
      modifies hw
      ensures hw.Valid() && hw.offFaults >= old(hw.offFaults) && hw.onFaults == old(hw.onFaults)
      ensures hw.offFaults == old(hw.offFaults) ==> rc == 0
      ensures hw.board == LinksMoved(hw.cfg, old(hw.board), mask, -1)
      ensures rc == hw.offRc(old(hw.offCalls) + 1) && hw.offCalls == old(hw.offCalls) + 2
      ensures hw.onCalls == old(hw.onCalls) && hw.contSplash == old(hw.contSplash)
      ensures old(hw.Ordered()) && LinksReady(hw.cfg, old(hw.board), mask, 1) ==> hw.Ordered()
      ensures old(hw.RanBare() || Supplied(hw.board)) ==> hw.RanBare() == old(hw.RanBare())
      ensures SameRegs(hw.board, old(hw.board))
      ensures old(hw.HsInStep()) ==> hw.HsInStep()
      ensures old(hw.Laddered()) ==> hw.Laddered()
      ensures hw.ratedLive == old(hw.ratedLive)
    {
      rc := hw.OffCall();
      hw.LinkDisable(mask);
      rc := hw.OffCall();
    }

    /** The regulators are to come up, and are refused. */
    predicate RegulatorRefused()
      reads `coreState, hw`onCalls, hw`board
    {
      coreState == Off && hw.RegulatorRefused()
    }

    /** The core clocks are OFF, yet the controllers are still powered. */
    predicate Stuck()
      reads `coreState, hw`board
    {
      coreState == Off && hw.board.ctrlVreg > 0
    }

    /** The controllers' own regulators are up or will come up. */
    predicate CtrlComesUp()
      reads hw`onCalls, hw`board
    {
      hw.board.ctrlVreg > 0 || hw.onRc(hw.onCalls) == 0
    }

    /** The controllers are powered exactly while the core clocks are not OFF. */
    predicate Matched()
      reads `coreState, hw`board
    {
      coreState == Off <==> hw.board.ctrlVreg <= 0
    }

    lemma BalancedMatched()
      ensures Balanced() ==> Matched()
    {
    }

    /** The board once the regulators the core clocks need are up. */
    function Powered(): (r: Board)
      requires Shape(hw.cfg, hw.board)
      reads `coreState, hw`board
      ensures Shape(hw.cfg, r)
    {
      if coreState != Off then hw.board
      else hw.RegsRaised(hw.board)
    }

    /** The core-ON part of dsi_update_clk_state(). Core clocks that are refused keep both regulators up.
        A failing post callback is reported but does not
        stop the sequence. */
    method UpdateCoreOn(ghost k: int) returns (rc: int, stopped: bool)
      requires hw.Valid() && coreState != On
      modifies `coreState, hw
      ensures hw.Valid() && (stopped ==> rc != 0 && coreState == old(coreState)) && (!stopped ==> coreState == On)
      ensures hw.onFaults >= old(hw.onFaults) && hw.offFaults >= old(hw.offFaults)
      ensures stopped && old(RegulatorRefused()) ==>
        hw.board == hw.AfterRefusedRegs(old(hw.board), old(hw.onCalls))
      ensures stopped && !old(RegulatorRefused()) && hw.offFaults == old(hw.offFaults) ==>
        RestoredButBus(hw.cfg, old(Powered()), hw.board)
      ensures !stopped ==> !old(RegulatorRefused()) && hw.board == CoresRaised(hw.cfg, old(Powered()))
      ensures NoFaultSince(old(hw.onFaults), old(hw.offFaults)) && !old(Stuck()) ==> rc == 0
      ensures old(Stuck()) ==>
        stopped && rc == -EINVAL && hw.board == old(hw.board) && NoFaultSince(old(hw.onFaults), old(hw.offFaults))
      ensures NoFaultSince(old(hw.onFaults), old(hw.offFaults)) && old(Standing(false, k)) ==>
        Stand(hw.cfg, hw.board, true, k, k, 1)
      ensures NoFaultSince(old(hw.onFaults), old(hw.offFaults)) && old(Standing(false, k) && hw.Ordered()) && k <= 0
        ==> hw.Ordered()
      ensures NoFaultSince(old(hw.onFaults), old(hw.offFaults)) && old(Standing(false, k)) ==>
        hw.RanBare() == old(hw.RanBare())
      ensures stopped && old(coreState) == Off ==> (Stuck() <==> old(CtrlComesUp()))
      ensures old(hw.HsInStep()) ==> hw.HsInStep()
      ensures hw.offFaults == old(hw.offFaults) && old(hw.Laddered()) ==> hw.Laddered()
      ensures hw.ratedLive == old(hw.ratedLive)
      ensures !stopped ==> hw.onCalls > 0 && rc == hw.onRc(hw.onCalls - 1)
    {
      hide hw.Laddered, hw.HsInStep, hw.RanBare;
      ghost var b0 := hw.board;
      ghost var regs := B2I(coreState != Off);
      ghost var standing := Standing(false, k);
      if standing && k <= 0 {
        StandQuiet(hw.cfg, b0, k, k, regs);
      }
      if coreState == Off {
        rc := hw.PreCoreClkOn();
        if rc != 0 {
          return rc, true;
        }
      }
      ghost var b1 := hw.board;
      assert standing ==> Stand(hw.cfg, b1, false, k, k, 1);
      if standing && k <= 0 {
        StandQuiet(hw.cfg, b1, k, k, 1);
      }
      if standing {
        StandRaise(hw.cfg, b1, k, k, 1);
      }
      rc := hw.CoreEnable();
      if rc != 0 {
        return rc, true;
      }
      rc := hw.OnCall();
      coreState := On;
      stopped := false;
    }

    /** LP, then HS link clocks on. */
    method LinkPairOn(ghost up: bool, ghost k: int, ghost regs: int) returns (rc: int)
      requires hw.Valid()
      modifies hw
      ensures hw.Valid() && hw.onFaults >= old(hw.onFaults) && hw.offFaults == old(hw.offFaults)
      ensures rc == 0 <==> hw.onFaults == old(hw.onFaults)
      ensures rc != 0 ==> hw.board == hw.AfterRefusedPair(old(hw.board), old(hw.onCalls), hw.onCalls)
      ensures rc == 0 && old(Stand(hw.cfg, hw.board, up, k, k, regs)) ==>
        Stand(hw.cfg, hw.board, up, k + 1, k + 1, regs)
      ensures rc == 0 && old(Stand(hw.cfg, hw.board, true, 0, 0, regs) && hw.Ordered()) && up && k == 0 ==> hw.Ordered()
      ensures rc == 0 && old(Stand(hw.cfg, hw.board, up, k, k, regs)) && old(hw.RanBare() || Supplied(hw.board)) ==>
        hw.RanBare() == old(hw.RanBare())
      ensures SameRegs(hw.board, old(hw.board))
      ensures old(hw.HsInStep()) ==> hw.HsInStep()
      ensures old(hw.Laddered()) ==> hw.Laddered()
      ensures old(Stand(hw.cfg, hw.board, up, k, k, regs)) && k <= 0 ==> hw.ratedLive == old(hw.ratedLive)
    {
      hide Stand, LinksMoved, LinksReady, Safe, hw.AfterRefusedClks, hw.AllLinkCalls;
      ghost var b0 := hw.board;
      if Stand(hw.cfg, b0, up, k, k, regs) {
        StandLinks(hw.cfg, b0, up, k, k, regs, LP, 1);
        StandLinks(hw.cfg, LinksMoved(hw.cfg, b0, LP, 1), up, k + 1, k, regs, HS, 1);
        if k <= 0 {
          StandLoose(hw.cfg, LinksMoved(hw.cfg, b0, LP, 1), up, k + 1, k, regs);
        }
        if up {
          StandLoaded(hw.cfg, b0, k, k, regs);
          StandLoaded(hw.cfg, LinksMoved(hw.cfg, b0, LP, 1), k + 1, k, regs);
        }
      }
      rc := LinkClksOn(LP);
      if rc == 0 {
        rc := LinkClksOn(HS);
      }
    }

    /** HS, then LP link clocks off. */
    method LinkPairOff(ghost up: bool, ghost k: int, ghost regs: int) returns (rc: int)
      requires hw.Valid()
      modifies hw
      ensures hw.Valid() && hw.onFaults == old(hw.onFaults) && hw.offFaults >= old(hw.offFaults)
      ensures hw.offFaults == old(hw.offFaults) ==> rc == 0
      ensures hw.board == hw.AfterRefusedPairOff(old(hw.board), old(hw.offCalls))
      ensures rc != 0 <==> old(hw.offRc(hw.offCalls + 1) != 0 || hw.offRc(hw.offCalls + 3) != 0)
      ensures rc == 0 ==> hw.offCalls == old(hw.offCalls) + 4
      ensures rc == 0 && old(Stand(hw.cfg, hw.board, up, k, k, regs)) ==>
        Stand(hw.cfg, hw.board, up, k - 1, k - 1, regs)
      ensures rc == 0 && old(Stand(hw.cfg, hw.board, true, 1, 1, regs) && hw.Ordered()) && up && k == 1 ==> hw.Ordered()
      ensures rc == 0 && old(Stand(hw.cfg, hw.board, up, k, k, regs)) && old(hw.RanBare() || Supplied(hw.board)) ==>
        hw.RanBare() == old(hw.RanBare())
      ensures SameRegs(hw.board, old(hw.board))
      ensures old(hw.HsInStep()) ==> hw.HsInStep()
      ensures old(hw.Laddered()) ==> hw.Laddered()
      ensures hw.ratedLive == old(hw.ratedLive)
    {
      hide Stand, LinksReady, Safe;
      ghost var b0 := hw.board;
      if Stand(hw.cfg, b0, up, k, k, regs) {
        StandLinks(hw.cfg, b0, up, k, k, regs, HS, -1);
        StandLinks(hw.cfg, LinksMoved(hw.cfg, b0, HS, -1), up, k, k - 1, regs, LP, -1);
        if up {
          StandLoaded(hw.cfg, b0, k, k, regs);
          StandLoaded(hw.cfg, LinksMoved(hw.cfg, b0, HS, -1), k, k - 1, regs);
        }
      }
      rc := LinkClksOff(HS);
      if rc == 0 {
        rc := LinkClksOff(LP);
      }
    }

    /** CoreEnable() and CoreDisable() as moves between standings. */
    method CoresOn(ghost k: int, ghost regs: int) returns (rc: int)
      requires hw.Valid()
      modifies hw
      ensures hw.Valid() && hw.onFaults == old(hw.onFaults) + B2I(rc != 0) && hw.offFaults >= old(hw.offFaults)
      ensures rc == 0 ==> hw.offFaults == old(hw.offFaults)
      ensures rc == 0 ==> hw.offCalls == old(hw.offCalls) && hw.board == CoresRaised(hw.cfg, old(hw.board))
      ensures rc != 0 && hw.offFaults == old(hw.offFaults) ==> RestoredButBus(hw.cfg, old(hw.board), hw.board)
      ensures rc == 0 && old(Stand(hw.cfg, hw.board, false, k, k, regs)) ==> Stand(hw.cfg, hw.board, true, k, k, regs)
      ensures rc == 0 && old(Stand(hw.cfg, hw.board, false, k, k, regs) && hw.Ordered()) && k <= 0 ==> hw.Ordered()
      ensures rc == 0 && old(Stand(hw.cfg, hw.board, false, k, k, regs)) && regs >= 0 ==>
        hw.RanBare() == (old(hw.RanBare()) || regs == 0)
      ensures SameRegs(hw.board, old(hw.board))
      ensures old(hw.HsInStep()) ==> hw.HsInStep()
      ensures hw.offFaults == old(hw.offFaults) && old(hw.Laddered()) ==> hw.Laddered()
      ensures hw.ratedLive == old(hw.ratedLive)
    {
      if Stand(hw.cfg, hw.board, false, k, k, regs) {
        StandRaise(hw.cfg, hw.board, k, k, regs);
        if k <= 0 {
          StandQuiet(hw.cfg, hw.board, k, k, regs);
        }
      }
      ghost var standing := Stand(hw.cfg, hw.board, false, k, k, regs);
      rc := hw.CoreEnable();
      if rc == 0 && standing {
        StandSupplied(hw.cfg, hw.board, true, k, k, regs);
      }
    }

    method CoresOff(ghost k: int, ghost regs: int) returns (rc: int)
      requires hw.Valid()
      modifies hw
      ensures hw.Valid() && hw.onFaults == old(hw.onFaults) && hw.offFaults == old(hw.offFaults) + B2I(rc != 0)
      ensures rc == 0 ==> hw.board == CoresLowered(hw.cfg, old(hw.board))
      ensures rc != 0 ==> hw.board == hw.AfterRefusedDisable(old(hw.board), old(hw.offCalls), hw.offCalls)
      ensures rc == 0 && old(Stand(hw.cfg, hw.board, true, k, k, regs)) ==> Stand(hw.cfg, hw.board, false, k, k, regs)
      ensures rc == 0 && old(Stand(hw.cfg, hw.board, true, k, k, regs) && hw.Ordered()) && k <= 0 ==> hw.Ordered()
      ensures rc == 0 && old(Stand(hw.cfg, hw.board, true, k, k, regs)) && (regs > 0 || old(hw.RanBare())) ==>
        hw.RanBare() == old(hw.RanBare())
      ensures SameRegs(hw.board, old(hw.board))
      ensures old(hw.HsInStep()) ==> hw.HsInStep()
      ensures old(Stand(hw.cfg, hw.board, true, k, k, regs)) && old(hw.Laddered()) ==> hw.Laddered()
      ensures hw.ratedLive == old(hw.ratedLive)
    {
      if Stand(hw.cfg, hw.board, true, k, k, regs) {
        StandLowers(hw.cfg, hw.board, k, k, regs);
      }
      if Stand(hw.cfg, hw.board, true, k, k, regs) {
        StandLower(hw.cfg, hw.board, k, k, regs);
        StandLoaded(hw.cfg, hw.board, k, k, regs);
      }
      rc := hw.CoreDisable();
    }

    /** The link leaves EARLY_GATE for OFF while core clocks are down, so they come up for its sake. */
    predicate Bounces(l: ClkState)
      reads `coreState, `linkState
    {
      l == Off && linkState == EarlyGate && coreState != On
    }

    /** The board after a bounce in which turning off was refused, the off calls from t up to u made: a link
        refusal leaves the core clocks up. */
    function AfterRefusedBounce(b: Board, t: nat, u: nat): Board
      requires Shape(hw.cfg, b)
      reads hw
    {
      var after := hw.AfterRefusedPairOff(CoresRaised(hw.cfg, b), t);
      if hw.offRc(t + 1) != 0 || hw.offRc(t + 3) != 0 then after else hw.AfterRefusedDisable(after, t + 4, u)
    }

    /** The link part of dsi_update_clk_state(). A refused HS start leaves the LP clocks on under the old
        link state. coreFollows says that a core change to OFF follows in
        the same update; lcOn, that the core clocks were turned on for the link's sake and left on. */
    method UpdateLinks(l: ClkState, coreFollows: bool) returns (rc: int, lcOn: bool)
      requires hw.Valid() && linkState != l
      modifies `linkState, `drains, hw
      ensures hw.Valid() && hw.onFaults >= old(hw.onFaults) && hw.offFaults >= old(hw.offFaults)
      ensures linkState == if rc == 0 then l else old(linkState)
      ensures l == On && rc != 0 ==> hw.board == hw.AfterRefusedPair(old(hw.board), old(hw.onCalls), hw.onCalls)
      ensures l != On && rc != 0 && !old(Bounces(l)) ==>
        hw.board == hw.AfterRefusedPairOff(old(hw.board), old(hw.offCalls))
      ensures rc != 0 && old(Bounces(l)) && hw.onFaults != old(hw.onFaults) && hw.offFaults == old(hw.offFaults) ==>
        RestoredButBus(hw.cfg, old(hw.board), hw.board)
      ensures rc != 0 && old(Bounces(l)) && hw.onFaults == old(hw.onFaults) ==>
        hw.board == AfterRefusedBounce(old(hw.board), old(hw.offCalls), hw.offCalls)
      ensures NoFaultSince(old(hw.onFaults), old(hw.offFaults)) ==> rc == 0
      ensures drains == old(drains) + B2I(rc == 0 && l != On && old(linkState) != On)
      ensures lcOn ==> coreFollows && coreState == EarlyGate
      ensures NoFaultSince(old(hw.onFaults), old(hw.offFaults))
              && old(Standing(coreState == On, B2I(linkState == On) - drains)) ==>
        Standing(coreState == On || lcOn, B2I(linkState == On) - drains)
      ensures NoFaultSince(old(hw.onFaults), old(hw.offFaults)) && old(hw.Ordered() && Plain()) && l != EarlyGate ==>
        hw.Ordered()
      ensures NoFaultSince(old(hw.onFaults), old(hw.offFaults))
              && old(Standing(coreState == On, B2I(linkState == On) - drains)) ==>
        hw.RanBare() == (old(hw.RanBare()) || (old(Bounces(l)) && coreState == Off))
      ensures SameRegs(hw.board, old(hw.board))
      ensures old(hw.HsInStep()) ==> hw.HsInStep()
      ensures NoFaultSince(old(hw.onFaults), old(hw.offFaults))
              && old(Standing(coreState == On, B2I(linkState == On) - drains))
              && old(hw.Laddered()) ==>
        hw.Laddered()
      ensures old(Standing(coreState == On, B2I(linkState == On) - drains)) ==> hw.ratedLive == old(hw.ratedLive)
    {
      hide Stand, AfterRefusedBounce, hw.AfterRefusedPair, hw.AfterRefusedPairOff;
      ghost var k := B2I(linkState == On) - drains;
      ghost var regs := B2I(coreState != Off);
      lcOn := false;
      if l == On {
        rc := LinkPairOn(coreState == On, k, regs);
      } else {
        rc, lcOn := LinksDown(l, coreFollows, k, regs);
      }
      if rc != 0 {
        return;
      }
      if l != On && linkState != On {
        drains := drains + 1;
      }
      linkState := l;
    }

    /** The link part for OFF and EARLY_GATE. */
    method LinksDown(l: ClkState, coreFollows: bool, ghost k: int, ghost regs: int) returns (rc: int, lcOn: bool)
      requires hw.Valid() && l != On
      modifies hw
      ensures hw.Valid() && hw.onFaults >= old(hw.onFaults) && hw.offFaults >= old(hw.offFaults)
      ensures rc != 0 && !old(Bounces(l)) ==> hw.board == hw.AfterRefusedPairOff(old(hw.board), old(hw.offCalls))
      ensures rc != 0 && old(Bounces(l)) && hw.onFaults != old(hw.onFaults) && hw.offFaults == old(hw.offFaults) ==>
        RestoredButBus(hw.cfg, old(hw.board), hw.board)
      ensures rc != 0 && old(Bounces(l)) && hw.onFaults == old(hw.onFaults) ==>
        hw.board == AfterRefusedBounce(old(hw.board), old(hw.offCalls), hw.offCalls)
      ensures NoFaultSince(old(hw.onFaults), old(hw.offFaults)) ==> rc == 0
      ensures lcOn ==> coreFollows && coreState == EarlyGate
      ensures NoFaultSince(old(hw.onFaults), old(hw.offFaults))
              && old(Stand(hw.cfg, hw.board, coreState == On, k, k, regs)) ==>
        Stand(hw.cfg, hw.board, coreState == On || lcOn, k - 1, k - 1, regs)
      ensures NoFaultSince(old(hw.onFaults), old(hw.offFaults)) && coreState == On && k == 1
              && old(Stand(hw.cfg, hw.board, true, 1, 1, regs) && hw.Ordered()) ==>
        hw.Ordered()
      ensures NoFaultSince(old(hw.onFaults), old(hw.offFaults)) && (regs == 0 || regs == 1)
              && (coreState == On ==> regs == 1) && old(Stand(hw.cfg, hw.board, coreState == On, k, k, regs)) ==>
        hw.RanBare() == (old(hw.RanBare()) || (old(Bounces(l)) && regs == 0))
      ensures SameRegs(hw.board, old(hw.board))
      ensures old(hw.HsInStep()) ==> hw.HsInStep()
      ensures NoFaultSince(old(hw.onFaults), old(hw.offFaults))
              && old(Stand(hw.cfg, hw.board, coreState == On, k, k, regs))
              && old(hw.Laddered()) ==>
        hw.Laddered()
      ensures hw.ratedLive == old(hw.ratedLive)
    {
      hide Stand, LinksMoved, Safe, hw.AfterRefusedPairOff, hw.AfterRefusedDisable;
      lcOn := false;
      ghost var b0, t := hw.board, hw.offCalls;
      if l == Off && linkState == EarlyGate && coreState != On {
        rc := BounceCores(k, regs);
        if rc != 0 {
          return;
        }
        lcOn := true;
      }
      rc := LinkPairOff(coreState == On || lcOn, k, regs);
      if rc != 0 {
        lcOn := false;
        return;
      }
      if lcOn && !(coreFollows && coreState == EarlyGate) {
        rc := CoresOff(k - 1, regs);
        lcOn := false;
      }
    }

    /** Core clocks up for the sake of a link that goes from EARLY_GATE to OFF. The link clocks would follow,
        but the mask they are enabled with is empty. */
    method BounceCores(ghost k: int, ghost regs: int) returns (rc: int)
      requires hw.Valid()
      modifies hw
      ensures hw.Valid() && hw.onFaults >= old(hw.onFaults) && hw.offFaults >= old(hw.offFaults)
      ensures hw.onFaults == old(hw.onFaults) <==> rc == 0
      ensures rc == 0 ==>
        hw.board == CoresRaised(hw.cfg, old(hw.board)) && hw.offCalls == old(hw.offCalls)
          && hw.offFaults == old(hw.offFaults)
      ensures rc != 0 && hw.offFaults == old(hw.offFaults) ==> RestoredButBus(hw.cfg, old(hw.board), hw.board)
      ensures rc == 0 && old(Stand(hw.cfg, hw.board, false, k, k, regs)) ==> Stand(hw.cfg, hw.board, true, k, k, regs)
      ensures rc == 0 && old(Stand(hw.cfg, hw.board, false, k, k, regs)) && regs >= 0 ==>
        hw.RanBare() == (old(hw.RanBare()) || regs == 0)
      ensures SameRegs(hw.board, old(hw.board))
      ensures old(hw.HsInStep()) ==> hw.HsInStep()
      ensures hw.offFaults == old(hw.offFaults) && old(hw.Laddered()) ==> hw.Laddered()
      ensures hw.ratedLive == old(hw.ratedLive)
    {
      rc := CoresOn(k, regs);
      if rc != 0 {
        return;
      }
      ghost var b1 := hw.board;
      rc := hw.LinkEnable(LP_AND_HS);
      assert LinksMoved(hw.cfg, b1, LP_AND_HS, 1).link == b1.link;
    }

    /** The board once core clocks that are gated early have come up again for going OFF. */
    function Bounced(c: ClkState, lcOn: bool): (r: Board)
      requires Shape(hw.cfg, hw.board)
      reads `coreState, hw`board
      ensures Shape(hw.cfg, r)
    {
      if c == Off && coreState == EarlyGate && !lcOn then CoresRaised(hw.cfg, hw.board) else hw.board
    }

    /** The core part of dsi_update_clk_state() for OFF and EARLY_GATE. */
    method UpdateCoreOff(c: ClkState, lcOn: bool, ghost k: int) returns (rc: int)
      requires hw.Valid() && c != On && c != coreState && (lcOn ==> c == Off && coreState == EarlyGate)
      modifies `coreState, hw
      ensures hw.Valid() && hw.onFaults >= old(hw.onFaults) && hw.offFaults >= old(hw.offFaults)
      ensures rc == 0 ==> coreState == c
      ensures coreState == c || coreState == old(coreState)
      ensures NoFaultSince(old(hw.onFaults), old(hw.offFaults)) && (c == Off ==> old(hw.board).ctrlVreg > 0) ==> rc == 0
      ensures coreState != c && hw.onFaults != old(hw.onFaults) && hw.offFaults == old(hw.offFaults) ==>
        RestoredButBus(hw.cfg, old(hw.board), hw.board)
      ensures coreState != c && hw.onFaults == old(hw.onFaults) ==>
        hw.board == hw.AfterRefusedDisable(old(Bounced(c, lcOn)), old(hw.offCalls) + 1, hw.offCalls)
      ensures coreState == c ==>
        hw.board ==
        CoresLowered(hw.cfg, old(Bounced(c, lcOn))).(ctrlVreg := hw.board.ctrlVreg, phyVreg := hw.board.phyVreg)
      ensures coreState == EarlyGate && c == EarlyGate ==> hw.board == CoresLowered(hw.cfg, old(Bounced(c, lcOn)))
      ensures NoFaultSince(old(hw.onFaults), old(hw.offFaults))
              && old(coreState != Off && Standing(coreState == On || lcOn, k))
        ==> Standing(false, k)
      ensures NoFaultSince(old(hw.onFaults), old(hw.offFaults)) && k <= 0
              && old(coreState != Off && Standing(coreState == On || lcOn, k) && hw.Ordered())
        ==> hw.Ordered()
      ensures NoFaultSince(old(hw.onFaults), old(hw.offFaults))
              && old(coreState != Off && Standing(coreState == On || lcOn, k))
        ==> hw.RanBare() == old(hw.RanBare())
      ensures old(hw.HsInStep()) ==> hw.HsInStep()
      ensures NoFaultSince(old(hw.onFaults), old(hw.offFaults))
              && old(coreState != Off && Standing(coreState == On || lcOn, k))
              && old(hw.Laddered()) ==>
        hw.Laddered()
      ensures hw.ratedLive == old(hw.ratedLive)
    {
      hide Stand, RestoredButBus, CoresRaised, CoresLowered, Safe, hw.AfterRefusedDisable;
      rc := 0;
      ghost var regs := B2I(coreState != Off);
      ghost var standing := coreState != Off && Standing(coreState == On || lcOn, k);
      if c == Off && coreState == EarlyGate && !lcOn {
        rc := CoresOn(k, regs);
        if rc != 0 {
          return;
        }
      }
      assert NoFaultSince(old(hw.onFaults), old(hw.offFaults)) && standing ==>
        Stand(hw.cfg, hw.board, true, k, k, regs);
      rc := hw.OffCall();
      rc := CoresOff(k, regs);
      if rc != 0 {
        return;
      }
      if c == Off {
        rc := RegulatorsOff(k);
      }
      coreState := c;
    }

    /** PostCoreClkOff() as a move between standings. */
    method RegulatorsOff(ghost k: int) returns (rc: int)
      requires hw.Valid()
      modifies hw
      ensures hw.Valid() && hw.onFaults == old(hw.onFaults) && hw.offFaults >= old(hw.offFaults)
      ensures hw.offFaults == old(hw.offFaults) ==> (rc == 0 <==> old(hw.board).ctrlVreg > 0)
      ensures hw.board == old(hw.board).(ctrlVreg := hw.board.ctrlVreg, phyVreg := hw.board.phyVreg)
      ensures hw.offFaults == old(hw.offFaults) && old(Stand(hw.cfg, hw.board, false, k, k, 1)) ==>
        Stand(hw.cfg, hw.board, false, k, k, 0)
      ensures old(Stand(hw.cfg, hw.board, false, k, k, 1) && hw.Ordered()) && k <= 0 ==> hw.Ordered()
      ensures hw.offFaults == old(hw.offFaults) && old(Stand(hw.cfg, hw.board, false, k, k, 1)) ==>
        hw.RanBare() == old(hw.RanBare())
      ensures old(hw.HsInStep()) ==> hw.HsInStep()
      ensures old(hw.Laddered()) ==> hw.Laddered()
      ensures hw.ratedLive == old(hw.ratedLive)
    {
      if Stand(hw.cfg, hw.board, false, k, k, 1) && k <= 0 {
        StandQuiet(hw.cfg, hw.board, k, k, 1);
      }
      rc := hw.PostCoreClkOff();
    }

    /** The link is gated early and the core clocks are OFF. */
    predicate GatedLinkOnly()
      reads `coreState, `linkState
    {
      coreState == Off && linkState == EarlyGate
    }

    predicate BothOff()
      reads `coreState, `linkState
    {
      coreState == Off && linkState == Off
    }

    /** dsi_update_clk_state(): core before link on the way up, link before core on the way down. */
    method Update(cChange: bool, c: ClkState, lChange: bool, l: ClkState) returns (rc: int)
      requires hw.Valid() && (cChange <==> c != coreState) && (lChange <==> l != linkState)
      modifies `coreState, `linkState, `drains, hw
      ensures hw.Valid() && hw.onFaults >= old(hw.onFaults) && hw.offFaults >= old(hw.offFaults)
      ensures rc == 0 ==> coreState == c && linkState == l
      ensures NoFaultSince(old(hw.onFaults), old(hw.offFaults)) && old(Matched()) ==> rc == 0
      ensures NoFaultSince(old(hw.onFaults), old(hw.offFaults)) && old(Matched()) ==>
        drains == old(drains) + B2I(lChange && l != On && old(linkState) != On)
      ensures NoFaultSince(old(hw.onFaults), old(hw.offFaults))
              && old(Balanced() && !(coreState == Off && c == EarlyGate))
        ==> Balanced()
      ensures NoFaultSince(old(hw.onFaults), old(hw.offFaults))
              && old(Balanced() && hw.Ordered() && drains == 0 && linkState != EarlyGate && l != EarlyGate
                     && !(coreState == Off && c == EarlyGate)
                     && (linkState == On ==> coreState == On) && (l == On ==> c == On))
        ==> hw.Ordered()
      ensures NoFaultSince(old(hw.onFaults), old(hw.offFaults))
              && old(Balanced() && !(coreState == Off && c == EarlyGate))
        ==> hw.RanBare() == (old(hw.RanBare()) || (old(GatedLinkOnly()) && c == Off && l == Off))
      ensures old(coreState) == Off && c == On && coreState == Off ==> (Stuck() <==> old(CtrlComesUp()))
      ensures old(Stuck()) && c != EarlyGate ==> Stuck()
      ensures old(Stuck()) && c == On ==> rc == -EINVAL && hw.board == old(hw.board) && linkState == old(linkState)
      ensures old(RegulatorRefused()) && c == On ==> coreState == Off
      ensures old(hw.HsInStep()) ==> hw.HsInStep()
      ensures NoFaultSince(old(hw.onFaults), old(hw.offFaults))
              && old(Balanced() && !(coreState == Off && c == EarlyGate))
              && old(hw.Laddered()) ==>
        hw.Laddered()
      ensures NoFaultSince(old(hw.onFaults), old(hw.offFaults))
              && old(Balanced() && !(coreState == Off && c == EarlyGate)) ==>
        hw.ratedLive == old(hw.ratedLive)
    {
      hide hw.Laddered, hw.HsInStep, hw.RanBare;
      hide Stand, Safe, LinksReady, CoresQuiet;
      BalancedMatched();
      rc := 0;
      ghost var k0 := B2I(linkState == On) - drains;
      if cChange && c == On {
        var stopped;
        rc, stopped := UpdateCoreOn(k0);
        if stopped {
          return;
        }
      }
      var lcOn := false;
      if lChange {
        rc, lcOn := UpdateLinks(l, cChange && c == Off);
        if rc != 0 {
          return;
        }
      }
      if cChange && c != On {
        rc := UpdateCoreOff(c, lcOn, B2I(linkState == On) - drains);
      }
    }

    // ---- aggregation ----

    /** The early-leaving scan of dsi_recheck_clk_state() over the core votes. */
    method ScanCoreVotes() returns (s: ClkState)
      ensures IsMax(s, CoreVotes())
    {
      s := Off;
      for i := 0 to |clients|
        invariant IsMax(s, CoreVotes()[..i]) && s != On
      {
        assert CoreVotes()[..i + 1] == CoreVotes()[..i] + [clients[i].CoreVote()];
        if clients[i].coreState == On {
          s := On;
          assert CoreVotes()[i].state == On;
          break;
        } else if clients[i].coreState == EarlyGate {
          s := EarlyGate;
          assert CoreVotes()[..i + 1][i].state == EarlyGate;
        }
      }
      assert s != On ==> CoreVotes()[..|clients|] == CoreVotes();
    }

    /** The same scan over the link votes. */
    method ScanLinkVotes() returns (s: ClkState)
      ensures IsMax(s, LinkVotes())
    {
      s := Off;
      for i := 0 to |clients|
        invariant IsMax(s, LinkVotes()[..i]) && s != On
      {
        assert LinkVotes()[..i + 1] == LinkVotes()[..i] + [clients[i].LinkVote()];
        if clients[i].linkState == On {
          s := On;
          assert LinkVotes()[i].state == On;
          break;
        } else if clients[i].linkState == EarlyGate {
          s := EarlyGate;
          assert LinkVotes()[..i + 1][i].state == EarlyGate;
        }
      }
      assert s != On ==> LinkVotes()[..|clients|] == LinkVotes();
    }

    /** Whatever happened before, a recheck that reports success leaves both manager states at the
        most demanding vote. Without faults it always succeeds, and takes a balanced manager to a
        balanced manager. */
    method Recheck() returns (rc: int)
      requires Valid()
      modifies `coreState, `linkState, `drains, hw
      ensures Valid() && hw.onFaults >= old(hw.onFaults) && hw.offFaults >= old(hw.offFaults)
      ensures CoreVotes() == old(CoreVotes()) && LinkVotes() == old(LinkVotes())
      ensures rc == 0 ==> Aggregated()
      ensures NoFaultSince(old(hw.onFaults), old(hw.offFaults)) && old(Matched()) ==> rc == 0
      ensures NoFaultSince(old(hw.onFaults), old(hw.offFaults)) && old(Balanced() && StepOk(coreState, CoreVotes())) ==>
        Balanced()
      ensures NoFaultSince(old(hw.onFaults), old(hw.offFaults)) && old(Matched() && StepOk(linkState, LinkVotes())) ==>
        drains == old(drains) + B2I(old(linkState) == EarlyGate && linkState == Off)
      ensures NoFaultSince(old(hw.onFaults), old(hw.offFaults))
              && old(Balanced() && StepOk(coreState, CoreVotes()) && hw.Ordered() && LinkPlain())
              && old(LinkNeedsCore(CoreVotes(), LinkVotes()) && (linkState == On ==> coreState == On))
        ==> hw.Ordered()
      ensures NoFaultSince(old(hw.onFaults), old(hw.offFaults)) && old(Balanced() && StepOk(coreState, CoreVotes())) ==>
        hw.RanBare() == (old(hw.RanBare()) || (old(GatedLinkOnly()) && BothOff()))
      ensures old(coreState) == Off && AnyOn(CoreVotes()) && coreState == Off ==> (Stuck() <==> old(CtrlComesUp()))
      ensures old(Stuck()) && NoneEarlyGated(CoreVotes()) ==> Stuck()
      ensures old(Stuck()) && AnyOn(CoreVotes()) ==> rc == -EINVAL && hw.board == old(hw.board)
      ensures old(RegulatorRefused()) && AnyOn(CoreVotes()) ==> coreState == Off
      ensures old(hw.HsInStep()) ==> hw.HsInStep()
      ensures NoFaultSince(old(hw.onFaults), old(hw.offFaults)) && old(Balanced() && StepOk(coreState, CoreVotes()))
              && old(hw.Laddered()) ==>
        hw.Laddered()
      ensures NoFaultSince(old(hw.onFaults), old(hw.offFaults))
              && old(Balanced() && StepOk(coreState, CoreVotes())) ==>
        hw.ratedLive == old(hw.ratedLive)
    {
      hide hw.Laddered, hw.HsInStep, hw.RanBare;
      hide Stand, IsMax, StepOk, NoneEarlyGated, LinkNeedsCore, AllSafe, AnyOn, CtrlComesUp, hw.RegulatorRefused;
      hide Balanced, Matched, hw.Ordered;
      BalancedMatched();
      ghost var cv, lv := CoreVotes(), LinkVotes();
      var newCore := ScanCoreVotes();
      var newLink := ScanLinkVotes();
      StepOkAt(coreState, cv, newCore);
      StepOkAt(linkState, lv, newLink);
      MaxIsVoted(newLink, lv);
      MaxLinkNeedsCore(newCore, newLink, cv, lv);
      MaxOn(newCore, cv);
      rc := 0;
      if newCore != coreState || newLink != linkState {
        rc := Update(newCore != coreState, newCore, newLink != linkState, newLink);
      }
      assert CoreVotes() == cv && LinkVotes() == lv;
    }

    // ---- the client interface ----

    /** What one request does to the refcount and state of one kind of clock, in place. */
    method CountCore(c: ClkClient, st: ClkState) returns (changed: bool)
      modifies c`coreRefcount, c`coreState
      ensures c.CoreVote() == AfterRequest(old(c.CoreVote()), st)
      ensures c.coreState != old(c.coreState) ==> changed
      ensures old(Held(c.CoreVote())) && c.coreState == old(c.coreState) ==> !changed
    {
      changed := false;
      if st == On {
        c.coreRefcount := if c.coreRefcount == U32_MAX then 0 else c.coreRefcount + 1;
        if c.coreState != On {
          c.coreState := On;
          changed := true;
        }
      } else if c.coreRefcount == 0 {
        if c.coreState == EarlyGate && st == Off {
          changed := true;
          c.coreState := Off;
        }
      } else {
        c.coreRefcount := c.coreRefcount - 1;
        if c.coreRefcount == 0 {
          c.coreState := st;
          changed := true;
        }
      }
    }

    method CountLink(c: ClkClient, st: ClkState) returns (changed: bool)
      modifies c`linkRefcount, c`linkState
      ensures c.LinkVote() == AfterRequest(old(c.LinkVote()), st)
      ensures c.linkState != old(c.linkState) ==> changed
      ensures old(Held(c.LinkVote())) && c.linkState == old(c.linkState) ==> !changed
    {
      changed := false;
      if st == On {
        c.linkRefcount := if c.linkRefcount == U32_MAX then 0 else c.linkRefcount + 1;
        if c.linkState != On {
          c.linkState := On;
          changed := true;
        }
      } else if c.linkRefcount == 0 {
        if c.linkState == EarlyGate && st == Off {
          changed := true;
          c.linkState := Off;
        }
      } else {
        c.linkRefcount := c.linkRefcount - 1;
        if c.linkRefcount == 0 {
          c.linkState := st;
          changed := true;
        }
      }
    }

    /** The vote bookkeeping of dsi_clk_req_state(). */
    method CountVotes(c: ClkClient, clk: ClkMask, st: ClkState, ghost k: nat) returns (changed: bool)
      requires k < |clients| && clients[k] == c
      requires forall i, j | 0 <= i < j < |clients| :: clients[i] != clients[j]
      modifies c
      ensures Voted(k, old(CoreVotes()), old(LinkVotes()), clk, st)
      ensures c.CoreVote() == if clk.core then AfterRequest(old(c.CoreVote()), st) else old(c.CoreVote())
      ensures c.LinkVote() == if clk.link then AfterRequest(old(c.LinkVote()), st) else old(c.LinkVote())
      ensures CoreVotes()[k] == c.CoreVote() && LinkVotes()[k] == c.LinkVote()
      ensures old(CoreVotes()[k] == c.CoreVote() && LinkVotes()[k] == c.LinkVote())
      ensures CoreVotes() == if clk.core then old(CoreVotes())[k := AfterRequest(old(CoreVotes())[k], st)]
          else old(CoreVotes())
      ensures LinkVotes() == if clk.link then old(LinkVotes())[k := AfterRequest(old(LinkVotes())[k], st)]
          else old(LinkVotes())
      ensures c.coreState != old(c.coreState) || c.linkState != old(c.linkState) ==> changed
      ensures old(Held(c.CoreVote()) && Held(c.LinkVote())) && c.coreState == old(c.coreState)
              && c.linkState == old(c.linkState) ==>
        !changed
    {
      hide AfterRequest;
      changed := false;
      if clk.core {
        changed := CountCore(c, st);
      }
      if clk.link {
        var ch := CountLink(c, st);
        changed := changed || ch;
      }
    }

    /** No vote a request can cast asks the manager to step from OFF to EARLY_GATE. */
    lemma RequestedVotes(k: nat, before: seq<Vote>, after: seq<Vote>, st: ClkState, mgr: ClkState, moved: bool)
      requires k < |before|
      requires after == if moved then before[k := AfterRequest(before[k], st)] else before
      ensures IsMax(mgr, before) && AllHeld(before) ==> AllHeld(after) && StepOk(mgr, after)
      ensures IsMax(mgr, before) && after[k].state == before[k].state ==> IsMax(mgr, after)
      ensures NoneEarlyGated(before) && !(moved && st == EarlyGate) ==> NoneEarlyGated(after)
    {
      RequestKeepsHeld(before[k], st);
      if IsMax(mgr, before) {
        if moved && AllHeld(before) {
          OffToEarlyGateUnreachable(before, k, st, mgr);
        }
        if moved && after[k].state == before[k].state && mgr != Off {
          var i :| 0 <= i < |before| && before[i].state == mgr;
          assert after[i].state == mgr;
        }
        if !moved {
          UnmovedStepOk(before, mgr);
        }
      }
    }

    lemma OnIsOn(v: Vote)
      ensures AfterRequest(v, On).state == On
    {
    }

    lemma RequestKeepsLinkNeedsCore(k: nat, cv: seq<Vote>, lv: seq<Vote>, cv1: seq<Vote>, lv1: seq<Vote>)
      requires k < |cv| == |lv| && |cv1| == |cv| && |lv1| == |lv|
      requires cv1 == cv[k := cv1[k]] && lv1 == lv[k := lv1[k]]
      ensures LinkNeedsCore(cv, lv) && (lv1[k].state == On ==> cv1[k].state == On) ==> LinkNeedsCore(cv1, lv1)
    {
    }

    /** dsi_clk_req_state(). The votes move whether or not the hardware follows. A request that leaves the client's
        states as they are reports success and moves no hardware, even if an earlier one failed. */
    method ReqState(c: ClkClient, clk: ClkMask, st: ClkState) returns (rc: int)
      requires Valid() && c in clients
      modifies `coreState, `linkState, `drains, hw, c
      ensures Valid()
      ensures hw.onFaults >= old(hw.onFaults) && hw.offFaults >= old(hw.offFaults)
      ensures !clk.core && !clk.link ==> rc == -EINVAL && hw.board == old(hw.board)
      ensures !clk.core && !clk.link ==> coreState == old(coreState) && linkState == old(linkState)
      ensures c.CoreVote() == if clk.core then AfterRequest(old(c.CoreVote()), st) else old(c.CoreVote())
      ensures c.LinkVote() == if clk.link then AfterRequest(old(c.LinkVote()), st) else old(c.LinkVote())
      ensures rc == 0 && (c.coreState != old(c.coreState) || c.linkState != old(c.linkState)) ==> Aggregated()
      ensures (clk.core || clk.link) && old(Held(c.CoreVote()) && Held(c.LinkVote()))
              && c.coreState == old(c.coreState) && c.linkState == old(c.linkState) ==>
        rc == 0 && hw.board == old(hw.board) && coreState == old(coreState) && linkState == old(linkState)
      ensures NoFaultSince(old(hw.onFaults), old(hw.offFaults)) && old(Clean()) && (clk.core || clk.link) ==>
        rc == 0 && Clean() && drains == old(drains) + B2I(old(linkState) == EarlyGate && linkState == Off)
      ensures NoFaultSince(old(hw.onFaults), old(hw.offFaults)) && old(CleanAndOrdered())
              && !(clk.link && st == EarlyGate) && (c.linkState == On ==> c.coreState == On)
        ==> CleanAndOrdered()
      ensures NoFaultSince(old(hw.onFaults), old(hw.offFaults)) && old(Clean()) ==>
        hw.RanBare() == (old(hw.RanBare()) || (old(GatedLinkOnly()) && BothOff()))
      ensures clk.core && st == On && old(c.coreState) != On && old(coreState) == Off && coreState == Off ==>
        (Stuck() <==> old(CtrlComesUp()))
      ensures clk.core && st == On && old(c.coreState) != On && old(Stuck()) ==>
        rc == -EINVAL && hw.board == old(hw.board)
      ensures old(StuckPlain()) && !(clk.core && st == EarlyGate) ==> StuckPlain()
      ensures clk.core && st == On && old(c.coreState) != On && old(RegulatorRefused()) ==> coreState == Off
      ensures old(hw.HsInStep()) ==> hw.HsInStep()
      ensures NoFaultSince(old(hw.onFaults), old(hw.offFaults)) && old(Clean())
              && old(hw.Laddered()) ==>
        hw.Laddered()
      ensures NoFaultSince(old(hw.onFaults), old(hw.offFaults)) && old(Clean()) ==> hw.ratedLive == old(hw.ratedLive)
    {
      hide hw.Laddered, hw.HsInStep, hw.RanBare;
      hide Level, AllSafe, AllHeld, Held, IsMax, AfterRequest, NoneEarlyGated, LinkNeedsCore, StuckPlain, LinkPlain;
      hide Clean, CleanAndOrdered, CleanBefore, OrderedBefore, Aggregated, CtrlComesUp, RegulatorRefused, AnyOn, Voted;
      if !clk.core && !clk.link {
        return -EINVAL;
      }
      ghost var k :| 0 <= k < |clients| && clients[k] == c;
      ghost var cv, lv := CoreVotes(), LinkVotes();
      CleanSays();
      var changed := CountVotes(c, clk, st, k);
      VotesFollow(k, cv, lv, clk, st);
      rc := 0;
      if changed {
        rc := Follow(k, cv, lv, clk, st);
      }
      CleanSays();
    }

    /** The manager was clean with these votes. */
    ghost predicate CleanBefore(cv: seq<Vote>, lv: seq<Vote>)
      reads this, hw
    {
      Balanced() && IsMax(coreState, cv) && IsMax(linkState, lv) && AllHeld(cv) && AllHeld(lv)
    }

    ghost predicate OrderedBefore(cv: seq<Vote>, lv: seq<Vote>)
      reads this, hw
    {
      && CleanBefore(cv, lv) && hw.Ordered() && drains == 0 && linkState != EarlyGate && NoneEarlyGated(lv)
      && LinkNeedsCore(cv, lv)
    }

    lemma CleanSays()
      ensures Clean() <==> CleanBefore(CoreVotes(), LinkVotes())
      ensures CleanAndOrdered() <==> OrderedBefore(CoreVotes(), LinkVotes())
      ensures StuckPlain() <==> Stuck() && NoneEarlyGated(CoreVotes())
    {
    }

    /** What a request makes of the votes, before the hardware follows. */
    predicate Voted(k: nat, cv: seq<Vote>, lv: seq<Vote>, clk: ClkMask, st: ClkState)
      reads `clients, clients
    {
      && k < |clients| == |cv| == |lv|
      && CoreVotes() == (if clk.core then cv[k := AfterRequest(cv[k], st)] else cv)
      && LinkVotes() == (if clk.link then lv[k := AfterRequest(lv[k], st)] else lv)
    }

    lemma VotesFollow(k: nat, cv: seq<Vote>, lv: seq<Vote>, clk: ClkMask, st: ClkState)
      requires Voted(k, cv, lv, clk, st)
      ensures clk.core && st == On ==> CoreVotes()[k].state == On && AnyOn(CoreVotes())
      ensures NoneEarlyGated(cv) && !(clk.core && st == EarlyGate) ==> NoneEarlyGated(CoreVotes())
      ensures CoreVotes()[k].state == cv[k].state && LinkVotes()[k].state == lv[k].state ==>
        && (CleanBefore(cv, lv) ==> CleanBefore(CoreVotes(), LinkVotes()))
        && (OrderedBefore(cv, lv) && !(clk.link && st == EarlyGate)
            && (LinkVotes()[k].state == On ==> CoreVotes()[k].state == On) ==>
              OrderedBefore(CoreVotes(), LinkVotes()))
    {
      hide IsMax, AllHeld, AfterRequest, NoneEarlyGated, LinkNeedsCore, Balanced, hw.Ordered;
      ghost var cv1, lv1 := CoreVotes(), LinkVotes();
      assert cv1 == cv[k := cv1[k]] && lv1 == lv[k := lv1[k]];
      RequestedVotes(k, cv, cv1, st, coreState, clk.core);
      RequestedVotes(k, lv, lv1, st, linkState, clk.link);
      RequestKeepsLinkNeedsCore(k, cv, lv, cv1, lv1);
      OnIsOn(cv[k]);
    }

    /** The hardware follows a request that changed a state. */
    method Follow(ghost k: nat, ghost cv: seq<Vote>, ghost lv: seq<Vote>, ghost clk: ClkMask, ghost st: ClkState)
      returns (rc: int)
      requires Valid() && Voted(k, cv, lv, clk, st)
      modifies `coreState, `linkState, `drains, hw
      ensures Valid() && hw.onFaults >= old(hw.onFaults) && hw.offFaults >= old(hw.offFaults)
      ensures CoreVotes() == old(CoreVotes()) && LinkVotes() == old(LinkVotes())
      ensures rc == 0 ==> Aggregated()
      ensures NoFaultSince(old(hw.onFaults), old(hw.offFaults)) && old(CleanBefore(cv, lv)) ==>
        rc == 0 && Clean() && drains == old(drains) + B2I(old(linkState) == EarlyGate && linkState == Off)
      ensures NoFaultSince(old(hw.onFaults), old(hw.offFaults)) && old(OrderedBefore(cv, lv))
              && !(clk.link && st == EarlyGate) && (LinkVotes()[k].state == On ==> CoreVotes()[k].state == On)
        ==> CleanAndOrdered()
      ensures NoFaultSince(old(hw.onFaults), old(hw.offFaults)) && old(CleanBefore(cv, lv)) ==>
        hw.RanBare() == (old(hw.RanBare()) || (old(GatedLinkOnly()) && BothOff()))
      ensures old(coreState) == Off && AnyOn(CoreVotes()) && coreState == Off ==> (Stuck() <==> old(CtrlComesUp()))
      ensures old(Stuck()) && NoneEarlyGated(CoreVotes()) ==> Stuck()
      ensures old(Stuck()) && AnyOn(CoreVotes()) ==> rc == -EINVAL && hw.board == old(hw.board)
      ensures old(RegulatorRefused()) && AnyOn(CoreVotes()) ==> coreState == Off
      ensures old(hw.HsInStep()) ==> hw.HsInStep()
      ensures NoFaultSince(old(hw.onFaults), old(hw.offFaults)) && old(CleanBefore(cv, lv))
              && old(hw.Laddered()) ==>
        hw.Laddered()
      ensures NoFaultSince(old(hw.onFaults), old(hw.offFaults)) && old(CleanBefore(cv, lv)) ==>
        hw.ratedLive == old(hw.ratedLive)
    {
      hide hw.Laddered, hw.HsInStep, hw.RanBare, CtrlComesUp, RegulatorRefused;
      hide Level, AllSafe, AllHeld, IsMax, AfterRequest, StepOk, NoneEarlyGated, LinkNeedsCore, AnyOn;
      BalancedMatched();
      ghost var cv1, lv1 := CoreVotes(), LinkVotes();
      MaxLinkNeedsCore(coreState, linkState, cv, lv);
      assert cv1 == cv[k := cv1[k]] && lv1 == lv[k := lv1[k]];
      RequestedVotes(k, cv, cv1, st, coreState, clk.core);
      RequestedVotes(k, lv, lv1, st, linkState, clk.link);
      RequestKeepsLinkNeedsCore(k, cv, lv, cv1, lv1);
      rc := Recheck();
      MaxIsVoted(linkState, lv1);
    }

    /** Link clocks that are not OFF may go down, and up again after that. */
    lemma LoadedLinksReady()
      requires CleanAndOrdered() && linkState != Off
      ensures LinksReady(hw.cfg, hw.board, BOTH, 1)
              && LinksReady(hw.cfg, LinksMoved(hw.cfg, hw.board, BOTH, -1), BOTH, 0)
    {
      hide Safe, LinksReady, IsMax, AllHeld, NoneEarlyGated, LinkNeedsCore, AllSafe;
      MaxLinkNeedsCore(coreState, linkState, CoreVotes(), LinkVotes());
      StandLoaded(hw.cfg, hw.board, 1, 1, 1);
      StandLinks(hw.cfg, hw.board, true, 1, 1, 1, BOTH, -1);
      StandLoaded(hw.cfg, LinksMoved(hw.cfg, hw.board, BOTH, -1), 0, 0, 1);
    }

    /** dsi_display_link_clk_force_update(): link clocks down and up again, or -EAGAIN when they are OFF. */
    method ForceUpdate() returns (rc: int)
      requires Valid()
      modifies hw
      ensures Valid()
      ensures hw.onFaults >= old(hw.onFaults) && hw.offFaults >= old(hw.offFaults)
      ensures linkState == Off ==> rc == -EAGAIN && hw.board == old(hw.board)
      ensures linkState != Off && old(hw.offRc(hw.offCalls + 1) != 0) ==>
        rc != 0 && hw.board == LinksMoved(hw.cfg, old(hw.board), BOTH, -1)
      ensures linkState != Off && rc != 0 && old(hw.offRc(hw.offCalls + 1) == 0) ==>
        hw.board == hw.AfterRefusedClks(LinksMoved(hw.cfg, old(hw.board), BOTH, -1), BOTH, old(hw.onCalls), hw.onCalls)
      ensures NoFaultSince(old(hw.onFaults), old(hw.offFaults)) ==> hw.board == old(hw.board)
      ensures NoFaultSince(old(hw.onFaults), old(hw.offFaults)) ==> (rc == -EAGAIN <==> linkState == Off)
      ensures NoFaultSince(old(hw.onFaults), old(hw.offFaults)) && linkState != Off ==> rc == 0
      ensures NoFaultSince(old(hw.onFaults), old(hw.offFaults)) && old(Clean()) ==> Clean()
      ensures NoFaultSince(old(hw.onFaults), old(hw.offFaults)) && old(CleanAndOrdered()) ==> CleanAndOrdered()
      ensures NoFaultSince(old(hw.onFaults), old(hw.offFaults)) && old(Clean()) ==> hw.RanBare() == old(hw.RanBare())
      ensures SameRegs(hw.board, old(hw.board))
      ensures old(StuckPlain()) ==> StuckPlain()
      ensures old(hw.HsInStep()) ==> hw.HsInStep()
      ensures old(hw.Laddered()) ==> hw.Laddered()
      ensures NoFaultSince(old(hw.onFaults), old(hw.offFaults)) && old(Clean()) ==> hw.ratedLive == old(hw.ratedLive)
    {
      hide hw.Laddered, hw.HsInStep, hw.RanBare, hw.AfterRefusedClks;
      hide LinksReady, LinksMoved, Aggregated, LinkPlain, AllHeld, LinkNeedsCore, Level, AllSafe;
      if linkState == Off {
        return -EAGAIN;
      }
      if CleanAndOrdered() {
        LoadedLinksReady();
      }
      if Clean() {
        CleanLoose();
      }
      rc := BounceLinks();
    }

    lemma CleanLoose()
      requires Clean()
      ensures HsLoose(hw.cfg, LinksMoved(hw.cfg, hw.board, BOTH, -1))
    {
      var k, regs := B2I(linkState == On) - drains, B2I(coreState != Off);
      StandLinks(hw.cfg, hw.board, coreState == On, k, k, regs, BOTH, -1);
      StandLoose(hw.cfg, LinksMoved(hw.cfg, hw.board, BOTH, -1), coreState == On, k - 1, k - 1, regs);
    }

    /** The link clocks down and up again. */
    method BounceLinks() returns (rc: int)
      requires hw.Valid()
      modifies hw
      ensures hw.Valid() && hw.onFaults >= old(hw.onFaults) && hw.offFaults >= old(hw.offFaults)
      ensures old(hw.offRc(hw.offCalls + 1) != 0) ==>
        rc != 0 && hw.board == LinksMoved(hw.cfg, old(hw.board), BOTH, -1)
      ensures rc != 0 && old(hw.offRc(hw.offCalls + 1) == 0) ==>
        hw.board == hw.AfterRefusedClks(LinksMoved(hw.cfg, old(hw.board), BOTH, -1), BOTH, old(hw.onCalls), hw.onCalls)
      ensures NoFaultSince(old(hw.onFaults), old(hw.offFaults)) ==> rc == 0 && hw.board == old(hw.board)
      ensures rc == 0 ==> hw.RanBare() == old(hw.RanBare())
      ensures rc == 0 && old(hw.Ordered() && LinksReady(hw.cfg, hw.board, BOTH, 1)
              && LinksReady(hw.cfg, LinksMoved(hw.cfg, hw.board, BOTH, -1), BOTH, 0)) ==>
        hw.Ordered()
      ensures SameRegs(hw.board, old(hw.board))
      ensures old(hw.HsInStep()) ==> hw.HsInStep()
      ensures old(hw.Laddered()) ==> hw.Laddered()
      ensures rc == 0 && HsLoose(hw.cfg, LinksMoved(hw.cfg, old(hw.board), BOTH, -1)) ==>
        hw.ratedLive == old(hw.ratedLive)
    {
      hide hw.Laddered, hw.HsInStep, hw.RanBare, hw.Ordered, LinksReady, LinksMoved, Supplied;
      LinksBounce(hw.cfg, hw.board, BOTH, -1);
      hw.SuppliedNow();
      rc := LinkClksOff(BOTH);
      if rc != 0 {
        return;
      }
      hw.SuppliedNow();
      rc := LinkClksOn(BOTH);
    }

    /** dsi_register_clk_handle(): a new client heads the list and changes nothing. */
    method RegisterClient() returns (c: ClkClient)
      requires Valid()
      modifies `clients
      ensures Valid() && fresh(c) && clients == [c] + old(clients)
      ensures c.CoreVote() == NoVote && c.LinkVote() == NoVote
      ensures old(Clean()) ==> Clean()
      ensures old(CleanAndOrdered()) ==> CleanAndOrdered()
      ensures old(StuckPlain()) ==> StuckPlain()
    {
      hide Level, AllSafe, IsMax, AllHeld, NoneEarlyGated, LinkNeedsCore;
      ghost var cv, lv := CoreVotes(), LinkVotes();
      c := new ClkClient();
      NewcomerVotes(coreState, cv);
      NewcomerVotes(linkState, lv);
      NewcomerLinkNeedsCore(cv, lv);
      clients := [c] + clients;
      assert CoreVotes() == [NoVote] + cv && LinkVotes() == [NoVote] + lv;
    }

    lemma NewcomerVotes(mgr: ClkState, votes: seq<Vote>)
      ensures IsMax(mgr, votes) ==> IsMax(mgr, [NoVote] + votes)
      ensures AllHeld(votes) ==> AllHeld([NoVote] + votes)
      ensures NoneEarlyGated(votes) ==> NoneEarlyGated([NoVote] + votes)
    {
      OffVotesDoNotCount(mgr, [NoVote] + votes, 0);
      assert Without([NoVote] + votes, 0) == votes;
    }

    lemma NewcomerLinkNeedsCore(cv: seq<Vote>, lv: seq<Vote>)
      ensures LinkNeedsCore(cv, lv) ==> LinkNeedsCore([NoVote] + cv, [NoVote] + lv)
    {
    }

    /** The first half of dsi_deregister_clk_handle(): the client's votes go OFF and the hardware follows. */
    method LeaveVotes(c: ClkClient, ghost k: nat) returns (rc: int)
      requires Valid() && k < |clients| && clients[k] == c
      modifies `coreState, `linkState, `drains, hw, c`coreState, c`linkState
      ensures Valid() && hw.onFaults >= old(hw.onFaults) && hw.offFaults >= old(hw.offFaults)
      ensures CoreVotes() == old(CoreVotes())[k := Vote(old(CoreVotes())[k].refs, Off)]
      ensures LinkVotes() == old(LinkVotes())[k := Vote(old(LinkVotes())[k].refs, Off)]
      ensures rc == 0 ==> Aggregated()
      ensures NoFaultSince(old(hw.onFaults), old(hw.offFaults)) && old(Clean()) ==>
        rc == 0 && Balanced() && drains == old(drains) + B2I(old(linkState) == EarlyGate && linkState == Off)
      ensures NoFaultSince(old(hw.onFaults), old(hw.offFaults)) && old(CleanAndOrdered())
        ==> hw.Ordered() && drains == 0 && linkState != EarlyGate
      ensures NoFaultSince(old(hw.onFaults), old(hw.offFaults)) && old(Clean()) ==>
        hw.RanBare() == (old(hw.RanBare()) || (old(GatedLinkOnly()) && BothOff()))
      ensures old(StuckPlain()) ==> StuckPlain()
      ensures old(hw.HsInStep()) ==> hw.HsInStep()
      ensures NoFaultSince(old(hw.onFaults), old(hw.offFaults)) && old(Clean())
              && old(hw.Laddered()) ==>
        hw.Laddered()
      ensures NoFaultSince(old(hw.onFaults), old(hw.offFaults)) && old(Clean()) ==> hw.ratedLive == old(hw.ratedLive)
    {
      hide hw.Laddered, hw.HsInStep, hw.RanBare;
      hide Level, AllSafe, IsMax, StepOk, NoneEarlyGated, LinkNeedsCore, AllHeld;
      BalancedMatched();
      ghost var cv, lv := CoreVotes(), LinkVotes();
      ghost var cv1, lv1 := cv[k := Vote(cv[k].refs, Off)], lv[k := Vote(lv[k].refs, Off)];
      MaxLinkNeedsCore(coreState, linkState, cv, lv);
      LeavingVotes(k, cv, coreState);
      LeavingVotes(k, lv, linkState);
      LeavingKeepsLinkNeedsCore(k, cv, lv);
      c.coreState := Off;
      c.linkState := Off;
      assert CoreVotes() == cv1 && LinkVotes() == lv1;
      rc := Recheck();
      MaxIsVoted(linkState, lv1);
    }

    /** dsi_deregister_clk_handle(): the client's votes go OFF, and it leaves the list once the hardware
        has followed. */
    method DeregisterClient(c: ClkClient) returns (rc: int)
      requires Valid() && c in clients
      modifies `coreState, `linkState, `drains, `clients, hw, c`coreState, c`linkState
      ensures Valid() && hw.onFaults >= old(hw.onFaults) && hw.offFaults >= old(hw.offFaults)
      ensures rc == 0 ==> Aggregated() && c !in clients
      ensures rc == 0 ==> exists k | 0 <= k < |old(clients)| ::
        old(clients)[k] == c && clients == Without(old(clients), k)
      ensures rc != 0 ==> clients == old(clients)
      ensures NoFaultSince(old(hw.onFaults), old(hw.offFaults)) && old(Clean()) ==>
        rc == 0 && Clean() && drains == old(drains) + B2I(old(linkState) == EarlyGate && linkState == Off)
      ensures NoFaultSince(old(hw.onFaults), old(hw.offFaults)) && old(CleanAndOrdered()) ==> CleanAndOrdered()
      ensures NoFaultSince(old(hw.onFaults), old(hw.offFaults)) && old(Clean()) ==>
        hw.RanBare() == (old(hw.RanBare()) || (old(GatedLinkOnly()) && BothOff()))
      ensures old(StuckPlain()) ==> StuckPlain()
      ensures old(hw.HsInStep()) ==> hw.HsInStep()
      ensures NoFaultSince(old(hw.onFaults), old(hw.offFaults)) && old(Clean())
              && old(hw.Laddered()) ==>
        hw.Laddered()
      ensures NoFaultSince(old(hw.onFaults), old(hw.offFaults)) && old(Clean()) ==> hw.ratedLive == old(hw.ratedLive)
    {
      hide hw.Laddered, hw.HsInStep, hw.RanBare;
      hide Level, AllSafe, IsMax, StepOk, NoneEarlyGated, LinkNeedsCore, AllHeld, Without;
      ghost var k :| 0 <= k < |clients| && clients[k] == c;
      ghost var cv, lv := CoreVotes(), LinkVotes();
      rc := LeaveVotes(c, k);
      if rc != 0 {
        return;
      }
      ghost var cv1, lv1 := CoreVotes(), LinkVotes();
      RemoveFirst(c, k);
      OffVotesDoNotCount(coreState, cv1, k);
      OffVotesDoNotCount(linkState, lv1, k);
      LeavingVotes(k, cv, coreState);
      LeavingVotes(k, lv, linkState);
      LeavingKeepsLinkNeedsCore(k, cv, lv);
    }

    /** What one client's votes going OFF, and then leaving the list, does to the aggregate. */
    lemma LeavingVotes(k: nat, votes: seq<Vote>, mgr: ClkState)
      requires k < |votes|
      ensures var off := votes[k := Vote(votes[k].refs, Off)];
        && (IsMax(mgr, votes) ==> StepOk(mgr, off))
        && (NoneEarlyGated(votes) ==> NoneEarlyGated(off) && NoneEarlyGated(Without(off, k)))
        && (AllHeld(votes) ==> AllHeld(Without(off, k)))
    {
      if IsMax(mgr, votes) {
        LeavingNeverEarlyGates(votes, k, mgr);
      }
    }

    lemma LeavingKeepsLinkNeedsCore(k: nat, cv: seq<Vote>, lv: seq<Vote>)
      requires |cv| == |lv| && k < |cv|
      ensures var coff, loff := cv[k := Vote(cv[k].refs, Off)], lv[k := Vote(lv[k].refs, Off)];
        LinkNeedsCore(cv, lv) ==> LinkNeedsCore(coff, loff) && LinkNeedsCore(Without(coff, k), Without(loff, k))
    {
    }

    /** The list walk that unlinks the client's node. */
    method RemoveFirst(c: ClkClient, ghost k: nat)
      requires k < |clients| && clients[k] == c
      requires forall i, j | 0 <= i < j < |clients| :: clients[i] != clients[j]
      modifies `clients
      ensures clients == Without(old(clients), k) && c !in clients
      ensures forall i, j | 0 <= i < j < |clients| :: clients[i] != clients[j]
      ensures CoreVotes() == Without(old(CoreVotes()), k) && LinkVotes() == Without(old(LinkVotes()), k)
    {
      for i := 0 to |clients|
        invariant clients == old(clients) && i <= k
      {
        if clients[i] == c {
          clients := clients[..i] + clients[i + 1..];
          return;
        }
      }
    }

    /** dsi_display_clk_mngr_deregister(): every client is dropped, then the hardware is rechecked. */
    method DeregisterAll() returns (rc: int)
      requires Valid()
      modifies `coreState, `linkState, `drains, `clients, hw
      ensures Valid() && clients == []
      ensures rc == 0 ==> coreState == Off && linkState == Off
      ensures NoFaultSince(old(hw.onFaults), old(hw.offFaults)) && old(Clean()) ==>
        && rc == 0 && Clean() && drains == old(drains) + B2I(old(linkState) == EarlyGate)
        && Stand(hw.cfg, hw.board, false, 0 - drains, 0 - drains, 0)
      ensures NoFaultSince(old(hw.onFaults), old(hw.offFaults)) && old(Clean()) ==>
        hw.RanBare() == (old(hw.RanBare()) || old(GatedLinkOnly()))
      ensures old(hw.HsInStep()) ==> hw.HsInStep()
      ensures NoFaultSince(old(hw.onFaults), old(hw.offFaults)) && old(Clean())
              && old(hw.Laddered()) ==>
        hw.Laddered()
      ensures NoFaultSince(old(hw.onFaults), old(hw.offFaults)) && old(Clean()) ==> hw.ratedLive == old(hw.ratedLive)
    {
      hide hw.Laddered, hw.HsInStep, hw.RanBare;
      BalancedMatched();
      while clients != []
        invariant Valid()
        decreases |clients|
        modifies `clients
      {
        clients := clients[1..];
      }
      rc := Recheck();
    }

    /** Every client's standing, in list order. */
    function Pairs(): seq<Pair>
      reads `clients, clients
    {
      PairsOf(clients)
    }

    /** The client and the clocks of a request may not exist. */
    method PerformRequest(op: Op)
      requires Valid() && op.Request?
      modifies `coreState, `linkState, `drains, hw, clients
      ensures Valid() && hw.onFaults >= old(hw.onFaults) && hw.offFaults >= old(hw.offFaults)
      ensures clients == old(clients)
      ensures Pairs() == AfterOp(old(Pairs()), op)
      ensures NoFaultSince(old(hw.onFaults), old(hw.offFaults)) && old(Clean()) ==> Clean()
      ensures NoFaultSince(old(hw.onFaults), old(hw.offFaults)) && old(Clean()) ==>
        drains == old(drains) + B2I(old(linkState) == EarlyGate && linkState == Off)
      ensures NoFaultSince(old(hw.onFaults), old(hw.offFaults)) && old(CleanAndOrdered() && PlainOp(Pairs(), op)) ==>
        CleanAndOrdered()
      ensures NoFaultSince(old(hw.onFaults), old(hw.offFaults)) && old(Clean()) ==>
        hw.RanBare() == (old(hw.RanBare()) || (old(GatedLinkOnly()) && BothOff()))
      ensures old(StuckPlain()) && !(op.clk.core && op.st == EarlyGate) ==> StuckPlain()
      ensures old(hw.HsInStep()) ==> hw.HsInStep()
      ensures NoFaultSince(old(hw.onFaults), old(hw.offFaults)) && old(Clean())
              && old(hw.Laddered()) ==>
        hw.Laddered()
      ensures NoFaultSince(old(hw.onFaults), old(hw.offFaults)) && old(Clean()) ==> hw.ratedLive == old(hw.ratedLive)
    {
      hide hw.Laddered, hw.HsInStep, hw.RanBare;
      hide Clean, CleanAndOrdered, Level, IsMax, AllHeld, AllSafe, NoneEarlyGated, LinkNeedsCore, AfterRequest;
      if op.client < |clients| && (op.clk.core || op.clk.link) {
        var rc := ReqState(clients[op.client], op.clk, op.st);
      }
      assert Pairs() == AfterOp(old(Pairs()), op);
    }

    /** One call of a run. Requests move the votes whether or not the hardware follows. */
    method Perform(op: Op)
      requires Valid()
      modifies this, hw, clients
      ensures Valid() && hw.onFaults >= old(hw.onFaults) && hw.offFaults >= old(hw.offFaults)
      ensures forall c | c in clients :: c in old(clients) || fresh(c)
      ensures !op.Deregister? ==> Pairs() == AfterOp(old(Pairs()), op)
      ensures NoFaultSince(old(hw.onFaults), old(hw.offFaults)) && old(Clean()) ==>
        Clean() && Pairs() == AfterOp(old(Pairs()), op)
      ensures NoFaultSince(old(hw.onFaults), old(hw.offFaults)) && old(Clean()) ==>
        drains == old(drains) + B2I(old(linkState) == EarlyGate && linkState == Off)
      ensures NoFaultSince(old(hw.onFaults), old(hw.offFaults)) && old(CleanAndOrdered() && PlainOp(Pairs(), op)) ==>
        CleanAndOrdered()
      ensures NoFaultSince(old(hw.onFaults), old(hw.offFaults)) && old(Clean()) ==>
        hw.RanBare() == (old(hw.RanBare()) || (old(GatedLinkOnly()) && BothOff()))
      ensures old(StuckPlain()) && !(op.Request? && op.clk.core && op.st == EarlyGate) ==> StuckPlain()
      ensures old(hw.HsInStep()) ==> hw.HsInStep()
      ensures NoFaultSince(old(hw.onFaults), old(hw.offFaults)) && old(Clean())
              && old(hw.Laddered()) ==>
        hw.Laddered()
      ensures NoFaultSince(old(hw.onFaults), old(hw.offFaults)) && old(Clean()) ==> hw.ratedLive == old(hw.ratedLive)
    {
      hide hw.Laddered, hw.HsInStep, hw.RanBare;
      hide Clean, CleanAndOrdered, Level, IsMax, AllHeld, AllSafe, NoneEarlyGated, LinkNeedsCore, AfterRequest;
      match op {
        case Register =>
          var c := RegisterClient();
          assert Pairs() == [Pair(NoVote, NoVote)] + old(Pairs());
        case Request(_, _, _) =>
          PerformRequest(op);
        case Deregister(k) =>
          if k < |clients| {
            var rc := DeregisterClient(clients[k]);
            assert rc == 0 ==> Pairs() == Without(old(Pairs()), k);
          }
        case Force =>
          var rc := ForceUpdate();
          assert Pairs() == old(Pairs());
      }
    }

    /** Once stuck, the core clocks stay OFF over any run of calls, faults or not, until one asks for EARLY_GATE:
        every request that would turn them on is refused. */
    method RunStuck(ops: seq<Op>)
      requires Valid() && StuckPlain()
      requires forall n | 0 <= n < |ops| && ops[n].Request? :: !(ops[n].clk.core && ops[n].st == EarlyGate)
      modifies this, hw, clients
      ensures Valid() && StuckPlain() && coreState == Off
      ensures old(hw.HsInStep()) ==> hw.HsInStep()
    {
      hide StuckPlain;
      for n := 0 to |ops|
        invariant Valid() && StuckPlain()
        invariant old(hw.HsInStep()) ==> hw.HsInStep()
        invariant forall i | 0 <= i < |clients| :: clients[i] in old(clients) || fresh(clients[i])
      {
        ghost var was := clients;
        Perform(ops[n]);
        forall i | 0 <= i < |clients|
          ensures clients[i] in old(clients) || fresh(clients[i])
        {
          assert clients[i] in clients;
          if clients[i] in was {
            var j :| 0 <= j < |was| && was[j] == clients[i];
          }
        }
      }
      StuckIsOff();
    }

    lemma StuckIsOff()
      requires StuckPlain()
      ensures coreState == Off
    {
    }

    /** Both manager states are those the votes call for. */
    lemma StatesAre()
      requires Aggregated()
      ensures coreState == MaxOf(CoresIn(Pairs())) && linkState == MaxOf(LinksIn(Pairs()))
    {
      assert CoresIn(Pairs()) == CoreVotes() && LinksIn(Pairs()) == LinkVotes();
      MaxOfIsMax(CoreVotes());
      MaxOfIsMax(LinkVotes());
      MaxIsUnique(coreState, MaxOf(CoreVotes()), CoreVotes());
      MaxIsUnique(linkState, MaxOf(LinkVotes()), LinkVotes());
    }

    /** A whole run of calls on a new manager, by clients that come and go, in any order and with any
        mix of states. Every client stands where the history alone puts it, unless a client failed to leave.
        Without faults the manager is clean after every call: its states are the most demanding votes, all
        counts are those the states call for, and the link counts lack one vote for each time the history
        took the link from EARLY_GATE to OFF. If link clocks are only asked ON and OFF, by clients that then
        hold the core clocks, every board on the way has been ordered. */
    method Run(ops: seq<Op>)
      requires Valid() && Clean() && clients == []
      modifies this, hw
      ensures Valid()
      ensures NoneLeave(ops) || NoFaultSince(old(hw.onFaults), old(hw.offFaults)) ==> Pairs() == Replay(ops)
      ensures NoFaultSince(old(hw.onFaults), old(hw.offFaults)) ==>
        Clean() && coreState == CoreLevel(ops) && linkState == LinkLevel(ops)
      ensures NoFaultSince(old(hw.onFaults), old(hw.offFaults)) ==> drains == old(drains) + Drains(ops)
      ensures NoFaultSince(old(hw.onFaults), old(hw.offFaults)) && old(drains) == 0 ==>
        (AllLinkAt(hw.cfg, hw.board, B2I(linkState == On), B2I(linkState == On)) <==>
            forall n | 0 <= n < |ops| :: !DrainsAt(ops, n))
      ensures NoFaultSince(old(hw.onFaults), old(hw.offFaults)) && !old(hw.RanBare()) ==>
        (hw.RanBare() <==> exists n | 0 <= n < |ops| :: BareAt(ops, n))
      ensures NoFaultSince(old(hw.onFaults), old(hw.offFaults)) && old(CleanAndOrdered()) && PlainRun(ops) ==>
        CleanAndOrdered()
      ensures old(hw.HsInStep()) ==> hw.HsInStep()
      ensures NoFaultSince(old(hw.onFaults), old(hw.offFaults)) && old(hw.Laddered()) ==> hw.Laddered()
      ensures NoFaultSince(old(hw.onFaults), old(hw.offFaults)) && !old(hw.ratedLive) ==> !hw.ratedLive
    {
      assert Pairs() == Replay([]);
      CleanStates([]);
      assert ops[..0] == [] && StandsAfter([], drains, hw.RanBare());
      ghost var ordered := CleanAndOrdered();
      hide CleanAndOrdered, Clean, PlainRun, NoneLeave, Replay, Pairs, StandsAfter;
      hide hw.RanBare, hw.Laddered, hw.HsInStep;
      for n := 0 to |ops|
        invariant Valid() && fresh(set c | c in clients)
        invariant hw.onFaults >= old(hw.onFaults) && hw.offFaults >= old(hw.offFaults)
        invariant NoneLeave(ops) ==> Pairs() == Replay(ops[..n])
        invariant NoFaultSince(old(hw.onFaults), old(hw.offFaults)) ==>
            StandsAfter(ops[..n], old(drains), old(hw.RanBare()))
        invariant NoFaultSince(old(hw.onFaults), old(hw.offFaults)) && ordered && PlainRun(ops) ==> CleanAndOrdered()
        invariant old(hw.HsInStep()) ==> hw.HsInStep()
        invariant NoFaultSince(old(hw.onFaults), old(hw.offFaults)) ==> hw.ratedLive == old(hw.ratedLive)
        invariant NoFaultSince(old(hw.onFaults), old(hw.offFaults)) && old(hw.Laddered()) ==> hw.Laddered()
      {
        PerformNext(ops, n, old(drains), old(hw.RanBare()));
      }
      assert ops[..|ops|] == ops;
      if NoFaultSince(old(hw.onFaults), old(hw.offFaults)) {
        StandsSays(ops, old(drains), old(hw.RanBare()));
      }
    }

    /** The manager stands where a fault-free history puts it, from a start with `drains0` votes lost. */
    ghost predicate StandsAfter(ops: seq<Op>, drains0: int, bare0: bool)
      reads this, hw, clients
    {
      && Clean() && Pairs() == Replay(ops) && coreState == CoreLevel(ops) && linkState == LinkLevel(ops)
      && drains == drains0 + Drains(ops) && hw.RanBare() == (bare0 || AnyBareAt(ops))
    }

    lemma StandsSays(ops: seq<Op>, drains0: int, bare0: bool)
      requires StandsAfter(ops, drains0, bare0)
      ensures Clean() && Pairs() == Replay(ops) && coreState == CoreLevel(ops) && linkState == LinkLevel(ops)
      ensures drains == drains0 + Drains(ops)
      ensures drains0 == 0 ==>
        (AllLinkAt(hw.cfg, hw.board, B2I(linkState == On), B2I(linkState == On)) <==>
            forall n | 0 <= n < |ops| :: !DrainsAt(ops, n))
      ensures hw.RanBare() <==> bare0 || exists n | 0 <= n < |ops| :: BareAt(ops, n)
    {
      hide DrainsAt, BareAt, IsMax, Replay, AnyBareAt, Pairs, CoreLevel, LinkLevel, AllLinkAt;
      NoDrainExactly(ops);
      BareExactly(ops);
      LinkBalancedIffNoDrain(hw.cfg, hw.board, coreState, linkState, drains);
    }

    /** Call n of a run. */
    method PerformNext(ops: seq<Op>, n: nat, ghost drains0: int, ghost bare0: bool)
      requires Valid() && n < |ops|
      modifies this, hw, clients
      ensures Valid() && hw.onFaults >= old(hw.onFaults) && hw.offFaults >= old(hw.offFaults)
      ensures forall c | c in clients :: c in old(clients) || fresh(c)
      ensures NoneLeave(ops) && old(Pairs()) == Replay(ops[..n]) ==> Pairs() == Replay(ops[..n + 1])
      ensures NoFaultSince(old(hw.onFaults), old(hw.offFaults)) && old(StandsAfter(ops[..n], drains0, bare0)) ==>
        StandsAfter(ops[..n + 1], drains0, bare0)
      ensures NoFaultSince(old(hw.onFaults), old(hw.offFaults)) && old(StandsAfter(ops[..n], drains0, bare0))
              && old(CleanAndOrdered()) && PlainRun(ops) ==>
        CleanAndOrdered()
      ensures old(hw.HsInStep()) ==> hw.HsInStep()
      ensures NoFaultSince(old(hw.onFaults), old(hw.offFaults)) && old(StandsAfter(ops[..n], drains0, bare0))
              && old(hw.Laddered()) ==>
        hw.Laddered()
      ensures NoFaultSince(old(hw.onFaults), old(hw.offFaults)) && old(StandsAfter(ops[..n], drains0, bare0)) ==>
        hw.ratedLive == old(hw.ratedLive)
    {
      hide hw.Laddered, hw.HsInStep, hw.RanBare;
      OneMoreCall(ops, n);
      hide Clean, CleanAndOrdered, AfterOp, PlainOp, PlainRun, NoneLeave, Drains, Replay, Pairs, AnyBareAt;
      hide CoreLevel, LinkLevel;
      ghost var stood := StandsAfter(ops[..n], drains0, bare0);
      Perform(ops[n]);
      if NoFaultSince(old(hw.onFaults), old(hw.offFaults)) && stood {
        CleanStates(ops[..n + 1]);
      }
    }

    lemma CleanStates(ops: seq<Op>)
      requires Clean() && Pairs() == Replay(ops)
      ensures coreState == CoreLevel(ops) && linkState == LinkLevel(ops)
    {
      StatesAre();
    }
  }

  /** One controller, one client, and one call ever refused, the second of all, which is for the PHY regulators. */
  method RefusedOnce() returns (m: ClkManager)
    ensures m.Valid() && m.StuckPlain() && fresh(m) && fresh(m.hw) && fresh(set c | c in m.clients)
    ensures m.hw.onRc == (n => if n == 1 then 5 else 0) && m.hw.offRc == (n => 0)
  {
    hide IsMax, AllHeld, AllSafe;
    var hw := new ClkHw(BARE, n => if n == 1 then 5 else 0, n => 0);
    m := new ClkManager(hw);
    var c := m.RegisterClient();
    assert m.RegulatorRefused() && m.CtrlComesUp();
    hide Level, LinkNeedsCore, m.Clean, m.CleanAndOrdered, m.RegulatorRefused, m.CtrlComesUp;
    var rc := m.ReqState(c, ClkMask(true, false), On);
    assert m.clients == [c] && c.coreState == On;
  }

  /** No request ON that follows turns the core clocks on. */
  method LockedOut(ops: seq<Op>) returns (m: ClkManager)
    requires forall n | 0 <= n < |ops| && ops[n].Request? :: !(ops[n].clk.core && ops[n].st == EarlyGate)
    ensures m.Valid() && m.coreState == Off && m.hw.onRc == (n => if n == 1 then 5 else 0) && m.hw.offRc == (n => 0)
  {
    m := RefusedOnce();
    hide m.StuckPlain;
    m.RunStuck(ops);
  }

  /** One client's standing on core and link clocks. */
  datatype Pair = Pair(core: Vote, link: Vote)

  function CoresIn(pairs: seq<Pair>): seq<Vote> { seq(|pairs|, i requires 0 <= i < |pairs| => pairs[i].core) }

  function LinksIn(pairs: seq<Pair>): seq<Vote> { seq(|pairs|, i requires 0 <= i < |pairs| => pairs[i].link) }

  function Asked(p: Pair, clk: ClkMask, st: ClkState): Pair
  {
    Pair(if clk.core then AfterRequest(p.core, st) else p.core, if clk.link then AfterRequest(p.link, st) else p.link)
  }

  /** What one call does to the clients, when a client that leaves succeeds. */
  function AfterOp(pairs: seq<Pair>, op: Op): seq<Pair>
  {
    match op
    case Register => [Pair(NoVote, NoVote)] + pairs
    case Request(k, clk, st) => if k < |pairs| then pairs[k := Asked(pairs[k], clk, st)] else pairs
    case Deregister(k) => if k < |pairs| then Without(pairs, k) else pairs
    case Force => pairs
  }

  /** The clients after a whole history, by the refcount rule alone. */
  function Replay(ops: seq<Op>): seq<Pair>
  {
    if ops == [] then [] else AfterOp(Replay(ops[..|ops| - 1]), ops[|ops| - 1])
  }

  /** The most demanding votes after a history. */
  function CoreLevel(ops: seq<Op>): ClkState { MaxOf(CoresIn(Replay(ops))) }

  function LinkLevel(ops: seq<Op>): ClkState { MaxOf(LinksIn(Replay(ops))) }

  /** Call n of the history takes the link from EARLY_GATE to OFF. */
  predicate DrainsAt(ops: seq<Op>, n: nat)
    requires n < |ops|
  {
    LinkLevel(ops[..n]) == EarlyGate && LinkLevel(ops[..n + 1]) == Off
  }

  /** After this history the link is gated early and the core clocks are OFF. */
  predicate GatedLinkAfter(ops: seq<Op>) { CoreLevel(ops) == Off && LinkLevel(ops) == EarlyGate }

  predicate BothOffAfter(ops: seq<Op>) { CoreLevel(ops) == Off && LinkLevel(ops) == Off }

  /** Call n of the history takes the link from EARLY_GATE to OFF while the core clocks stay OFF. */
  predicate BareAt(ops: seq<Op>, n: nat)
    requires n < |ops|
  {
    GatedLinkAfter(ops[..n]) && BothOffAfter(ops[..n + 1])
  }

  predicate AnyBareAt(ops: seq<Op>)
  {
    ops != [] && (AnyBareAt(ops[..|ops| - 1]) || BareAt(ops, |ops| - 1))
  }

  lemma {:induction false} BareExactly(ops: seq<Op>)
    ensures AnyBareAt(ops) <==> exists n | 0 <= n < |ops| :: BareAt(ops, n)
  {
    hide GatedLinkAfter, BothOffAfter, Replay;
    if ops != [] {
      var before := ops[..|ops| - 1];
      BareExactly(before);
      forall n | 0 <= n < |before|
        ensures BareAt(before, n) == BareAt(ops, n)
      {
        assert before[..n] == ops[..n] && before[..n + 1] == ops[..n + 1];
      }
    }
  }

  lemma OneMoreCall(ops: seq<Op>, n: nat)
    requires n < |ops|
    ensures Replay(ops[..n + 1]) == AfterOp(Replay(ops[..n]), ops[n])
    ensures Drains(ops[..n + 1]) ==
      Drains(ops[..n]) + B2I(LinkLevel(ops[..n]) == EarlyGate && LinkLevel(ops[..n + 1]) == Off)
    ensures AnyBareAt(ops[..n + 1]) ==
      (AnyBareAt(ops[..n]) || (GatedLinkAfter(ops[..n]) && BothOffAfter(ops[..n + 1])))
    ensures NoneLeave(ops) ==> !ops[n].Deregister?
    ensures PlainRun(ops) ==> PlainOp(Replay(ops[..n]), ops[n])
  {
    assert ops[..n + 1][..n] == ops[..n] && ops[..n + 1][..n + 1] == ops[..n + 1];
  }

  /** How many calls do. */
  function Drains(ops: seq<Op>): nat
  {
    if ops == [] then 0 else Drains(ops[..|ops| - 1]) + B2I(DrainsAt(ops, |ops| - 1))
  }

  lemma {:induction false} NoDrainExactly(ops: seq<Op>)
    ensures Drains(ops) == 0 <==> forall n | 0 <= n < |ops| :: !DrainsAt(ops, n)
  {
    hide LinkLevel, Replay;
    if ops != [] {
      var before := ops[..|ops| - 1];
      NoDrainExactly(before);
      forall n | 0 <= n < |before|
        ensures DrainsAt(before, n) == DrainsAt(ops, n)
      {
        assert before[..n] == ops[..n] && before[..n + 1] == ops[..n + 1];
      }
    }
  }

  /** Nobody asks for EARLY_GATE on the link. */
  predicate LinkOnOrOff(ops: seq<Op>)
  {
    forall n | 0 <= n < |ops| && ops[n].Request? :: !(ops[n].clk.link && ops[n].st == EarlyGate)
  }

  lemma {:induction false} NoneGated(ops: seq<Op>)
    requires LinkOnOrOff(ops)
    ensures NoneEarlyGated(LinksIn(Replay(ops)))
  {
    if ops != [] {
      var before := ops[..|ops| - 1];
      NoneGated(before);
      var pairs, after := Replay(before), Replay(ops);
      assert forall i | 0 <= i < |pairs| :: LinksIn(pairs)[i] == pairs[i].link;
      forall i | 0 <= i < |after|
        ensures after[i].link.state != EarlyGate
      {
      }
    }
  }

  /** With link requests ON and OFF only, whatever the core clocks are asked, no link vote is ever lost. */
  lemma OnOffNeverDrains(ops: seq<Op>)
    requires LinkOnOrOff(ops)
    ensures forall n | 0 <= n < |ops| :: !DrainsAt(ops, n) && !BareAt(ops, n)
    ensures Drains(ops) == 0
  {
    forall n | 0 <= n < |ops|
      ensures !DrainsAt(ops, n) && !BareAt(ops, n)
    {
      NoneGated(ops[..n]);
      MaxOfIsMax(LinksIn(Replay(ops[..n])));
    }
    NoDrainExactly(ops);
  }

  /** One client that goes ON, EARLY_GATE and OFF on the link alone loses one vote, and takes core clocks up
      without regulators on the way. */
  lemma GatingDrains()
    ensures var link := ClkMask(false, true);
      var ops := [Register, Request(0, link, On), Request(0, link, EarlyGate), Request(0, link, Off)];
      Drains(ops) == 1 && BareAt(ops, 3)
  {
    var link := ClkMask(false, true);
    var ops := [Register, Request(0, link, On), Request(0, link, EarlyGate), Request(0, link, Off)];
    assert ops[..1] == [Register] && ops[..1][..0] == [];
    assert ops[..2] == [Register, Request(0, link, On)] && ops[..2][..1] == ops[..1];
    assert ops[..3] == ops[..2] + [Request(0, link, EarlyGate)] && ops[..3][..2] == ops[..2];
    assert ops[..4] == ops && ops[..4][..3] == ops[..3];
    assert Replay(ops[..1]) == [Pair(NoVote, NoVote)];
    assert Replay(ops[..2]) == [Pair(NoVote, Vote(1, On))];
    assert Replay(ops[..3]) == [Pair(NoVote, Vote(0, EarlyGate))];
    assert Replay(ops) == [Pair(NoVote, Vote(0, Off))];
    OneVote(NoVote);
    OneVote(Vote(1, On));
    OneVote(Vote(0, EarlyGate));
    OneVote(Vote(0, Off));
    assert LinksIn(Replay(ops[..1])) == [NoVote] && LinksIn(Replay(ops[..2])) == [Vote(1, On)];
    assert LinksIn(Replay(ops[..3])) == [Vote(0, EarlyGate)] && LinksIn(Replay(ops)) == [Vote(0, Off)];
    assert CoresIn(Replay(ops[..3])) == [NoVote] == CoresIn(Replay(ops));
    assert Drains(ops[..1]) == 0 && Drains(ops[..2]) == 0 && Drains(ops[..3]) == 0;
  }

  lemma OneVote(v: Vote)
    ensures MaxOf([v]) == v.state
  {
    assert [v][..0] == [];
  }

  /** Nobody leaves. */
  predicate NoneLeave(ops: seq<Op>)
  {
    forall n | 0 <= n < |ops| :: !ops[n].Deregister?
  }

  /** Over any history shorter than the counter range, every client is ON, on either kind of clock, exactly
      when its refcount is positive. */
  lemma {:induction false} ReplayConsistent(ops: seq<Op>)
    requires |ops| <= U32_MAX
    ensures forall p | p in Replay(ops) ::
        Consistent(p.core) && Consistent(p.link) && p.core.refs <= |ops| && p.link.refs <= |ops|
  {
    if ops != [] {
      var before := ops[..|ops| - 1];
      ReplayConsistent(before);
      var pairs := Replay(before);
      assert forall i | 0 <= i < |pairs| :: pairs[i] in pairs;
    }
  }

  /** The call does not put a link vote at EARLY_GATE, nor leave its client with link but not core clocks. */
  predicate PlainOp(pairs: seq<Pair>, op: Op)
  {
    op.Request? && op.client < |pairs| ==>
      var p := Asked(pairs[op.client], op.clk, op.st);
      !(op.clk.link && op.st == EarlyGate) && (p.link.state == On ==> p.core.state == On)
  }

  ghost predicate PlainRun(ops: seq<Op>)
  {
    forall n | 0 <= n < |ops| :: PlainOp(Replay(ops[..n]), ops[n])
  }
}
