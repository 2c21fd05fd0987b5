/** Protocols of the DSI display that pair every "on" with an "off": the reference-counted command
    engine, the command transfer that borrows it, and the clock votes over the display's life. The clock
    votes move the controllers' power, prepare and unprepare their host engines. */
module DsiDisplay {

  import opened Common
  import opened DsiClkVotes

  const MAX_DSI_CTRLS_PER_DISPLAY: nat := 2

  /** The parts of struct dsi_ctrl_state_info the command engine depends on. */
  datatype CtrlState = CtrlState(vregOn: bool, controllerOn: bool, cmdEngineOn: bool)

  datatype PanelMode = VideoMode | CmdMode

  /** What the display takes with one call and gives back with another: the splash screen's power vote, the panel's
      regulators, the PHYs, the controllers' hosts, the panel prepared and the panel on. */
  datatype Resource = SplashGdsc | PanelPower | PhyUp | HostInit | PanelReady | PanelOn

  /** What the display does on the way up and down: it takes and gives, votes for core and link clocks, switches the
      host engines and the engine of the panel mode, and goes through the steps that leave nothing to give back. */
  datatype Act =
    | Took(r: Resource)
    | Gave(r: Resource)
    | Clocks(core: bool, link: bool, on: bool)
    | Hosts(on: bool)
    | Engine(on: bool)
    | Did(s: Plain)

  datatype Plain = Woke | PhyReset | ClockSource | SoftReset | CtrlUpdate | PostSwitch | SwitchPanel | Compression
    | PanelPostEnable | PanelPreDisable | TxBuffer | Message

  const WAY_UP := [
    Took(PanelPower), Clocks(true, false, true), Did(PhyReset), Took(PhyUp), Did(ClockSource), Took(HostInit),
    Hosts(true), Clocks(false, true, true), Did(SoftReset), Took(PanelReady)]

  const WAY_DOWN := [
    Did(Woke), Gave(PanelReady), Did(ClockSource), Hosts(false), Clocks(false, true, false), Gave(HostInit),
    Gave(PhyUp), Clocks(true, false, false), Gave(PanelPower)]

  /** Where on the way down entry i of the way up is undone. */
  function UndoneIn(i: nat): nat
  {
    match i
    case 0 => 8
    case 1 => 7
    case 3 => 6
    case 5 => 5
    case 6 => 3
    case 7 => 4
    case _ => 1
  }

  lemma UndoneAt(i: nat)
    requires i < |WAY_UP| && Lasts(WAY_UP[i])
    ensures UndoneIn(i) < |WAY_DOWN| && WAY_DOWN[UndoneIn(i)] == Undone(WAY_UP[i])
    ensures WAY_UP[i] == Hosts(true) <==> i == 6
    ensures WAY_UP[i] == Clocks(false, true, true) <==> i == 7
  {
  }

  lemma Opposite(i: nat, j: nat)
    requires i < j < |WAY_UP| && Lasts(WAY_UP[i]) && Lasts(WAY_UP[j])
    ensures if (i, j) == (6, 7) then UndoneIn(i) < UndoneIn(j) else UndoneIn(j) < UndoneIn(i)
  {
    assert i !in {2, 4, 8} && j !in {2, 4, 8};
  }

  predicate Lasts(a: Act) { !a.Did? }

  function Undone(a: Act): Act
    requires Lasts(a)
  {
    match a
    case Took(r) => Gave(r)
    case Gave(r) => Took(r)
    case Clocks(core, link, on) => Clocks(core, link, !on)
    case Hosts(on) => Hosts(!on)
    case Engine(on) => Engine(!on)
  }

  /** a is done, and b after it. */
  predicate InOrder(acts: seq<Act>, a: Act, b: Act)
  {
    exists i, j :: 0 <= i < j < |acts| && acts[i] == a && acts[j] == b
  }

  /** The mode flags of the current mode. */
  datatype ModeFlags = ModeFlags(dms: bool, poms: bool)

  function Inc(n: u32): u32 { if n == U32_MAX then 0 else n + 1 }

  class Display {
    const cmdMaster: nat
    const panelMode: PanelMode
    // Return codes of the clock votes, and of every other call that can fail, in call order.
    const voteRc: nat -> int
    const stepRc: nat -> int
    // Whether a controller is powered after a vote that leaves it open: other clients may hold the clocks
    // that this one lets go, and a refused vote may leave anything behind.
    const powerAfter: (nat, nat) -> bool

    var ctrls: seq<CtrlState>
    var cmdEngineRefcount: u32
    var txCmdBuf: bool
    var contSplash: bool
    // The display's own clock client.
    var coreVote: Vote
    var linkVote: Vote
    var votes: nat
    var steps: nat
    // What has been taken and not given back, or asked to be.
    var held: set<Resource>
    // How many messages were handed to the controllers, and the code of the last.
    var transfers: nat
    var lastTransfer: int
    // Whether a vote has ever been refused.
    var refused: bool
    ghost var trace: seq<Act>
    // Whether a controller has ever been asked for the engine state it was already in.
    ghost var redundant: bool

    /** Every controller starts without power, its engines off. */
    constructor (ctrlCount: nat, cmdMaster: nat, panelMode: PanelMode, voteRc: nat -> int, stepRc: nat -> int,
                 powerAfter: (nat, nat) -> bool)
      requires 1 <= ctrlCount <= MAX_DSI_CTRLS_PER_DISPLAY && cmdMaster < ctrlCount
      ensures Engines() && Powered() && Holds(0, 0) && cmdEngineRefcount == 0 && !redundant && !refused && !contSplash
      ensures HostsOff() && held == {}
    {
      ctrls := seq(ctrlCount, _ => CtrlState(false, false, false));
      this.cmdMaster, this.panelMode := cmdMaster, panelMode;
      this.voteRc, this.stepRc, this.powerAfter := voteRc, stepRc, powerAfter;
      cmdEngineRefcount, txCmdBuf, contSplash, coreVote, linkVote := 0, false, false, NoVote, NoVote;
      votes, steps, redundant, refused := 0, 0, false, false;
      held, transfers, lastTransfer, trace := {}, 0, 0, [];
    }

    ghost predicate Valid()
      reads `ctrls
    {
      1 <= |ctrls| <= MAX_DSI_CTRLS_PER_DISPLAY && cmdMaster < |ctrls|
    }

    /** Every controller's command engine is on exactly while the display holds it. */
    ghost predicate EnginesFollow()
      reads `ctrls, `cmdEngineRefcount
    {
      forall i | 0 <= i < |ctrls| :: ctrls[i].cmdEngineOn <==> cmdEngineRefcount > 0
    }

    /** A command engine is only on while its host engine is. */
    ghost predicate HostHolds()
      reads `ctrls
    {
      forall i | 0 <= i < |ctrls| :: ctrls[i].cmdEngineOn ==> ctrls[i].controllerOn
    }

    ghost predicate Engines()
      reads `ctrls, `cmdEngineRefcount
    {
      Valid() && EnginesFollow() && HostHolds()
    }

    predicate AllPowered()
      reads `ctrls
    {
      forall i | 0 <= i < |ctrls| :: ctrls[i].vregOn
    }

    /** As long as no vote was refused, a client that holds the core clocks has its controllers powered. */
    ghost predicate Powered()
      reads `ctrls, `coreVote, `refused
    {
      !refused && coreVote.state == On ==> AllPowered()
    }

    /** Every controller is in a state in which its engine may be switched. */
    predicate Switchable()
      reads `ctrls
    {
      forall i | 0 <= i < |ctrls| :: ctrls[i].vregOn && ctrls[i].controllerOn
    }

    predicate HostsOn()
      reads `ctrls
    {
      forall i | 0 <= i < |ctrls| :: ctrls[i].controllerOn
    }

    predicate HostsOff()
      reads `ctrls
    {
      forall i | 0 <= i < |ctrls| :: !ctrls[i].controllerOn
    }

    predicate EnginesOn()
      reads `ctrls
    {
      forall i | 0 <= i < |ctrls| :: ctrls[i].cmdEngineOn
    }

    predicate EnginesOff()
      reads `ctrls
    {
      forall i | 0 <= i < |ctrls| :: !ctrls[i].cmdEngineOn
    }

    ghost predicate StepsSucceed() { forall t :: stepRc(t) == 0 }

    ghost predicate VotesSucceed() { forall t :: voteRc(t) == 0 }

    // ---- command engine ----

    /** dsi_ctrl_set_cmd_engine_state(): refuses a redundant request and a controller that is not up. */
    method SetCmdEngine(i: nat, on: bool) returns (rc: int)
      requires Valid() && i < |ctrls|
      modifies `ctrls, `redundant
      ensures Valid()
      ensures rc == 0 <==> old(ctrls[i].cmdEngineOn) != on && old(ctrls[i].vregOn && ctrls[i].controllerOn)
      ensures ctrls == if rc == 0 then old(ctrls)[i := old(ctrls)[i].(cmdEngineOn := on)] else old(ctrls)
      ensures redundant == (old(redundant) || old(ctrls[i].cmdEngineOn) == on)
    {
      if ctrls[i].cmdEngineOn == on {
        redundant := true;
        return -EINVAL;
      }
      if !ctrls[i].vregOn || !ctrls[i].controllerOn {
        return -EINVAL;
      }
      ctrls := ctrls[i := ctrls[i].(cmdEngineOn := on)];
      return 0;
    }

    /** dsi_display_cmd_engine_enable(): the first holder switches every engine on, master first, or none. */
    method CmdEngineEnable() returns (rc: int)
      requires Valid() && EnginesFollow()
      modifies `ctrls, `redundant, `cmdEngineRefcount
      ensures Valid() && redundant == old(redundant)
      ensures rc == 0 <==> old(cmdEngineRefcount > 0 || Switchable())
      ensures rc == 0 ==> cmdEngineRefcount == Inc(old(cmdEngineRefcount))
      ensures rc == 0 ==> (EnginesFollow() <==> old(cmdEngineRefcount) != U32_MAX)
      ensures rc != 0 ==> cmdEngineRefcount == old(cmdEngineRefcount) && ctrls == old(ctrls)
      ensures forall i | 0 <= i < |ctrls| :: i < |old(ctrls)| && ctrls[i].vregOn == old(ctrls)[i].vregOn
                                             && ctrls[i].controllerOn == old(ctrls)[i].controllerOn
      ensures Switchable() <==> old(Switchable())
      ensures AllPowered() <==> old(AllPowered())
      ensures old(HostHolds()) ==> HostHolds()
      ensures |ctrls| == |old(ctrls)|
      ensures (HostsOn() <==> old(HostsOn())) && (HostsOff() <==> old(HostsOff()))
    {
      rc := 0;
      if cmdEngineRefcount > 0 {
        assert ctrls[cmdMaster].cmdEngineOn;
        cmdEngineRefcount := Inc(cmdEngineRefcount);
        return;
      }
      ghost var ctrls0 := ctrls;
      rc := SetCmdEngine(cmdMaster, true);
      if rc != 0 {
        return;
      }
      for i := 0 to |ctrls|
        invariant Valid() && |ctrls| == |ctrls0| && rc == 0 && cmdEngineRefcount == 0 && redundant == old(redundant)
        invariant forall j | 0 <= j < |ctrls| ::
          ctrls[j] == if j == cmdMaster || j < i then ctrls0[j].(cmdEngineOn := true) else ctrls0[j]
        invariant forall j | 0 <= j < |ctrls| && (j == cmdMaster || j < i) :: ctrls0[j].vregOn && ctrls0[j].controllerOn
      {
        if i == cmdMaster {
          continue;
        }
        rc := SetCmdEngine(i, true);
        if rc != 0 {
          var _ := SetCmdEngine(cmdMaster, false);
          assert ctrls == ctrls0;
          return;
        }
      }
      cmdEngineRefcount := Inc(cmdEngineRefcount);
    }

    /** dsi_display_cmd_engine_disable(): the last holder switches every engine off, master last. The
        count drops to zero even when a controller refuses. */
    method CmdEngineDisable() returns (rc: int)
      requires Valid() && EnginesFollow()
      modifies `ctrls, `redundant, `cmdEngineRefcount
      ensures Valid() && redundant == old(redundant)
      ensures cmdEngineRefcount == if old(cmdEngineRefcount) == 0 then 0 else old(cmdEngineRefcount) - 1
      ensures EnginesFollow() <==> old(cmdEngineRefcount != 1 || Switchable())
      ensures old(HostHolds()) ==> (EnginesFollow() <==> old(cmdEngineRefcount != 1 || AllPowered()))
      ensures old(cmdEngineRefcount) != 1 ==> rc == 0 && ctrls == old(ctrls)
      ensures Switchable() <==> old(Switchable())
      ensures AllPowered() <==> old(AllPowered())
      ensures old(HostHolds()) ==> HostHolds()
      ensures |ctrls| == |old(ctrls)|
      ensures forall i | 0 <= i < |ctrls| :: ctrls[i].(cmdEngineOn := false) == old(ctrls)[i].(cmdEngineOn := false)
      ensures (HostsOn() <==> old(HostsOn())) && (HostsOff() <==> old(HostsOff()))
    {
      rc := 0;
      if cmdEngineRefcount == 0 {
        return;
      } else if cmdEngineRefcount > 1 {
        cmdEngineRefcount := cmdEngineRefcount - 1;
        return;
      }
      ghost var ctrls0 := ctrls;
      for i := 0 to |ctrls|
        invariant Valid() && |ctrls| == |ctrls0| && cmdEngineRefcount == 1 && redundant == old(redundant)
        invariant forall j | 0 <= j < |ctrls| ::
          ctrls[j] == (if j != cmdMaster && j < i && ctrls0[j].vregOn && ctrls0[j].controllerOn
                       then ctrls0[j].(cmdEngineOn := false) else ctrls0[j])
      {
        if i == cmdMaster {
          continue;
        }
        rc := SetCmdEngine(i, false);
      }
      rc := SetCmdEngine(cmdMaster, false);
      cmdEngineRefcount := 0;
      assert forall j | 0 <= j < |ctrls| ::
        ctrls[j].cmdEngineOn <==> !(ctrls0[j].vregOn && ctrls0[j].controllerOn);
    }

    // ---- clock votes ----

    /** The client holds c core and l link references. */
    ghost predicate Holds(c: int, l: int)
      reads `coreVote, `linkVote
    {
      Consistent(coreVote) && Consistent(linkVote) && coreVote.refs == c && linkVote.refs == l
    }

    /** The counters can take n more references. */
    static predicate Room(c: int, l: int, n: nat) {
      0 <= c && 0 <= l && c + n <= U32_MAX && l + n <= U32_MAX
    }

    /** dsi_display_clk_ctrl(): the refcounts move whether or not the clocks follow. A granted vote that takes
        the core clocks powers every controller. */
    method ClkCtrl(core: bool, link: bool, on: bool, ghost c: int, ghost l: int) returns (rc: int)
      requires Valid()
      modifies `coreVote, `linkVote, `votes, `ctrls, `refused, `trace
      ensures rc == voteRc(old(votes)) && (VotesSucceed() ==> rc == 0)
      ensures refused == (old(refused) || rc != 0)
      ensures coreVote == if core then AfterRequest(old(coreVote), if on then On else Off) else old(coreVote)
      ensures linkVote == if link then AfterRequest(old(linkVote), if on then On else Off) else old(linkVote)
      ensures old(Holds(c, l)) && on && (core ==> c < U32_MAX) && (link ==> l < U32_MAX) ==>
        Holds(c + B2I(core), l + B2I(link))
      ensures old(Holds(c, l)) && !on && c >= B2I(core) && l >= B2I(link) ==> Holds(c - B2I(core), l - B2I(link))
      ensures Valid() && (old(Engines()) ==> Engines()) && (old(Powered()) ==> Powered())
      ensures on ==> (core ==> coreVote.state == On) && (link ==> linkVote.state == On)
      ensures !refused && core && on && old(coreVote.state) != On ==> AllPowered()
      ensures !refused && core && on && old(Powered()) ==> AllPowered()
      ensures !refused && coreVote.state == old(coreVote.state) ==> ctrls == old(ctrls)
      ensures (HostsOn() <==> old(HostsOn())) && (HostsOff() <==> old(HostsOff()))
      ensures trace == old(trace) + [Clocks(core, link, on)]
    {
      rc := voteRc(votes);
      if rc != 0 {
        refused := true;
      }
      var was := coreVote.state;
      if core {
        coreVote := AfterRequest(coreVote, if on then On else Off);
      }
      if link {
        linkVote := AfterRequest(linkVote, if on then On else Off);
      }
      hide AfterRequest, Holds;
      if refused || coreVote.state != was {
        SetPower(!refused && coreVote.state == On);
      }
      votes := votes + 1;
      trace := trace + [Clocks(core, link, on)];
    }

    /** What a vote leaves the controllers' power at: on for certain, or open. */
    method SetPower(certain: bool)
      requires Valid()
      modifies `ctrls
      ensures Valid() && (old(Engines()) ==> Engines()) && (certain ==> AllPowered())
      ensures (HostsOn() <==> old(HostsOn())) && (HostsOff() <==> old(HostsOff()))
    {
      var was, t := ctrls, votes;
      ctrls := seq(|was|, i requires 0 <= i < |was| => was[i].(vregOn := certain || powerAfter(t, i)));
      assert forall i | 0 <= i < |was| :: ctrls[i].controllerOn == was[i].controllerOn;
    }

    /** Other clients take or let go the clocks while this one does not hold them. */
    method OthersVote()
      requires Valid()
      modifies `ctrls, `votes
      ensures Valid() && (old(Engines()) ==> Engines()) && (old(Powered()) ==> Powered())
    {
      if coreVote.state != On {
        SetPower(false);
      }
      votes := votes + 1;
    }

    // ---- host engines ----

    /** dsi_ctrl_set_host_engine_state(): refuses a redundant request, a controller without power, and to go
        off under a command engine. */
    method SetHostEngine(i: nat, on: bool) returns (rc: int)
      requires Valid() && i < |ctrls|
      modifies `ctrls
      ensures rc == 0 <==> old(ctrls[i].controllerOn != on && ctrls[i].vregOn && (on || !ctrls[i].cmdEngineOn))
      ensures ctrls == if rc == 0 then old(ctrls)[i := old(ctrls)[i].(controllerOn := on)] else old(ctrls)
      ensures old(Powered()) ==> Powered()
      ensures Valid() && (old(Engines()) ==> Engines()) && (AllPowered() <==> old(AllPowered()))
    {
      if ctrls[i].controllerOn == on || !ctrls[i].vregOn || (!on && ctrls[i].cmdEngineOn) {
        return -EINVAL;
      }
      ghost var was := ctrls;
      ctrls := ctrls[i := ctrls[i].(controllerOn := on)];
      assert forall j | 0 <= j < |was| :: ctrls[j].vregOn == was[j].vregOn;
      assert forall j | 0 <= j < |was| :: ctrls[j].cmdEngineOn == was[j].cmdEngineOn;
      return 0;
    }

    /** dsi_display_ctrl_host_enable(): master first; a refusing slave takes only the master down again. */
    method HostEnable() returns (rc: int)
      requires Valid()
      modifies `ctrls, `trace
      ensures old(Powered()) ==> Powered()
      ensures Valid() && (old(Engines()) ==> Engines()) && (AllPowered() <==> old(AllPowered()))
      ensures contSplash ==> rc == 0 && ctrls == old(ctrls)
      ensures rc == 0 && !contSplash ==> HostsOn() && AllPowered()
      ensures old(AllPowered() && HostsOff()) ==> rc == 0
      ensures trace == old(trace) + [Hosts(true)]
    {
      trace := trace + [Hosts(true)];
      if contSplash {
        return 0;
      }
      rc := SetHostEngine(cmdMaster, true);
      if rc != 0 {
        return;
      }
      for i := 0 to |ctrls|
        invariant trace == old(trace) + [Hosts(true)]
        invariant Valid() && |ctrls| == |old(ctrls)| && rc == 0
        invariant old(Powered()) ==> Powered()
        invariant (old(Engines()) ==> Engines()) && (AllPowered() <==> old(AllPowered()))
        invariant forall j | 0 <= j < |ctrls| && (j == cmdMaster || j < i) :: ctrls[j].controllerOn && ctrls[j].vregOn
        invariant forall j | 0 <= j < |ctrls| && !(j == cmdMaster || j < i) :: ctrls[j] == old(ctrls)[j]
      {
        if i == cmdMaster {
          continue;
        }
        rc := SetHostEngine(i, true);
        if rc != 0 {
          var _ := SetHostEngine(cmdMaster, false);
          return;
        }
      }
    }

    /** dsi_display_ctrl_host_disable(): slaves, then the master, each going on after a refusal. */
    method HostDisable() returns (rc: int)
      requires Valid()
      modifies `ctrls, `trace
      ensures old(Powered()) ==> Powered()
      ensures Valid() && (old(Engines()) ==> Engines()) && (AllPowered() <==> old(AllPowered()))
      ensures old(AllPowered() && HostsOn() && EnginesOff()) ==> HostsOff()
      ensures trace == old(trace) + [Hosts(false)]
    {
      trace := trace + [Hosts(false)];
      for i := 0 to |ctrls|
        invariant trace == old(trace) + [Hosts(false)]
        invariant Valid() && |ctrls| == |old(ctrls)|
        invariant old(Powered()) ==> Powered()
        invariant forall j | 0 <= j < |ctrls| :: ctrls[j].(controllerOn := true) == old(ctrls)[j].(controllerOn := true)
        invariant forall j | 0 <= j < |ctrls| && (j >= i || j == cmdMaster) :: ctrls[j] == old(ctrls)[j]
        invariant old(AllPowered() && HostsOn() && EnginesOff()) ==>
            forall j | 0 <= j < i && j != cmdMaster :: !ctrls[j].controllerOn
        invariant (old(Engines()) ==> Engines()) && (AllPowered() <==> old(AllPowered()))
      {
        if i != cmdMaster {
          var _ := SetHostEngine(i, false);
        }
      }
      rc := SetHostEngine(cmdMaster, false);
    }

    /** The splash screen's host engines are taken over as running. */
    method TakeOverHosts()
      requires Valid()
      modifies `ctrls
      ensures old(Powered()) ==> Powered()
      ensures Valid() && (old(Engines()) ==> Engines()) && (AllPowered() <==> old(AllPowered()))
      ensures HostsOn()
    {
      var was := ctrls;
      ctrls := seq(|was|, i requires 0 <= i < |was| => was[i].(controllerOn := true));
      assert forall i | 0 <= i < |was| :: ctrls[i].vregOn == was[i].vregOn;
    }

    method Step(ghost act: Act) returns (rc: int)
      modifies `steps, `trace
      ensures rc == stepRc(old(steps)) && steps == old(steps) + 1 && (StepsSucceed() ==> rc == 0)
      ensures trace == old(trace) + [act]
    {
      rc := stepRc(steps);
      steps := steps + 1;
      trace := trace + [act];
    }

    method Take(r: Resource) returns (rc: int)
      modifies `steps, `trace, `held
      ensures held == if rc == 0 then old(held) + {r} else old(held)
      ensures (StepsSucceed() ==> rc == 0) && trace == old(trace) + [Took(r)]
    {
      rc := Step(Took(r));
      if rc == 0 {
        held := held + {r};
      }
    }

    method Give(r: Resource) returns (rc: int)
      modifies `steps, `trace, `held
      ensures held == old(held) - {r} && (StepsSucceed() ==> rc == 0) && trace == old(trace) + [Gave(r)]
    {
      rc := Step(Gave(r));
      held := held - {r};
    }

    method GiveUnless(keep: bool, r: Resource)
      modifies `steps, `trace, `held
      ensures held == if keep then old(held) else old(held) - {r}
      ensures trace == old(trace) + if keep then [] else [Gave(r)]
    {
      if !keep {
        var _ := Give(r);
      }
    }

    /** The message goes to the controllers, from the command buffer, with the clocks and the engines on. */
    method Transmit() returns (rc: int)
      requires EnginesOn() && txCmdBuf && coreVote.state == On && linkVote.state == On
      modifies `steps, `trace, `transfers, `lastTransfer
      ensures transfers == old(transfers) + 1 && lastTransfer == rc
    {
      rc := Step(Did(Message));
      transfers, lastTransfer := transfers + 1, rc;
    }

    /** The part of dsi_host_transfer() that runs on the clocks: it borrows the command engine, and gives
        it back however the transfer ends. */
    method TransferOnClocks() returns (rc: int)
      requires Engines() && cmdEngineRefcount < U32_MAX
      requires coreVote.state == On && linkVote.state == On
      modifies `ctrls, `redundant, `cmdEngineRefcount, `txCmdBuf, `steps, `trace, `transfers, `lastTransfer
      ensures Engines() && redundant == old(redundant)
      ensures AllPowered() <==> old(AllPowered())
      ensures cmdEngineRefcount == old(cmdEngineRefcount)
      ensures transfers == old(transfers) || transfers == old(transfers) + 1
      ensures transfers > old(transfers) ==> rc == lastTransfer
      ensures rc == 0 ==> transfers > old(transfers)
    {
      rc := Step(Did(Woke));
      if rc != 0 {
        return;
      }
      ghost var idle := cmdEngineRefcount == 0;
      rc := CmdEngineEnable();
      if rc != 0 {
        return;
      }
      assert idle ==> Switchable();
      label disableCmdEngine: {
        if !txCmdBuf {
          rc := Step(Did(TxBuffer));
          if rc != 0 { break disableCmdEngine; }
          txCmdBuf := true;
        }
        assert EnginesOn();
        rc := Transmit();
      }
      var _ := CmdEngineDisable();
    }

    /** dsi_host_transfer(): borrows the clocks and the command engine for one message. Once the first
        vote has succeeded everything borrowed is given back, whichever later step fails; a refused
        first vote keeps its references. */
    method HostTransfer(esdRecovery: bool, ghost c: int, ghost l: int) returns (rc: int)
      requires Engines() && cmdEngineRefcount < U32_MAX
      modifies `coreVote, `linkVote, `votes, `ctrls, `refused, `redundant, `cmdEngineRefcount
      modifies `txCmdBuf, `steps, `trace, `transfers, `lastTransfer
      ensures Engines() && redundant == old(redundant) && (old(Powered()) ==> Powered())
      ensures VotesSucceed() ==> refused == old(refused)
      ensures cmdEngineRefcount == old(cmdEngineRefcount)
      ensures esdRecovery ==> rc == 0 && coreVote == old(coreVote) && linkVote == old(linkVote)
      ensures old(Holds(c, l)) && Room(c, l, 1) && !esdRecovery && voteRc(old(votes)) == 0 ==> Holds(c, l)
      ensures old(Holds(c, l)) && Room(c, l, 1) && !esdRecovery && voteRc(old(votes)) != 0 ==>
        rc != 0 && Holds(c + 1, l + 1)
      ensures transfers == old(transfers) || transfers == old(transfers) + 1
      ensures transfers > old(transfers) ==> rc == lastTransfer && !esdRecovery
      ensures rc == 0 && !esdRecovery ==> transfers > old(transfers)
    {
      hide Holds, AfterRequest, VotesSucceed, Engines;
      EnginesAre();
      if esdRecovery {
        return 0;
      }
      rc := ClkCtrl(true, true, true, c, l);
      if rc != 0 {
        return;
      }
      rc := TransferOnClocks();
      var _ := ClkCtrl(true, true, false, c + 1, l + 1);
    }

    // ---- the display's life ----

    /** dsi_display_cont_splash_config(): the splash screen's votes are held exactly if the display stays
        in continuous splash; the return code does not tell. */
    method ContSplashConfig(lit: bool, ghost c: int, ghost l: int) returns (rc: int)
      requires Valid() && !contSplash
      modifies `coreVote, `linkVote, `votes, `ctrls, `refused, `steps, `trace, `contSplash, `held
      ensures Valid() && (old(Engines()) ==> Engines()) && (old(Powered()) ==> Powered())
      ensures VotesSucceed() ==> refused == old(refused)
      ensures VotesSucceed() && old(Holds(c, l)) && Room(c, l, 1) ==> Holds(c + B2I(contSplash), l + B2I(contSplash))
      ensures contSplash ==> lit
      ensures contSplash && !refused && old(Powered()) ==> AllPowered()
      ensures contSplash ==> HostsOn()
      ensures !contSplash ==> (HostsOff() <==> old(HostsOff())) && held <= old(held)
      ensures contSplash ==> held == old(held) + {SplashGdsc, PanelPower}
      ensures StepsSucceed() && VotesSucceed() ==> contSplash == lit
    {
      hide Holds, AfterRequest, VotesSucceed, StepsSucceed, Engines, AllPowered, Powered, HostsOn, HostsOff;
      rc := Take(SplashGdsc);
      if rc != 0 {
        return -EINVAL;
      }
      contSplash := lit;
      if contSplash {
        rc := ClkCtrl(true, true, true, c, l);
        if rc == 0 {
          rc := Take(PanelPower);
          if rc == 0 {
            TakeOverHosts();
            return;
          }
          rc := ClkCtrl(true, true, false, c + 1, l + 1);
        }
      }
      var _ := Give(SplashGdsc);
      contSplash := false;
    }

    /** dsi_display_splash_res_cleanup(). */
    method SplashResCleanup(ghost c: int, ghost l: int) returns (rc: int)
      requires Valid()
      modifies `coreVote, `linkVote, `votes, `ctrls, `refused, `steps, `trace, `contSplash, `held
      ensures Valid() && (old(Engines()) ==> Engines()) && (old(Powered()) ==> Powered())
      ensures VotesSucceed() ==> refused == old(refused)
      ensures old(Holds(c, l)) && Room(c - 1, l - 1, 1) ==> Holds(c - B2I(old(contSplash)), l - B2I(old(contSplash)))
      ensures !contSplash
      ensures coreVote == if old(contSplash) then AfterRequest(old(coreVote), Off) else old(coreVote)
      ensures linkVote == if old(contSplash) then AfterRequest(old(linkVote), Off) else old(linkVote)
      ensures !old(contSplash) ==> rc == 0
      ensures held == if old(contSplash) then old(held) - {SplashGdsc} else old(held)
      ensures (HostsOn() <==> old(HostsOn())) && (StepsSucceed() ==> rc == 0)
    {
      if !contSplash {
        return 0;
      }
      rc := ClkCtrl(true, true, false, c, l);
      rc := Give(SplashGdsc);
      contSplash := false;
    }

    /** dsi_display_pre_switch(): one core and one link vote, or none. */
    method PreSwitch(ghost c: int, ghost l: int) returns (rc: int)
      requires Valid()
      modifies `coreVote, `linkVote, `votes, `ctrls, `refused, `steps, `trace, `held
      ensures Valid() && (old(Engines()) ==> Engines()) && (old(Powered()) ==> Powered())
      ensures VotesSucceed() ==> refused == old(refused)
      ensures VotesSucceed() && old(Holds(c, l)) && Room(c, l, 1) ==> Holds(c + B2I(rc == 0), l + B2I(rc == 0))
      ensures held == old(held) || (rc != 0 && held == old(held) - {HostInit})
      ensures VotesSucceed() && StepsSucceed() ==> rc == 0
      ensures rc == 0 ==>
        trace == old(trace) + [Clocks(true, false, true), Did(CtrlUpdate), Did(ClockSource), Clocks(false, true, true)]
    {
      hide Holds, AfterRequest, VotesSucceed, StepsSucceed, Engines, AllPowered, Powered, HostsOn, HostsOff;
      rc := ClkCtrl(true, false, true, c, l);
      if rc != 0 {
        return;
      }
      label ctrlClkOff: {
        rc := Step(Did(CtrlUpdate));
        if rc != 0 { break ctrlClkOff; }
        rc := Step(Did(ClockSource));
        if rc == 0 {
          rc := ClkCtrl(false, true, true, c + 1, l);
          if rc == 0 {
            return;
          }
        }
        var _ := Give(HostInit);
      }
      var _ := ClkCtrl(true, false, false, c + 1, l);
    }

    /** What dsi_display_prepare() takes between its two votes: the PHYs unless they were kept on, and the hosts. */
    function Brought(phyKept: bool): set<Resource>
    {
      (if phyKept then {} else {PhyUp}) + {HostInit}
    }

    /** And how. */
    function BringActs(phyKept: bool): seq<Act>
    {
      (if phyKept then [] else [Did(PhyReset), Took(PhyUp)]) + [Did(ClockSource), Took(HostInit), Hosts(true)]
    }

    /** What a successful dsi_display_prepare() does, in order. */
    function PrepareActs(flags: ModeFlags, phyKept: bool): seq<Act>
      reads `contSplash
    {
      (if flags.poms || contSplash then [] else [Took(PanelPower)]) + UpActs(flags, phyKept)
    }

    function UpActs(flags: ModeFlags, phyKept: bool): seq<Act>
      reads `contSplash
    {
      [Clocks(true, false, true)] + BringActs(phyKept) + LinkActs(flags)
    }

    function LinkActs(flags: ModeFlags): seq<Act>
      reads `contSplash
    {
      [Clocks(false, true, true)]
      + (if contSplash then [] else [Did(SoftReset)] + if flags.poms then [] else [Took(PanelReady)])
    }

    /** The steps of dsi_display_prepare() between its two votes: PHY reset and enable unless the PHY was
        kept on, clock source, controller init, host enable; with the rungs of its rollback that undo them. */
    method BringUp(phyKept: bool) returns (rc: int)
      requires Valid()
      modifies `steps, `trace, `ctrls, `held
      ensures old(Powered()) ==> Powered()
      ensures Valid() && (old(Engines()) ==> Engines()) && (AllPowered() <==> old(AllPowered()))
      ensures if rc == 0 then held == old(held) + Brought(phyKept) else held <= old(held)
      ensures rc == 0 && !contSplash ==> HostsOn() && AllPowered()
      ensures contSplash ==> ctrls == old(ctrls)
      ensures StepsSucceed() && old(contSplash || (AllPowered() && HostsOff())) ==> rc == 0
      ensures rc == 0 ==> trace == old(trace) + BringActs(phyKept)
    {
      hide AllPowered, Powered, Engines, HostsOn, HostsOff;
      if !phyKept {
        rc := Step(Did(PhyReset));
        if rc != 0 {
          return;
        }
        rc := Take(PhyUp);
        if rc != 0 {
          return;
        }
      }
      rc := Step(Did(ClockSource));
      if rc == 0 {
        rc := Take(HostInit);
        if rc == 0 {
          rc := HostEnable();
          if rc == 0 {
            return;
          }
          var _ := Give(HostInit);
        }
      }
      var _ := Give(PhyUp);
    }

    /** What it takes of the panel, unless a splash screen is up or the mode switch keeps it. */
    function PanelTaken(flags: ModeFlags): set<Resource>
      reads `contSplash
    {
      if flags.poms || contSplash then {} else {PanelPower, PanelReady}
    }

    /** dsi_display_prepare(): adds exactly one core and one link vote on success and none on any failure branch.
        On success the controllers are powered, their hosts on, and PHYs, hosts and panel taken; a failure keeps
        nothing that it took. */
    method Prepare(flags: ModeFlags, phyKept: bool, ghost c: int, ghost l: int) returns (rc: int)
      requires Valid()
      modifies `coreVote, `linkVote, `votes, `ctrls, `refused, `steps, `trace, `held
      ensures Valid() && (old(Engines()) ==> Engines()) && (old(Powered()) ==> Powered())
      ensures VotesSucceed() ==> refused == old(refused)
      ensures VotesSucceed() && old(Holds(c, l)) && Room(c, l, 1) ==> Holds(c + B2I(rc == 0), l + B2I(rc == 0))
      ensures rc == 0 && !flags.dms && !refused && old(Powered() && (contSplash ==> HostsOn())) ==>
        AllPowered() && HostsOn()
      ensures rc == 0 && !flags.dms ==> held == old(held) + Brought(phyKept) + PanelTaken(flags)
      ensures rc == 0 && flags.dms ==> held == old(held)
      ensures rc != 0 ==> held <= old(held)
      ensures VotesSucceed() && StepsSucceed() && old(!refused && Powered() && (contSplash || HostsOff())) ==>
        (rc == 0 <==> !(flags.dms && contSplash))
      ensures rc == 0 && !flags.dms ==> trace == old(trace) + PrepareActs(flags, phyKept)
    {
      hide Holds, AfterRequest, VotesSucceed, StepsSucceed, Engines, AllPowered, Powered, HostsOn, HostsOff;
      if flags.dms {
        if contSplash {
          return -EINVAL;
        }
        rc := PreSwitch(c, l);
        return;
      }
      if !flags.poms && !contSplash {
        rc := Take(PanelPower);
        if rc != 0 {
          return;
        }
      }
      rc := PowerUp(flags, phyKept, c, l);
      if rc != 0 {
        var _ := Give(PanelPower);
      }
    }

    /** dsi_display_prepare() from its core vote on, with all of its rollback but the panel's regulators. */
    method PowerUp(flags: ModeFlags, phyKept: bool, ghost c: int, ghost l: int) returns (rc: int)
      requires Valid()
      modifies `coreVote, `linkVote, `votes, `ctrls, `refused, `steps, `trace, `held
      ensures Valid() && (old(Engines()) ==> Engines()) && (old(Powered()) ==> Powered())
      ensures VotesSucceed() ==> refused == old(refused)
      ensures VotesSucceed() && old(Holds(c, l)) && Room(c, l, 1) ==> Holds(c + B2I(rc == 0), l + B2I(rc == 0))
      ensures rc == 0 && !refused && old(Powered() && (contSplash ==> HostsOn())) ==> AllPowered() && HostsOn()
      ensures rc == 0 ==>
        held == old(held) + Brought(phyKept) + (if flags.poms || contSplash then {} else {PanelReady})
      ensures rc != 0 ==> held <= old(held)
      ensures VotesSucceed() && StepsSucceed() && old(!refused && Powered() && (contSplash || HostsOff())) ==> rc == 0
      ensures rc == 0 ==> trace == old(trace) + UpActs(flags, phyKept)
    {
      hide Holds, AfterRequest, VotesSucceed, StepsSucceed, Engines, AllPowered, Powered, HostsOn, HostsOff, Brought,
        BringActs, LinkActs;
      rc := ClkCtrl(true, false, true, c, l);
      if rc != 0 {
        return;
      }
      rc := BringAndLink(flags, phyKept, c + 1, l);
      if rc != 0 {
        var _ := ClkCtrl(true, false, false, c + 1, l);
        return;
      }
      InParts(old(trace), [Clocks(true, false, true)], BringActs(phyKept), LinkActs(flags));
    }

    /** The part of it under the core vote. */
    method BringAndLink(flags: ModeFlags, phyKept: bool, ghost c: int, ghost l: int) returns (rc: int)
      requires Valid()
      modifies `coreVote, `linkVote, `votes, `ctrls, `refused, `steps, `trace, `held
      ensures Valid() && (old(Engines()) ==> Engines()) && (old(Powered()) ==> Powered())
      ensures VotesSucceed() ==> refused == old(refused)
      ensures old(refused) ==> refused
      ensures VotesSucceed() && old(Holds(c, l)) && c >= 0 && 0 <= l < U32_MAX ==> Holds(c, l + B2I(rc == 0))
      ensures rc == 0 && !refused && old(AllPowered() && (contSplash ==> HostsOn())) ==> AllPowered() && HostsOn()
      ensures rc == 0 ==>
        held == old(held) + Brought(phyKept) + (if flags.poms || contSplash then {} else {PanelReady})
      ensures rc != 0 ==> held <= old(held)
      ensures VotesSucceed() && StepsSucceed() && old(contSplash || (AllPowered() && HostsOff())) ==> rc == 0
      ensures rc == 0 ==> trace == old(trace) + BringActs(phyKept) + LinkActs(flags)
    {
      hide Holds, AfterRequest, VotesSucceed, StepsSucceed, Engines, AllPowered, Powered, HostsOn, HostsOff, Brought,
        BringActs, LinkActs;
      rc := BringUp(phyKept);
      if rc != 0 {
        return;
      }
      rc := LinkUp(flags, c, l);
      if rc == 0 {
        return;
      }
      BroughtIs(phyKept);
      var _ := HostDisable();
      var _ := Give(HostInit);
      var _ := Give(PhyUp);
    }

    static lemma InParts(t: seq<Act>, a: seq<Act>, b: seq<Act>, c: seq<Act>)
      ensures t + a + b + c == t + (a + b + c)
    {
    }

    lemma BroughtIs(phyKept: bool)
      ensures Brought(phyKept) <= {PhyUp, HostInit}
    {
    }

    /** The link vote of dsi_display_prepare() and the steps after it, the first rung of its rollback included. */
    method LinkUp(flags: ModeFlags, ghost c: int, ghost l: int) returns (rc: int)
      requires Valid()
      modifies `coreVote, `linkVote, `votes, `ctrls, `refused, `steps, `trace, `held
      ensures Valid() && (old(Engines()) ==> Engines()) && (old(Powered()) ==> Powered())
      ensures VotesSucceed() ==> refused == old(refused)
      ensures VotesSucceed() && old(Holds(c, l)) && c >= 0 && 0 <= l < U32_MAX ==> Holds(c, l + B2I(rc == 0))
      ensures old(refused) ==> refused
      ensures rc == 0 && !refused ==> (AllPowered() <==> old(AllPowered()))
      ensures HostsOn() <==> old(HostsOn())
      ensures held == if rc == 0 && !flags.poms && !contSplash then old(held) + {PanelReady} else old(held)
      ensures VotesSucceed() && StepsSucceed() ==> rc == 0
      ensures rc == 0 ==> trace == old(trace) + LinkActs(flags)
    {
      hide Holds, AfterRequest, VotesSucceed, StepsSucceed, Engines, AllPowered, Powered, HostsOn, HostsOff;
      rc := ClkCtrl(false, true, true, c, l);
      if rc != 0 || contSplash {
        return;
      }
      label ctrlLinkOff: {
        rc := Step(Did(SoftReset));
        if rc != 0 { break ctrlLinkOff; }
        if !flags.poms {
          rc := Take(PanelReady);
          if rc != 0 { break ctrlLinkOff; }
        }
        return;
      }
      var _ := ClkCtrl(false, true, false, c, l + 1);
    }

    /** The engine that the panel mode needs; the video engine is only a return code. */
    method EngineOn() returns (rc: int)
      requires Engines()
      modifies `ctrls, `redundant, `cmdEngineRefcount, `steps, `trace
      ensures Valid() && HostHolds() && redundant == old(redundant) && (AllPowered() <==> old(AllPowered()))
      ensures old(cmdEngineRefcount) < U32_MAX ==> Engines()
      ensures panelMode == VideoMode ==> cmdEngineRefcount == old(cmdEngineRefcount)
      ensures panelMode == CmdMode ==> (rc == 0 <==> old(cmdEngineRefcount > 0 || Switchable()))
      ensures panelMode == CmdMode ==>
        cmdEngineRefcount == if rc == 0 then Inc(old(cmdEngineRefcount)) else old(cmdEngineRefcount)
      ensures StepsSucceed() && old(Switchable()) ==> rc == 0
      ensures HostsOn() <==> old(HostsOn())
      ensures trace == old(trace) + [Engine(true)]
      ensures old(Powered()) ==> Powered()
    {
      if panelMode == VideoMode {
        rc := Step(Engine(true));
      } else {
        rc := CmdEngineEnable();
        trace := trace + [Engine(true)];
      }
    }

    function EnableActs(flags: ModeFlags, dscEnabled: bool): seq<Act>
    {
      (if flags.dms then [Did(PostSwitch)] else if flags.poms then [] else [Took(PanelOn)])
      + (if dscEnabled then [Did(Compression)] else [])
      + [if flags.dms then Did(SwitchPanel) else Engine(true)]
    }

    /** dsi_display_enable(): the first enable after a splash screen takes over the engine and gives the splash
        votes back; otherwise no vote moves, and a command panel holds the command engine exactly when the
        enable reached it and succeeded. */
    method Enable(flags: ModeFlags, dscEnabled: bool, ghost c: int, ghost l: int) returns (rc: int)
      requires Engines() && cmdEngineRefcount < U32_MAX
      modifies `coreVote, `linkVote, `votes, `ctrls, `refused, `steps
      modifies `trace, `contSplash, `redundant, `cmdEngineRefcount, `held
      ensures Engines() && redundant == old(redundant) && (old(Powered()) ==> Powered())
      ensures VotesSucceed() ==> refused == old(refused)
      ensures !contSplash
      ensures old(Holds(c, l)) && Room(c - 1, l - 1, 1) ==> Holds(c - B2I(old(contSplash)), l - B2I(old(contSplash)))
      ensures old(Holds(c, l) && !contSplash) ==> Holds(c, l)
      ensures cmdEngineRefcount != old(cmdEngineRefcount) ==>
        panelMode == CmdMode && cmdEngineRefcount == Inc(old(cmdEngineRefcount))
      ensures !old(contSplash) && rc == 0 && panelMode == CmdMode && !flags.dms ==>
        cmdEngineRefcount == Inc(old(cmdEngineRefcount))
      ensures !old(contSplash) && (rc != 0 || flags.dms) ==> cmdEngineRefcount == old(cmdEngineRefcount)
      ensures old(contSplash && (cmdEngineRefcount > 0 || Switchable())) && panelMode == CmdMode ==>
        cmdEngineRefcount == Inc(old(cmdEngineRefcount))
      ensures rc == 0 && !old(contSplash) ==>
        held == if flags.dms || flags.poms then old(held) else old(held) + {PanelOn}
      ensures rc != 0 && !old(contSplash) && !dscEnabled ==> held <= old(held)
      ensures !old(contSplash) ==> old(held) - {PanelOn} <= held <= old(held) + {PanelOn}
      ensures old(contSplash) ==> held == old(held) - {SplashGdsc}
      ensures StepsSucceed() && old(Switchable()) ==> rc == 0
      ensures HostsOn() <==> old(HostsOn())
      ensures rc == 0 && !old(contSplash) ==> trace == old(trace) + EnableActs(flags, dscEnabled)
    {
      hide Holds, EnginesFollow, HostHolds, Switchable, AllPowered, Powered, HostsOn, VotesSucceed, StepsSucceed;
      if contSplash {
        rc := EngineOn();
        rc := SplashResCleanup(c, l);
        if rc != 0 {
          rc := -EINVAL;
        }
        return;
      }
      rc := 0;
      if flags.dms {
        rc := Step(Did(PostSwitch));
        if rc != 0 {
          return;
        }
      } else if !flags.poms {
        rc := Take(PanelOn);
        if rc != 0 {
          return;
        }
      }
      if dscEnabled {
        rc := Step(Did(Compression));
        if rc != 0 {
          return;
        }
      }
      if flags.dms {
        rc := Step(Did(SwitchPanel));
        return;
      }
      rc := EngineOn();
      if rc != 0 {
        var _ := Give(PanelOn);
      }
    }

    /** The last hold on the command engine goes while a controller is without power. */
    predicate DropsInTheDark()
      reads `ctrls, `cmdEngineRefcount
    {
      panelMode == CmdMode && cmdEngineRefcount == 1 && !AllPowered()
    }

    /** dsi_display_disable(): a command panel lets the command engine go. The engines follow the count exactly
        when the controllers have the power to be switched off. */
    method Disable(pomsPending: bool) returns (rc: int)
      requires Engines()
      modifies `held, `steps, `trace, `ctrls, `redundant, `cmdEngineRefcount
      ensures Valid() && HostHolds() && redundant == old(redundant) && (AllPowered() <==> old(AllPowered()))
      ensures EnginesFollow() <==> !old(DropsInTheDark())
      ensures old(Powered()) ==> Powered()
      ensures cmdEngineRefcount ==
              if panelMode == VideoMode || old(cmdEngineRefcount) == 0 then old(cmdEngineRefcount)
              else old(cmdEngineRefcount) - 1
      ensures held == if pomsPending then old(held) else old(held) - {PanelOn}
      ensures HostsOn() <==> old(HostsOn())
      ensures trace == old(trace) + [Did(Woke), Engine(false)] + if pomsPending then [] else [Gave(PanelOn)]
    {
      rc := Step(Did(Woke));
      if panelMode == VideoMode {
        rc := Step(Engine(false));
      } else {
        rc := CmdEngineDisable();
        trace := trace + [Engine(false)];
      }
      if !pomsPending {
        rc := Give(PanelOn);
      }
    }

    /** dsi_display_post_enable(): a command panel lets the clocks go while it is static. */
    method PostEnable(ghost c: int, ghost l: int) returns (rc: int)
      requires Valid()
      modifies `coreVote, `linkVote, `votes, `ctrls, `refused, `steps, `trace
      ensures Valid() && (old(Engines()) ==> Engines()) && (old(Powered()) ==> Powered())
      ensures VotesSucceed() ==> refused == old(refused)
      ensures old(Holds(c, l)) && Room(c - 1, l - 1, 1) ==>
        Holds(c - B2I(panelMode == CmdMode), l - B2I(panelMode == CmdMode))
      ensures HostsOn() <==> old(HostsOn())
      ensures trace == old(trace) + [Did(PanelPostEnable)]
                       + if panelMode == CmdMode then [Clocks(true, true, false)] else []
    {
      rc := Step(Did(PanelPostEnable));
      if panelMode == CmdMode {
        var _ := ClkCtrl(true, true, false, c, l);
      }
    }

    /** dsi_display_pre_disable(): and takes them again before it is turned off. */
    method PreDisable(ghost c: int, ghost l: int) returns (rc: int)
      requires Valid()
      modifies `coreVote, `linkVote, `votes, `ctrls, `refused, `steps, `trace
      ensures Valid() && (old(Engines()) ==> Engines()) && (old(Powered()) ==> Powered())
      ensures VotesSucceed() ==> refused == old(refused)
      ensures old(Holds(c, l)) && Room(c, l, 1) ==> Holds(c + B2I(panelMode == CmdMode), l + B2I(panelMode == CmdMode))
      ensures HostsOn() <==> old(HostsOn())
      ensures trace == old(trace) + (if panelMode == CmdMode then [Clocks(true, true, true)] else [])
                       + [Did(PanelPreDisable)]
    {
      if panelMode == CmdMode {
        var _ := ClkCtrl(true, true, true, c, l);
      }
      rc := Step(Did(PanelPreDisable));
    }

    /** What dsi_display_unprepare() does, in order. */
    function UnprepareActs(pomsPending: bool, ulpsSuspend: bool): seq<Act>
    {
      StopActs(pomsPending) + LetGoActs(pomsPending, ulpsSuspend)
    }

    function StopActs(pomsPending: bool): seq<Act>
    {
      [Did(Woke)] + (if pomsPending then [] else [Gave(PanelReady)])
      + [Did(ClockSource), Hosts(false), Clocks(false, true, false)]
    }

    function LetGoActs(pomsPending: bool, ulpsSuspend: bool): seq<Act>
    {
      [Gave(HostInit)] + (if ulpsSuspend then [] else [Gave(PhyUp)])
      + [Clocks(true, false, false)] + (if pomsPending then [] else [Gave(PanelPower)])
    }

    /** Taking down undoes bringing up in the opposite order, with one exception: the hosts, which came on before the
        link clocks, go off before them too. */
    lemma TeardownMirrors(flags: ModeFlags, a: Act, b: Act)
      requires !contSplash && !flags.poms && Lasts(a) && Lasts(b)
      requires InOrder(PrepareActs(flags, false), a, b)
      ensures (a, b) != (Hosts(true), Clocks(false, true, true)) ==>
        InOrder(UnprepareActs(false, false), Undone(b), Undone(a))
      ensures (a, b) == (Hosts(true), Clocks(false, true, true)) ==>
        InOrder(UnprepareActs(false, false), Undone(a), Undone(b))
    {
      ListsAre(flags);
      hide PrepareActs, UnprepareActs, Undone;
      var i, j :| 0 <= i < j < |WAY_UP| && WAY_UP[i] == a && WAY_UP[j] == b;
      UndoneAt(i);
      UndoneAt(j);
      Opposite(i, j);
    }

    lemma ListsAre(flags: ModeFlags)
      requires !contSplash && !flags.poms
      ensures PrepareActs(flags, false) == WAY_UP && UnprepareActs(false, false) == WAY_DOWN
    {
    }

    /** dsi_display_unprepare(): the PHYs stay on for a panel that is to be suspended in ULPS. */
    method Unprepare(pomsPending: bool, ulpsSuspend: bool, ghost c: int, ghost l: int) returns (rc: int)
      requires Valid()
      modifies `coreVote, `linkVote, `votes, `ctrls, `refused, `steps, `trace, `held
      ensures Valid() && (old(Engines()) ==> Engines()) && (old(Powered()) ==> Powered())
      ensures VotesSucceed() ==> refused == old(refused)
      ensures old(Holds(c, l)) && Room(c - 1, l - 1, 1) ==> Holds(c - 1, l - 1)
      ensures held == old(held) - {HostInit} - (if pomsPending then {} else {PanelReady, PanelPower})
                      - (if ulpsSuspend then {} else {PhyUp})
      ensures old(AllPowered() && HostsOn() && EnginesOff()) ==> HostsOff()
      ensures trace == old(trace) + UnprepareActs(pomsPending, ulpsSuspend)
    {
      hide Holds, AfterRequest, Engines, AllPowered, Powered, VotesSucceed, StepsSucceed, HostsOn, HostsOff;
      rc := StopHosts(pomsPending, c, l);
      rc := LetGo(pomsPending, ulpsSuspend, c, l - 1);
      hide StopActs, LetGoActs;
      InParts(old(trace), [], StopActs(pomsPending), LetGoActs(pomsPending, ulpsSuspend));
    }

    /** The first half of dsi_display_unprepare(), down to the link clocks. */
    method StopHosts(pomsPending: bool, ghost c: int, ghost l: int) returns (rc: int)
      requires Valid()
      modifies `coreVote, `linkVote, `votes, `ctrls, `refused, `steps, `trace, `held
      ensures Valid() && (old(Engines()) ==> Engines()) && (old(Powered()) ==> Powered())
      ensures VotesSucceed() ==> refused == old(refused)
      ensures old(Holds(c, l)) && c >= 0 && l >= 1 ==> Holds(c, l - 1)
      ensures held == if pomsPending then old(held) else old(held) - {PanelReady}
      ensures old(AllPowered() && HostsOn() && EnginesOff()) ==> HostsOff()
      ensures trace == old(trace) + StopActs(pomsPending)
    {
      hide Holds, AfterRequest, Engines, AllPowered, Powered, VotesSucceed, StepsSucceed, HostsOn, HostsOff;
      rc := Step(Did(Woke));
      GiveUnless(pomsPending, PanelReady);
      rc := Step(Did(ClockSource));
      rc := HostDisable();
      rc := ClkCtrl(false, true, false, c, l);
    }

    /** The second half. */
    method LetGo(pomsPending: bool, ulpsSuspend: bool, ghost c: int, ghost l: int) returns (rc: int)
      requires Valid()
      modifies `coreVote, `linkVote, `votes, `ctrls, `refused, `steps, `trace, `held
      ensures Valid() && (old(Engines()) ==> Engines()) && (old(Powered()) ==> Powered())
      ensures VotesSucceed() ==> refused == old(refused)
      ensures old(Holds(c, l)) && c >= 1 && l >= 0 ==> Holds(c - 1, l)
      ensures held == old(held) - {HostInit} - (if pomsPending then {} else {PanelPower})
                      - (if ulpsSuspend then {} else {PhyUp})
      ensures HostsOff() <==> old(HostsOff())
      ensures trace == old(trace) + LetGoActs(pomsPending, ulpsSuspend)
    {
      hide Holds, AfterRequest, Engines, AllPowered, Powered, VotesSucceed, StepsSucceed, HostsOn, HostsOff;
      rc := Give(HostInit);
      GiveUnless(ulpsSuspend, PhyUp);
      rc := ClkCtrl(true, false, false, c, l);
      GiveUnless(pomsPending, PanelPower);
    }

    /** A whole life, from an optional splash screen to unprepare, on controllers in any state that the display
        can be in, whatever the steps in between report: every vote, every hold on the command engine and everything
        else that was taken is given back, for video and for command panels, except PHYs kept for ULPS. If nothing
        fails, the command engines of a command panel ran in between. */
    method Life(lit: bool, flags: ModeFlags, ulpsSuspend: bool, ulpsEnabled: bool, dscEnabled: bool, ghost c: int,
                ghost l: int)
      returns (prepared: bool, ran: bool)
      requires Holds(c, l) && Room(c, l, 2) && !contSplash && VotesSucceed()
      requires Engines() && Powered() && !refused && cmdEngineRefcount == 0
      modifies `coreVote, `linkVote, `votes, `ctrls, `refused, `steps
      modifies `trace, `contSplash, `redundant, `cmdEngineRefcount, `held
      ensures prepared ==> Holds(c, l) && !contSplash
      ensures !prepared && !contSplash ==> Holds(c, l)
      ensures Engines() && Powered() && !refused && cmdEngineRefcount == 0 && redundant == old(redundant)
      ensures old(held) == {} && !flags.poms && prepared ==>
        held == if ulpsSuspend && !ulpsEnabled && !flags.dms then {PhyUp} else {}
      ensures old(held) == {} && !prepared && !contSplash ==> held == {}
      ensures StepsSucceed() && old(HostsOff()) && !flags.dms ==> prepared && (panelMode == CmdMode ==> ran)
      ensures StepsSucceed() && old(HostsOff()) && !flags.dms ==> HostsOff()
    {
      hide Engines, Powered, Holds, VotesSucceed, HostsOn, HostsOff, AllPowered, StepsSucceed, Switchable;
      EnginesAre();
      ran := false;
      var rc := ContSplashConfig(lit, c, l);
      ghost var k := B2I(contSplash);
      rc := Prepare(flags, ulpsSuspend && ulpsEnabled, c + k, l + k);
      if rc != 0 {
        return false, false;
      }
      UpIsSwitchable();
      ran := OnAndOff(flags, ulpsSuspend, dscEnabled, c, l);
      prepared := true;
    }

    /** The part of a life from enable to unprepare. */
    method OnAndOff(flags: ModeFlags, ulpsSuspend: bool, dscEnabled: bool, ghost c: int, ghost l: int)
      returns (ran: bool)
      requires Holds(c + B2I(contSplash) + 1, l + B2I(contSplash) + 1) && Room(c, l, 2) && VotesSucceed()
      requires Engines() && Powered() && !refused && cmdEngineRefcount == 0
      modifies `coreVote, `linkVote, `votes, `ctrls, `refused, `steps
      modifies `trace, `contSplash, `redundant, `cmdEngineRefcount, `held
      ensures Holds(c, l) && !contSplash
      ensures Engines() && Powered() && !refused && cmdEngineRefcount == 0 && redundant == old(redundant)
      ensures !flags.poms ==> held <= old(held) - {HostInit, PanelReady, PanelPower, PanelOn}
      ensures old(contSplash) ==> SplashGdsc !in held
      ensures PhyUp in held <==> PhyUp in old(held) && ulpsSuspend
      ensures StepsSucceed() && old(Switchable()) && !flags.dms && panelMode == CmdMode ==> ran
      ensures old(Switchable()) ==> HostsOff()
    {
      hide Engines, Powered, Holds, VotesSucceed, HostsOn, HostsOff, AllPowered, StepsSucceed, Switchable;
      EnginesAre();
      UpIsSwitchable();
      ghost var k := B2I(contSplash);
      var rc := Enable(flags, dscEnabled, c + k + 1, l + k + 1);
      ran := EnginesOn();
      EnginesAre();
      rc := PostEnable(c + 1, l + 1);
      rc := PreDisable(c + 1 - B2I(panelMode == CmdMode), l + 1 - B2I(panelMode == CmdMode));
      HoldsPower(c + 1, l + 1);
      rc := Disable(flags.poms);
      EnginesAre();
      NoEngines();
      rc := Unprepare(flags.poms, ulpsSuspend, c + 1, l + 1);
    }

    lemma NoEngines()
      ensures EnginesFollow() && cmdEngineRefcount == 0 ==> EnginesOff()
    {
    }

    lemma UpIsSwitchable()
      ensures AllPowered() && HostsOn() <==> Switchable()
    {
    }

    /** A client that holds the core clocks does not drop the command engine in the dark. */
    lemma HoldsPower(c: int, l: int)
      ensures Holds(c, l) && c > 0 && Powered() && !refused ==> !DropsInTheDark() && AllPowered()
    {
    }

    lemma EnginesAre()
      ensures Engines() <==> Valid() && EnginesFollow() && HostHolds()
    {
    }

    /** Any run of the display's operations, with transfers, clock votes of this and of other clients, granted
        or refused, in between, up to the first disable that drops the command engine in the dark. Until then
        every controller's command engine is on exactly while the display holds it, and no controller is ever
        asked for the engine state it is in; such a disable is where the engines stop following. While no vote
        was refused it takes a disable by a client that holds no core reference. */
    method RunEngines(uses: seq<Use>) returns (upTo: nat, dark: bool)
      requires Engines() && Powered() && cmdEngineRefcount + |uses| <= U32_MAX
      modifies this
      ensures upTo <= |uses| && redundant == old(redundant) && Powered() && HostHolds() && Valid()
      ensures !dark ==> upTo == |uses| && Engines()
      ensures dark ==> upTo > 0 && uses[upTo - 1].TurnOff? && !EnginesFollow() && (!refused ==> coreVote.state != On)
    {
      hide Engines, Powered;
      upTo, dark := 0, false;
      for n := 0 to |uses|
        invariant Engines() && Powered() && redundant == old(redundant) && upTo == n && !dark
        invariant cmdEngineRefcount <= old(cmdEngineRefcount) + n
      {
        upTo := n + 1;
        EnginesAre();
        match uses[n] {
          case Splash(lit) =>
            if !contSplash {
              var rc := ContSplashConfig(lit, 0, 0);
            }
          case Bring(flags, phyKept) => var rc := Prepare(flags, phyKept, 0, 0);
          case TurnOn(flags, dscEnabled) => var rc := Enable(flags, dscEnabled, 0, 0);
          case GoStatic => var rc := PostEnable(0, 0);
          case WakeUp => var rc := PreDisable(0, 0);
          case TurnOff(pomsPending) =>
            dark := DropsInTheDark();
            DarkIsUnheld();
            var rc := Disable(pomsPending);
            EnginesAre();
            if dark {
              return;
            }
          case TakeDown(pomsPending, ulpsSuspend) => var rc := Unprepare(pomsPending, ulpsSuspend, 0, 0);
          case Transfer(esdRecovery) => var rc := HostTransfer(esdRecovery, 0, 0);
          case Ask(core, link, on) => var rc := ClkCtrl(core, link, on, 0, 0);
          case Others => OthersVote();
        }
      }
      EnginesAre();
    }

    lemma DarkIsUnheld()
      ensures DropsInTheDark() && Powered() && !refused ==> coreVote.state != On
    {
    }
  }

  /** What uses the display: its own operations in any order, transfers, and clock votes. */
  datatype Use =
    | Splash(lit: bool)
    | Bring(flags: ModeFlags, phyKept: bool)
    | TurnOn(flags: ModeFlags, dscEnabled: bool)
    | GoStatic
    | WakeUp
    | TurnOff(pomsPending: bool)
    | TakeDown(pomsPending: bool, ulpsSuspend: bool)
    | Transfer(esdRecovery: bool)
    | Ask(core: bool, link: bool, on: bool)
    | Others
}
