/** The hardware half of the DSI clock manager: start, stop, prepare and enable sequences with their
    rollback ladders, master controller before slaves on the way up and after them on the way down. */
module DsiClkHw {

  import opened Common
  import opened DsiClkVotes
  import opened DsiClkBoard

  class ClkHw {
    const cfg: Config
    // Return codes of the calls that turn something on, respectively off, in call order.
    const onRc: nat -> int
    const offRc: nat -> int

    var board: Board
    var contSplash: bool
    var onCalls: nat
    var offCalls: nat
    ghost var onFaults: nat
    ghost var offFaults: nat
    ghost var visited: set<Board>
    // Whether the rate of an HS clock was ever set while one of its controller's was prepared.
    ghost var ratedLive: bool

    constructor (cfg: Config, onRc: nat -> int, offRc: nat -> int)
      ensures Valid() && Ordered() && !RanBare() && Laddered() && HsInStep() && !ratedLive
      ensures this.cfg == cfg && this.onRc == onRc && this.offRc == offRc
      ensures Level(cfg, board, Off, Off, 0)
      ensures onFaults == offFaults == 0 && onCalls == offCalls == 0 && !contSplash
    {
      this.cfg, this.onRc, this.offRc := cfg, onRc, offRc;
      var none := Board(seq(|cfg.parts|, _ => CoreClks(0, 0, 0, 0, 0, 0, 0)),
                        seq(|cfg.parts|, _ => LinkClks(0, 0, 0, 0, 0, 0, 0, 0)), 0, 0);
      board, visited, ratedLive := none, {none}, false;
      contSplash, onCalls, offCalls, onFaults, offFaults := false, 0, 0, 0, 0;
    }

    ghost predicate Valid()
      reads this
    {
      Shape(cfg, board) && board in visited
    }

    /** Every state the hardware has been through obeys the ordering rules. */
    ghost predicate Ordered()
      reads `visited
    {
      AllSafe(cfg, visited)
    }

    /** Something on the core side has once run without the regulators. */
    ghost predicate RanBare()
      reads `visited
    {
      AnyBare(visited)
    }

    /** The core side has stayed on its ladder throughout. */
    ghost predicate Laddered()
      reads `visited
    {
      AllOnLadder(cfg, visited)
    }

    /** The HS clocks have stayed in step throughout. */
    ghost predicate HsInStep()
      reads `visited
    {
      AllInStep(cfg, visited)
    }

    // ---- primitive calls ----

    method OnCall() returns (rc: int)
      modifies `onCalls, `onFaults
      ensures rc == onRc(old(onCalls)) && onCalls == old(onCalls) + 1
      ensures onFaults == old(onFaults) + B2I(rc != 0)
    {
      rc := onRc(onCalls);
      onCalls := onCalls + 1;
      onFaults := onFaults + B2I(rc != 0);
    }

    method OffCall() returns (rc: int)
      modifies `offCalls, `offFaults
      ensures rc == offRc(old(offCalls)) && offCalls == old(offCalls) + 1
      ensures offFaults == old(offFaults) + B2I(rc != 0)
    {
      rc := offRc(offCalls);
      offCalls := offCalls + 1;
      offFaults := offFaults + B2I(rc != 0);
    }

    method SetBoard(b: Board)
      requires Valid() && Shape(cfg, b)
      modifies `board, `visited
      ensures Valid() && board == b && visited == old(visited) + {b}
      ensures RanBare() == (old(RanBare()) || !Supplied(b))
      ensures Laddered() == (old(Laddered()) && OnLadder(cfg, b))
      ensures HsInStep() == (old(HsInStep()) && InStep(cfg, b))
    {
      board := b;
      visited := visited + {b};
    }

    // ---- core clocks of one controller ----

    /** Apart from the boards in before, the hardware has only been through boards that differ from
        base in controller i's core side. */
    ghost predicate CoreTrail(base: Board, i: nat, before: set<Board>)
      reads this
    {
      && Valid() && i < |cfg.parts| && Shape(cfg, base)
      && board == WithCore(base, i, board.core[i]) && before <= visited
      && forall b | b in visited :: b in before || (i < |b.core| && b == WithCore(base, i, b.core[i]))
    }

    method SetCore(i: nat, c: CoreClks, ghost base: Board, ghost before: set<Board>)
      requires CoreTrail(base, i, before)
      modifies `board, `visited
      ensures CoreTrail(base, i, before) && board.core[i] == c
      ensures old(Laddered()) && Ladder(cfg.parts[i], c) ==> Laddered()
    {
      SetBoard(WithCore(board, i, c));
    }

    lemma LadderedNow(i: nat)
      requires Valid() && i < |cfg.parts|
      ensures Laddered() ==> Ladder(cfg.parts[i], board.core[i])
    {
    }

    lemma SuppliedNow()
      requires Valid()
      ensures RanBare() || Supplied(board)
    {
    }

    lemma LadderedBoard()
      requires Valid()
      ensures Laddered() ==> OnLadder(cfg, board)
    {
    }

    /** clk_prepare_enable() of core clock k if controller i has it. */
    method ClkOn(i: nat, k: CoreClk, ghost base: Board, ghost before: set<Board>) returns (rc: int)
      requires CoreTrail(base, i, before)
      modifies `board, `visited, `onCalls, `onFaults
      ensures CoreTrail(base, i, before) && onFaults == old(onFaults) + B2I(rc != 0)
      ensures rc == 0 ==> board.core[i] == Rung(cfg.parts[i], old(board).core[i], k, 1)
      ensures rc != 0 ==> board.core[i] == old(board).core[i]
      ensures old(Laddered()) && Ladder(cfg.parts[i], Rung(cfg.parts[i], old(board).core[i], k, 1)) ==> Laddered()
    {
      rc := 0;
      if Present(cfg.parts[i], k) {
        rc := OnCall();
        if rc == 0 {
          SetCore(i, Bump(board.core[i], k, 1), base, before);
        }
      }
    }

    /** clk_disable_unprepare() of core clock k if controller i has it. */
    method ClkOff(i: nat, k: CoreClk, ghost base: Board, ghost before: set<Board>)
      requires CoreTrail(base, i, before)
      modifies `board, `visited
      ensures CoreTrail(base, i, before)
      ensures board.core[i] == Rung(cfg.parts[i], old(board).core[i], k, -1)
      ensures old(Laddered()) && Ladder(cfg.parts[i], Rung(cfg.parts[i], old(board).core[i], k, -1)) ==> Laddered()
    {
      if Present(cfg.parts[i], k) {
        SetCore(i, Bump(board.core[i], k, -1), base, before);
      }
    }

    /** msm_bus_scale_client_update_request(handle, 1) if controller i has a bus handle. */
    method BusOn(i: nat, ghost base: Board, ghost before: set<Board>) returns (rc: int)
      requires CoreTrail(base, i, before)
      modifies `board, `visited, `onCalls, `onFaults
      ensures CoreTrail(base, i, before) && onFaults == old(onFaults) + B2I(rc != 0)
      ensures rc == 0 && cfg.parts[i].busHandle ==> board.core[i] == old(board).core[i].(busLevel := 1)
      ensures rc != 0 || !cfg.parts[i].busHandle ==> board.core[i] == old(board).core[i]
      ensures old(Laddered()) && Ladder(cfg.parts[i], old(board).core[i].(busLevel := 1)) ==> Laddered()
    {
      rc := 0;
      if cfg.parts[i].busHandle {
        rc := OnCall();
        if rc == 0 {
          SetCore(i, board.core[i].(busLevel := 1), base, before);
        }
      }
    }

    /** The upper rungs of CoreClkStart: bus and MMSS clocks, then the bus request. */
    method CoreClkStartUpper(i: nat, ghost base: Board, ghost before: set<Board>) returns (rc: int)
      requires CoreTrail(base, i, before)
      modifies `board, `visited, `onCalls, `onFaults
      ensures CoreTrail(base, i, before) && onFaults == old(onFaults) + B2I(rc != 0)
      ensures rc == 0 ==> board.core[i] == UpperUp(cfg.parts[i], old(board).core[i])
      ensures rc != 0 ==> board.core[i] == old(board).core[i]
      ensures old(Laddered()) && Ladder(cfg.parts[i], UpperUp(cfg.parts[i], old(board).core[i])) ==> Laddered()
    {
      ghost var p, c := cfg.parts[i], board.core[i];
      LadderedNow(i);
      UpperRungs(p, c);
      hide Ladder, Rung, ClocksUp, UpperUp, ClocksDown, Laddered;
      label error: {
        label disableBus: {
          label disableMmss: {
            rc := ClkOn(i, Bus, base, before);
            if rc != 0 { break error; }
            rc := ClkOn(i, Mmss, base, before);
            if rc != 0 { break disableBus; }
            rc := BusOn(i, base, before);
            if rc != 0 { break disableMmss; }
            return;
          }
          ClkOff(i, Mmss, base, before);
        }
        ClkOff(i, Bus, base, before);
      }
    }

    /** Starts every present core clock of controller i and votes on the bus, or changes nothing. */
    method CoreClkStart(i: nat, ghost base: Board, ghost before: set<Board>) returns (rc: int)
      requires CoreTrail(base, i, before)
      modifies `board, `visited, `onCalls, `onFaults
      ensures CoreTrail(base, i, before) && onFaults == old(onFaults) + B2I(rc != 0)
      ensures rc == 0 ==> board.core[i] == ClocksUp(cfg.parts[i], old(board).core[i])
      ensures rc != 0 ==> board.core[i] == old(board).core[i]
      ensures old(Laddered()) && Ladder(cfg.parts[i], ClocksUp(cfg.parts[i], old(board).core[i])) ==> Laddered()
    {
      ghost var p, c := cfg.parts[i], board.core[i];
      LadderedNow(i);
      LowerRungs(p, c);
      LowerRungsHold(p, c);
      hide Ladder, Rung, ClocksUp, UpperUp, ClocksDown, Laddered;
      label error: {
        label disableCore: {
          label disableMnoc: {
            label disableIface: {
              rc := ClkOn(i, Mdp, base, before);
              if rc != 0 { break error; }
              rc := ClkOn(i, Mnoc, base, before);
              if rc != 0 { break disableCore; }
              rc := ClkOn(i, Iface, base, before);
              if rc != 0 { break disableMnoc; }
              rc := CoreClkStartUpper(i, base, before);
              if rc != 0 { break disableIface; }
              return;
            }
            ClkOff(i, Iface, base, before);
          }
          ClkOff(i, Mnoc, base, before);
        }
        ClkOff(i, Mdp, base, before);
      }
    }

    /** Stops every present core clock of controller i; only the bus request can fail, and then
        nothing has changed. */
    method CoreClkStop(i: nat, ghost base: Board, ghost before: set<Board>) returns (rc: int)
      requires CoreTrail(base, i, before)
      modifies `board, `visited, `offCalls, `offFaults
      ensures CoreTrail(base, i, before) && offFaults == old(offFaults) + B2I(rc != 0)
      ensures offCalls == old(offCalls) + B2I(cfg.parts[i].busHandle)
      ensures rc != 0 <==> cfg.parts[i].busHandle && offRc(old(offCalls)) != 0
      ensures board.core[i] == if rc == 0 then ClocksDown(cfg.parts[i], old(board).core[i]) else old(board).core[i]
      ensures old(Laddered()) && Ladder(cfg.parts[i], ClocksDown(cfg.parts[i], old(board).core[i])) ==> Laddered()
    {
      ghost var p, c := cfg.parts[i], board.core[i];
      LadderedNow(i);
      RungsDown(p, c);
      hide Ladder, Rung, ClocksUp, UpperUp, ClocksDown, Laddered;
      rc := 0;
      if cfg.parts[i].busHandle {
        rc := OffCall();
        if rc != 0 {
          return;
        }
        SetCore(i, board.core[i].(busLevel := 0), base, before);
      }
      ClkOff(i, Mmss, base, before);
      ClkOff(i, Bus, base, before);
      ClkOff(i, Iface, base, before);
      ClkOff(i, Mnoc, base, before);
      ClkOff(i, Mdp, base, before);
    }

    /** sde_power_resource_enable(..., true) for controller i. */
    method PowerOn(i: nat, ghost base: Board, ghost before: set<Board>) returns (rc: int)
      requires CoreTrail(base, i, before)
      modifies `board, `visited, `onCalls, `onFaults
      ensures CoreTrail(base, i, before) && onFaults == old(onFaults) + B2I(rc != 0)
      ensures board.core[i] == old(board).core[i].(power := old(board).core[i].power + B2I(rc == 0))
      ensures old(Laddered()) ==> Laddered()
    {
      rc := OnCall();
      if rc == 0 {
        SetCore(i, board.core[i].(power := board.core[i].power + 1), base, before);
      }
    }

    /** sde_power_resource_enable(..., false) for controller i. */
    method PowerOff(i: nat, ghost base: Board, ghost before: set<Board>) returns (rc: int)
      requires CoreTrail(base, i, before)
      modifies `board, `visited, `offCalls, `offFaults
      ensures CoreTrail(base, i, before) && offFaults == old(offFaults) + B2I(rc != 0)
      ensures rc == offRc(old(offCalls)) && offCalls == old(offCalls) + 1
      ensures board.core[i] == old(board).core[i].(power := old(board).core[i].power - B2I(rc == 0))
      ensures old(Laddered()) && Ladder(cfg.parts[i], old(board).core[i].(power := old(board).core[i].power - 1)) ==>
        Laddered()
    {
      rc := OffCall();
      if rc == 0 {
        SetCore(i, board.core[i].(power := board.core[i].power - 1), base, before);
      }
    }

    /** Power resource, then core clocks of one controller, all or nothing. */
    method CoreOn(i: nat) returns (rc: int)
      requires Valid() && i < |cfg.parts|
      modifies `board, `visited, `onCalls, `onFaults, `offCalls, `offFaults
      ensures Valid() && onFaults == old(onFaults) + B2I(rc != 0)
      ensures rc == 0 ==> offFaults == old(offFaults) && offCalls == old(offCalls)
      ensures rc == 0 ==> board == WithCore(old(board), i, CoreUpOnce(cfg.parts[i], old(board).core[i]))
      ensures rc != 0 && offFaults == old(offFaults) ==> board == old(board)
      ensures rc != 0 && offFaults != old(offFaults) ==> board == WithCore(old(board), i, PowerLeft(old(board).core[i]))
      ensures offFaults >= old(offFaults)
      ensures old(Ordered()) && CanMoveCore(cfg, old(board), i) ==> Ordered() && CanMoveCore(cfg, board, i)
      ensures old(RanBare() || RegsUp(board)) ==> RanBare() == old(RanBare())
      ensures SameRegs(board, old(board))
      ensures old(Laddered()) ==> Laddered()
      ensures old(HsInStep()) ==> HsInStep()
    {
      ghost var b0, v0 := board, visited;
      rc := PowerOn(i, b0, v0);
      if rc == 0 {
        rc := CoreClkStart(i, b0, v0);
        if rc != 0 {
          var _ := PowerOff(i, b0, v0);
        }
      }
      assert board.core[i] == b0.core[i] ==> board.core == b0.core;
      WalkDone(i, b0, v0);
    }

    lemma WalkDone(i: nat, base: Board, before: set<Board>)
      requires CoreTrail(base, i, before)
      ensures AllSafe(cfg, before) && CanMoveCore(cfg, base, i) ==> Ordered() && CanMoveCore(cfg, board, i)
      ensures AnyBare(before) || RegsUp(base) ==> (RanBare() <==> AnyBare(before))
      ensures AllInStep(cfg, before) && base in before ==> HsInStep()
    {
      if AllSafe(cfg, before) && CanMoveCore(cfg, base, i) {
        CoreWalkSafe(cfg, base, i, before, visited);
        MoveCoreSafe(cfg, base, i, board.core[i]);
      }
    }

    /** The error_disable_master rung: stop the master's clocks, then drop its power vote either way. */
    method CoreUndoMaster(ghost base: Board, ghost i: nat)
      requires Valid()
      modifies `board, `visited, `offCalls, `offFaults
      ensures Valid() && offFaults >= old(offFaults)
      ensures offFaults == old(offFaults) ==>
        board == WithCore(old(board), cfg.master, CoreDownOnce(cfg.parts[cfg.master], old(board).core[cfg.master]))
      ensures old(Ordered()) && CanMoveCore(cfg, old(board), cfg.master) ==> Ordered()
      ensures old(RanBare() || RegsUp(board)) ==> RanBare() == old(RanBare())
      ensures SameRegs(board, old(board))
      ensures old(Laddered()) && offFaults == old(offFaults) && OnLadder(cfg, base)
              && RaisedBelow(cfg, base, old(board), i) ==>
        Laddered()
      ensures old(HsInStep()) ==> HsInStep()
    {
      LadderedNow(cfg.master);
      PowerLast(cfg.parts[cfg.master], board.core[cfg.master]);
      if RaisedBelow(cfg, base, board, i) {
        MasterLowers(cfg, base, board, i);
      }
      hide Ladder, ClocksDown, CoreDownOnce, Laddered, HsInStep, OnLadder, RaisedBelow;
      ghost var b0, v0 := board, visited;
      var _ := CoreClkStop(cfg.master, b0, v0);
      var _ := PowerOff(cfg.master, b0, v0);
      WalkDone(cfg.master, b0, v0);
    }

    /** Turns the core clocks of all controllers on, master first, or restores every count. */
    method CoreEnable() returns (rc: int)
      requires Valid()
      modifies `board, `visited, `onCalls, `onFaults, `offCalls, `offFaults
      ensures Valid() && onFaults == old(onFaults) + B2I(rc != 0) && offFaults >= old(offFaults)
      ensures rc == 0 ==>
        offFaults == old(offFaults) && offCalls == old(offCalls) && board == CoresRaised(cfg, old(board))
      ensures rc != 0 && offFaults == old(offFaults) ==> RestoredButBus(cfg, old(board), board)
      ensures old(Ordered()) && CoresQuiet(cfg, old(board)) && offFaults == old(offFaults) ==> Ordered()
      ensures rc == 0 && old(RanBare() || RegsUp(board)) ==> RanBare() == old(RanBare())
      ensures SameRegs(board, old(board))
      ensures old(Laddered()) && offFaults == old(offFaults) ==> Laddered()
      ensures old(HsInStep()) ==> HsInStep()
    {
      hide Safe, CoresQuiet, CanMoveCore, Ladder, Laddered, HsInStep, AllSafe, AnyBare, OnLadder;
      ghost var b0 := board;
      LadderedBoard();
      ghost var quiet := Ordered() && CoresQuiet(cfg, b0);
      if quiet {
        QuietMasterMovable(cfg, b0);
      }
      rc := CoreOn(cfg.master);
      if rc != 0 {
        return;
      }
      for i := 0 to |cfg.parts|
        invariant Valid() && rc == 0 && onFaults == old(onFaults) && offFaults == old(offFaults)
                && offCalls == old(offCalls)
        invariant RaisedBelow(cfg, b0, board, i)
        invariant quiet ==> Ordered()
        invariant old(Laddered()) ==> Laddered()
        invariant old(HsInStep()) ==> HsInStep()
        invariant old(RanBare() || RegsUp(board)) ==> RanBare() == old(RanBare())
      {
        if i == cfg.master {
          continue;
        }
        ghost var b1 := board;
        if quiet {
          RaisedSlaveMovable(cfg, b0, b1, i);
        }
        rc := CoreOn(i);
        if rc != 0 {
          UndoRestores(cfg, b0, b1, i);
          CoreUndoMaster(b0, i);
          return;
        }
      }
      assert board.core == CoresRaised(cfg, b0).core;
    }

    /** The board after controller i's way down was refused, its calls starting at call t: a refused bus
        request leaves it as it was, a refused power vote leaves only that vote. */
    function AfterRefusedOff(b: Board, i: nat, t: nat): Board
      requires Shape(cfg, b) && i < |cfg.parts|
    {
      if cfg.parts[i].busHandle && offRc(t) != 0 then b else WithCore(b, i, ClocksDown(cfg.parts[i], b.core[i]))
    }

    /** The calls that turn controller i off. */
    function CoreOffCalls(i: nat): nat
      requires i < |cfg.parts|
    {
      B2I(cfg.parts[i].busHandle) + 1
    }

    /** The board after a refused descent that made the calls from t up to u: with a slave the first calls
        are the slave's, and a slave that did go off stays off. */
    function AfterRefusedDisable(b: Board, t: nat, u: nat): (r: Board)
      requires Shape(cfg, b)
      ensures Shape(cfg, r)
    {
      if |cfg.parts| == 1 then AfterRefusedOff(b, cfg.master, t)
      else
        var s := 1 - cfg.master;
        if u <= t + CoreOffCalls(s) then AfterRefusedOff(b, s, t)
        else AfterRefusedOff(WithCore(b, s, CoreDownOnce(cfg.parts[s], b.core[s])), cfg.master, t + CoreOffCalls(s))
    }

    /** Turns the core clocks of all controllers off, master last; a refused call stops the descent. */
    method CoreDisable() returns (rc: int)
      requires Valid()
      modifies `board, `visited, `offCalls, `offFaults
      ensures Valid() && offFaults == old(offFaults) + B2I(rc != 0)
      ensures rc == 0 ==> board == CoresLowered(cfg, old(board))
      ensures rc != 0 ==> board == AfterRefusedDisable(old(board), old(offCalls), offCalls)
      ensures old(Ordered()) && LinksIdle(cfg, old(board)) && AllCoreAt(cfg, old(board), true) ==> Ordered()
      ensures rc == 0 && old(RanBare() || RegsUp(board)) ==> RanBare() == old(RanBare())
      ensures SameRegs(board, old(board))
      ensures old(Laddered()) && CanLower(cfg, old(board)) ==> Laddered()
      ensures old(HsInStep()) ==> HsInStep()
    {
      hide Safe, CanMoveCore, CoreDownOnce, CoreOffCalls, AfterRefusedOff, LinksIdle, AllCoreAt;
      hide Ladder, Laddered, HsInStep;
      rc := 0;
      ghost var b0, t := board, offCalls;
      ghost var loaded := Ordered() && LinksIdle(cfg, b0) && AllCoreAt(cfg, b0, true);
      for i := 0 to |cfg.parts|
        invariant Valid() && rc == 0 && offFaults == old(offFaults)
        invariant LoweredBelow(cfg, b0, board, i)
        invariant offCalls == t + if i > 1 - cfg.master then CoreOffCalls(1 - cfg.master) else 0
        invariant loaded ==> Ordered()
        invariant (old(Laddered()) && CanLower(cfg, b0) ==> Laddered()) && (old(HsInStep()) ==> HsInStep())
        invariant old(RanBare() || RegsUp(board)) ==> RanBare() == old(RanBare())
      {
        if i == cfg.master {
          continue;
        }
        if loaded {
          LoweredSlaveMovable(cfg, b0, board, i);
        }
        FirstSlave(cfg, b0, board, i);
        rc := CoreOff(i);
        if rc != 0 {
          return;
        }
      }
      if loaded {
        LoweredMasterMovable(cfg, b0, board);
      }
      SlavesLowered(cfg, b0, board);
      rc := CoreOff(cfg.master);
      if rc == 0 {
        assert board.core == CoresLowered(cfg, b0).core;
      }
    }

    /** Core clocks, then power resource of one controller. */
    method CoreOff(i: nat) returns (rc: int)
      requires Valid() && i < |cfg.parts|
      modifies `board, `visited, `offCalls, `offFaults
      ensures Valid() && offFaults == old(offFaults) + B2I(rc != 0)
      ensures rc == 0 ==> board == WithCore(old(board), i, CoreDownOnce(cfg.parts[i], old(board).core[i]))
      ensures rc != 0 ==> board == AfterRefusedOff(old(board), i, old(offCalls))
      ensures rc == 0 ==> offCalls == old(offCalls) + CoreOffCalls(i)
      ensures old(offCalls) < offCalls <= old(offCalls) + CoreOffCalls(i)
      ensures old(Ordered()) && CanMoveCore(cfg, old(board), i) ==> Ordered()
      ensures old(RanBare() || RegsUp(board)) ==> RanBare() == old(RanBare())
      ensures SameRegs(board, old(board))
      ensures old(Laddered()) && Ladder(cfg.parts[i], CoreDownOnce(cfg.parts[i], old(board).core[i])) ==> Laddered()
      ensures old(HsInStep()) ==> HsInStep()
    {
      LadderedNow(i);
      PowerLast(cfg.parts[i], board.core[i]);
      hide Ladder, ClocksDown, CoreDownOnce, Laddered, HsInStep;
      ghost var b0, v0 := board, visited;
      rc := CoreClkStop(i, b0, v0);
      if rc == 0 {
        rc := PowerOff(i, b0, v0);
      }
      assert board.core[i] == b0.core[i] ==> board.core == b0.core;
      WalkDone(i, b0, v0);
    }

    // ---- link clocks of one controller ----

    /** Apart from the boards in before, the hardware has only been through boards that differ from
        base in the selected link clocks of controller i. */
    ghost predicate LinkTrail(base: Board, i: nat, mask: LinkMask, before: set<Board>)
      reads this
    {
      && Valid() && i < |cfg.parts| && Shape(cfg, base)
      && board == WithLink(base, i, board.link[i]) && before <= visited && Kept(mask, base.link[i], board.link[i])
      && forall b | b in visited ::
           b in before || (i < |b.link| && b == WithLink(base, i, b.link[i]) && Kept(mask, base.link[i], b.link[i]))
    }

    lemma LinkWalkDone(i: nat, mask: LinkMask, base: Board, before: set<Board>)
      requires mask == LP || mask == HS
      requires LinkTrail(base, i, mask, before)
      ensures AllSafe(cfg, before) && CanMoveLink(cfg, base, i, mask) ==> Ordered() && CanMoveLink(cfg, board, i, mask)
      ensures AnyBare(before) || Supplied(base) ==> (RanBare() <==> AnyBare(before))
      ensures AllOnLadder(cfg, before) && base in before ==> Laddered()
    {
      if AllSafe(cfg, before) && CanMoveLink(cfg, base, i, mask) {
        LinkWalkSafe(cfg, base, i, mask, before, visited);
        MoveLinkSafe(cfg, base, i, mask, board.link[i]);
      }
    }

    method SetLink(i: nat, l: LinkClks, ghost mask: LinkMask, ghost base: Board, ghost before: set<Board>)
      requires LinkTrail(base, i, mask, before) && Kept(mask, base.link[i], l)
      modifies `board, `visited
      ensures LinkTrail(base, i, mask, before) && board.link[i] == l
      ensures old(HsInStep()) && Stepped(cfg.parts[i], l) ==> HsInStep()
    {
      SetBoard(WithLink(board, i, l));
    }

    lemma SteppedNow(i: nat)
      requires Valid() && i < |cfg.parts|
      ensures HsInStep() ==> Stepped(cfg.parts[i], board.link[i])
    {
    }

    /** How many HS clocks controller i has. */
    function HsClks(i: nat): nat
      requires i < |cfg.parts|
    {
      2 + B2I(cfg.parts[i].byteIntf)
    }

    /** The calls that start its HS clocks, respectively its LP clock. */
    function HsCalls(i: nat): nat
      requires i < |cfg.parts|
      reads `contSplash
    {
      (if contSplash then 0 else HsClks(i)) + 2 * HsClks(i)
    }

    function LpCalls(): nat
      reads `contSplash
    {
      if contSplash then 1 else 2
    }

    function LinkCalls(i: nat, mask: LinkMask): (r: nat)
      requires i < |cfg.parts|
      reads `contSplash
      ensures mask.lp || mask.hs ==> r > 0
    {
      (if mask.lp then LpCalls() else 0) + (if mask.hs then HsCalls(i) else 0)
    }

    /** Sets the rates of the byte, pixel and byte interface clocks, unless the splash screen is live. */
    method HsSetRate(i: nat) returns (rc: int)
      requires Valid() && i < |cfg.parts|
      modifies `onCalls, `onFaults, `ratedLive
      ensures onFaults == old(onFaults) + B2I(rc != 0)
      ensures contSplash ==> rc == 0 && onCalls == old(onCalls)
      ensures !contSplash ==> old(onCalls) < onCalls <= old(onCalls) + HsClks(i) && rc == onRc(onCalls - 1)
      ensures !contSplash && rc == 0 ==> onCalls == old(onCalls) + HsClks(i)
      ensures ratedLive == (old(ratedLive) || (!contSplash && HsHeld(cfg.parts[i], board.link[i])))
    {
      rc := 0;
      if contSplash {
        return;
      }
      ratedLive := ratedLive || HsHeld(cfg.parts[i], board.link[i]);
      rc := OnCall();
      if rc != 0 {
        return;
      }
      rc := OnCall();
      if rc != 0 {
        return;
      }
      if cfg.parts[i].byteIntf {
        rc := OnCall();
      }
    }

    method HsPrepare(i: nat, ghost base: Board, ghost before: set<Board>) returns (rc: int)
      requires LinkTrail(base, i, HS, before)
      modifies `board, `visited, `onCalls, `onFaults
      ensures LinkTrail(base, i, HS, before) && onFaults == old(onFaults) + B2I(rc != 0)
      ensures old(onCalls) < onCalls <= old(onCalls) + HsClks(i) && rc == onRc(onCalls - 1)
      ensures rc == 0 ==> onCalls == old(onCalls) + HsClks(i)
      ensures board.link[i] == if rc == 0 then HsPrepared(cfg.parts[i], old(board).link[i], 1) else old(board).link[i]
      ensures old(HsInStep()) ==> HsInStep()
    {
      SteppedNow(i);
      PrepareSteps(cfg.parts[i], board.link[i]);
      hide Stepped, HsInStep;
      label byteErr: {
        label pixelErr: {
          label intfErr: {
            rc := OnCall();
            if rc != 0 { break byteErr; }
            SetLink(i, board.link[i].(byteP := board.link[i].byteP + 1), HS, base, before);
            rc := OnCall();
            if rc != 0 { break pixelErr; }
            SetLink(i, board.link[i].(pixP := board.link[i].pixP + 1), HS, base, before);
            if cfg.parts[i].byteIntf {
              rc := OnCall();
              if rc != 0 { break intfErr; }
              SetLink(i, board.link[i].(intfP := board.link[i].intfP + 1), HS, base, before);
            }
            return;
          }
          SetLink(i, board.link[i].(pixP := board.link[i].pixP - 1), HS, base, before);
        }
        SetLink(i, board.link[i].(byteP := board.link[i].byteP - 1), HS, base, before);
      }
    }

    method HsUnprepare(i: nat, ghost base: Board, ghost before: set<Board>)
      requires LinkTrail(base, i, HS, before)
      modifies `board, `visited
      ensures LinkTrail(base, i, HS, before)
      ensures board.link[i] == HsPrepared(cfg.parts[i], old(board).link[i], -1)
      ensures old(HsInStep()) && Stepped(cfg.parts[i], HsPrepared(cfg.parts[i], old(board).link[i], -1)) ==> HsInStep()
    {
      if cfg.parts[i].byteIntf {
        SetLink(i, board.link[i].(intfP := board.link[i].intfP - 1), HS, base, before);
      }
      SetLink(i, board.link[i].(pixP := board.link[i].pixP - 1), HS, base, before);
      SetLink(i, board.link[i].(byteP := board.link[i].byteP - 1), HS, base, before);
    }

    method HsEnable(i: nat, ghost base: Board, ghost before: set<Board>) returns (rc: int)
      requires LinkTrail(base, i, HS, before)
      modifies `board, `visited, `onCalls, `onFaults
      ensures LinkTrail(base, i, HS, before) && onFaults == old(onFaults) + B2I(rc != 0)
      ensures old(onCalls) < onCalls <= old(onCalls) + HsClks(i) && rc == onRc(onCalls - 1)
      ensures rc == 0 ==> onCalls == old(onCalls) + HsClks(i)
      ensures board.link[i] == if rc == 0 then HsEnabled(cfg.parts[i], old(board).link[i], 1) else old(board).link[i]
      ensures old(HsInStep()) && Stepped(cfg.parts[i], HsEnabled(cfg.parts[i], old(board).link[i], 1)) ==> HsInStep()
    {
      SteppedNow(i);
      EnableSteps(cfg.parts[i], board.link[i]);
      hide Stepped, HsInStep;
      label byteErr: {
        label pixelErr: {
          label intfErr: {
            rc := OnCall();
            if rc != 0 { break byteErr; }
            SetLink(i, board.link[i].(byteE := board.link[i].byteE + 1), HS, base, before);
            rc := OnCall();
            if rc != 0 { break pixelErr; }
            SetLink(i, board.link[i].(pixE := board.link[i].pixE + 1), HS, base, before);
            if cfg.parts[i].byteIntf {
              rc := OnCall();
              if rc != 0 { break intfErr; }
              SetLink(i, board.link[i].(intfE := board.link[i].intfE + 1), HS, base, before);
            }
            return;
          }
          SetLink(i, board.link[i].(pixE := board.link[i].pixE - 1), HS, base, before);
        }
        SetLink(i, board.link[i].(byteE := board.link[i].byteE - 1), HS, base, before);
      }
    }

    method HsDisable(i: nat, ghost base: Board, ghost before: set<Board>)
      requires LinkTrail(base, i, HS, before)
      modifies `board, `visited
      ensures LinkTrail(base, i, HS, before)
      ensures board.link[i] == HsEnabled(cfg.parts[i], old(board).link[i], -1)
      ensures old(HsInStep()) ==> HsInStep()
    {
      if cfg.parts[i].byteIntf {
        SetLink(i, board.link[i].(intfE := board.link[i].intfE - 1), HS, base, before);
      }
      SetLink(i, board.link[i].(pixE := board.link[i].pixE - 1), HS, base, before);
      SetLink(i, board.link[i].(byteE := board.link[i].byteE - 1), HS, base, before);
    }

    /** dsi_link_hs_clk_start() with DSI_LINK_CLK_START: rates, prepare, enable; all or nothing. */
    method HsStart(i: nat) returns (rc: int)
      requires Valid() && i < |cfg.parts|
      modifies `board, `visited, `onCalls, `onFaults, `ratedLive
      ensures Valid() && onFaults == old(onFaults) + B2I(rc != 0)
      ensures old(onCalls) < onCalls <= old(onCalls) + HsCalls(i) && rc == onRc(onCalls - 1)
      ensures rc == 0 ==> onCalls == old(onCalls) + HsCalls(i)
      ensures board == if rc == 0 then WithLink(old(board), i, HsMoved(cfg.parts[i], old(board).link[i], 1))
          else old(board)
      ensures old(Ordered()) && CanMoveHs(cfg, old(board), i) ==> Ordered()
      ensures old(RanBare() || Supplied(board)) ==> RanBare() == old(RanBare())
      ensures old(Laddered()) ==> Laddered()
      ensures old(HsInStep()) ==> HsInStep()
      ensures !HsHeld(cfg.parts[i], old(board).link[i]) ==> ratedLive == old(ratedLive)
    {
      hide Stepped, HsInStep, AllOnLadder, HsMoved, HsCalls;
      ghost var b0, v0 := board, visited;
      assert WithLink(b0, i, b0.link[i]).link == b0.link;
      rc := HsStartWalk(i, b0, v0);
      LinkWalkDone(i, HS, b0, v0);
    }

    method HsStartWalk(i: nat, ghost base: Board, ghost before: set<Board>) returns (rc: int)
      requires LinkTrail(base, i, HS, before)
      modifies `board, `visited, `onCalls, `onFaults, `ratedLive
      ensures LinkTrail(base, i, HS, before) && onFaults == old(onFaults) + B2I(rc != 0)
      ensures old(onCalls) < onCalls <= old(onCalls) + HsCalls(i) && rc == onRc(onCalls - 1)
      ensures rc == 0 ==> onCalls == old(onCalls) + HsCalls(i)
      ensures board.link[i] == if rc == 0 then HsMoved(cfg.parts[i], old(board).link[i], 1) else old(board).link[i]
      ensures old(HsInStep()) ==> HsInStep()
      ensures !HsHeld(cfg.parts[i], old(board).link[i]) ==> ratedLive == old(ratedLive)
    {
      SteppedNow(i);
      if Stepped(cfg.parts[i], board.link[i]) {
        StartSteps(cfg.parts[i], board.link[i]);
      }
      hide Stepped, HsInStep;
      rc := HsSetRate(i);
      if rc == 0 {
        rc := HsPrepare(i, base, before);
        if rc == 0 {
          rc := HsEnable(i, base, before);
          if rc != 0 {
            HsUnprepare(i, base, before);
          }
        }
      }
    }

    method HsStop(i: nat)
      requires Valid() && i < |cfg.parts|
      modifies `board, `visited
      ensures Valid() && board == WithLink(old(board), i, HsMoved(cfg.parts[i], old(board).link[i], -1))
      ensures old(Ordered()) && CanMoveHs(cfg, old(board), i) ==> Ordered()
      ensures old(RanBare() || Supplied(board)) ==> RanBare() == old(RanBare())
      ensures old(Laddered()) ==> Laddered()
      ensures old(HsInStep()) ==> HsInStep()
    {
      SteppedNow(i);
      if Stepped(cfg.parts[i], board.link[i]) {
        StartSteps(cfg.parts[i], board.link[i]);
      }
      hide Stepped, HsInStep, Laddered;
      ghost var b0, v0 := board, visited;
      assert WithLink(b0, i, b0.link[i]).link == b0.link;
      HsDisable(i, b0, v0);
      HsUnprepare(i, b0, v0);
      LinkWalkDone(i, HS, b0, v0);
    }

    /** The board after controller i's link clocks were refused, its calls starting at call t: a refused
        escape clock rate leaves it as it was, a refused clk_prepare_enable() unprepares once more although
        nothing was left prepared, and refused HS clocks leave a started LP clock on. */
    function AfterRefusedLink(b: Board, i: nat, mask: LinkMask, t: nat): (r: Board)
      requires Shape(cfg, b) && i < |cfg.parts|
      reads `contSplash
      ensures Shape(cfg, r) && (!mask.lp ==> r == b)
    {
      if !mask.lp || (!contSplash && onRc(t) != 0) then b
      else if onRc(t + LpCalls() - 1) != 0 then LpOvershot(cfg, b, i)
      else WithLink(b, i, LpMoved(b.link[i], 1))
    }

    /** An LP clock whose calls start at call t is refused. */
    predicate LpRefused(t: nat)
      reads `contSplash
    {
      (!contSplash && onRc(t) != 0) || onRc(t + LpCalls() - 1) != 0
    }

    /** dsi_link_lp_clk_start(). */
    method LpStart(i: nat) returns (rc: int)
      requires Valid() && i < |cfg.parts|
      modifies `board, `visited, `onCalls, `onFaults
      ensures Valid() && onFaults == old(onFaults) + B2I(rc != 0)
      ensures rc == 0 ==> board == WithLink(old(board), i, LpMoved(old(board).link[i], 1))
      ensures rc != 0 ==>
        board == if !contSplash && onRc(old(onCalls)) != 0 then old(board) else LpOvershot(cfg, old(board), i)
      ensures rc != 0 <==> LpRefused(old(onCalls))
      ensures old(onCalls) < onCalls <= old(onCalls) + LpCalls() && rc == onRc(onCalls - 1)
      ensures rc == 0 ==> onCalls == old(onCalls) + LpCalls()
      ensures old(Ordered()) && CanMoveLp(cfg, old(board), i) ==> Ordered()
      ensures old(RanBare() || Supplied(board)) ==> RanBare() == old(RanBare())
      ensures old(Laddered()) ==> Laddered()
      ensures old(HsInStep()) ==> HsInStep()
    {
      ghost var b0, v0 := board, visited;
      assert WithLink(b0, i, b0.link[i]).link == b0.link;
      rc := 0;
      if !contSplash {
        rc := OnCall();
      }
      if rc == 0 {
        rc := OnCall();
        var l := board.link[i];
        if rc != 0 {
          SetLink(i, l.(escP := l.escP - 1), LP, b0, v0);
        } else {
          SetLink(i, l.(escP := l.escP + 1, escE := l.escE + 1), LP, b0, v0);
        }
      }
      LinkWalkDone(i, LP, b0, v0);
    }

    method LpStop(i: nat)
      requires Valid() && i < |cfg.parts|
      modifies `board, `visited
      ensures Valid() && board == WithLink(old(board), i, LpMoved(old(board).link[i], -1))
      ensures old(Ordered()) && CanMoveLp(cfg, old(board), i) ==> Ordered()
      ensures old(RanBare() || Supplied(board)) ==> RanBare() == old(RanBare())
      ensures old(Laddered()) ==> Laddered()
      ensures old(HsInStep()) ==> HsInStep()
    {
      ghost var b0, v0 := board, visited;
      assert WithLink(b0, i, b0.link[i]).link == b0.link;
      var l := board.link[i];
      SetLink(i, l.(escP := l.escP - 1, escE := l.escE - 1), LP, b0, v0);
      LinkWalkDone(i, LP, b0, v0);
    }

    // ---- link clocks of all controllers ----

    method LinkOn(i: nat, mask: LinkMask) returns (rc: int)
      requires Valid() && i < |cfg.parts|
      modifies `board, `visited, `onCalls, `onFaults, `ratedLive
      ensures Valid() && onFaults == old(onFaults) + B2I(rc != 0)
      ensures rc == 0 ==> board == WithLink(old(board), i, LinkMoved(cfg.parts[i], old(board).link[i], mask, 1))
      ensures rc != 0 ==> board == AfterRefusedLink(old(board), i, mask, old(onCalls))
      ensures rc != 0 && mask == LP ==> LpRefused(old(onCalls))
      ensures onCalls <= old(onCalls) + LinkCalls(i, mask)
      ensures mask.lp || mask.hs ==> old(onCalls) < onCalls && rc == onRc(onCalls - 1)
      ensures !mask.lp && !mask.hs ==> rc == 0
      ensures rc == 0 ==> onCalls == old(onCalls) + LinkCalls(i, mask)
      ensures rc == 0 && old(Ordered()) && CanMoveLink(cfg, old(board), i, mask) ==> Ordered()
      ensures rc == 0 && old(RanBare() || Supplied(board)) ==> RanBare() == old(RanBare())
      ensures SameRegs(board, old(board))
      ensures old(Laddered()) ==> Laddered()
      ensures old(HsInStep()) ==> HsInStep()
      ensures !mask.hs || !HsHeld(cfg.parts[i], old(board).link[i]) ==> ratedLive == old(ratedLive)
    {
      hide HsInStep, Laddered;
      rc := 0;
      assert WithLink(board, i, board.link[i]).link == board.link;
      if mask.lp {
        rc := LpStart(i);
      }
      if rc == 0 && mask.hs {
        rc := HsStart(i);
      }
    }

    method LinkOff(i: nat, mask: LinkMask)
      requires Valid() && i < |cfg.parts|
      modifies `board, `visited
      ensures Valid()
      ensures board == WithLink(old(board), i, LinkMoved(cfg.parts[i], old(board).link[i], mask, -1))
      ensures old(Ordered()) && CanMoveLink(cfg, old(board), i, mask) ==> Ordered()
      ensures old(RanBare() || Supplied(board)) ==> RanBare() == old(RanBare())
      ensures SameRegs(board, old(board))
      ensures old(Laddered()) ==> Laddered()
      ensures old(HsInStep()) ==> HsInStep()
    {
      hide HsInStep, Laddered;
      assert WithLink(board, i, board.link[i]).link == board.link;
      if mask.lp {
        LpStop(i);
      }
      if mask.hs {
        HsStop(i);
      }
    }

    /** The error_disable_master rung: only a pure LP or a pure HS start is undone. */
    method LinkUndoMaster(mask: LinkMask)
      requires Valid()
      modifies `board, `visited
      ensures Valid()
      ensures mask == LP || mask == HS ==> board == WithLink(old(board), cfg.master,
        LinkMoved(cfg.parts[cfg.master], old(board).link[cfg.master], mask, -1))
      ensures mask != LP && mask != HS ==> board == old(board)
      ensures SameRegs(board, old(board))
      ensures old(Laddered()) ==> Laddered()
      ensures old(HsInStep()) ==> HsInStep()
    {
      if mask == LP {
        LpStop(cfg.master);
      } else if mask == HS {
        HsStop(cfg.master);
      }
    }

    /** The calls that turn the selected link clocks of all controllers on. */
    function AllLinkCalls(mask: LinkMask): nat
      reads `contSplash
    {
      LinkCalls(cfg.master, mask) + if |cfg.parts| == 1 then 0 else LinkCalls(1 - cfg.master, mask)
    }

    /** The board after a refused link enable that made the calls from t up to u: few calls mean that the
        master was refused; a refused slave undoes the master unless both kinds of clocks were selected. */
    function AfterRefusedEnable(b: Board, mask: LinkMask, t: nat, u: nat): (r: Board)
      requires Shape(cfg, b)
      reads `contSplash
      ensures Shape(cfg, r) && (mask == HS ==> r == b)
    {
      var m, first := cfg.master, LinkCalls(cfg.master, mask);
      if u <= t + first || |cfg.parts| == 1 then AfterRefusedLink(b, m, mask, t)
      else if mask == LP || mask == HS then AfterRefusedLink(b, 1 - m, mask, t + first)
      else AfterRefusedLink(WithLink(b, m, LinkMoved(cfg.parts[m], b.link[m], mask, 1)), 1 - m, mask, t + first)
    }

    /** The board after link clocks with their two callbacks were refused, the calls from t up to u made: a
        refused callback leaves them down before, and up after the clocks. */
    function AfterRefusedClks(b: Board, mask: LinkMask, t: nat, u: nat): (r: Board)
      requires Shape(cfg, b)
      reads `contSplash
      ensures Shape(cfg, r)
    {
      if u <= t + 1 then b
      else if u == t + 2 + AllLinkCalls(mask) then LinksMoved(cfg, b, mask, 1)
      else AfterRefusedEnable(b, mask, t + 1, u)
    }

    /** The same for LP, then HS clocks. */
    function AfterRefusedPair(b: Board, t: nat, u: nat): (r: Board)
      requires Shape(cfg, b)
      reads `contSplash
      ensures Shape(cfg, r)
    {
      var lp := t + 2 + AllLinkCalls(LP);
      if u <= lp then AfterRefusedClks(b, LP, t, u) else AfterRefusedClks(LinksMoved(cfg, b, LP, 1), HS, lp, u)
    }

    /** HS clocks refused after LP: the LP clocks are left on, whichever HS call it was. */
    lemma HsRefusalLeavesLp(b: Board, t: nat, u: nat)
      requires Shape(cfg, b)
      ensures var lp, both := t + 2 + AllLinkCalls(LP), t + 4 + AllLinkCalls(LP) + AllLinkCalls(HS);
        lp < u < both ==> AfterRefusedPair(b, t, u) == LinksMoved(cfg, b, LP, 1)
    {
    }

    /** Turns the selected link clocks of all controllers on, master first. An HS-only failure restores
        every count; an LP-only failure does too, unless it was clk_prepare_enable() that was refused. */
    method LinkEnable(mask: LinkMask) returns (rc: int)
      requires Valid()
      modifies `board, `visited, `onCalls, `onFaults, `ratedLive
      ensures Valid() && onFaults == old(onFaults) + B2I(rc != 0)
      ensures rc == 0 ==> board == LinksMoved(cfg, old(board), mask, 1)
      ensures rc != 0 ==> board == AfterRefusedEnable(old(board), mask, old(onCalls), onCalls)
      ensures rc != 0 && mask == HS ==> board == old(board)
      ensures onCalls <= old(onCalls) + AllLinkCalls(mask)
      ensures mask.lp || mask.hs ==> old(onCalls) < onCalls
      ensures !mask.lp && !mask.hs ==> rc == 0
      ensures rc == 0 ==> onCalls == old(onCalls) + AllLinkCalls(mask)
      ensures rc == 0 && old(Ordered()) && LinksReady(cfg, old(board), mask, 0) ==> Ordered()
      ensures rc == 0 && old(RanBare() || Supplied(board)) ==> RanBare() == old(RanBare())
      ensures SameRegs(board, old(board))
      ensures old(Laddered()) ==> Laddered()
      ensures old(HsInStep()) ==> HsInStep()
      ensures !mask.hs || HsLoose(cfg, old(board)) ==> ratedLive == old(ratedLive)
    {
      hide Safe, CanMoveLink, LinksReady, LinkMoved, LinkCalls, AfterRefusedLink, LpRefused, LinksMovedBelow;
      hide LinksMoved;
      MasterRefused(board, mask, onCalls);
      hide AfterRefusedEnable;
      ghost var b0, t := board, onCalls;
      if LinksReady(cfg, b0, mask, 0) {
        IdleMasterLinkMovable(cfg, b0, mask);
      }
      rc := LinkOn(cfg.master, mask);
      if rc == 0 {
        FirstMoved(cfg, b0, board, mask, 1, true);
        rc := LinkEnableSlaves(mask, b0, t);
      }
    }

    /** The slaves' turn in LinkEnable(), the master being on. */
    method LinkEnableSlaves(mask: LinkMask, ghost b0: Board, ghost t: nat) returns (rc: int)
      requires Valid() && LinksMovedBelow(cfg, b0, board, mask, 1, true, 0)
      requires onCalls == t + LinkCalls(cfg.master, mask)
      modifies `board, `visited, `onCalls, `onFaults, `ratedLive
      ensures Valid() && onFaults == old(onFaults) + B2I(rc != 0)
      ensures rc == 0 ==> board == LinksMoved(cfg, b0, mask, 1)
      ensures rc != 0 ==> board == AfterRefusedEnable(b0, mask, t, onCalls)
      ensures old(onCalls) <= onCalls <= t + AllLinkCalls(mask)
      ensures !mask.lp && !mask.hs ==> rc == 0
      ensures rc == 0 ==> onCalls == t + AllLinkCalls(mask)
      ensures rc == 0 && old(Ordered()) && LinksReady(cfg, b0, mask, 0) ==> Ordered()
      ensures rc == 0 && old(RanBare() || Supplied(board)) ==> RanBare() == old(RanBare())
      ensures SameRegs(board, old(board))
      ensures old(Laddered()) ==> Laddered()
      ensures old(HsInStep()) ==> HsInStep()
      ensures !mask.hs || HsLoose(cfg, b0) ==> ratedLive == old(ratedLive)
    {
      hide Safe, CanMoveLink, LinksReady, LinkMoved, LinkCalls, AfterRefusedLink, AfterRefusedEnable, LpRefused;
      hide LinksMovedBelow, LinksMoved, Laddered, HsInStep;
      rc := 0;
      ghost var ready := Ordered() && LinksReady(cfg, b0, mask, 0);
      for i := 0 to |cfg.parts|
        invariant Valid() && rc == 0 && onFaults == old(onFaults)
        invariant LinksMovedBelow(cfg, b0, board, mask, 1, true, i)
        invariant onCalls == t + LinkCalls(cfg.master, mask) + if i > 1 - cfg.master
            then LinkCalls(1 - cfg.master, mask) else 0
        invariant ready ==> Ordered()
        invariant !mask.hs || HsLoose(cfg, b0) ==> ratedLive == old(ratedLive)
        invariant old(Laddered()) ==> Laddered()
        invariant old(HsInStep()) ==> HsInStep()
        invariant SameRegs(board, old(board))
        invariant old(RanBare() || Supplied(board)) ==> RanBare() == old(RanBare())
      {
        OneMoreMoved(cfg, b0, board, mask, 1, true, i);
        if i == cfg.master {
          continue;
        }
        ghost var b1 := board;
        if ready {
          SlaveLinkMovable(cfg, b0, b1, mask, i);
        }
        SlaveLoose(cfg, b0, b1, mask, i);
        OnlySlave(cfg, i);
        rc := LinkOn(i, mask);
        if rc != 0 {
          SlaveRefused(b0, b1, mask, i, t, onCalls);
          LinkUndoMaster(mask);
          return;
        }
      }
      AllMoved(cfg, b0, board, mask, 1);
    }

    lemma MasterRefused(b: Board, mask: LinkMask, t: nat)
      requires Shape(cfg, b)
      ensures forall u: nat :: u <= t + LinkCalls(cfg.master, mask) ==>
        AfterRefusedEnable(b, mask, t, u) == AfterRefusedLink(b, cfg.master, mask, t)
    {
    }

    /** Undoing the master under a refused slave leaves what the slave alone leaves. */
    lemma SlaveRefused(base: Board, b: Board, mask: LinkMask, i: nat, t: nat, u: nat)
      requires LinksMovedBelow(cfg, base, b, mask, 1, true, i) && i < |cfg.parts| && i != cfg.master
      requires t + LinkCalls(cfg.master, mask) < u
      requires mask == LP ==> LpRefused(t + LinkCalls(cfg.master, mask))
      ensures var m, failed := cfg.master, AfterRefusedLink(b, i, mask, t + LinkCalls(cfg.master, mask));
        AfterRefusedEnable(base, mask, t, u) ==
        if mask == LP || mask == HS then WithLink(failed, m, LinkMoved(cfg.parts[m], failed.link[m], mask, -1))
            else failed
    {
      OnlyMasterMoved(cfg, base, b, mask, i);
      var failed := AfterRefusedLink(b, i, mask, t + LinkCalls(cfg.master, mask));
      if mask == LP || mask == HS {
        UndoLinkRestores(cfg, base, b, failed, mask, i);
      }
      hide LinkMoved, LinkCalls;
    }

    /** The board after HS, then LP clocks went off with callbacks refusing, the calls from t on: a refusal
        after the HS clocks leaves the LP clocks on. */
    function AfterRefusedPairOff(b: Board, t: nat): (r: Board)
      requires Shape(cfg, b)
      ensures Shape(cfg, r)
    {
      if offRc(t + 1) != 0 then LinksMoved(cfg, b, HS, -1) else LinksMoved(cfg, LinksMoved(cfg, b, HS, -1), LP, -1)
    }

    /** Turns the selected link clocks of all controllers off, master last. */
    method LinkDisable(mask: LinkMask)
      requires Valid()
      modifies `board, `visited
      ensures Valid() && board == LinksMoved(cfg, old(board), mask, -1)
      ensures old(Ordered()) && LinksReady(cfg, old(board), mask, 1) ==> Ordered()
      ensures old(RanBare() || Supplied(board)) ==> RanBare() == old(RanBare())
      ensures SameRegs(board, old(board))
      ensures old(Laddered()) ==> Laddered()
      ensures old(HsInStep()) ==> HsInStep()
    {
      hide Safe, CanMoveLink, LinksReady;
      ghost var b0 := board;
      ghost var ready := Ordered() && LinksReady(cfg, b0, mask, 1);
      for i := 0 to |cfg.parts|
        invariant Valid()
        invariant LinksMovedBelow(cfg, b0, board, mask, -1, false, i)
        invariant ready ==> Ordered()
        invariant old(Laddered()) ==> Laddered()
        invariant old(HsInStep()) ==> HsInStep()
        invariant old(RanBare() || Supplied(board)) ==> RanBare() == old(RanBare())
      {
        if i == cfg.master {
          continue;
        }
        if ready {
          LoadedSlaveLinkMovable(cfg, b0, board, mask, i);
        }
        LinkOff(i, mask);
      }
      if ready {
        LoadedMasterLinkMovable(cfg, b0, board, mask);
      }
      LinkOff(cfg.master, mask);
      assert board.link == LinksMoved(cfg, b0, mask, -1).link;
    }

    // ---- regulators, moved by the display's clock callbacks ----

    /** Regulators move; nothing else does. */
    method SetRegs(ctrl: nat, phy: nat)
      requires Valid()
      modifies `board, `visited
      ensures Valid() && board == old(board).(ctrlVreg := ctrl, phyVreg := phy)
      ensures old(Ordered()) && Safe(cfg, old(board)) ==> Ordered()
      ensures old(RanBare() || CoresDown(board)) ==> RanBare() == old(RanBare())
      ensures old(Laddered()) ==> Laddered()
      ensures old(HsInStep()) ==> HsInStep()
    {
      SetBoard(board.(ctrlVreg := ctrl, phyVreg := phy));
    }

    /** Regulators of the controllers: dsi_display_ctrl_power_on(). Controllers that are powered refuse. */
    method CtrlPowerOn() returns (rc: int)
      requires Valid()
      modifies `board, `visited, `onCalls, `onFaults
      ensures Valid() && board == old(board).(ctrlVreg := old(board).ctrlVreg + B2I(rc == 0))
      ensures if old(board).ctrlVreg > 0 then rc == -EINVAL && onCalls == old(onCalls)
          else rc == onRc(old(onCalls)) && onCalls == old(onCalls) + 1
      ensures onFaults == old(onFaults) + B2I(rc != 0 && old(board).ctrlVreg <= 0)
      ensures old(Ordered()) && Safe(cfg, old(board)) ==> Ordered()
      ensures old(RanBare() || CoresDown(board)) ==> RanBare() == old(RanBare())
      ensures old(Laddered()) ==> Laddered()
      ensures old(HsInStep()) ==> HsInStep()
    {
      hide Safe, CoresDown, Ordered, RanBare, Laddered, HsInStep;
      if board.ctrlVreg > 0 {
        return -EINVAL;
      }
      rc := OnCall();
      if rc == 0 {
        SetRegs(board.ctrlVreg + 1, board.phyVreg);
      }
    }

    /** Regulators of the PHYs; PHYs that are powered stay so. */
    method PhyPowerOn() returns (rc: int)
      requires Valid()
      modifies `board, `visited, `onCalls, `onFaults
      ensures Valid() && onFaults == old(onFaults) + B2I(rc != 0)
      ensures rc == if old(board).phyVreg > 0 then 0 else onRc(old(onCalls))
      ensures onCalls == old(onCalls) + B2I(old(board).phyVreg <= 0)
      ensures board == if rc == 0 && old(board).phyVreg <= 0 then old(board).(phyVreg := old(board).phyVreg + 1)
          else old(board)
      ensures old(Ordered()) && Safe(cfg, old(board)) ==> Ordered()
      ensures old(RanBare() || CoresDown(board)) ==> RanBare() == old(RanBare())
      ensures old(Laddered()) ==> Laddered()
      ensures old(HsInStep()) ==> HsInStep()
    {
      hide Safe, CoresDown, Ordered, RanBare, Laddered, HsInStep;
      if board.phyVreg > 0 {
        return 0;
      }
      rc := OnCall();
      if rc == 0 {
        SetRegs(board.ctrlVreg, board.phyVreg + 1);
      }
    }

    /** The regulators' way up is refused: the controllers are powered already, or a call is refused. */
    predicate RegulatorRefused()
      reads `onCalls, `board
    {
      board.ctrlVreg > 0 || onRc(onCalls) != 0 || (board.phyVreg <= 0 && onRc(onCalls + 1) != 0)
    }

    /** The board with both regulators up, and as a refusal leaves it. */
    function RegsRaised(b: Board): Board
    {
      b.(ctrlVreg := b.ctrlVreg + 1, phyVreg := if b.phyVreg > 0 then b.phyVreg else b.phyVreg + 1)
    }

    function AfterRefusedRegs(b: Board, t: nat): Board
    {
      if b.ctrlVreg > 0 || onRc(t) != 0 then b else b.(ctrlVreg := b.ctrlVreg + 1)
    }

    /** dsi_pre_clkon_cb() for core clocks: controller regulators, then PHY regulators. */
    method PreCoreClkOn() returns (rc: int)
      requires Valid()
      modifies `board, `visited, `onCalls, `onFaults
      ensures Valid() && (rc != 0 <==> old(RegulatorRefused()))
      ensures board == if rc == 0 then RegsRaised(old(board)) else AfterRefusedRegs(old(board), old(onCalls))
      ensures old(board).ctrlVreg > 0 ==> rc == -EINVAL && onCalls == old(onCalls)
      ensures onFaults == old(onFaults) + B2I(rc != 0 && old(board).ctrlVreg <= 0)
      ensures old(Ordered()) && Safe(cfg, old(board)) ==> Ordered()
      ensures old(RanBare() || CoresDown(board)) ==> RanBare() == old(RanBare())
      ensures old(Laddered()) ==> Laddered()
      ensures old(HsInStep()) ==> HsInStep()
    {
      hide Safe, CoresDown, Ordered, RanBare, Laddered, HsInStep;
      RegsApart(cfg, board, board.ctrlVreg + 1, board.phyVreg);
      rc := CtrlPowerOn();
      if rc == 0 {
        rc := PhyPowerOn();
      }
    }

    /** Whether the PHY regulators and the controller regulators go down, the calls starting at call t: only those
        that are up are called for. */
    predicate PhyGoesDown(b: Board, t: nat) { b.phyVreg > 0 && offRc(t) == 0 }

    predicate CtrlGoesDown(b: Board, t: nat) { b.ctrlVreg > 0 && offRc(t + B2I(b.phyVreg > 0)) == 0 }

    /** dsi_post_clkoff_cb() for core clocks: PHY regulators, then controller regulators; only the
        second result is reported, a refusal if the controllers were off. */
    method PostCoreClkOff() returns (rc: int)
      requires Valid()
      modifies `board, `visited, `offCalls, `offFaults
      ensures Valid() && offFaults >= old(offFaults)
      ensures rc == 0 <==> CtrlGoesDown(old(board), old(offCalls))
      ensures board == old(board).(
          phyVreg := old(board).phyVreg - B2I(PhyGoesDown(old(board), old(offCalls))),
          ctrlVreg := old(board).ctrlVreg - B2I(rc == 0))
      ensures offFaults == old(offFaults) ==> (PhyGoesDown(old(board), old(offCalls)) <==> old(board).phyVreg > 0)
      ensures offFaults == old(offFaults) ==> (rc == 0 <==> old(board).ctrlVreg > 0)
      ensures old(Ordered()) && Safe(cfg, old(board)) ==> Ordered()
      ensures old(RanBare() || CoresDown(board)) ==> RanBare() == old(RanBare())
      ensures old(Laddered()) ==> Laddered()
      ensures old(HsInStep()) ==> HsInStep()
    {
      hide Safe, CoresDown, Ordered, RanBare, Laddered, HsInStep;
      if board.phyVreg > 0 {
        RegsApart(cfg, board, board.ctrlVreg, board.phyVreg - 1);
      }
      rc := 0;
      if board.phyVreg > 0 {
        rc := OffCall();
        if rc == 0 {
          SetRegs(board.ctrlVreg, board.phyVreg - 1);
        }
      }
      if board.ctrlVreg <= 0 {
        return -EINVAL;
      }
      rc := OffCall();
      if rc == 0 {
        SetRegs(board.ctrlVreg - 1, board.phyVreg);
      }
    }
  }

  /** One controller with the required clocks only. */
  const BARE: Config := ClkInfo(0, [Parts(false, false, false, false, false, false, false)])

  /** A new controller whose second call, clk_prepare_enable() of the escape clock, is refused: the clock
      ends up unprepared once although it never was prepared. */
  method EscapeOvershoots() returns (hw: ClkHw)
    ensures hw.cfg == BARE && Shape(BARE, hw.board) && hw.board.link[0].escP == -1 && hw.board.link[0].escE == 0
  {
    hide AllOnLadder, AllInStep, AnyBare, AllSafe;
    hw := new ClkHw(BARE, n => if n == 1 then 5 else 0, n => 0);
    ghost var b0 := hw.board;
    assert |b0.link| == 1 && b0.link[0].escP == b0.link[0].escE == 0;
    assert hw.onRc(0) == 0 && hw.onRc(1) == 5;
    hide Level, Safe;
    var rc := hw.LpStart(0);
    assert rc != 0 && hw.board == LpOvershot(BARE, b0, 0);
  }
}
