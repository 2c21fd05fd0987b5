# Verified model of the DSI host stack and the boot HUD

A Dafny model of the display path of this repository, with proofs. Dafny 4.11; `dafny verify dfyconfig.toml` checks all of it.

What is modelled, file by file:

- `DsiClkVotes`, `DsiClkBoard`, `DsiClkHw`, `DsiClkManager`: the DSI clock manager. Clients vote ON, EARLY_GATE or OFF
  on core and link clocks; the manager aggregates and drives clocks, power and regulators of one or two controllers,
  with the rollback ladders. Hardware is a board of counters; every board it passes through is recorded, so ordering,
  supply and the steps within a controller are properties of the whole trace. Calls that can fail take their return codes from an arbitrary sequence;
  "fault-free" means none of them reported an error. Controllers that are powered refuse to be powered again. The board
  that a refused call leaves is stated exactly, for rollbacks as far as the calls they make succeed.
- `DsiReadback`: panel reads of any length through a 16-byte register window.
- `DsiCmdDma`: commands padded and laid end to end in a 4 KiB DMA buffer.
- `DsiDisplay`: the reference-counted command engine, the transfer that borrows it, and clock votes over the display's
  life, with the power and the host engines of the controllers that these move.
- `DsiStatusIrq`: status interrupts shared by API and interrupt handler.
- `DsiTiming`, `DsiLinkRates`, `DsiRoi`: front porches, link rates through nested roundings, partial updates cut along
  controllers.
- `HudAtlas`, `HudBatch`: the HUD's glyph atlas and batched vertex stream, against an unbatched renderer.
- `HudWifiFlow`, `HudWifi`, `HudWifiRetry`: the HUD's Wi-Fi decisions, its job machine, and one run of it.

Where the code does not keep the property one would expect, the model keeps the code and states exactly when the property holds, with a concrete case:

- EARLY_GATE to OFF on the link re-enables `LP & HS`, an empty mask, so each such step gives one vote per link clock back
  twice: link counts are right if and only if the history holds no such step (`ClkManager.Run`, `GatingDrains`).
- The same step taken while the core is OFF starts core clocks with the regulators down; nothing else does (`Run`,
  `GatingDrains`).
- An ON that fails once the controllers are powered leaves them powered under core OFF. Powering them again is refused,
  so every later ON fails until somebody asks for EARLY_GATE (`UpdateCoreOn`, `RunStuck`, `LockedOut`).
- A refused `clk_prepare_enable` of the escape clock is followed by an unprepare (`LpStart`, `EscapeOvershoots`).
- HS clocks refused after LP leave LP on under the old link state, for good (`HsRefusalLeavesLp`, `EscapeLeftOn`).
- A failed ON request keeps its reference, and the next one reports success without any clocks (`ReqState`,
  `HostTransfer`).
- A read whose framed reply is 65536 bytes long reads as zero bytes in the 16-bit count register: longer reads return 0
  without data (`MessageRx`, `LongestReadExceeded`).
- A read writes up to 13 bytes past the length it was asked for (`MessageRx`).
- Taking the display down switches the hosts off while the link clocks still run, though they came on without them
  (`TeardownMirrors`). A refused compression setup leaves the panel on (`Enable`).
- A disable that drops the last hold on the command engine without power leaves the engines marked on (`RunEngines`).
- Setting up the interrupt handler with a non-empty mask leaves the line disabled although somebody waits (`SetupIsr`,
  `WaitOutlivesRegistration`).
- The porch arithmetic loses the line rate exactly when the product on the remainder or the porch leaves its type
  (`PorchExactly`, `PorchTruncated`). The driver does not bound refresh rates, but the product takes a rate of 65536 or
  more (`SmallRatesFit`).
- With a split link the horizontal porch is divided by the sublinks but multiplied by the controllers (`SharedLineRate`,
  `SplitLinkLosesRate`), and the two link-rate computations count different lanes (`DPhyPixAgreesExactly`,
  `SplitLinkDisagrees`). On C-PHY they round the pixel clock at different points (`CPhyPixAgreesExactly`,
  `CPhyDisagrees`).
- A requested rectangle with edges out of order wraps to a large one (`ClipHonouredExactly`); only the first rectangle
  of a request counts. A region that the panel refuses is recorded all the same and never sent again (`InStepExactly`,
  `RepeatIgnored`, `StalePanel`).
- Trying the remembered password does not mark it as used. The user's own joins are never retried; one that is left over
  in the queue is, without end. That takes a password submitted while a join is being confirmed, which the password
  sheet allows only through a key held down since before, and a confirmation that times out with the slot taken, for
  one (`Wifi.Run`, `KeepRetrying`, `HeldKeyRun`).

## Model

| member | source | states |
|---|---|---|
| DsiClkVotes.RequestKeepsConsistent | reference/downstream/drivers/dsi-staging/dsi_clk_manager.c:1189-1244 | one request keeps "state ON exactly when the refcount is positive" if and only if it is not an ON on a counter at its 32-bit maximum |
| DsiClkVotes.HistoryConsistent | reference/downstream/drivers/dsi-staging/dsi_clk_manager.c:1189-1244 | over every request history shorter than the counter range, carried out or failed, a client is ON exactly when its refcount is positive |
| DsiClkVotes.HistoryHeld | reference/downstream/drivers/dsi-staging/dsi_clk_manager.c:1189-1244 | over every history, wrap-around included, a positive refcount means ON |
| DsiClkVotes.RefsAreLargestSurplus | reference/downstream/drivers/dsi-staging/dsi_clk_manager.c:1189-1244 | within the counter range a client holds as many references as the largest surplus of ON requests over others, counted from any moment of the history on |
| DsiClkVotes.GatedExactly | reference/downstream/drivers/dsi-staging/dsi_clk_manager.c:1189-1244 | it is at EARLY_GATE exactly if it gave up its last reference for that and has asked for nothing else since |
| DsiClkVotes.MaxIsUnique | reference/downstream/drivers/dsi-staging/dsi_clk_manager.c:1091-1157 | the aggregate of the votes is one state |
| DsiClkVotes.MaxLinkNeedsCore | reference/downstream/drivers/dsi-staging/dsi_clk_manager.c:1091-1157 | if every client that holds link clocks holds core clocks, an ON link aggregate comes with an ON core aggregate |
| DsiClkVotes.OffToEarlyGateUnreachable | reference/downstream/drivers/dsi-staging/dsi_clk_manager.c:1159-1257 | no request makes the aggregate step from OFF to EARLY_GATE |
| DsiClkVotes.LeavingNeverEarlyGates | reference/downstream/drivers/dsi-staging/dsi_clk_manager.c:1329-1370 | neither does a client that leaves |
| DsiClkVotes.OffVotesDoNotCount | reference/downstream/drivers/dsi-staging/dsi_clk_manager.c:1298-1370 | the aggregate is the same with and without a client that is OFF |
| DsiClkBoard.CoreWalkSafe | reference/downstream/drivers/dsi-staging/dsi_clk_manager.c:598-775 | moving one controller's core side, clock by clock, passes only through boards that obey both ordering rules |
| DsiClkBoard.LinkWalkSafe | reference/downstream/drivers/dsi-staging/dsi_clk_manager.c:658-829 | the same for the link clocks of one controller |
| DsiClkBoard.UndoRestores | reference/downstream/drivers/dsi-staging/dsi_clk_manager.c:598-656 | with at most two controllers, undoing the master after a slave failed restores every core count, up to the master's bus level |
| DsiClkBoard.UndoLinkRestores | reference/downstream/drivers/dsi-staging/dsi_clk_manager.c:658-725 | undoing the master under a slave that failed leaves exactly what the slave left: nothing, or its escape clock one unprepare short |
| DsiClkBoard.LinksBounce | reference/downstream/drivers/dsi-staging/dsi_clk_manager.c:1259-1296 | link clocks moved down and up again leave the board as it was |
| DsiClkBoard.EscapeLeftOn | reference/downstream/drivers/dsi-staging/dsi_clk_manager.c:943-951 | an ON whose HS clocks were refused leaves LP on; the next ON leaves each escape clock with two votes and the OFF after it with one |
| DsiClkHw.ClkHw.CoreClkStartUpper | reference/downstream/drivers/dsi-staging/dsi_clk_manager.c:260-305 | upper rungs of the start ladder: all of bus, MMSS and bus request, or no change |
| DsiClkHw.ClkHw.CoreClkStart | reference/downstream/drivers/dsi-staging/dsi_clk_manager.c:234-305 | every present core clock and the bus request up once, or an error and every count as before, wherever it failed |
| DsiClkHw.ClkHw.CoreClkStop | reference/downstream/drivers/dsi-staging/dsi_clk_manager.c:307-335 | every present core clock down once, or nothing exactly when the bus request is refused |
| DsiClkHw.ClkHw.CoreEnable | reference/downstream/drivers/dsi-staging/dsi_clk_manager.c:598-656 | all controllers raised, master first, or every count restored (the master's bus level may be withdrawn); from a quiet board every board on the way is ordered, under the regulators nothing runs without them, and each core side stays on its ladder: power, then MDP, MNOC, interface, bus and MMSS clock, then the bus request |
| DsiClkHw.ClkHw.CoreDisable | reference/downstream/drivers/dsi-staging/dsi_clk_manager.c:727-775 | all controllers lowered, master last, ordered and down the ladder all the way; a refused call leaves the slave off if it was the master that refused, and the refusing controller untouched or with only its power vote, depending on the call |
| DsiClkHw.ClkHw.HsSetRate | reference/downstream/drivers/dsi-staging/dsi_clk_manager.c:337-389 | no call is made while the splash screen is live; otherwise each HS clock gets its rate until one is refused, and that code is reported; it is noted whether one of them was prepared at the time |
| DsiClkHw.ClkHw.HsPrepare | reference/downstream/drivers/dsi-staging/dsi_clk_manager.c:391-424 | byte, pixel and optional interface clocks prepared, or no count changed |
| DsiClkHw.ClkHw.HsEnable | reference/downstream/drivers/dsi-staging/dsi_clk_manager.c:434-467 | the same for enable |
| DsiClkHw.ClkHw.HsStart | reference/downstream/drivers/dsi-staging/dsi_clk_manager.c:480-520 | every HS count up by one, or an error and every count as before; the clocks stay in step at every board on the way: byte before pixel before interface, none enabled more often than prepared; no rate is set on a prepared clock unless one was prepared before |
| DsiClkHw.ClkHw.HsStop | reference/downstream/drivers/dsi-staging/dsi_clk_manager.c:525-537 | the exact inverse on the counts, in step all the way: disabled before unprepared |
| DsiClkHw.ClkHw.LpStart | reference/downstream/drivers/dsi-staging/dsi_clk_manager.c:539-583 | escape clock up by one; refused exactly when one of its calls is, and then unchanged if it was the rate, one unprepare short if it was clk_prepare_enable |
| DsiClkHw.ClkHw.LinkEnable | reference/downstream/drivers/dsi-staging/dsi_clk_manager.c:658-725 | the selected link clocks of all controllers up, master first and in step, or the exact board that the refused call leaves, for LP, HS and both; an HS-only failure restores every count |
| DsiClkHw.ClkHw.HsRefusalLeavesLp | reference/downstream/drivers/dsi-staging/dsi_clk_manager.c:943-951 | LP on and HS refused leaves the LP clocks of all controllers on, whichever HS call it was |
| DsiClkHw.EscapeOvershoots | reference/downstream/drivers/dsi-staging/dsi_clk_manager.c:565-582 | a concrete controller whose escape clock ends at -1 prepares |
| DsiClkHw.ClkHw.LinkDisable | reference/downstream/drivers/dsi-staging/dsi_clk_manager.c:777-829 | the selected link clocks of all controllers down, master last, ordered and in step all the way |
| DsiClkHw.ClkHw.PreCoreClkOn | reference/downstream/drivers/dsi-staging/dsi_display.c:3427-3470 | controller, then PHY regulators up; powered controllers refuse a second power-on, powered PHYs ignore it; the exact board and code of each refusal |
| DsiClkHw.ClkHw.PostCoreClkOff | reference/downstream/drivers/dsi-staging/dsi_display.c:3399-3425 | each regulator goes down exactly when it is up and its own call succeeds; only the second result is reported |
| DsiClkManager.ClkManager.LinkClksOn | reference/downstream/drivers/dsi-staging/dsi_clk_manager.c:831-893 | callbacks around turning the selected link clocks on; success exactly when nothing failed, and the exact board after each refused call |
| DsiClkManager.ClkManager.UpdateCoreOn | reference/downstream/drivers/dsi-staging/dsi_clk_manager.c:912-939 | core side to ON; refused regulators leave what PreCoreClkOn leaves, refused core clocks keep both regulators up and restore the core counts, and the old core state stays; an ON that fails from OFF leaves the controllers powered exactly unless their own regulators were refused, and while they are powered it is refused with -EINVAL and changes nothing |
| DsiClkManager.ClkManager.LinkPairOn | reference/downstream/drivers/dsi-staging/dsi_clk_manager.c:942-951 | LP then HS clocks up, or the exact board after a refusal: HS refused means LP left on |
| DsiClkManager.ClkManager.UpdateLinks | reference/downstream/drivers/dsi-staging/dsi_clk_manager.c:941-1032 | the new link state exactly on success; a refused ON leaves the LP clocks of the refusal under the old state, a refused OFF what was turned off so far; fault-free OFF or EARLY_GATE from a link that is not ON costs one link vote, and core clocks run without regulators exactly when EARLY_GATE goes OFF while the core is OFF |
| DsiClkManager.ClkManager.UpdateCoreOff | reference/downstream/drivers/dsi-staging/dsi_clk_manager.c:1034-1085 | core side to OFF or EARLY_GATE, bouncing the clocks when it comes from EARLY_GATE; the board after a refused call is that of CoreDisable on the bounced board |
| DsiClkManager.ClkManager.Update | reference/downstream/drivers/dsi-staging/dsi_clk_manager.c:895-1089 | a successful update reaches both requested states; fault-free, a balanced board goes to a balanced board unless OFF steps to EARLY_GATE, and stays ordered for plain link requests |
| DsiClkManager.ClkManager.ScanCoreVotes | reference/downstream/drivers/dsi-staging/dsi_clk_manager.c:1112-1120 | the early-leaving scan finds the most demanding core vote |
| DsiClkManager.ClkManager.ScanLinkVotes | reference/downstream/drivers/dsi-staging/dsi_clk_manager.c:1122-1130 | the same for link votes |
| DsiClkManager.ClkManager.Recheck | reference/downstream/drivers/dsi-staging/dsi_clk_manager.c:1091-1157 | whatever failed before, success leaves both manager states at the most demanding vote; without faults it succeeds wherever the regulators match the core state; with the controllers powered under core OFF every vote ON is refused |
| DsiClkManager.ClkManager.CountVotes | reference/downstream/drivers/dsi-staging/dsi_clk_manager.c:1189-1244 | the client list's votes after a request, in place |
| DsiClkManager.ClkManager.ReqState | reference/downstream/drivers/dsi-staging/dsi_clk_manager.c:1159-1257 | votes move by the refcount rule whether or not the hardware follows; fault-free, all counts, power votes and regulators are exactly those of the new aggregate, and ordering holds for plain link requests; once the controllers are powered under core OFF, an ON is refused with the board unchanged; a request that leaves the client's states as they are reports success and moves no hardware |
| DsiClkManager.ClkManager.ForceUpdate | reference/downstream/drivers/dsi-staging/dsi_clk_manager.c:1259-1296 | fault-free it leaves board, counts and states unchanged, refusing with -EAGAIN exactly when the link is OFF; a refused callback leaves the link clocks down under an unchanged state |
| DsiClkManager.ClkManager.RegisterClient | reference/downstream/drivers/dsi-staging/dsi_clk_manager.c:1298-1327 | a new client changes no count and no state |
| DsiClkManager.ClkManager.DeregisterClient | reference/downstream/drivers/dsi-staging/dsi_clk_manager.c:1329-1370 | the client leaves the list exactly on success, the hardware follows the remaining votes, and the link counts lose a vote exactly when the link goes from EARLY_GATE to OFF |
| DsiClkManager.ClkManager.DeregisterAll | reference/downstream/drivers/dsi-staging/dsi_clk_manager.c:1434-1466 | fault-free every client is gone, the states are OFF, core side and regulators are at rest, and each link clock lacks the votes lost before, and one more exactly if the link was at EARLY_GATE |
| DsiClkManager.ClkManager.Perform | reference/downstream/drivers/dsi-staging/dsi_clk_manager.c:1159-1370 | one call of a run: requests move the votes whatever fails; fault-free, the manager stays clean with its count of lost link votes, and ordered when the call is plain |
| DsiClkManager.ClkManager.Run | reference/downstream/drivers/dsi-staging/dsi_clk_manager.c:895-1370 | after any sequence of register, request, deregister and force update calls without faults: clients stand where the history puts them, manager states are the maxima of their votes, each present core clock and power vote counts 1 exactly when core is ON, regulators exactly when core is not OFF; every link count is 1 exactly when the link is ON and 0 otherwise if and only if no call of the history took the link from EARLY_GATE to OFF; core clocks have run without regulators if and only if a call did so while the core stayed OFF; core sides have stayed on their ladders and no HS rate was set on a prepared clock; with faults or without, HS clocks have stayed in step; with faults but nobody leaving, votes still follow the history |
| DsiClkManager.ClkManager.RunStuck | reference/downstream/drivers/dsi-staging/dsi_clk_manager.c:895-1370 | with the controllers powered under core OFF, the core state stays OFF over any further calls, with or without faults, until one asks for EARLY_GATE on the core |
| DsiClkManager.LockedOut | reference/downstream/drivers/dsi-staging/dsi_ctrl.c:275-281 | a run with a single refused call, for the PHY regulators, after which no request ON turns the core clocks on |
| DsiClkManager.OnOffNeverDrains | reference/downstream/drivers/dsi-staging/dsi_clk_manager.c:941-1032 | a history that asks the link only ON and OFF never loses a link vote nor runs core clocks without regulators, whatever it asks of the core |
| DsiClkManager.GatingDrains | reference/downstream/drivers/dsi-staging/dsi_clk_manager.c:968-983 | the history ON, EARLY_GATE, OFF of one client on the link alone loses one link vote and runs core clocks without regulators |
| DsiClkManager.ReplayConsistent | reference/downstream/drivers/dsi-staging/dsi_clk_manager.c:1189-1244 | after every history within the counter range each client of the manager is ON exactly when its refcount is positive |
| DsiReadback.RepeatedBytesExact | reference/downstream/drivers/dsi-staging/dsi_ctrl_hw_cmn.c:846-856 | repeated_bytes equals read_offset - (read_cnt - 16) whether or not part of the header is still in the window |
| DsiReadback.RoundWindow | reference/downstream/drivers/dsi-staging/dsi_ctrl.c:1463-1516 | skipping the repeated bytes of each round's window continues the reply exactly where the last round ended |
| DsiReadback.ReplyIsFramed | reference/downstream/drivers/dsi-staging/dsi_ctrl.c:1427-1549 | what a panel answers to a capped long read is header, that many payload bytes, and CRC |
| DsiReadback.ReadCtrl.GetCmdReadData | reference/downstream/drivers/dsi-staging/dsi_ctrl_hw_cmn.c:814-878 | appends exactly the unseen tail of the window to the buffer; zero exactly when the count register reads zero |
| DsiReadback.ReadCtrl.ReadRound | reference/downstream/drivers/dsi-staging/dsi_ctrl.c:1463-1516 | after a round the buffer holds the whole reply so far, and nothing past the end of the framed reply or the first window is written |
| DsiReadback.ReadCtrl.MessageRx | reference/downstream/drivers/dsi-staging/dsi_ctrl.c:1427-1549 | the loop ends and a working link delivers the payload exactly when its framed length fits the 16-bit count register (n <= 65529); whatever is reported as parsed is the payload; past it the buffer holds the tail of the framed reply, up to 4 bytes for a short read, 16 for less than 10 bytes and n + 6 otherwise, and beyond that it is unchanged |
| DsiReadback.LongestReadExceeded | reference/downstream/drivers/dsi-staging/dsi_ctrl.c:1487-1492 | a concrete read of 65530 bytes on a working link reports success without data |
| DsiReadback.ReadCtrl.ParseLongRead | reference/downstream/drivers/dsi-staging/dsi_ctrl.c:1414-1425 | drops the four header bytes by moving the payload down |
| DsiReadback.ReadCtrl.ShortRx | reference/downstream/drivers/dsi-staging/dsi_ctrl.c:1376-1412 | one and two byte reads deliver the payload and write four bytes |
| DsiCmdDma.PaddedReadable | reference/downstream/drivers/dsi-staging/dsi_ctrl.c:960-1002 | header, flags and payload can be read back from a padded command, the rest is 0xFF |
| DsiCmdDma.FlagsReadable | reference/downstream/drivers/dsi-staging/dsi_ctrl.c:986-1002 | last, long and read flags do not disturb each other or the data type |
| DsiCmdDma.UnpaddedCheckSuffices | reference/downstream/drivers/dsi-staging/dsi_ctrl.c:1090-1131 | checking the unpadded length against 4 KiB is equivalent to checking the padded one, because the fill level is a multiple of four |
| DsiCmdDma.ConcatSize | reference/downstream/drivers/dsi-staging/dsi_ctrl.c:1208-1221 | the kickoff length is the sum of the padded sizes |
| DsiCmdDma.CmdDma.CopyAndPad | reference/downstream/drivers/dsi-staging/dsi_ctrl.c:960-1002 | the copied buffer is the padded command |
| DsiCmdDma.CmdDma.MessageTx | reference/downstream/drivers/dsi-staging/dsi_ctrl.c:1133-1350 | the buffer prefix is the concatenation of padded commands since the last kickoff; a rejected command changes nothing; a last command kicks off all of them |
| DsiDisplay.Display.SetCmdEngine | reference/downstream/drivers/dsi-staging/dsi_ctrl.c:3370-3397 | the engine moves exactly when the request is not redundant and the controller is up |
| DsiDisplay.Display.CmdEngineEnable | reference/downstream/drivers/dsi-staging/dsi_display.c:243-285 | first holder switches every engine on, master first, or none; never a redundant request |
| DsiDisplay.Display.CmdEngineDisable | reference/downstream/drivers/dsi-staging/dsi_display.c:287-328 | last holder switches every engine off; engines follow the count afterwards exactly when every controller could be switched |
| DsiDisplay.Display.ClkCtrl | reference/downstream/drivers/dsi-staging/dsi_display.c:4851-4868 | a vote moves the client's refcounts even when it fails; one that is granted and takes the core clocks powers every controller, and one that lets them go may leave any of them without power |
| DsiDisplay.Display.SetHostEngine | reference/downstream/drivers/dsi-staging/dsi_ctrl.c:3328-3358 | the host engine moves exactly when the request is not redundant, the controller has power, and no command engine runs on a host that goes off |
| DsiDisplay.Display.HostEnable | reference/downstream/drivers/dsi-staging/dsi_display.c:2475-2517 | every host engine is on after success, unless a splash screen runs on them |
| DsiDisplay.Display.HostDisable | reference/downstream/drivers/dsi-staging/dsi_display.c:2519-2566 | host engines go off only under idle command engines, and then all of them; power does not move |
| DsiDisplay.Display.TransferOnClocks | reference/downstream/drivers/dsi-staging/dsi_display.c:2846-2893 | the command engine is borrowed and given back whichever step fails; the message is sent at most once, with clocks, engines and buffer ready, success means that it was sent, and its code is the one reported |
| DsiDisplay.Display.HostTransfer | reference/downstream/drivers/dsi-staging/dsi_display.c:2822-2906 | once its first vote succeeded, all three refcounts are as before whichever step failed; a failed first vote keeps its reference; a sent message reports its own code |
| DsiDisplay.Display.ContSplashConfig | reference/downstream/drivers/dsi-staging/dsi_display.c:4716-4799 | splash votes, power vote and panel regulators are held exactly while the splash screen is up, on powered controllers with hosts on |
| DsiDisplay.Display.SplashResCleanup | reference/downstream/drivers/dsi-staging/dsi_display.c:4806-4831 | gives the splash votes back exactly once |
| DsiDisplay.Display.PreSwitch | reference/downstream/drivers/dsi-staging/dsi_display.c:6698-6741 | one core and one link vote on success, none on failure |
| DsiDisplay.Display.Prepare | reference/downstream/drivers/dsi-staging/dsi_display.c:7025-7183 | adds exactly one core and one link vote on success and none on any failure branch; on success controllers are powered, hosts on, and PHYs, hosts and panel taken in the order given; a failure keeps nothing it took; without failing calls it succeeds exactly if no mode switch meets the splash screen |
| DsiDisplay.Display.Enable | reference/downstream/drivers/dsi-staging/dsi_display.c:7448-7553 | ends the splash votes and moves no other; a command panel holds the command engine exactly when the enable reached it and succeeded; outside mode switches and the splash screen the panel is on after success, and without compression not after a failure |
| DsiDisplay.Display.Disable | reference/downstream/drivers/dsi-staging/dsi_display.c:7621-7663 | a command panel gives the command engine back and the panel is turned off; engines follow the count exactly unless the last hold goes while a controller is without power |
| DsiDisplay.Display.PostEnable | reference/downstream/drivers/dsi-staging/dsi_display.c:7555-7586 | a command panel gives its votes back |
| DsiDisplay.Display.PreDisable | reference/downstream/drivers/dsi-staging/dsi_display.c:7588-7619 | a command panel takes them again |
| DsiDisplay.Display.Unprepare | reference/downstream/drivers/dsi-staging/dsi_display.c:7682-7754 | gives one core and one link vote back, and panel, hosts and PHYs, in the order given; idle hosts that are on go off |
| DsiDisplay.Display.TeardownMirrors | reference/downstream/drivers/dsi-staging/dsi_display.c:7025-7754 | unprepare undoes prepare in the opposite order, except that hosts go off before the link clocks although they came on before them |
| DsiDisplay.Display.Life | reference/downstream/drivers/dsi-staging/dsi_display.c:7025-7754 | from controllers without power and host engines off, or any other state of the display: splash setup, prepare, enable, post_enable, pre_disable, disable, unprepare net to zero votes, zero holds on the command engine and nothing else kept but PHYs for ULPS, for both panel modes, with every command engine off again; if nothing fails, the command engines of a command panel ran in between and the hosts are off at the end |
| DsiDisplay.Display.RunEngines | reference/downstream/drivers/dsi-staging/dsi_display.c:243-328 | over any run of the display's operations, transfers and clock votes, refused or granted, of this and of other clients: engines are on exactly while held and no controller is asked for the state it is in, up to a disable that drops the last hold without power, which is exactly where they stop following; while no vote was refused that takes a client without core votes |
| DsiStatusIrq.BitArithmetic | reference/downstream/drivers/dsi-staging/dsi_ctrl.c:2597-2626 | setting or clearing BIT(i) adds or takes 2^i, or nothing |
| DsiStatusIrq.ZeroExactly | reference/downstream/drivers/dsi-staging/dsi_ctrl.c:2596-2632 | the mask reads zero exactly when no bit is set |
| DsiStatusIrq.EmptyMaskExactly | reference/downstream/drivers/dsi-staging/dsi_ctrl.c:2596-2632 | the mask is zero exactly when every refcount is zero |
| DsiStatusIrq.MaskFollows | reference/downstream/drivers/dsi-staging/dsi_ctrl.c:2584-2636 | first wait raises the bit, last drop lowers it, in between the mask stays |
| DsiStatusIrq.InterleavingIsInvisible | reference/downstream/drivers/dsi-staging/dsi_ctrl.c:2584-2636 | a refcount depends on the calls about its own interrupt alone, however they interleave with others |
| DsiStatusIrq.StatusIrq.SetupIsr | reference/downstream/drivers/dsi-staging/dsi_ctrl.c:2532-2566 | the line invariant starts to hold exactly when the mask is empty at registration |
| DsiStatusIrq.StatusIrq.Enable | reference/downstream/drivers/dsi-staging/dsi_ctrl.c:2584-2611 | counts up, and the line is enabled exactly with the first bit; ignored without a registration or past the last interrupt |
| DsiStatusIrq.StatusIrq.Disable | reference/downstream/drivers/dsi-staging/dsi_ctrl.c:2613-2636 | counts down to zero at most, and the line is disabled exactly with the last bit |
| DsiStatusIrq.StatusIrq.Isr | reference/downstream/drivers/dsi-staging/dsi_ctrl.c:2447-2525 | the four completions are looked at in order |
| DsiStatusIrq.IsrServes | reference/downstream/drivers/dsi-staging/dsi_ctrl.c:2447-2525 | each reported completion of the four drops one wait for it, and no other count moves |
| DsiStatusIrq.StatusIrq.Run | reference/downstream/drivers/dsi-staging/dsi_ctrl.c:2447-2636 | over any interleaving: counts are those of the history, a bit is set exactly when its count is positive, the line is enabled exactly while one is, and depth is never unbalanced |
| DsiStatusIrq.WaitOutlivesRegistration | reference/downstream/drivers/dsi-staging/dsi_ctrl.c:2532-2611 | a wait that outlives its registration: counted and masked in, with the line disabled |
| DsiTiming.MultFracExactly | reference/downstream/drivers/dsi-staging/dsi_display.c:4380-4381 | mult_frac of 32-bit values is the floor of the product, modulo 2^32, exactly when the product on the remainder fits in 32 bits |
| DsiTiming.LineRateUnique | reference/downstream/drivers/dsi-staging/dsi_display.c:4374-4387 | only one new total satisfies the bound below |
| DsiTiming.TruePorchKeepsLineRate | reference/downstream/drivers/dsi-staging/dsi_display.c:4374-4387 | abs(new_total * new_fps - old_total * old_fps) < new_fps with the sign given by the direction |
| DsiTiming.NewPorchExactly | reference/downstream/drivers/dsi-staging/dsi_display.c:4380-4387 | the driver's porch is the true one, modulo 2^32, exactly when the product on the remainder fits |
| DsiTiming.PorchExactly | reference/downstream/drivers/dsi-staging/dsi_display.c:4380-4396 | a porch reported as possible keeps the line rate exactly when that product and the porch fit |
| DsiTiming.SmallRatesFit | reference/downstream/drivers/dsi-staging/dsi_display.c:4380-4381 | refresh rates below 65536 never truncate that product, whatever the total |
| DsiTiming.RoomExactly | reference/downstream/drivers/dsi-staging/dsi_display.c:4383-4396 | the porch is possible exactly when the other lines leave room for it |
| DsiTiming.PorchTruncated | reference/downstream/drivers/dsi-staging/dsi_display.c:4380-4387 | a concrete change to 65537 frames per second: success is reported and the line rate is lost |
| DsiTiming.CalcFrontPorch | reference/downstream/drivers/dsi-staging/dsi_display.c:4353-4403 | success never with a zero total or rate; where the product fits, success is the sign of the porch cut to 32 bits; on success the bound holds exactly when product and porch fit |
| DsiTiming.SharedLineRate | reference/downstream/drivers/dsi-staging/dsi_display.c:4472-4481 | a per-controller porch written back for all controllers keeps the rate exactly when the fields were divided by the controller count |
| DsiTiming.SplitLinkLosesRate | reference/downstream/drivers/dsi-staging/dsi_display.c:4472-4481 | a concrete split link, 60 to 30 frames per second, that gets 145 of 200 pixels |
| DsiTiming.Timing.PerCtrlShares | reference/downstream/drivers/dsi-staging/dsi_display.c:4416-4490 | fields that the controllers share evenly add up to the total of all of them |
| DsiTiming.Timing.GetDfpsTiming | reference/downstream/drivers/dsi-staging/dsi_display.c:4416-4490 | only the chosen porch moves, and only on success; where the product on the remainder fits, success is the sign of the porch; the vertical total keeps the line rate exactly when nothing is truncated, the horizontal one per controller, and not if a split link divided the fields further |
| DsiTiming.PorchCarries | reference/downstream/drivers/dsi-staging/dsi_display.c:6138-6162 | total * divisor <= dividend < (total + 1) * divisor exactly when the dividend has room for the fixed part and the porch fits 32 bits |
| DsiTiming.CarriedExactly | reference/downstream/drivers/dsi-staging/dsi_display.c:6129-6137 | the dividend is the clock times the lanes whenever that fits 64 bits, as for every 32-bit clock |
| DsiTiming.Timing.AdjustModeTiming | reference/downstream/drivers/dsi-staging/dsi_display.c:6109-6166 | for D-PHY and C-PHY, the adjusted axis gets the one total the bit clock carries at the same refresh rate, exactly in that case; the other axis stays |
| DsiLinkRates.CPhyByteClk | reference/downstream/drivers/dsi-staging/dsi_ctrl.c:885-894 | bit clock to symbols to lanes to byte clock is the bit clock over seven, through five roundings |
| DsiLinkRates.LinkCtrl.UpdateLinkFreqs | reference/downstream/drivers/dsi-staging/dsi_ctrl.c:825-913 | byte clock is one floor of the 64-bit bit rate over 8 (or 16) times lanes, pixel clock one floor over the bits per pixel; for a video mode that fits, the pixel clock is refresh rate times line with blanking times lines with blanking; for a command mode it sends at most one frame in the transfer time, and one frame more per second would be too many |
| DsiLinkRates.ModePixExactly | reference/downstream/drivers/dsi-staging/dsi_ctrl.c:854-876 | a mode whose bit rate fits 64 bits gets exactly its pixel rate |
| DsiLinkRates.OverrideRates | reference/downstream/drivers/dsi-staging/dsi_ctrl.c:867-894 | an override whose bit rate fits gives byte clock override over 8 (or 7), whatever the lanes |
| DsiLinkRates.LinkCtrl.BitRate | reference/downstream/drivers/dsi-staging/dsi_ctrl.c:854-873 | bit rate from the mode or from the override, in 64 bits |
| DsiLinkRates.LinkDisplay.UpdateDsiBitrate | reference/downstream/drivers/dsi-staging/dsi_display.c:3906-4001 | controllers before the first refusal are switched, that one keeps its recorded bit clock but not its frequencies, the rest keep both |
| DsiLinkRates.ConfigureAndSwitch | reference/downstream/drivers/dsi-staging/dsi_display.c:3906-4001 | a configuration with an override bit clock and a bit clock switch to the same rate leave the same byte clocks on both PHYs if the bit rate fits 64 bits, and on D-PHY without split link the same frequencies altogether |
| DsiLinkRates.AdjustAndConfigure | reference/downstream/drivers/dsi-staging/dsi_display.c:6109-6166 | on a D-PHY a mode adjusted to a new bit clock and then configured has a bit rate of at most what the clock carries on all lanes, and less than one unit of the adjusted total below it, exactly in the range of the porch; the byte clock does not exceed the new one |
| DsiLinkRates.DPhyPixAgreesExactly | reference/downstream/drivers/dsi-staging/dsi_ctrl.c:851-881 | with split link their pixel clocks agree exactly when the additional lanes complete no further pixel |
| DsiLinkRates.DPhyPixAgreesForPixels | reference/downstream/drivers/dsi-staging/dsi_ctrl.c:851-881 | for a clock of at least one pixel per second: exactly when the lane counts agree |
| DsiLinkRates.SplitLinkDisagrees | reference/downstream/drivers/dsi-staging/dsi_ctrl.c:851-852 | a concrete split link with 20 pixels by one and 40 by the other |
| DsiLinkRates.CPhyPixAgreesExactly | reference/downstream/drivers/dsi-staging/dsi_display.c:3966-3971 | on C-PHY the pixel clocks differ by at most 3 and agree exactly when the dropped remainders stay short of a pixel |
| DsiLinkRates.CPhyDisagrees | reference/downstream/drivers/dsi-staging/dsi_display.c:3966-3971 | a concrete C-PHY clock with 2 pixels by one and none by the other |
| DsiLinkRates.RecordedRateRoundTrip | reference/downstream/drivers/dsi-staging/dsi_display.c:3956-3971 | switching to the bit clock recorded for a configuration gives its byte clock |
| DsiRoi.ClipHonouredExactly | reference/downstream/drivers/dsi-staging/dsi_display.c:7218-7222 | 16-bit width and height mean the requested rectangle exactly when its edges are ordered or a side is empty |
| DsiRoi.IntersectionExactly | reference/downstream/drivers/dsi-staging/dsi_display.c:162-184 | a pixel is in the intersection exactly when it is in both rectangles; an empty one is at the origin |
| DsiRoi.RectIntersect | reference/downstream/drivers/dsi-staging/dsi_display.c:162-184 | computes the intersection in 16-bit fields |
| DsiRoi.PieceExactly | reference/downstream/drivers/dsi-staging/dsi_display.c:7207-7226 | a controller's piece, shifted by its bounds, holds exactly the wanted pixels within the bounds and stays within their size |
| DsiRoi.CalcCtrlRoi | reference/downstream/drivers/dsi-staging/dsi_display.c:7185-7236 | the piece, or -EINVAL exactly for too many rectangles |
| DsiRoi.RoiCtrl.UpdateHostConfig | reference/downstream/drivers/dsi-staging/dsi_ctrl.c:2963-2973 | bounds are the controller's tile of the display |
| DsiRoi.RoiCtrl.SetRoi | reference/downstream/drivers/dsi-staging/dsi_ctrl.c:2250-2271 | changed exactly when the region differs or the mode is new |
| DsiRoi.RoiDisplay.SetCtrlRoi | reference/downstream/drivers/dsi-staging/dsi_display.c:7294-7328 | the region is recorded first; the panel is told it exactly when its command is taken |
| DsiRoi.RoiDisplay.SetRoi | reference/downstream/drivers/dsi-staging/dsi_display.c:7277-7332 | every controller up to the first refusal gets its piece, with that refusal's code; records, told regions and attempts as the pieces determine |
| DsiRoi.InStepExactly | reference/downstream/drivers/dsi-staging/dsi_display.c:7307-7320 | record and panel stay in step exactly when the region is known, the command is taken, or the panel is at it already |
| DsiRoi.RepeatIgnored | reference/downstream/drivers/dsi-staging/dsi_display.c:7307-7313 | the same request again changes nothing, sends nothing and reports success, whatever the first answer was |
| DsiRoi.RepeatAttemptsNothing | reference/downstream/drivers/dsi-staging/dsi_display.c:7277-7332 | repeating a request that dealt with every controller attempts no command |
| DsiRoi.StalePanel | reference/downstream/drivers/dsi-staging/dsi_display.c:7307-7320 | a concrete refused region that is recorded, not shown and never sent again |
| DsiRoi.PiecesTile | reference/downstream/drivers/dsi-staging/dsi_display.c:7185-7332 | pieces are disjoint, each within its controller's width, and their union is the request intersected with the display |
| DsiRoi.RequestTiles | reference/downstream/drivers/dsi-staging/dsi_display.c:7277-7332 | so is what a request that dealt with every controller records |
| DsiRoi.RoiDisplay.ConfigureAndSetRoi | reference/downstream/drivers/dsi-staging/dsi_display.c:7277-7332 | after a new mode, a request that reports success is recorded as such pieces, and the panel was sent each of them |
| HudAtlas.NextSpotApart | initramfs/ginkgo-status-gpu.c:493-504 | opening a shelf keeps earlier rectangles clear of the next spot |
| HudAtlas.RowCopied | initramfs/ginkgo-status-gpu.c:505-510 | one row copied shows that row and touches nothing else |
| HudAtlas.StillShown | initramfs/ginkgo-status-gpu.c:505-510 | a picture apart from the change is still there |
| HudAtlas.GlyphJoins | initramfs/ginkgo-status-gpu.c:486-512 | drawing a glyph on its spot keeps all others intact and disjoint |
| HudAtlas.HudAtlas.DrawGlyph | initramfs/ginkgo-status-gpu.c:505-510 | draws the bitmap row by row inside its rectangle |
| HudAtlas.HudAtlas.PackGlyph | initramfs/ginkgo-status-gpu.c:489-512 | one glyph goes beside the last one or below everything on the last shelf, and the atlas is full exactly when that is too low; then nothing packed before is disturbed |
| HudAtlas.HudAtlas.PackFont | initramfs/ginkgo-status-gpu.c:467-514 | every non-empty glyph of every font shows its own bitmap in a rectangle inside the atlas, pairwise disjoint, also those packed before an overflow |
| HudAtlas.BakeFonts | initramfs/ginkgo-status-gpu.c:467-573 | up to four fonts of glyphs at most w by h are all packed and uploaded if ceil(n / floor((ATLAS_W - 2) / (w + 1))) shelves of h + 1 rows fit the height |
| HudAtlas.HudAtlas.Finish | initramfs/ginkgo-status-gpu.c:548-573 | uploads exactly when nothing overflowed |
| HudAtlas.HudAtlas.GlyphQuad | initramfs/ginkgo-status-gpu.c:732-764 | the rectangle sampled for a glyph holds exactly its bitmap |
| HudBatch.ShownConcat | initramfs/ginkgo-status-gpu.c:627-646 | splitting a vertex stream between draws does not change what is shown |
| HudBatch.QuadTextured | initramfs/ginkgo-status-gpu.c:671-682 | the two triangles cover the quad, and a point at s and t of its sides shows the texture at s and t of its range |
| HudBatch.Renderer.FlushBatch | initramfs/ginkgo-status-gpu.c:627-646 | moves what waits to the drawn list, nothing lost |
| HudBatch.Renderer.EmitV | initramfs/ginkgo-status-gpu.c:648-669 | a full array is flushed first, between quads; the vertex comes next in order |
| HudBatch.Renderer.EmitQuad | initramfs/ginkgo-status-gpu.c:671-682 | six vertices of two triangles under the view in force |
| HudBatch.Renderer.FillRound | initramfs/ginkgo-status-gpu.c:691-709 | one quad with the radius clamped to half of either side |
| HudBatch.Renderer.BeginFrame | initramfs/ginkgo-status-gpu.c:575-589 | a frame starts with the identity view and nothing waiting |
| HudBatch.Renderer.ChangeView | initramfs/ginkgo-status-gpu.c:593-608 | what waits is drawn under its own view; the scale is clamped |
| HudBatch.Renderer.PresentFrame | initramfs/ginkgo-status-gpu.c:766-798 | after present everything emitted has been drawn |
| HudBatch.Renderer.Run | initramfs/ginkgo-status-gpu.c:575-798 | for any calls, drawn and waiting vertices equal those of an unbatched renderer, in order and under their views, whole quads only |
| HudWifiFlow.PasswordSheetExactly | initramfs/ginkgo-wifi-flow.h:248-274 | the password sheet opens exactly when a password is still wanted from the user |
| HudWifiFlow.AnswersExactly | initramfs/ginkgo-wifi-flow.h:248-274 | each other answer has its one condition: a wrong password, or a request for one after one was used, is refused exactly when the network is down and no password for it is queued |
| HudWifiFlow.RetryExactly | initramfs/ginkgo-wifi-flow.h:248-274 | exactly when the decision is to try the remembered password |
| HudWifi.Wifi.StartJob | initramfs/ginkgo-status.c:1324-1374 | refused while a job runs; otherwise the slot holds the new job exactly when it could be started |
| HudWifi.Wifi.DoConnect | initramfs/ginkgo-status.c:2138-2180 | any other job makes way; behind a connect job it is queued, but an empty probe never replaces a password queued for the same network |
| HudWifi.Wifi.SubmitPass | initramfs/ginkgo-status.c:2182-2211 | a long enough password is remembered for the network being joined and tried, or queued behind the attempt |
| HudWifi.Wifi.DoForget | initramfs/ginkgo-status.c:2213-2256 | everything queued or running is dropped for the forget job, and the spinner turns exactly if that job started |
| HudWifi.Wifi.JoinPicked | initramfs/ginkgo-status.c:2258-2279 | joins with the remembered password, or probes without one |
| HudWifi.Wifi.KickPending | initramfs/ginkgo-status.c:2281-2309 | a free slot goes to join, scan, link, device list in that order; what could not start stays pending, except a join |
| HudWifi.Wifi.MaybeConfirmJoin | initramfs/ginkgo-status.c:2374-2411 | an armed confirmation ends exactly when the network is up, which closes the sheet, or 12 s are over, which opens one |
| HudWifi.Wifi.FinishConnect | initramfs/ginkgo-status.c:2704-2795 | the remembered password is tried again exactly when it fits the network, does not count as used, and the job asks while the network is down and nothing better is queued; it is dropped exactly when it was refused |
| HudWifi.Wifi.ActOn | initramfs/ginkgo-status.c:2725-2795 | the effect of each decision on a finished connect job |
| HudWifi.Wifi.HearName | initramfs/ginkgo-status.c:2311-2356 | a name heard is ignored if it is another band of the network being joined or the forgotten network; any other ends the holding back of the forgotten one |
| HudWifi.Wifi.ReadDevices | initramfs/ginkgo-status.c:2413-2493 | the device list decides whether the link is up, except that a forgotten network is not believed; a device that is down ends that |
| HudWifi.Wifi.FinishForget | initramfs/ginkgo-status.c:2796-2821 | the forgotten network is no longer shown as live, and the password of the selected network is dropped |
| HudWifi.Wifi.CollectJob | initramfs/ginkgo-status.c:2668-2822 | what each kind of finished job but a join leads to; in runs, a finished forget drops the password of the network it forgot, whatever was heard meanwhile |
| HudWifi.Wifi.FinishJoin | initramfs/ginkgo-status.c:2694-2822 | a finished join and what is started after it, for each decision; a refused password is no longer remembered and any other one is |
| HudWifi.Wifi.JoinAfterRefusal | initramfs/ginkgo-status.c:2258-2279 | after any refusal, going back and joining again starts without a password |
| HudWifi.Wifi.OneTick | initramfs/ginkgo-status.c:4781-4892 | after a tick no confirmation is older than its period; a finished join and a confirmation that times out lead to what their decisions say, the next job included |
| HudWifi.Wifi.Handle | initramfs/ginkgo-status.c:3391-3490 | what each event does under the sheet it needs, once that has slid up; it keeps the rules of the run, and a password is submitted during a confirmation only by a key held down since before it |
| HudWifi.Wifi.Run | initramfs/ginkgo-status.c:2138-2823 | in any run: a forget spinner has its job, which forgets what is selected, a finished job is about the network shown, while connect jobs can be started a connect spinner has its job or an armed confirmation, a queued password is never replaced by an empty one for the same network, a forgotten network is not shown while it is held back, a join the user started is never retried, and none is unless a password was submitted during a confirmation |
| HudWifi.Wifi.KeepRetrying | initramfs/ginkgo-status.c:2742-2748 | a join whose remembered password does not count as used is retried as often as the job asks |
| HudWifiRetry.HeldKeyRun | initramfs/ginkgo-status.c:2138-2823 | a run of events from power-on that reaches such a join, for any networks, password and number of retries |

## Left out

- The clock, regulator, bus, power and interrupt frameworks: counters, a bus level, and arbitrary return codes stand for them. Calls are serialised, because the driver holds its locks.
- Clock manager callbacks are taken as registered, as the display registers all four; the work of the post-on and pre-off callbacks (ULPS, clamps, PHY gating) is only a return code. The regulators of all controllers, and of all PHYs, are one each, up or down.
- ClkManager.Recheck: without faults it succeeds only wherever the regulators match the core state, because powered controllers refuse a second power-on.
- The bus request is a level, not a count: an error path that withdraws it cannot restore a level that was up before.
- CoreEnable: a failure whose undo is refused as well promises nothing about counts.
- CmdEngineEnable: the 32-bit reference count is followed to its wrap-around only as the condition under which engines stop following it.
- ReadCtrl.MessageRx: the receive buffer must hold what is written to it, 4, 16 or n + 6 bytes, which the code does not check against the length of the caller's buffer; the overlapping memcpy that drops the header is taken as an ascending byte copy; acknowledge-and-error replies, missing bytes and a panel that ignores the maximum return size are not modelled.
- CmdDma.MessageTx: only embedded fetch-memory commands outside a secure session whose transfer is not deferred to a later trigger; FIFO transfers, non-embedded buffers and packet construction (mipi_dsi_create_packet is not part of this model) are left out.
- Display.Prepare: PHY and controller steps between the votes, the panel and the video engine are return codes; that a host stays on under the video engine is left out, and so are platforms whose controller block handles ULPS. What is called back for is taken as given back. Panel modes are fixed over a life; a switch between command and video mode in the middle is left out.
- StatusIrq.Enable: the C int refcount is unbounded here; event callbacks and completions are left out.
- Timing.GetDfpsTiming: starts after the checks that a seamless change is possible at all; rates at most 2^31 apart, and at most two controllers, as registration enforces.
- Timing.AdjustModeTiming: the divisor must be nonzero modulo 2^32, where the kernel's division would trap.
- HudAtlas.PackFont: glyphs are at most ATLAS_W - 1 wide; wider ones overrun the row in the code. Texture coordinates, colours and the GL calls are left out.
- Renderer.EmitQuad: the renderer is ready; calls before it is set up, GPU timing and page flips are left out. Coordinates are real numbers.
- Wifi.Run: strings are not truncated to their C buffers; status texts, fail kinds, animations and screen coordinates are left out, want_forget is left out because nothing sets it, and refresh timers are arbitrary.
- Device tree parsing, sysfs and debugfs, DRM glue, register layouts, the on-screen keyboard, touch handling and drawing.
