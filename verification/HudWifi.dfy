/** The pure Wi-Fi flow decisions of the boot HUD. */
module HudWifiFlow {

  /** A finished job: its exit code, and which of the telling phrases its output contains. */
  datatype Outcome = Outcome(rc: int, saysConnected: bool, saysNeedPassword: bool, saysWrongPassword: bool)

  datatype ConnectAct = Success | OpenPass | WrongPass | RetryPsk | WaitPending | Fail

  datatype ConnectIn = ConnectIn(out: Outcome, connected: bool, live: string, target: string, leftHome: bool,
                                 wantConnect: bool, pendSsid: string, pendHasPass: bool,
                                 usedPass: bool, haveSessionPsk: bool)

  predicate SsidEq(a: string, b: string) { a != "" && b != "" && a == b }

  predicate AlreadyOn(connected: bool, live: string, want: string) { connected && SsidEq(live, want) }

  predicate JobOk(o: Outcome) { o.rc == 0 || o.saysConnected }

  predicate JobNeedPw(o: Outcome) {
    !JobOk(o) && o.rc != 3 && (o.rc == 2 || o.saysNeedPassword)
  }

  predicate JobWrongPw(o: Outcome) {
    !JobOk(o) && (o.rc == 3 || o.saysWrongPassword)
  }

  predicate ForgetCanStart(forgetting: bool, jobRunning: bool, jobIsForget: bool) {
    if jobRunning && jobIsForget then false else if !jobRunning then true else !jobIsForget
  }

  predicate DropPending(ok: bool, done: string, pend: string) { ok && SsidEq(done, pend) }

  predicate OpenPassSheet(needPw: bool, alreadyOn: bool, leftHome: bool, pendingHasPass: bool) {
    needPw && !alreadyOn && !leftHome && !pendingHasPass
  }

  predicate KeepPendingPsk(queuingEmpty: bool, wantConnect: bool, pendSsid: string, pendPass: string, ssid: string) {
    queuingEmpty && wantConnect && pendPass != "" && SsidEq(pendSsid, ssid)
  }

  predicate JoinUseSessionPsk(ssid: string, knownSsid: string, knownPsk: string) {
    SsidEq(ssid, knownSsid) && knownPsk != ""
  }

  function PassSsid(target: string, selected: string): string { if target != "" then target else selected }

  /** gw_on_connect_job(). */
  function OnConnectJob(i: ConnectIn): ConnectAct {
    var already := AlreadyOn(i.connected, i.live, i.target);
    var needPw := JobNeedPw(i.out);
    var wrong := JobWrongPw(i.out);
    var pendPw := i.wantConnect && i.pendHasPass && SsidEq(i.pendSsid, i.target);
    if JobOk(i.out) || ((needPw || wrong) && already) then Success
    else if (needPw || wrong) && pendPw then WaitPending
    else if needPw && !wrong && !i.usedPass && i.haveSessionPsk then RetryPsk
    else if wrong || (i.usedPass && needPw) then WrongPass
    else if OpenPassSheet(needPw, already, i.leftHome, false) then OpenPass
    else Fail
  }

  /** The password sheet pops up, in either form, exactly when the network still wants a password from
      the user: the job did not succeed and said so, the target is not up, no password for it is queued
      or remembered for a first try, and an unanswered request does not chase a user who went home. */
  lemma PasswordSheetExactly(i: ConnectIn)
    ensures var pendPw := i.wantConnect && i.pendHasPass && SsidEq(i.pendSsid, i.target);
      OnConnectJob(i) in {OpenPass, WrongPass} <==>
      && !JobOk(i.out) && !AlreadyOn(i.connected, i.live, i.target) && !pendPw
      && (JobWrongPw(i.out) || (JobNeedPw(i.out) && (i.usedPass || (!i.haveSessionPsk && !i.leftHome))))
  {
  }

  /** The job wants a password: it asks for one or says that the one it had is wrong. */
  predicate PassTrouble(i: ConnectIn) { JobNeedPw(i.out) || JobWrongPw(i.out) }

  /** A password for the network the job was about waits in the queue. */
  predicate PassQueued(i: ConnectIn) { i.wantConnect && i.pendHasPass && SsidEq(i.pendSsid, i.target) }

  /** The password that was used is no good: the job says so, or asks for one all the same. */
  predicate PassRefused(i: ConnectIn) {
    && (JobWrongPw(i.out) || (JobNeedPw(i.out) && i.usedPass))
    && !AlreadyOn(i.connected, i.live, i.target) && !PassQueued(i)
  }

  /** Each of the other answers has its one condition; a refused password is never taken for a missing one. */
  lemma AnswersExactly(i: ConnectIn)
    ensures var up := AlreadyOn(i.connected, i.live, i.target);
      && (OnConnectJob(i) == Success <==> JobOk(i.out) || (PassTrouble(i) && up))
      && (OnConnectJob(i) == WaitPending <==> PassTrouble(i) && !up && PassQueued(i))
      && (OnConnectJob(i) == WrongPass <==> PassRefused(i))
      && (OnConnectJob(i) == OpenPass <==>
          PassTrouble(i) && !up && !PassQueued(i) && !PassRefused(i) && !i.haveSessionPsk && !i.leftHome)
      && (OnConnectJob(i) == Fail <==>
          && !JobOk(i.out)
          && (!PassTrouble(i) || (!up && !PassQueued(i) && !PassRefused(i) && !i.haveSessionPsk && i.leftHome)))
  {
  }

  /** The remembered password is tried by itself exactly when the job asked for one, none had been used,
      and nothing better is queued; trying it changes none of these, so the next such answer tries again. */
  lemma RetryExactly(i: ConnectIn)
    ensures OnConnectJob(i) == RetryPsk <==>
      && JobNeedPw(i.out) && !JobWrongPw(i.out) && !AlreadyOn(i.connected, i.live, i.target)
      && !(i.wantConnect && i.pendHasPass && SsidEq(i.pendSsid, i.target)) && !i.usedPass && i.haveSessionPsk
    ensures OnConnectJob(i) == RetryPsk ==> forall out: Outcome | JobNeedPw(out) && !JobWrongPw(out) ::
      OnConnectJob(i.(out := out, wantConnect := false)) == RetryPsk
  {
  }
}

/** The Wi-Fi job machine of the boot HUD: one job slot, one pending slot per kind, and a confirmation
    period after a join. */
module HudWifi {

  import opened HudWifiFlow

  // Job kinds.
  datatype Kind = Radio | Info | Scan | Connect | Link | Forget

  datatype Sheet = NoSheet | List | Detail | Pass

  /** The confirmation period after a join, in nanoseconds. */
  const CONFIRM_NS: nat := 12_000_000_000

  /** How far up a sheet must have slid, of 1.0, before taps reach it. */
  const SHOWN := 0.5
  const LIST_SHOWN := 0.45

  /** The state of the wireless device in a device list, if it is listed. */
  datatype Device = Unlisted | Down | Rising | Up

  /** What a finished job printed: the device list shows the device, a scan or a link query names networks;
      an empty name is none. */
  datatype Report = Report(device: Device, first: string, second: string)

  /** The name of another band of the same network: the longer name adds a suffix. */
  predicate Extends(long: string, short: string)
  {
    |short| < |long| && short == long[..|short|] && (long[|short|] == '-' || long[|short|] == '_')
  }

  /** What the user, the environment and the clock do. The password sheet submits on a tap of its button, or
      when a key that went down on it comes up again. Hear is the active network of the known ones, looked up
      every second. */
  datatype Event =
    | TapJoin(enterprise: bool, current: bool)
    | TapForget
    | TapScan
    | TapSubmit(enterprise: bool, password: string)
    | KeyDown
    | KeyUp(enterprise: bool, password: string)
    | PickRow(ssid: string)
    | GoBack
    | OpenList(noneKnown: bool)
    | Slide(to: real)
    | Hear(name: string)
    | Tick(now: nat, finished: bool, out: Outcome, report: Report, refreshScan: bool, refreshInfo: bool)

  /** What is queued behind the connect job. */
  datatype Queue = Queue(wanted: bool, ssid: string, pass: string)

  /** A password queued for a network is still there if something is still queued for that network. */
  predicate PassKept(before: Queue, after: Queue)
  {
    before.wanted && before.pass != "" && after.wanted && after.ssid == before.ssid && after.ssid != "" ==>
      after.pass != ""
  }

  class Wifi {
    // Whether the n-th attempt to start a process succeeds.
    const spawns: nat -> bool

    var spawned: nat
    var jobRunning: bool
    var jobKind: Kind
    // The network, and for a join the password, that the job in the slot was started with.
    var jobSsid: string
    var jobPass: string
    var connecting: bool
    var forgetting: bool
    var joinWaitLive: bool
    var tJoinWait: nat
    var connectSsid: string
    var connectNeedPass: bool
    var wantScan: bool
    var wantInfo: bool
    var wantLink: bool
    var wantConnect: bool
    var pendSsid: string
    var pendPass: string
    var forgetSsid: string
    var selectedSsid: string
    var knownPskSsid: string
    var knownPsk: string
    var connected: bool
    var busy: bool
    var ssid: string
    var sheet: Sheet
    // How far up the sheet has slid.
    var slide: real
    var oskHeld: bool
    // Whether starting a connect job has ever failed.
    ghost var connectLost: bool
    // Whether the join in progress was started from the queue rather than by the user.
    ghost var staleJoin: bool
    // Whether a password was ever submitted while a join was being confirmed.
    ghost var lateSubmit: bool
    // How often a remembered password was tried again, and how often for a join the user started.
    ghost var retries: nat
    ghost var userRetries: nat

    /** The HUD starts by switching the radio on. */
    constructor (spawns: nat -> bool)
      ensures Valid() && Rules() && !connecting && !forgetting && !connectLost && !oskHeld && !connected && !busy
      ensures !lateSubmit && retries == 0 && !wantConnect && sheet == NoSheet && knownPskSsid == ""
              && connectSsid == "" && selectedSsid == ""
      ensures this.spawns == spawns && slide == 0.0
      ensures if spawns(0) then JobIs(Radio, "", "") && !wantInfo else !jobRunning && wantInfo
    {
      this.spawns := spawns;
      spawned, jobRunning, jobKind, jobSsid, jobPass := 1, spawns(0), Radio, "", "";
      connecting, forgetting, joinWaitLive, tJoinWait := false, false, false, 0;
      connectSsid, connectNeedPass := "", false;
      wantScan, wantInfo, wantLink, wantConnect, pendSsid, pendPass := false, !spawns(0), false, false, "", "";
      forgetSsid, selectedSsid, knownPskSsid, knownPsk := "", "", "", "";
      connected, busy, ssid, sheet, slide, oskHeld, connectLost := false, false, "", NoSheet, 0.0, false, false;
      staleJoin, lateSubmit, retries, userRetries := false, false, 0, 0;
    }

    predicate ForgottenHidden()
      reads `forgetSsid, `ssid
    {
      forgetSsid != "" ==> ssid != forgetSsid
    }

    /** No spinner turns without something that will stop it, the answer of a connect job is about the network
        the machine thinks it is, and a network being forgotten is not the one shown. */
    ghost predicate Valid()
      reads `forgetting, `jobRunning, `jobKind, `jobSsid, `connecting, `joinWaitLive, `connectSsid, `forgetSsid,
          `tJoinWait, `connectLost, `ssid
    {
      && (forgetting ==> jobRunning && jobKind == Forget)
      && ForgottenHidden()
      && (jobRunning && jobKind == Connect ==>
          connecting && !joinWaitLive && connectSsid != "" && jobSsid == connectSsid)
      && (joinWaitLive ==> connecting && connectSsid != "" && tJoinWait > 0)
      && (connecting && !connectLost ==> joinWaitLive || (jobRunning && jobKind == Connect))
    }

    /** The remembered password fits the network being joined and does not count as used. */
    predicate UnprovenPass()
      reads `connectNeedPass, `connectSsid, `knownPskSsid, `knownPsk
    {
      !connectNeedPass && JoinUseSessionPsk(connectSsid, knownPskSsid, knownPsk)
    }

    /** The network a running forget job forgets is the selected one. Only a join from the queue can be retried,
        and only after a password was submitted during a confirmation; without such a submission a queued
        password belongs to the join in progress. */
    ghost predicate RetryRules()
      reads this
    {
      && userRetries == 0
      && (Joining() && UnprovenPass() ==> staleJoin && lateSubmit)
      && (joinWaitLive ==> sheet != Pass)
      && (forgetting ==> !joinWaitLive && Shown(Detail) && selectedSsid == jobSsid)
      && (connecting ==> connectSsid != "")
      && (!lateSubmit ==> retries == 0)
      && (!lateSubmit && wantConnect ==>
          pendSsid == connectSsid && connectSsid != "" && connectNeedPass && !joinWaitLive
              && (connecting || !jobRunning))
    }

    /** What holds between events: besides, whatever is queued then has its join in progress. */
    ghost predicate Rules()
      reads this
    {
      RetryRules() && (!lateSubmit && wantConnect ==> connecting)
    }

    /** The sheet is there for taps to reach. */
    predicate Shown(s: Sheet)
      reads `sheet, `slide
    {
      sheet == s && slide > if s == List then LIST_SHOWN else SHOWN
    }

    function Queued(): Queue
      reads `wantConnect, `pendSsid, `pendPass
    {
      Queue(wantConnect, pendSsid, pendPass)
    }

    twostate predicate QueueKept()
      reads this
    {
      PassKept(old(Queued()), Queued())
    }

    /** start_nmcli(): refuses while the slot is taken. */
    method StartJob(kind: Kind, target: string, pass: string) returns (ok: bool)
      modifies `spawned, `jobRunning, `jobKind, `jobSsid, `jobPass
      ensures ok <==> !old(jobRunning) && spawns(old(spawned))
      ensures ok ==> JobIs(kind, target, pass)
      ensures !ok ==> SlotKept()
    {
      if jobRunning {
        return false;
      }
      ok := spawns(spawned);
      spawned := spawned + 1;
      if ok {
        jobRunning, jobKind, jobSsid, jobPass := true, kind, target, pass;
      }
    }

    predicate JobIs(kind: Kind, target: string, pass: string)
      reads `jobRunning, `jobKind, `jobSsid, `jobPass
    {
      jobRunning && jobKind == kind && jobSsid == target && jobPass == pass
    }

    /** A connect job is in the slot. */
    predicate Joining()
      reads `jobRunning, `jobKind
    {
      jobRunning && jobKind == Connect
    }

    /** The slot holds a fresh job of this kind, or nothing if it could not be started. */
    twostate predicate Launched(kind: Kind, target: string, pass: string)
      reads `spawned, `jobRunning, `jobKind, `jobSsid, `jobPass
    {
      (jobRunning <==> spawns(old(spawned))) && (jobRunning ==> JobIs(kind, target, pass))
    }

    method AbortJob()
      modifies `jobRunning
      ensures !jobRunning
    {
      jobRunning := false;
    }

    method StartScan()
      requires Valid()
      modifies `spawned, `jobRunning, `jobKind, `jobSsid, `jobPass, `wantScan
      ensures Valid() && (old(Rules()) ==> Rules())
      ensures Scanned()
      ensures !old(jobRunning) ==> Launched(Scan, "", "") && wantScan == (old(wantScan) || !jobRunning)
    {
      var ok := StartJob(Scan, "", "");
      if !ok {
        wantScan := true;
      }
    }

    method StartInfo()
      requires Valid()
      modifies `spawned, `jobRunning, `jobKind, `jobSsid, `jobPass, `wantInfo
      ensures Valid() && (old(Rules()) ==> Rules())
      ensures !old(jobRunning) ==> Launched(Info, "", "") && wantInfo == (old(wantInfo) || !jobRunning)
      ensures old(jobRunning) ==> wantInfo && jobRunning && jobKind == old(jobKind) && jobSsid == old(jobSsid)
    {
      var ok := StartJob(Info, "", "");
      if !ok {
        wantInfo := true;
      }
    }

    method StartLink()
      requires Valid()
      modifies `spawned, `jobRunning, `jobKind, `jobSsid, `jobPass, `wantLink
      ensures Valid()
      ensures !old(jobRunning) ==> Launched(Link, "", "") && wantLink == (old(wantLink) || !jobRunning)
      ensures old(jobRunning) ==> wantLink && jobRunning && jobKind == old(jobKind) && jobSsid == old(jobSsid)
    {
      var ok := StartJob(Link, "", "");
      if !ok {
        wantLink := true;
      }
    }

    /** What wifi_connect() shows before it starts its job. */
    method MarkConnecting(target: string)
      modifies `forgetSsid, `connecting, `joinWaitLive, `connectSsid, `busy
      ensures connecting && !joinWaitLive && connectSsid == target && forgetSsid == "" && busy
    {
      forgetSsid := "";
      connecting := true;
      joinWaitLive := false;
      busy := true;
      connectSsid := target;
    }

    /** wifi_connect(): any other job makes way; behind a running connect job the request is queued, but
        an empty probe never replaces a password queued for the same network. */
    method DoConnect(target: string, pass: string)
      requires !forgetting
      modifies `forgetSsid, `connecting, `joinWaitLive, `connectSsid, `busy, `wantConnect, `pendSsid, `pendPass
      modifies `connectLost
      modifies `spawned, `jobRunning, `jobKind, `jobSsid, `jobPass
      ensures target == "" ==> unchanged(this)
      ensures target != "" ==> connecting && !joinWaitLive && connectSsid == target && forgetSsid == "" && busy
      ensures target != "" && old(Joining()) ==> Joining() && jobSsid == old(jobSsid) && wantConnect
      ensures target != "" && old(Joining() && KeepPendingPsk(pass == "", wantConnect, pendSsid, pendPass, target)) ==>
        pendSsid == old(pendSsid) && pendPass == old(pendPass)
      ensures target != "" && old(Joining()
          && !KeepPendingPsk(pass == "", wantConnect, pendSsid, pendPass, target)) ==>
              pendSsid == target && pendPass == pass
      ensures target != "" && !old(Joining()) ==> Valid() && Launched(Connect, target, pass)
      ensures !old(Joining()) ==>
        wantConnect == old(wantConnect) && pendSsid == old(pendSsid) && pendPass == old(pendPass)
      ensures QueueKept()
    {
      if target == "" {
        return;
      }
      MarkConnecting(target);
      if jobRunning && jobKind != Connect {
        AbortJob();
      }
      if jobRunning {
        if KeepPendingPsk(pass == "", wantConnect, pendSsid, pendPass, target) {
          return;
        }
        pendSsid := target;
        pendPass := pass;
        wantConnect := true;
        return;
      }
      var ok := StartJob(Connect, target, pass);
      if !ok {
        connectLost := true;
      }
    }

    /** A join the user starts, on a slot without another one. */
    method BeginJoin(target: string, pass: string)
      requires Valid() && !connecting && !forgetting && target != ""
      modifies `forgetSsid, `connecting, `joinWaitLive, `connectSsid, `busy, `wantConnect, `pendSsid, `pendPass
      modifies `connectLost
      modifies `spawned, `jobRunning, `jobKind, `jobSsid, `jobPass, `staleJoin
      ensures Valid() && unchanged(`wantConnect, `pendSsid, `pendPass)
      ensures connecting && !joinWaitLive && !staleJoin && connectSsid == target && Launched(Connect, target, pass)
      ensures old(Rules() && (connectNeedPass || !JoinUseSessionPsk(target, knownPskSsid, knownPsk))) ==> Rules()
    {
      hide JoinUseSessionPsk, SsidEq, KeepPendingPsk;
      staleJoin := false;
      DoConnect(target, pass);
    }

    /** A join started from the queue, on a free slot. */
    method StartQueued()
      requires Valid() && !jobRunning
      modifies `forgetSsid, `connecting, `joinWaitLive, `connectSsid, `busy, `wantConnect, `pendSsid, `pendPass
      modifies `connectLost
      modifies `spawned, `jobRunning, `jobKind, `jobSsid, `jobPass, `staleJoin
      ensures Valid() && !wantConnect && staleJoin && unchanged(`pendSsid, `pendPass)
      ensures joinWaitLive ==> old(joinWaitLive)
      ensures pendSsid != "" ==> connecting && connectSsid == pendSsid && Launched(Connect, pendSsid, pendPass)
      ensures old(RetryRules() && wantConnect) ==> Rules()
    {
      hide JoinUseSessionPsk, SsidEq, KeepPendingPsk;
      wantConnect := false;
      staleJoin := true;
      DoConnect(pendSsid, pendPass);
    }

    /** The password counts as used from now on, and is remembered. */
    method RememberPass(target: string, password: string)
      modifies `connectNeedPass, `knownPskSsid, `knownPsk, `lateSubmit
      ensures connectNeedPass && knownPskSsid == target && knownPsk == password
      ensures lateSubmit == (old(lateSubmit) || joinWaitLive)
      ensures old(Rules()) ==> Rules()
    {
      hide JoinUseSessionPsk;
      connectNeedPass := true;
      knownPskSsid, knownPsk := target, password;
      lateSubmit := lateSubmit || joinWaitLive;
    }

    method QueuePass(target: string, password: string)
      modifies `pendSsid, `pendPass, `wantConnect
      ensures wantConnect && pendSsid == target && pendPass == password
      ensures old(Rules()) && target == connectSsid && connecting && connectNeedPass ==>
        (!joinWaitLive || lateSubmit ==> Rules())
    {
      hide JoinUseSessionPsk;
      pendSsid := target;
      pendPass := password;
      wantConnect := true;
    }

    predicate Submits(enterprise: bool, password: string)
      reads `connectSsid, `selectedSsid, `forgetting
    {
      PassSsid(connectSsid, selectedSsid) != "" && !forgetting && !enterprise && |password| >= 8
    }

    twostate predicate Submitted(enterprise: bool, password: string)
      reads this
    {
      && unchanged(`connected, `ssid, `forgetting, `retries, `userRetries, `tJoinWait)
      && lateSubmit == old(lateSubmit || (Submits(enterprise, password) && joinWaitLive))
      && if !old(Submits(enterprise, password)) then JoinKept() && MemoryKept() && SlotKept()
         else var target := old(PassSsid(connectSsid, selectedSsid));
           && connectNeedPass && (knownPskSsid, knownPsk) == (target, password) && connecting
           && (old(connecting) ==> wantConnect && (pendSsid, pendPass) == (target, password))
           && (old(connecting) ==> SlotKept() && unchanged(`connectSsid, `joinWaitLive, `staleJoin))
           && (!old(connecting) ==> connectSsid == target && Launched(Connect, target, password) && !joinWaitLive)
           && (!old(connecting) ==> unchanged(`wantConnect, `pendSsid, `pendPass))
    }

    /** wifi_submit_pass(): a password of eight characters is remembered for the network being joined, and
        tried at once or queued behind the attempt in progress. */
    method SubmitPass(enterprise: bool, password: string)
      requires Valid()
      modifies `forgetSsid, `connecting, `joinWaitLive, `connectSsid, `busy, `wantConnect, `pendSsid, `pendPass
      modifies `connectLost
      modifies `spawned, `jobRunning, `jobKind, `jobSsid, `jobPass, `connectNeedPass, `knownPskSsid, `knownPsk
      modifies `lateSubmit, `staleJoin
      ensures Valid() && QueueKept() && (old(Rules()) ==> Rules()) && Submitted(enterprise, password)
      ensures lateSubmit ==> old(lateSubmit || joinWaitLive)
    {
      var target := PassSsid(connectSsid, selectedSsid);
      if target == "" || forgetting || enterprise || |password| < 8 {
        return;
      }
      ConnectingHasNetwork();
      TryPass(target, password);
    }

    method TryPass(target: string, password: string)
      requires Valid() && target == PassSsid(connectSsid, selectedSsid) != "" && Submits(false, password)
      requires Rules() && connecting ==> connectSsid != ""
      modifies `forgetSsid, `connecting, `joinWaitLive, `connectSsid, `busy, `wantConnect, `pendSsid, `pendPass
      modifies `connectLost
      modifies `spawned, `jobRunning, `jobKind, `jobSsid, `jobPass, `connectNeedPass, `knownPskSsid, `knownPsk
      modifies `lateSubmit, `staleJoin
      ensures Valid() && QueueKept() && (old(Rules()) ==> Rules()) && Submitted(false, password)
    {
      hide JoinUseSessionPsk, SsidEq, RetryRules, JoinKept, MemoryKept;
      RememberPass(target, password);
      if connecting {
        QueuePass(target, password);
        return;
      }
      BeginJoin(target, password);
    }

    predicate Forgets(target: string)
      reads `forgetting, `jobRunning, `jobKind
    {
      target != "" && ForgetCanStart(forgetting, jobRunning, jobKind == Forget)
    }

    lemma ConnectingHasNetwork()
      ensures Rules() && connecting ==> connectSsid != ""
    {
    }

    /** What wifi_forget() clears before it starts its job. */
    method MarkForgetting(target: string)
      requires target != ""
      modifies `joinWaitLive, `connecting, `busy, `wantConnect, `wantScan, `wantInfo, `wantLink, `forgetting
      modifies `forgetSsid, `connected, `ssid
      ensures forgetting && forgetSsid == target && ssid != target && (old(Rules()) ==> QuietRules())
      ensures !joinWaitLive && !connecting && !busy && !wantConnect && !wantScan && !wantInfo && !wantLink
      ensures if SsidEq(old(ssid), target) then !connected && ssid == "" else unchanged(`connected, `ssid)
    {
      hide JoinUseSessionPsk;
      joinWaitLive := false;
      connecting := false;
      busy := false;
      wantConnect := false;
      wantScan := false;
      wantInfo := false;
      wantLink := false;
      forgetting := true;
      forgetSsid := target;
      if SsidEq(ssid, target) {
        connected := false;
        ssid := "";
      }
    }

    twostate predicate Forgot(target: string)
      reads this
    {
      && unchanged(`knownPskSsid, `knownPsk, `staleJoin, `lateSubmit, `retries, `userRetries, `connectSsid)
      && if old(Forgets(target)) then ForgetStarted(target)
         else JoinKept() && MemoryKept() && SlotKept() && unchanged(`forgetSsid)
    }

    twostate predicate ForgetStarted(target: string)
      reads this
    {
      && Launched(Forget, target, "") && forgetting == jobRunning && forgetSsid == target
      && !joinWaitLive && !connecting && !wantConnect && !wantScan && !wantInfo && !wantLink
      && if SsidEq(old(ssid), target) then !connected && ssid == "" else unchanged(`connected, `ssid)
    }

    /** wifi_forget(): drops everything queued or running for the sake of the forget job. */
    method DoForget(target: string)
      requires Valid()
      modifies `joinWaitLive, `connecting, `busy, `wantConnect, `wantScan, `wantInfo, `wantLink, `forgetting
      modifies `forgetSsid, `connected, `ssid
      modifies `spawned, `jobRunning, `jobKind, `jobSsid, `jobPass
      ensures Valid() && QueueKept() && (old(Rules()) && target == selectedSsid && Shown(Detail) ==> Rules())
      ensures Forgot(target)
    {
      hide JoinUseSessionPsk, SsidEq, RetryRules, QuietRules, ForgetStarted;
      if target == "" {
        return;
      }
      if !ForgetCanStart(forgetting, jobRunning, jobKind == Forget) {
        return;
      }
      ForgetNow(target);
    }

    method ForgetNow(target: string)
      requires Forgets(target)
      modifies `joinWaitLive, `connecting, `busy, `wantConnect, `wantScan, `wantInfo, `wantLink, `forgetting
      modifies `forgetSsid, `connected, `ssid
      modifies `spawned, `jobRunning, `jobKind, `jobSsid, `jobPass
      ensures Valid() && !wantConnect && (old(Rules()) && target == selectedSsid && Shown(Detail) ==> Rules())
      ensures ForgetStarted(target)
    {
      hide JoinUseSessionPsk, SsidEq, RetryRules, QuietRules, SlotKept, JobIs, Shown;
      MarkForgetting(target);
      if jobRunning && jobKind != Forget {
        AbortJob();
      }
      if jobRunning {
        return;
      }
      StartForget(target);
    }

    /** Nobody joins and nothing is queued. */
    ghost predicate QuietRules()
      reads `connecting, `joinWaitLive, `wantConnect, `userRetries, `retries, `lateSubmit
    {
      !connecting && !joinWaitLive && !wantConnect && userRetries == 0 && (!lateSubmit ==> retries == 0)
    }

    method StartForget(target: string)
      requires !jobRunning && forgetting && forgetSsid == target && !connecting && !joinWaitLive && !wantConnect
      requires ssid != target
      modifies `spawned, `jobRunning, `jobKind, `jobSsid, `jobPass, `forgetting
      ensures Valid() && Launched(Forget, target, "") && forgetting == jobRunning
      ensures old(QuietRules()) && target == selectedSsid && Shown(Detail) ==> Rules()
    {
      hide JoinUseSessionPsk;
      var ok := StartJob(Forget, target, "");
      if !ok {
        forgetting := false;
      }
    }

    predicate Joins(enterprise: bool, current: bool)
      reads `selectedSsid, `connecting, `forgetting
    {
      selectedSsid != "" && !connecting && !forgetting && !current && !enterprise
    }

    /** The password that a join of the selected network starts with. */
    function SessionPass(): string
      reads `selectedSsid, `knownPskSsid, `knownPsk
    {
      if JoinUseSessionPsk(selectedSsid, knownPskSsid, knownPsk) then knownPsk else ""
    }

    twostate predicate PickedJoin(enterprise: bool, current: bool)
      reads this
    {
      && unchanged(`wantConnect, `pendSsid, `pendPass, `knownPskSsid, `knownPsk, `connected, `ssid, `forgetting)
      && unchanged(`lateSubmit, `retries, `userRetries)
      && if !old(Joins(enterprise, current)) then JoinKept() && MemoryKept() && SlotKept()
         else
           && connecting && !joinWaitLive && connectSsid == old(selectedSsid) && !staleJoin
           && Launched(Connect, old(selectedSsid), old(SessionPass()))
           && connectNeedPass == (old(SessionPass()) != "")
    }

    /** wifi_join_picked(): joins with the password remembered for the network, or probes without one. */
    method JoinPicked(enterprise: bool, current: bool)
      requires Valid()
      modifies `forgetSsid, `connecting, `joinWaitLive, `connectSsid, `busy, `wantConnect, `pendSsid, `pendPass
      modifies `connectLost
      modifies `spawned, `jobRunning, `jobKind, `jobSsid, `jobPass, `connectNeedPass, `staleJoin
      ensures Valid() && QueueKept() && (old(Rules()) ==> Rules())
      ensures PickedJoin(enterprise, current)
    {
      hide RetryRules;
      var target := selectedSsid;
      if target == "" || connecting || forgetting || current || enterprise {
        return;
      }
      if JoinUseSessionPsk(target, knownPskSsid, knownPsk) {
        SetNeedPass(true);
        BeginJoin(target, knownPsk);
        return;
      }
      SetNeedPass(false);
      BeginJoin(target, "");
    }

    /** Only a user who is not connecting says whether the next join starts with a password. */
    method SetNeedPass(need: bool)
      requires !connecting && Valid()
      modifies `connectNeedPass
      ensures connectNeedPass == need && Valid() && (old(Rules()) ==> Rules())
    {
      connectNeedPass := need;
    }

    /** kick_pending(): a free slot goes to the most pressing thing pending: a join, a scan, the link, the
        device list; what could not be started stays pending, except a join. */
    method KickPending()
      requires Valid()
      modifies `forgetSsid, `connecting, `joinWaitLive, `connectSsid, `busy, `wantConnect, `pendSsid, `pendPass
      modifies `connectLost
      modifies `spawned, `jobRunning, `jobKind, `jobSsid, `jobPass, `wantScan, `wantLink, `wantInfo, `staleJoin
      ensures Valid() && pendSsid == old(pendSsid) && pendPass == old(pendPass)
      ensures joinWaitLive ==> old(joinWaitLive)
      ensures old(RetryRules()) ==> Rules()
      ensures !old(jobRunning) && old(wantConnect) ==> staleJoin
      ensures old(jobRunning || !(wantConnect || wantScan || wantLink || wantInfo)) ==> unchanged(this)
      ensures !old(jobRunning) && old(wantConnect) ==>
        !wantConnect && wantScan == old(wantScan) && wantLink == old(wantLink) && wantInfo == old(wantInfo)
      ensures !old(jobRunning) && old(wantConnect && pendSsid != "") ==>
        connecting && connectSsid == old(pendSsid) && Launched(Connect, old(pendSsid), old(pendPass))
      ensures !old(jobRunning) && !old(wantConnect) ==>
        unchanged(`wantConnect, `connecting, `connectSsid, `joinWaitLive)
      ensures !old(jobRunning) && old(!wantConnect && wantScan) ==>
        Launched(Scan, "", "") && wantScan == !jobRunning && wantLink == old(wantLink) && wantInfo == old(wantInfo)
      ensures !old(jobRunning) && old(!wantConnect && !wantScan && wantLink) ==>
        Launched(Link, "", "") && wantLink == !jobRunning && wantInfo == old(wantInfo) && !wantScan
      ensures !old(jobRunning) && old(!wantConnect && !wantScan && !wantLink && wantInfo) ==>
        Launched(Info, "", "") && wantInfo == !jobRunning && !wantScan && !wantLink
    {
      hide Scanned;
      if jobRunning {
        return;
      }
      if wantConnect {
        StartQueued();
        return;
      }
      KickRefresh();
    }

    method KickRefresh()
      requires Valid() && !jobRunning && !wantConnect
      modifies `spawned, `jobRunning, `jobKind, `jobSsid, `jobPass, `wantScan, `wantLink, `wantInfo
      ensures Valid() && (old(RetryRules()) ==> Rules())
      ensures old(!(wantScan || wantLink || wantInfo)) ==> unchanged(this)
      ensures old(wantScan) ==>
        Launched(Scan, "", "") && wantScan == !jobRunning && wantLink == old(wantLink) && wantInfo == old(wantInfo)
      ensures old(!wantScan && wantLink) ==>
        Launched(Link, "", "") && wantLink == !jobRunning && wantInfo == old(wantInfo) && !wantScan
      ensures old(!wantScan && !wantLink && wantInfo) ==>
        Launched(Info, "", "") && wantInfo == !jobRunning && !wantScan && !wantLink
    {
      hide Scanned, ForgottenHidden;
      if wantScan {
        wantScan := false;
        StartScan();
        return;
      }
      if wantLink {
        wantLink := false;
        StartLink();
        return;
      }
      if wantInfo {
        wantInfo := false;
        StartInfo();
      }
    }

    /** maybe_confirm_join(): an armed confirmation ends when the network is up or its time is over. */
    method MaybeConfirmJoin(now: nat)
      requires Valid()
      modifies `joinWaitLive, `connecting, `busy, `wantScan, `sheet
      ensures Valid() && (old(RetryRules()) ==> RetryRules()) && (old(Rules()) ==> Rules())
      ensures !old(joinWaitLive) ==> unchanged(this)
      ensures old(joinWaitLive && AlreadyOn(connected, ssid, connectSsid)) ==>
        !joinWaitLive && wantScan && sheet == NoSheet
      ensures old(joinWaitLive) && !old(AlreadyOn(connected, ssid, connectSsid)) ==>
        && (joinWaitLive <==> now - tJoinWait <= CONFIRM_NS) && wantScan == old(wantScan)
        && (!joinWaitLive ==> sheet == if old(sheet) == NoSheet then Detail else old(sheet))
      ensures joinWaitLive ==>
        old(joinWaitLive) && now - tJoinWait <= CONFIRM_NS && !AlreadyOn(connected, ssid, connectSsid)
      ensures old(joinWaitLive) && !joinWaitLive ==> !connecting && !busy
      ensures old(joinWaitLive) && joinWaitLive ==> unchanged(this)
    {
      if !joinWaitLive || connectSsid == "" {
        return;
      }
      if AlreadyOn(connected, ssid, connectSsid) {
        joinWaitLive := false;
        connecting := false;
        busy := false;
        sheet := NoSheet;
        wantScan := true;
        return;
      }
      var timedOut := tJoinWait > 0 && now > tJoinWait && now - tJoinWait > CONFIRM_NS;
      if !timedOut {
        return;
      }
      joinWaitLive := false;
      connecting := false;
      busy := false;
      if sheet == NoSheet {
        sheet := Detail;
      }
    }

    /** A successful join is only believed once the network is seen up; nothing stays queued for it. */
    method ArmConfirmation(now: nat)
      requires !jobRunning && !forgetting && connectSsid != "" && now > 0 && ForgottenHidden()
      modifies `joinWaitLive, `tJoinWait, `connecting, `busy, `wantConnect, `wantInfo, `wantLink, `wantScan, `sheet
      ensures Valid() && (joinWaitLive ==> tJoinWait == now)
      ensures wantConnect == (old(wantConnect) && !SsidEq(pendSsid, connectSsid))
      ensures joinWaitLive == !AlreadyOn(connected, ssid, connectSsid)
      ensures joinWaitLive ==> connecting && sheet == if old(sheet) == Pass then Detail else old(sheet)
      ensures wantInfo && wantLink
    {
      hide Valid, ForgottenHidden, SsidEq, RetryRules;
      Arm(now);
      MaybeConfirmJoin(now);
    }

    method Arm(now: nat)
      requires !jobRunning && !forgetting && connectSsid != "" && now > 0 && ForgottenHidden()
      modifies `joinWaitLive, `tJoinWait, `connecting, `busy, `wantConnect, `wantInfo, `wantLink, `sheet
      ensures Valid() && joinWaitLive && connecting && tJoinWait == now && wantInfo && wantLink
      ensures wantConnect == (old(wantConnect) && !SsidEq(pendSsid, connectSsid))
      ensures sheet == if old(sheet) == Pass then Detail else old(sheet)
    {
      joinWaitLive := true;
      tJoinWait := now;
      connecting := true;
      busy := true;
      if DropPending(true, connectSsid, pendSsid) {
        wantConnect := false;
      }
      if sheet == Pass {
        sheet := Detail;
      }
      wantInfo := true;
      wantLink := true;
    }

    /** forget_psk(). */
    method DropKnownPsk(target: string)
      modifies `knownPskSsid, `knownPsk
      ensures !SsidEq(knownPskSsid, target) && !JoinUseSessionPsk(target, knownPskSsid, knownPsk)
      ensures SsidEq(old(knownPskSsid), target) ==> knownPskSsid == "" && knownPsk == ""
      ensures !SsidEq(old(knownPskSsid), target) ==> knownPskSsid == old(knownPskSsid) && knownPsk == old(knownPsk)
    {
      if SsidEq(knownPskSsid, target) {
        knownPskSsid, knownPsk := "", "";
      }
    }

    /** What the decision on a finished connect job is made from. */
    function Answer(out: Outcome): ConnectIn
      reads `connected, `ssid, `connectSsid, `sheet, `wantConnect, `pendSsid, `pendPass, `connectNeedPass
      reads `knownPskSsid, `knownPsk
    {
      ConnectIn(out, connected, ssid, connectSsid, sheet == NoSheet, wantConnect, pendSsid, pendPass != "",
                connectNeedPass, JoinUseSessionPsk(connectSsid, knownPskSsid, knownPsk))
    }

    /** The connect-job part of poll_job(). */
    method FinishConnect(out: Outcome, now: nat) returns (act: ConnectAct)
      requires Vacated(Connect) && now > 0
      modifies `forgetSsid, `connecting, `joinWaitLive, `connectSsid, `busy, `wantConnect, `pendSsid, `pendPass
      modifies `connectLost
      modifies `spawned, `jobRunning, `jobKind, `jobSsid, `jobPass, `retries, `userRetries
      modifies `tJoinWait, `wantInfo, `wantLink, `wantScan, `sheet, `selectedSsid, `knownPskSsid, `knownPsk
      ensures Valid() && act == OnConnectJob(old(Answer(out))) && ActedOn(act, now)
      ensures act == RetryPsk <==> old(UnprovenPass() && AsksAgain(out))
      ensures MemoryAfter(out)
      ensures act == WrongPass <==> PassRefused(old(Answer(out)))
      ensures AlwaysSpawns() ==>
        Decided(act, now, old(connectSsid), old(sheet), old(AlreadyOn(connected, ssid, connectSsid)), old(wantConnect))
      ensures old(RetryRules() && (UnprovenPass() ==> staleJoin && lateSubmit)) ==> RetryRules()
    {
      RetryExactly(Answer(out));
      AnswersExactly(Answer(out));
      act := OnConnectJob(Answer(out));
      hide OnConnectJob, AlreadyOn, PassRefused, PassTrouble, PassQueued;
      ActOn(act, now);
    }

    /** The job asks for a password while the network is down and none is queued for it. */
    predicate AsksAgain(out: Outcome)
      reads `connected, `ssid, `connectSsid, `wantConnect, `pendSsid, `pendPass
    {
      && JobNeedPw(out) && !JobWrongPw(out) && !AlreadyOn(connected, ssid, connectSsid)
      && !(wantConnect && pendPass != "" && SsidEq(pendSsid, connectSsid))
    }

    /** The network's password is no longer remembered; any other network's is. */
    predicate PassDropped(target: string, wasSsid: string, wasPsk: string)
      reads `knownPskSsid, `knownPsk
    {
      && !SsidEq(knownPskSsid, target) && !JoinUseSessionPsk(target, knownPskSsid, knownPsk)
      && (!SsidEq(wasSsid, target) ==> knownPskSsid == wasSsid && knownPsk == wasPsk)
    }

    /** What is remembered after the job: a refused password is dropped, and nothing else. */
    twostate predicate MemoryAfter(out: Outcome)
      reads this
    {
      if PassRefused(old(Answer(out)))
      then PassDropped(old(connectSsid), old(knownPskSsid), old(knownPsk))
      else unchanged(`knownPskSsid, `knownPsk)
    }

    /** What each decision leads to. */
    twostate predicate ActedOn(act: ConnectAct, now: nat)
      reads this
    {
      && !forgetting
         && unchanged(`connectSsid, `connectNeedPass, `pendSsid, `pendPass, `connected, `ssid, `staleJoin, `lateSubmit)
      && (joinWaitLive ==> tJoinWait == now && act == Success)
      && (act != WrongPass ==> unchanged(`knownPskSsid, `knownPsk))
      && (act != Success && act != RetryPsk ==> !connecting && !jobRunning && wantConnect == old(wantConnect))
      && retries == old(retries) + (if act == RetryPsk then 1 else 0)
      && userRetries == old(userRetries) + (if act == RetryPsk && !staleJoin then 1 else 0)
      && match act
         case Success =>
           && wantConnect == (old(wantConnect) && !SsidEq(pendSsid, connectSsid)) && !jobRunning && wantLink
           && joinWaitLive == !AlreadyOn(connected, ssid, connectSsid)
           && (joinWaitLive ==> connecting && sheet == if old(sheet) == Pass then Detail else old(sheet))
         case RetryPsk => Launched(Connect, connectSsid, old(knownPsk)) && (AlwaysSpawns() ==> Joining())
           && wantConnect == (old(wantConnect) && !(SsidEq(pendSsid, connectSsid) && pendPass == ""))
           && sheet == old(sheet)
         case WrongPass => sheet == Pass && selectedSsid == connectSsid && SessionPass() == ""
           && PassDropped(connectSsid, old(knownPskSsid), old(knownPsk))
         case OpenPass => sheet == Pass && selectedSsid == connectSsid
         case WaitPending => sheet == old(sheet)
         case Fail => sheet == if old(sheet) == NoSheet then NoSheet else if connectNeedPass then Pass else Detail
    }

    method ActOn(act: ConnectAct, now: nat)
      requires !jobRunning && !forgetting && !joinWaitLive && connectSsid != "" && now > 0
      requires ForgottenHidden()
      modifies `forgetSsid, `connecting, `joinWaitLive, `connectSsid, `busy, `wantConnect, `pendSsid, `pendPass
      modifies `connectLost
      modifies `spawned, `jobRunning, `jobKind, `jobSsid, `jobPass, `retries, `userRetries
      modifies `tJoinWait, `wantInfo, `wantLink, `wantScan, `sheet, `selectedSsid, `knownPskSsid, `knownPsk
      ensures Valid() && ActedOn(act, now)
    {
      hide SsidEq, AlreadyOn, JoinUseSessionPsk, Valid, ForgottenHidden, PassDropped, SessionPass;
      SpinnerOff();
      match act {
        case Success =>
          ArmConfirmation(now);
        case RetryPsk =>
          TryKnownPsk();
        case _ =>
          GiveUpConnect(act);
      }
    }

    method SpinnerOff()
      modifies `busy, `connecting
      ensures !busy && !connecting
    {
      busy := false;
      connecting := false;
    }

    /** The remembered password is tried for the same network; that does not make it a used one. */
    method TryKnownPsk()
      requires !jobRunning && !forgetting && !joinWaitLive && connectSsid != ""
      modifies `forgetSsid, `connecting, `joinWaitLive, `connectSsid, `busy, `wantConnect, `pendSsid, `pendPass
      modifies `connectLost
      modifies `spawned, `jobRunning, `jobKind, `jobSsid, `jobPass, `retries, `userRetries
      ensures Valid() && !forgetting && !joinWaitLive && Launched(Connect, connectSsid, old(knownPsk))
      ensures AlwaysSpawns() ==> Joining()
      ensures unchanged(`connectSsid, `pendSsid, `pendPass)
      ensures retries == old(retries) + 1 && userRetries == old(userRetries) + (if staleJoin then 0 else 1)
      ensures wantConnect == (old(wantConnect) && !(SsidEq(pendSsid, connectSsid) && pendPass == ""))
    {
      retries := retries + 1;
      userRetries := userRetries + if staleJoin then 0 else 1;
      if SsidEq(pendSsid, connectSsid) && pendPass == "" {
        wantConnect := false;
      }
      DoConnect(connectSsid, knownPsk);
    }

    /** The answers after which nothing more is tried. */
    method GiveUpConnect(act: ConnectAct)
      requires !jobRunning && !forgetting && !joinWaitLive && !connecting && ForgottenHidden()
      modifies `knownPskSsid, `knownPsk, `selectedSsid, `sheet
      ensures Valid()
      ensures act == WrongPass ==> PassDropped(connectSsid, old(knownPskSsid), old(knownPsk)) && SessionPass() == ""
      ensures act == WrongPass || act == OpenPass ==> sheet == Pass && selectedSsid == connectSsid
      ensures act != WrongPass ==> knownPskSsid == old(knownPskSsid) && knownPsk == old(knownPsk)
      ensures act == Fail ==>
        sheet == if old(sheet) == NoSheet then NoSheet else if connectNeedPass then Pass else Detail
      ensures act == WaitPending ==> sheet == old(sheet)
    {
      match act {
        case WrongPass =>
          DropKnownPsk(connectSsid);
          selectedSsid, sheet := connectSsid, Pass;
        case OpenPass =>
          selectedSsid, sheet := connectSsid, Pass;
        case Fail =>
          if sheet != NoSheet {
            sheet := if connectNeedPass then Pass else Detail;
          }
        case _ =>
      }
    }

    /** The forget-job part of poll_job(). The password it drops is that of the network selected by then, so
        the forgotten network's own password stays remembered exactly when another one is selected. */
    method FinishForget(rc: int)
      modifies `forgetting, `connected, `ssid, `knownPskSsid, `knownPsk, `sheet, `wantInfo, `wantScan
      ensures !forgetting
      ensures rc == 0 ==> !SsidEq(ssid, selectedSsid) && !SsidEq(ssid, forgetSsid)
      ensures rc == 0 && old(SsidEq(ssid, selectedSsid) || SsidEq(ssid, forgetSsid)) ==> !connected
      ensures rc == 0 ==> !SsidEq(knownPskSsid, selectedSsid) && sheet == List && wantInfo && wantScan
      ensures rc == 0 ==>
        (SsidEq(knownPskSsid, forgetSsid) <==>
            old(SsidEq(knownPskSsid, forgetSsid) && !SsidEq(knownPskSsid, selectedSsid)))
      ensures old(ForgottenHidden()) ==> ForgottenHidden()
      ensures rc != 0 ==>
        connected == old(connected) && ssid == old(ssid) && knownPsk == old(knownPsk) && sheet == Detail
    {
      forgetting := false;
      if rc == 0 {
        if SsidEq(ssid, selectedSsid) || SsidEq(ssid, forgetSsid) || (forgetSsid != "" && ssid == "") {
          connected := false;
          ssid := "";
        }
        DropKnownPsk(selectedSsid);
        sheet := List;
        wantInfo := true;
        wantScan := true;
      } else {
        sheet := Detail;
      }
    }

    /** What Valid() comes to once a finished job of this kind has left the slot. */
    ghost predicate Vacated(kind: Kind)
      reads `forgetting, `jobRunning, `connecting, `joinWaitLive, `connectSsid, `tJoinWait, `connectLost, `forgetSsid,
          `ssid
    {
      && !jobRunning && ForgottenHidden()
      && (forgetting ==> kind == Forget)
      && (kind == Connect ==> connecting && !joinWaitLive && connectSsid != "")
      && (joinWaitLive ==> connecting && connectSsid != "" && tJoinWait > 0)
      && (connecting && !connectLost ==> joinWaitLive || kind == Connect)
    }

    /** A name that says nothing new: none, another band of the network being joined, or the forgotten network,
        whose leftovers must not bring it back. */
    predicate Ignored(name: string)
      reads `connectSsid, `forgetSsid
    {
      || name == ""
      || (connectSsid != "" && (Extends(connectSsid, name) || Extends(name, connectSsid)))
      || SsidEq(forgetSsid, name)
    }

    /** apply_wifi_ssid(): any other name ends the holding back of a forgotten network, and is shown unless the
        name shown is another band of it. */
    method HearName(name: string)
      modifies `ssid, `forgetSsid
      ensures old(Ignored(name)) ==> unchanged(this)
      ensures !old(Ignored(name)) ==> forgetSsid == "" && ssid == if Extends(old(ssid), name) then old(ssid) else name
      ensures old(ForgottenHidden()) ==> ForgottenHidden()
      ensures old(Valid()) ==> Valid()
      ensures forall kind | old(Vacated(kind)) :: Vacated(kind)
      ensures old(RetryRules()) ==> RetryRules()
      ensures old(Rules()) ==> Rules()
    {
      if name == "" {
        return;
      }
      if connectSsid != "" && (Extends(connectSsid, name) || Extends(name, connectSsid)) {
        return;
      }
      if SsidEq(forgetSsid, name) {
        return;
      }
      forgetSsid := "";
      if !Extends(ssid, name) {
        ssid := name;
      }
    }

    /** The device list still shows a forgotten network up. */
    predicate HeldBack(device: Device)
      reads `forgetSsid, `ssid
    {
      forgetSsid != "" && device == Up && (ssid == "" || SsidEq(forgetSsid, ssid))
    }

    /** The link is up or coming up once this device list is read. */
    predicate LinkShows(device: Device)
      reads `connected, `busy, `forgetSsid, `ssid
    {
      if device == Unlisted then connected || busy else device != Down && !HeldBack(device)
    }

    /** parse_info(): the device list decides whether the link is up, except while a forgotten network is held
        back; a device that is down ends that. */
    method ReadDevices(device: Device)
      modifies `connected, `busy, `ssid, `forgetSsid
      ensures connected || busy <==> old(LinkShows(device))
      ensures device == Unlisted ==> unchanged(this)
      ensures device != Unlisted ==> connected == (device == Up && !old(HeldBack(device)))
      ensures ssid == if old(HeldBack(device)) then "" else old(ssid)
      ensures forgetSsid == if device == Down then "" else old(forgetSsid)
      ensures device != Unlisted && connected && forgetSsid != "" ==> ssid != "" && ssid != forgetSsid
      ensures old(ForgottenHidden()) ==> ForgottenHidden()
    {
      if device == Unlisted {
        return;
      }
      connected, busy := device == Up, device == Rising;
      if HeldBack(device) {
        connected, busy, ssid := false, false, "";
      } else if device == Down {
        forgetSsid := "";
      }
    }

    /** What the finished job printed, read in before anything follows from it. */
    method ReadReport(kind: Kind, report: Report)
      requires Vacated(kind)
      modifies `connected, `busy, `ssid, `forgetSsid, `wantLink
      ensures Vacated(kind) && (old(RetryRules()) ==> RetryRules())
      ensures kind != Info ==> unchanged(`connected, `busy, `wantLink)
      ensures kind == Info ==>
        && wantLink == old(wantLink || LinkShows(report.device) || joinWaitLive)
        && (report.device != Unlisted ==> connected == (report.device == Up && !old(HeldBack(report.device))))
      ensures kind in {Radio, Connect, Forget} ==> unchanged(this)
    {
      hide SsidEq, JoinUseSessionPsk;
      match kind {
        case Info =>
          ReadDevices(report.device);
          if connected || busy || joinWaitLive {
            wantLink := true;
          }
        case Scan =>
          HearName(report.first);
        case Link =>
          HearName(report.first);
          HearName(report.second);
        case _ =>
      }
    }

    /** What poll_job() makes of any other finished job once it is read. */
    method CollectJob(kind: Kind, out: Outcome, now: nat)
      requires Vacated(kind) && kind != Connect && now > 0
      modifies `connecting, `joinWaitLive, `busy, `wantInfo, `wantScan, `sheet, `knownPskSsid, `knownPsk
      modifies `connected, `ssid, `forgetting
      ensures Valid() && (old(RetryRules()) ==> RetryRules())
      ensures kind in {Info, Scan, Link} ==>
        && connecting == (old(connecting) && !(old(joinWaitLive) && !joinWaitLive))
        && wantScan == (old(wantScan) || old(joinWaitLive && AlreadyOn(connected, ssid, connectSsid)))
        && wantInfo == (old(wantInfo) || (kind == Link && joinWaitLive))
      ensures kind == Radio ==> wantInfo && wantScan
      ensures kind == Forget && out.rc == 0 && old(RetryRules() && forgetting) ==> !SsidEq(knownPskSsid, old(jobSsid))
      ensures kind == Forget ==> !forgetting && (out.rc == 0 ==> !SsidEq(ssid, old(forgetSsid)) && wantInfo && wantScan)
    {
      hide OnConnectJob, Answer, SsidEq, AlreadyOn, Launched, JoinUseSessionPsk;
      match kind {
        case Info | Scan =>
          MaybeConfirmJoin(now);
        case Link =>
          MaybeConfirmJoin(now);
          if joinWaitLive {
            wantInfo := true;
          }
        case Radio =>
          wantInfo := true;
          wantScan := true;
        case Forget =>
          FinishForget(out.rc);
      }
    }

    /** The decision on a join of `net` has been acted on: `was` was the sheet, `up` says that the network is up,
        `wanted` that another join is queued. */
    predicate Decided(act: ConnectAct, now: nat, net: string, was: Sheet, up: bool, wanted: bool)
      reads this
    {
      && connectSsid == net && (jobRunning <==> act == RetryPsk)
      && match act
         case RetryPsk => Joining() && sheet == was && (wantConnect ==> wanted)
         case Success => (wantConnect ==> wanted) && (!up ==> Confirming(now, was) && wantLink)
         case WrongPass =>
           !connecting && wantConnect == wanted && sheet == Pass && selectedSsid == net && SessionPass() == ""
         case OpenPass => !connecting && wantConnect == wanted && sheet == Pass && selectedSsid == net
         case _ => !connecting && wantConnect == wanted
    }

    /** A confirmation has just begun. */
    predicate Confirming(now: nat, was: Sheet)
      reads `joinWaitLive, `tJoinWait, `connecting, `sheet, `connected, `ssid, `connectSsid
    {
      && joinWaitLive && tJoinWait == now && connecting && !AlreadyOn(connected, ssid, connectSsid)
      && sheet == if was == Pass then Detail else was
    }

    /** And what follows has been started: another try, the join in the queue, or another job. */
    ghost predicate Ended(act: ConnectAct, now: nat, net: string, was: Sheet, up: bool, wanted: bool)
      reads this
    {
      if act == RetryPsk then connectSsid == net && Joining() && sheet == was && (wantConnect ==> wanted)
      else if wanted
      then act != Success && pendSsid != "" ==>
        staleJoin && !wantConnect && Joining() && connecting && connectSsid == pendSsid
      else if act == Success
      then !up ==> connectSsid == net && Confirming(now, was) && !wantConnect && jobRunning && !Joining()
      else act in {WrongPass, OpenPass} ==>
        && connectSsid == net && sheet == Pass && selectedSsid == net && !connecting && !wantConnect && !Joining()
        && (act == WrongPass ==> SessionPass() == "")
    }

    /** What a finished connect job leads to when every process starts. */
    twostate predicate Answered(act: ConnectAct, now: nat)
      reads this
    {
      && unchanged(`connectNeedPass, `connected, `ssid, `lateSubmit, `pendSsid, `pendPass) && !forgetting
      && (act != WrongPass ==> unchanged(`knownPskSsid, `knownPsk))
      && retries == old(retries) + (if act == RetryPsk then 1 else 0)
      && (act == RetryPsk ==> unchanged(`staleJoin))
      && Ended(act, now, old(connectSsid), old(sheet), old(AlreadyOn(connected, ssid, connectSsid)), old(wantConnect))
    }

    /** A finished job leaves the slot. */
    method FreeSlot()
      requires Valid() && jobRunning
      modifies `jobRunning
      ensures !jobRunning && Vacated(jobKind) && (old(RetryRules()) ==> RetryRules())
      ensures old(RetryRules()) ==> (jobKind == Connect && UnprovenPass() ==> staleJoin && lateSubmit)
    {
      jobRunning := false;
    }

    /** kick_pending() after a finished connect job. */
    method KickAnswered(ghost act: ConnectAct, ghost now: nat, ghost net: string, ghost was: Sheet, ghost up: bool,
                        ghost wanted: bool)
      requires Valid()
      modifies `forgetSsid, `connecting, `joinWaitLive, `connectSsid, `busy, `wantConnect, `pendSsid, `pendPass
      modifies `connectLost
      modifies `spawned, `jobRunning, `jobKind, `jobSsid, `jobPass, `wantScan, `wantLink, `wantInfo, `staleJoin
      ensures Valid() && pendSsid == old(pendSsid) && pendPass == old(pendPass)
      ensures joinWaitLive ==> old(joinWaitLive)
      ensures old(RetryRules()) ==> Rules()
      ensures old(jobRunning) ==> unchanged(this)
      ensures AlwaysSpawns() && old(Decided(act, now, net, was, up, wanted)) ==> Ended(act, now, net, was, up, wanted)
    {
      hide RetryRules, Valid, SessionPass;
      KickPending();
    }

    /** poll_job() for a finished connect job. */
    method FinishJoin(out: Outcome, now: nat)
      requires Valid() && Joining() && now > 0
      modifies `forgetSsid, `connecting, `joinWaitLive, `connectSsid, `busy, `wantConnect, `pendSsid, `pendPass
      modifies `connectLost
      modifies `spawned, `jobRunning, `jobKind, `jobSsid, `jobPass, `retries, `userRetries
      modifies `tJoinWait, `wantInfo, `wantLink, `wantScan, `sheet, `selectedSsid, `knownPskSsid, `knownPsk
      modifies `connected, `ssid, `forgetting, `staleJoin
      ensures Valid() && pendSsid == old(pendSsid) && pendPass == old(pendPass)
      ensures old(Rules()) ==> Rules()
      ensures joinWaitLive ==> now - tJoinWait <= CONFIRM_NS || tJoinWait == old(tJoinWait)
      ensures AlwaysSpawns() ==> Answered(OnConnectJob(old(Answer(out))), now)
      ensures MemoryAfter(out)
    {
      hide OnConnectJob, Answer, SsidEq, AlreadyOn, JoinUseSessionPsk, RetryRules, Valid, UnprovenPass, Vacated,
        Launched, AlwaysSpawns, AsksAgain, PassRefused, PassDropped, SessionPass, Decided, Ended;
      ghost var net, was, up, wanted := connectSsid, sheet, AlreadyOn(connected, ssid, connectSsid), wantConnect;
      FreeSlot();
      var act := FinishConnect(out, now);
      StillTrying(act, now, net, was, up, wanted);
      KickAnswered(act, now, net, was, up, wanted);
    }

    lemma StillTrying(act: ConnectAct, now: nat, net: string, was: Sheet, up: bool, wanted: bool)
      ensures Decided(act, now, net, was, up, wanted) && act == RetryPsk ==> jobRunning
    {
    }

    /** poll_job() for a job that has finished. */
    method FinishJob(out: Outcome, report: Report, now: nat)
      requires Valid() && jobRunning && now > 0
      modifies `forgetSsid, `connecting, `joinWaitLive, `connectSsid, `busy, `wantConnect, `pendSsid, `pendPass
      modifies `connectLost
      modifies `spawned, `jobRunning, `jobKind, `jobSsid, `jobPass, `retries, `userRetries
      modifies `tJoinWait, `wantInfo, `wantLink, `wantScan, `sheet, `selectedSsid, `knownPskSsid, `knownPsk
      modifies `connected, `ssid, `forgetting, `staleJoin
      ensures Valid() && pendSsid == old(pendSsid) && pendPass == old(pendPass)
      ensures old(Rules()) ==> Rules()
      ensures joinWaitLive ==> now - tJoinWait <= CONFIRM_NS || tJoinWait == old(tJoinWait)
      ensures AlwaysSpawns() && old(Joining()) ==> Answered(OnConnectJob(old(Answer(out))), now)
      ensures old(Joining()) ==> MemoryAfter(out)
    {
      hide OnConnectJob, Answer, SsidEq, AlreadyOn, JoinUseSessionPsk, RetryRules, Valid, Vacated, UnprovenPass;
      var kind := jobKind;
      if kind == Connect {
        FinishJoin(out, now);
        return;
      }
      FreeSlot();
      ReadReport(kind, report);
      CollectJob(kind, out, now);
      KickPending();
    }

    /** While a job runs, a confirmation in progress ends when the network is up or its time is over. */
    twostate predicate Waited(now: nat)
      reads this
    {
      && unchanged(`connectSsid, `wantConnect, `knownPskSsid, `knownPsk, `connected, `ssid, `jobRunning, `jobKind)
      && unchanged(`selectedSsid, `lateSubmit, `retries, `forgetting, `pendSsid, `pendPass)
      && (joinWaitLive ==> JoinKept() && unchanged(`sheet))
      && (!AlreadyOn(connected, ssid, connectSsid) ==>
          && (joinWaitLive <==> now - old(tJoinWait) <= CONFIRM_NS)
          && (!joinWaitLive ==> !connecting && sheet == if old(sheet) == NoSheet then Detail else old(sheet)))
    }

    /** One pass of the main loop: collect a finished job, confirm a join, start what is pending, and
        refresh when nothing else is going on. */
    method OneTick(now: nat, finished: bool, out: Outcome, report: Report, refreshScan: bool, refreshInfo: bool)
      requires Valid() && now > 0
      modifies `forgetSsid, `connecting, `joinWaitLive, `connectSsid, `busy, `wantConnect, `pendSsid, `pendPass
      modifies `connectLost
      modifies `spawned, `jobRunning, `jobKind, `jobSsid, `jobPass, `retries, `userRetries
      modifies `tJoinWait, `wantInfo, `wantLink, `wantScan, `sheet, `selectedSsid, `knownPskSsid, `knownPsk
      modifies `connected, `ssid, `forgetting, `staleJoin
      ensures Valid() && pendSsid == old(pendSsid) && pendPass == old(pendPass)
      ensures old(Rules()) ==> Rules()
      ensures joinWaitLive ==> now - tJoinWait <= CONFIRM_NS
      ensures AlwaysSpawns() && old(Joining()) && finished ==> Answered(OnConnectJob(old(Answer(out))), now)
      ensures old(Joining()) && finished ==> MemoryAfter(out)
      ensures old(jobRunning && joinWaitLive) && !finished ==> Waited(now)
      ensures AlwaysSpawns() && !connecting && (refreshInfo || (refreshScan && sheet == List)) ==> jobRunning
    {
      hide OnConnectJob, Answer, SsidEq, AlreadyOn, JoinUseSessionPsk, RetryRules, SlotKept, AlwaysSpawns,
        Launched, JobIs, ForgottenHidden, PassRefused, PassDropped, SessionPass;
      ghost var net, was, up, wanted := connectSsid, sheet, AlreadyOn(connected, ssid, connectSsid), wantConnect;
      ghost var act := OnConnectJob(Answer(out));
      hide Ended;
      if jobRunning && finished {
        FinishJob(out, report, now);
      }
      SettleEnded(now, refreshScan, refreshInfo, act, net, was, up, wanted);
    }

    /** It leaves a join that has just ended, or has just been retried, as it is. */
    method SettleEnded(now: nat, refreshScan: bool, refreshInfo: bool, ghost act: ConnectAct, ghost net: string,
                       ghost was: Sheet, ghost up: bool, ghost wanted: bool)
      requires Valid() && now > 0
      modifies `forgetSsid, `connecting, `joinWaitLive, `connectSsid, `busy, `wantConnect, `pendSsid, `pendPass
      modifies `connectLost, `spawned, `jobRunning, `jobKind, `jobSsid, `jobPass, `staleJoin
      modifies `wantInfo, `wantLink, `wantScan, `sheet
      ensures Valid() && pendSsid == old(pendSsid) && pendPass == old(pendPass)
      ensures old(Rules()) ==> Rules()
      ensures joinWaitLive ==> old(joinWaitLive) && now - tJoinWait <= CONFIRM_NS
      ensures old(jobRunning && joinWaitLive) ==> Waited(now)
      ensures old(Ended(act, now, net, was, up, wanted)) ==>
        Ended(act, now, net, was, up, wanted) && (act == RetryPsk ==> unchanged(`staleJoin))
      ensures AlwaysSpawns() && !connecting && (refreshInfo || (refreshScan && sheet == List)) ==> jobRunning
    {
      JoiningIsNotConfirming();
      hide AlreadyOn, RetryRules, Valid, SessionPass;
      Settle(now, refreshScan, refreshInfo);
    }

    lemma JoiningIsNotConfirming()
      requires Valid()
      ensures Joining() ==> !joinWaitLive && connecting
      ensures joinWaitLive ==> connecting
    {
    }

    /** The part of a pass that follows the collection of a job. */
    method Settle(now: nat, refreshScan: bool, refreshInfo: bool)
      requires Valid() && now > 0
      modifies `forgetSsid, `connecting, `joinWaitLive, `connectSsid, `busy, `wantConnect, `pendSsid, `pendPass
      modifies `connectLost, `spawned, `jobRunning, `jobKind, `jobSsid, `jobPass, `staleJoin
      modifies `wantInfo, `wantLink, `wantScan, `sheet
      ensures Valid() && pendSsid == old(pendSsid) && pendPass == old(pendPass)
      ensures old(Rules()) ==> Rules()
      ensures joinWaitLive ==> old(joinWaitLive) && now - tJoinWait <= CONFIRM_NS
      ensures old(jobRunning) ==> SlotKept() && unchanged(`staleJoin, `connectSsid, `wantConnect, `forgetSsid)
      ensures old(jobRunning && !joinWaitLive) ==> unchanged(this)
      ensures old(jobRunning && joinWaitLive) ==> Waited(now)
      ensures !old(jobRunning || wantConnect || joinWaitLive || connecting) ==>
        !Joining() && unchanged(`connectSsid, `connecting, `wantConnect, `joinWaitLive, `sheet)
      ensures AlwaysSpawns() && !connecting && (refreshInfo || (refreshScan && sheet == List)) ==> jobRunning
    {
      hide AlreadyOn, RetryRules, Launched, Scanned;
      MaybeConfirmJoin(now);
      KickPending();
      if !jobRunning && !connecting {
        if sheet == List && refreshScan {
          StartScan();
        } else if refreshInfo {
          StartInfo();
        }
      }
    }

    /** Which network is joined, and what is queued behind that. */
    twostate predicate JoinKept()
      reads `connecting, `joinWaitLive, `tJoinWait, `connectSsid, `connectNeedPass, `wantConnect, `pendSsid, `pendPass
    {
      && unchanged(`connecting, `joinWaitLive, `tJoinWait, `connectSsid, `connectNeedPass)
      && unchanged(`wantConnect, `pendSsid, `pendPass)
    }

    /** The link, the remembered password and the record of the run. */
    twostate predicate MemoryKept()
      reads `knownPskSsid, `knownPsk, `connected, `ssid, `forgetting, `staleJoin, `lateSubmit, `retries, `userRetries
    {
      && unchanged(`knownPskSsid, `knownPsk, `connected, `ssid, `forgetting)
      && unchanged(`staleJoin, `lateSubmit, `retries, `userRetries)
    }

    twostate predicate SlotKept()
      reads `jobRunning, `jobKind, `jobSsid, `jobPass
    {
      unchanged(`jobRunning, `jobKind, `jobSsid, `jobPass)
    }

    twostate predicate ViewKept()
      reads this
    {
      unchanged(`sheet, `slide, `selectedSsid, `oskHeld)
    }

    /** A scan is started, or stays wanted. */
    twostate predicate Scanned()
      reads this
    {
      && JoinKept() && MemoryKept()
      && (!old(jobRunning) ==> Launched(Scan, "", "") && wantScan == (old(wantScan) || !jobRunning))
      && (old(jobRunning) ==> wantScan && SlotKept())
    }

    /** What each event does, under the sheet it needs. */
    twostate predicate Did(e: Event)
      reads this
    {
      match e
      case TapJoin(enterprise, current) =>
        if old(Shown(Detail)) then PickedJoin(enterprise, current) && ViewKept() else unchanged(this)
      case TapForget =>
        if old(Shown(Detail)) then Forgot(old(selectedSsid)) && ViewKept() else unchanged(this)
      case TapScan =>
        if old(Shown(List) && !connecting) then Scanned() && ViewKept() else unchanged(this)
      case TapSubmit(enterprise, password) =>
        if old(Shown(Pass)) then Submitted(enterprise, password) && ViewKept() else unchanged(this)
      case KeyDown =>
        && JoinKept() && MemoryKept() && SlotKept() && unchanged(`sheet, `slide, `selectedSsid)
        && oskHeld == old(oskHeld || (sheet == Pass && slide >= LIST_SHOWN))
      case KeyUp(enterprise, password) =>
        if old(oskHeld)
        then Submitted(enterprise, password) && !oskHeld && unchanged(`sheet, `slide, `selectedSsid)
        else unchanged(this)
      case PickRow(name) =>
        && JoinKept() && MemoryKept() && SlotKept() && unchanged(`slide, `oskHeld)
        && if old(Shown(List))
           then selectedSsid == name && sheet == if connecting || forgetting then List else Detail
           else unchanged(`sheet, `selectedSsid)
      case GoBack =>
        && JoinKept() && MemoryKept() && SlotKept() && unchanged(`slide, `selectedSsid) && sheet == old(SheetBehind())
        && oskHeld == old(oskHeld && !Shown(Pass))
      case OpenList(noneKnown) =>
        && (if old(CardTaken()) then sheet == List && unchanged(`slide, `selectedSsid, `oskHeld) else ViewKept())
        && (if old(CardTaken()) && noneKnown then Scanned() else JoinKept() && MemoryKept() && SlotKept())
      case Slide(to) =>
        && JoinKept() && MemoryKept() && SlotKept() && unchanged(`sheet, `selectedSsid, `oskHeld)
        && (sheet != NoSheet && to > old(slide) ==> slide == to)
      case Hear(name) =>
        && JoinKept() && SlotKept() && ViewKept()
        && if old(Ignored(name)) then unchanged(this)
           else forgetSsid == "" && ssid == if Extends(old(ssid), name) then old(ssid) else name
      case Tick(now, finished, out, _, refreshScan, refreshInfo) =>
        && unchanged(`slide, `oskHeld)
        && (AlwaysSpawns() && !connecting && (refreshInfo || (refreshScan && sheet == List)) ==> jobRunning)
        && (AlwaysSpawns() && old(Joining()) && finished ==> Answered(OnConnectJob(old(Answer(out))), now))
        && (old(Joining()) && finished ==> MemoryAfter(out))
        && (old(jobRunning && joinWaitLive) && !finished ==> Waited(now))
    }

    /** What an event does that no job follows from at once. */
    method HandleView(e: Event)
      requires Valid() && (e.KeyDown? || e.PickRow? || e.GoBack? || e.OpenList? || e.Slide? || e.Hear?)
      modifies this
      ensures Valid() && pendSsid == old(pendSsid) && pendPass == old(pendPass) && (old(Rules()) ==> Rules()) && Did(e)
      ensures lateSubmit == old(lateSubmit)
    {
      hide Valid, RetryRules, Ignored, SsidEq, Extends;
      match e {
        case KeyDown =>
          PressKey();
        case PickRow(name) =>
          ChooseNetwork(name);
        case GoBack =>
          CloseSheet();
        case OpenList(noneKnown) =>
          ShowList(noneKnown);
        case Slide(to) =>
          SlideSheet(to);
        case Hear(name) =>
          HearName(name);
      }
    }

    /** What an event does, if the sheet it needs is up. */
    method Handle(e: Event)
      requires Valid() && (e.Tick? ==> e.now > 0)
      modifies this
      ensures Valid() && QueueKept() && (old(Rules()) ==> Rules()) && Did(e)
      ensures e.Tick? && joinWaitLive ==> e.now - tJoinWait <= CONFIRM_NS
      ensures lateSubmit && !old(lateSubmit) && old(Rules()) ==> e.KeyUp? && old(oskHeld && joinWaitLive)
    {
      hide Valid, RetryRules, PassKept, PickedJoin, Submitted, Forgot, Answered, Waited, OnConnectJob, Answer, Ignored,
        MemoryAfter, Extends, SheetBehind, CardTaken;
      match e {
        case TapJoin(enterprise, current) =>
          if Shown(Detail) {
            JoinPicked(enterprise, current);
          }
        case TapForget =>
          if Shown(Detail) {
            DoForget(selectedSsid);
          }
        case TapScan =>
          if Shown(List) && !connecting {
            StartScan();
          }
        case TapSubmit(enterprise, password) =>
          if Shown(Pass) {
            SheetClosedWhileConfirming();
            SubmitPass(enterprise, password);
          }
        case KeyUp(enterprise, password) =>
          if oskHeld {
            ReleaseKey(enterprise, password);
          }
        case Tick(now, finished, out, report, refreshScan, refreshInfo) =>
          OneTick(now, finished, out, report, refreshScan, refreshInfo);
        case _ =>
          HandleView(e);
      }
      KeptQueue(old(Queued()));
    }

    lemma KeptQueue(q: Queue)
      ensures q.ssid == pendSsid && q.pass == pendPass ==> PassKept(q, Queued())
    {
    }

    lemma SheetClosedWhileConfirming()
      ensures Rules() && sheet == Pass ==> !joinWaitLive
    {
    }

    /** Any run of user actions, names heard and ticks. A forget spinner always has its job; as long as
        connect jobs can be started a connect spinner has its job or an armed confirmation; right after a tick
        no confirmation is older than its period; a queued password is never replaced by an empty one for the
        same network; a forgotten network is not shown again while it is held back; a join the user started is
        never retried, and none is unless a key of the password sheet was held down until the join was being
        confirmed. */
    method Run(events: seq<Event>) returns (ghost trace: seq<Queue>)
      requires Valid() && Rules() && forall i | 0 <= i < |events| && events[i].Tick? :: events[i].now > 0
      modifies this
      ensures Valid() && Rules() && !SsidEq(ssid, forgetSsid)
      ensures userRetries == 0 && (!lateSubmit ==> retries == 0)
      ensures (forall i | 0 <= i < |events| :: !events[i].KeyUp?) && !old(lateSubmit) ==> !lateSubmit
      ensures events != [] && events[|events| - 1].Tick? && joinWaitLive ==>
        events[|events| - 1].now - tJoinWait <= CONFIRM_NS
      ensures |trace| == |events| + 1 && trace[0] == old(Queued()) && trace[|events|] == Queued()
      ensures forall n | 0 <= n < |events| :: PassKept(trace[n], trace[n + 1])
    {
      hide Valid, RetryRules, PassKept, Did;
      trace := [Queued()];
      for n := 0 to |events|
        invariant Valid() && Rules()
        invariant n > 0 && events[n - 1].Tick? && joinWaitLive ==> events[n - 1].now - tJoinWait <= CONFIRM_NS
        invariant (forall i | 0 <= i < |events| :: !events[i].KeyUp?) && !old(lateSubmit) ==> !lateSubmit
        invariant |trace| == n + 1 && trace[0] == old(Queued()) && trace[n] == Queued()
        invariant forall m | 0 <= m < n :: PassKept(trace[m], trace[m + 1])
      {
        Handle(events[n]);
        trace := trace + [Queued()];
      }
      RulesSay();
    }

    lemma RulesSay()
      requires Valid() && Rules()
      ensures userRetries == 0 && (!lateSubmit ==> retries == 0) && !SsidEq(ssid, forgetSsid)
    {
    }

    /** A finger goes down on the keyboard of the password sheet. */
    method PressKey()
      modifies `oskHeld
      ensures oskHeld == old(oskHeld || (sheet == Pass && slide >= LIST_SHOWN))
      ensures (Valid() <==> old(Valid())) && (Rules() <==> old(Rules()))
    {
      if sheet == Pass && slide >= LIST_SHOWN {
        oskHeld := true;
      }
    }

    /** The finger comes up on the key that submits. */
    method ReleaseKey(enterprise: bool, password: string)
      requires Valid()
      modifies `forgetSsid, `connecting, `joinWaitLive, `connectSsid, `busy, `wantConnect, `pendSsid, `pendPass
      modifies `connectLost
      modifies `spawned, `jobRunning, `jobKind, `jobSsid, `jobPass, `connectNeedPass, `knownPskSsid, `knownPsk
      modifies `lateSubmit, `staleJoin, `oskHeld
      ensures Valid() && QueueKept() && (old(Rules()) ==> Rules()) && !oskHeld && Submitted(enterprise, password)
      ensures lateSubmit ==> old(lateSubmit || joinWaitLive)
    {
      hide SsidEq, JoinUseSessionPsk, PassKept;
      SubmitPass(enterprise, password);
      oskHeld := false;
    }

    /** A tap on a row of the list. */
    method ChooseNetwork(name: string)
      requires Valid()
      modifies `selectedSsid, `sheet
      ensures Valid() && (old(Rules()) ==> Rules())
      ensures old(Shown(List)) ==> selectedSsid == name && sheet == if connecting || forgetting then List else Detail
      ensures !old(Shown(List)) ==> unchanged(this)
    {
      if Shown(List) {
        selectedSsid := name;
        if !connecting && !forgetting {
          sheet := Detail;
        }
      }
    }

    /** What the back button of each sheet leads to. */
    function SheetBehind(): Sheet
      reads `sheet, `slide, `selectedSsid, `forgetting, `connecting
    {
      if Shown(Pass) then if selectedSsid != "" then Detail else List
      else if Shown(Detail) && !forgetting then List
      else if Shown(List) && !connecting then NoSheet
      else sheet
    }

    /** The back button; the password sheet lets go of its key. */
    method CloseSheet()
      requires Valid()
      modifies `sheet, `oskHeld
      ensures Valid() && (old(Rules()) ==> Rules()) && sheet == old(SheetBehind())
      ensures oskHeld == old(oskHeld && !Shown(Pass))
    {
      if Shown(Pass) {
        oskHeld := false;
      }
      sheet := SheetBehind();
    }

    /** A tap reaches the Wi-Fi card of the home screen, no sheet being up, and the card takes it. */
    predicate CardTaken()
      reads `sheet, `slide, `connecting, `busy, `connected
    {
      (sheet == NoSheet || !Shown(sheet)) && !((connecting || busy) && !connected)
    }

    /** A tap on the Wi-Fi card: the list opens, with a scan if no network is known. */
    method ShowList(noneKnown: bool)
      requires Valid()
      modifies `sheet, `spawned, `jobRunning, `jobKind, `jobSsid, `jobPass, `wantScan
      ensures Valid() && (old(Rules()) ==> Rules())
      ensures sheet == if old(CardTaken()) then List else old(sheet)
      ensures if old(CardTaken()) && noneKnown then Scanned() else SlotKept()
    {
      if CardTaken() {
        sheet := List;
        if noneKnown {
          StartScan();
        }
      }
    }

    /** One step of the sheet's movement: up while one is chosen, down otherwise. */
    method SlideSheet(to: real)
      requires Valid()
      modifies `slide
      ensures Valid() && (old(Rules()) ==> Rules())
      ensures if sheet != NoSheet then slide >= old(slide) && slide >= to else slide <= old(slide) && slide <= to
      ensures slide == to || slide == old(slide)
    {
      if if sheet != NoSheet then to > slide else to < slide {
        slide := to;
      }
    }

    /** A password that was refused, by whatever answer, is not tried again: the network's next join starts without
        one. */
    method JoinAfterRefusal(out: Outcome)
      requires Valid() && Joining() && PassRefused(Answer(out)) && !wantConnect && AlwaysSpawns() && slide > SHOWN
      modifies this
      ensures JobIs(Connect, old(connectSsid), "") && !connectNeedPass && !SsidEq(knownPskSsid, old(connectSsid))
    {
      AnswersExactly(Answer(out));
      JoiningNamed();
      hide Valid, RetryRules, OnConnectJob, Answer, PassRefused, SsidEq, JoinUseSessionPsk, Waited, SessionPass;
      Handle(Tick(1, true, out, Report(Unlisted, "", ""), false, false));
      TapJoinAgain();
    }

    method TapJoinAgain()
      requires Valid() && sheet == Pass && slide > SHOWN && !connecting && !forgetting
      requires selectedSsid != "" && SessionPass() == "" && AlwaysSpawns()
      modifies this
      ensures JobIs(Connect, old(selectedSsid), "") && !connectNeedPass
      ensures unchanged(`knownPskSsid, `knownPsk)
    {
      hide Valid, RetryRules, SsidEq, JoinUseSessionPsk, PassKept;
      Handle(GoBack);
      Handle(TapJoin(false, false));
    }

    lemma JoiningNamed()
      requires Valid() && Joining()
      ensures connectSsid != ""
    {
    }

    ghost predicate AlwaysSpawns() { forall n: nat :: spawns(n) }

    /** A join whose remembered password does not count as used is retried after every bare request for a
        password, without end: as often as the answer comes. */
    method KeepRetrying(k: nat)
      requires Valid() && Joining() && UnprovenPass() && !connected && !wantConnect && AlwaysSpawns()
      modifies this
      ensures Valid() && Joining() && UnprovenPass()
      ensures retries == old(retries) + k && staleJoin == old(staleJoin) && lateSubmit == old(lateSubmit)
    {
      var out := Outcome(2, false, true, false);
      hide JoinUseSessionPsk, SsidEq, OnConnectJob, AlreadyOn, Answer, RetryRules, Waited;
      for i := 0 to k
        invariant Valid() && Joining() && UnprovenPass() && !connected && !wantConnect
        invariant retries == old(retries) + i && staleJoin == old(staleJoin) && lateSubmit == old(lateSubmit)
      {
        AsksAgainNow(out);
        Handle(Tick(5, true, out, Report(Unlisted, "", ""), false, false));
      }
    }

    lemma AsksAgainNow(out: Outcome)
      ensures UnprovenPass() && !connected && !wantConnect && out == Outcome(2, false, true, false) ==>
        OnConnectJob(Answer(out)) == RetryPsk
    {
      RetryExactly(Answer(out));
    }
  }
}
