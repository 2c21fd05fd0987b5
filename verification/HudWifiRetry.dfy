/** A run of the Wi-Fi machine in which a remembered password is tried again without end. Each step is an event. */
module HudWifiRetry {

  import opened HudWifiFlow
  import opened HudWifi

  const NOTHING := Report(Unlisted, "", "")

  /** A bare request for a password; a success; any other failure. */
  const ASKS := Outcome(2, false, true, false)
  const SUCCEEDS := Outcome(0, true, false, false)
  const FAILS := Outcome(1, false, false, false)

  lemma Decides(i: ConnectIn)
    ensures i.out == ASKS && !i.connected && !i.leftHome && !i.wantConnect && !i.usedPass && !i.haveSessionPsk
      ==> OnConnectJob(i) == OpenPass
    ensures i.out == SUCCEEDS ==> OnConnectJob(i) == Success
    ensures i.out == FAILS ==> OnConnectJob(i) == Fail
  {
  }

  /** What holds all along: processes start, the link is down, and the sheets are open. */
  ghost predicate Ongoing(w: Wifi)
    reads w
  {
    w.Valid() && w.Rules() && w.AlwaysSpawns() && !w.connected && !w.forgetting && w.retries == 0 && w.slide == 1.0
  }

  /** The user opens the list, which slides up. */
  method OpensList() returns (w: Wifi)
    ensures fresh(w) && Ongoing(w) && w.sheet == List && !w.connecting && !w.wantConnect && w.knownPskSsid == ""
    ensures !w.Joining()
  {
    w := new Wifi(_ => true);
    w.Handle(OpenList(false));
    w.Handle(Slide(1.0));
  }

  /** The user picks A and joins it. */
  method JoinsA(w: Wifi, a: string)
    requires a != "" && Ongoing(w) && w.sheet == List && !w.connecting && !w.wantConnect && w.knownPskSsid == ""
    modifies w
    ensures Ongoing(w) && w.sheet == Detail && w.Joining() && w.connectSsid == a && !w.wantConnect
    ensures !w.connectNeedPass && w.knownPskSsid == ""
  {
    hide w.Valid, w.RetryRules;
    w.Handle(PickRow(a));
    w.Handle(TapJoin(false, false));
  }

  /** A asks for a password, and the user submits one. */
  method GivesPassword(w: Wifi, a: string, pw: string)
    requires a != "" && |pw| >= 8 && Ongoing(w) && w.sheet == Detail && w.Joining() && w.connectSsid == a
    requires !w.wantConnect && !w.connectNeedPass && w.knownPskSsid == ""
    modifies w
    ensures Ongoing(w) && w.sheet == Pass && w.Joining() && w.connectSsid == a && !w.wantConnect
    ensures w.knownPskSsid == a && w.knownPsk == pw
  {
    Decides(w.Answer(ASKS));
    hide w.Valid, w.RetryRules, OnConnectJob, AlreadyOn;
    w.Handle(Tick(1, true, ASKS, NOTHING, false, false));
    w.Handle(TapSubmit(false, pw));
  }

  /** A key of the sheet goes down before A is joined and up while it is being confirmed. */
  method SubmitsLate(w: Wifi, a: string, pw: string)
    requires a != "" && |pw| >= 8 && Ongoing(w) && w.sheet == Pass && w.Joining() && w.connectSsid == a
    requires !w.wantConnect && w.knownPskSsid == a && w.knownPsk == pw
    modifies w
    ensures Ongoing(w) && w.sheet == Detail && w.jobRunning && !w.Joining() && w.joinWaitLive && w.tJoinWait == 2
    ensures w.lateSubmit && w.knownPskSsid == a && w.knownPsk == pw && w.Queued() == Queue(true, a, pw)
  {
    hide w.Valid, w.RetryRules, OnConnectJob;
    w.Handle(KeyDown);
    Decides(w.Answer(SUCCEEDS));
    w.Handle(Tick(2, true, SUCCEEDS, NOTHING, false, false));
    w.Handle(KeyUp(false, pw));
  }

  /** The confirmation times out while the query of the link still has the slot. */
  method TimesOut(w: Wifi, q: Queue)
    requires Ongoing(w) && w.sheet == Detail && w.jobRunning && !w.Joining() && w.joinWaitLive && w.tJoinWait == 2
    requires w.Queued() == q
    modifies w
    ensures Ongoing(w) && w.sheet == List && !w.connecting && w.Queued() == q && !w.Joining()
    ensures w.lateSubmit == old(w.lateSubmit) && w.knownPskSsid == old(w.knownPskSsid) && w.knownPsk == old(w.knownPsk)
  {
    hide w.Valid, w.RetryRules;
    w.Handle(Tick(CONFIRM_NS + 3, false, FAILS, NOTHING, false, false));
    w.Handle(GoBack);
  }

  /** The user goes on to B, of which no password is known. */
  method JoinsOther(w: Wifi, q: Queue, b: string)
    requires b != "" && Ongoing(w) && w.sheet == List && !w.connecting && w.Queued() == q && w.knownPskSsid != b
    modifies w
    ensures Ongoing(w) && w.Joining() && w.connectSsid == b && !w.connectNeedPass && w.Queued() == q
    ensures w.lateSubmit == old(w.lateSubmit) && w.knownPskSsid == old(w.knownPskSsid) && w.knownPsk == old(w.knownPsk)
  {
    hide w.Valid, w.RetryRules;
    w.Handle(PickRow(b));
    w.Handle(TapJoin(false, false));
  }

  /** B fails, and the queue joins A as if no password were used. */
  method FallsBackToA(w: Wifi, a: string, pw: string)
    requires a != "" && |pw| >= 8 && Ongoing(w) && w.Joining() && !w.connectNeedPass && w.lateSubmit
    requires w.knownPskSsid == a && w.knownPsk == pw && w.Queued() == Queue(true, a, pw)
    modifies w
    ensures w.Valid() && w.AlwaysSpawns() && w.Joining() && w.UnprovenPass() && !w.connected && !w.wantConnect
    ensures w.lateSubmit && w.staleJoin && w.retries == 0
  {
    Decides(w.Answer(FAILS));
    hide w.Valid, w.RetryRules, OnConnectJob;
    w.Handle(Tick(CONFIRM_NS + 4, true, FAILS, NOTHING, false, false));
  }

  /** From power-on to any number of retries. */
  method HeldKeyRun(a: string, pw: string, b: string, k: nat) returns (w: Wifi)
    requires a != "" && |pw| >= 8 && b != "" && a != b
    ensures fresh(w) && w.Valid() && w.lateSubmit && w.staleJoin && w.retries == k
  {
    w := OpensList();
    JoinsA(w, a);
    GivesPassword(w, a, pw);
    SubmitsLate(w, a, pw);
    TimesOut(w, Queue(true, a, pw));
    JoinsOther(w, Queue(true, a, pw), b);
    FallsBackToA(w, a, pw);
    w.KeepRetrying(k);
  }
}
