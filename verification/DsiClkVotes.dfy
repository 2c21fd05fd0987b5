/** Votes on the DSI clocks: what one client asks for, and how the clock manager aggregates it.
    Models the request bookkeeping of dsi_clk_req_state and the aggregation rule of
    dsi_recheck_clk_state. */
module DsiClkVotes {

  import opened Common

  /** enum dsi_clk_state. */
  datatype ClkState = Off | On | EarlyGate

  /** How much a state demands: OFF < EARLY_GATE < ON. */
  function Demand(s: ClkState): nat {
    match s
    case Off => 0
    case EarlyGate => 1
    case On => 2
  }

  /** One client's standing on one kind of clock: a 32-bit refcount and the state it last asked for. */
  datatype Vote = Vote(refs: nat, state: ClkState)

  const NoVote := Vote(0, Off)

  /** The vote after its owner asks for state s. ON always counts, and the counter wraps at 32 bits;
      leaving ON counts down; EARLY_GATE to OFF does not count. */
  function AfterRequest(v: Vote, s: ClkState): Vote {
    if s == On then
      Vote(if v.refs == U32_MAX then 0 else v.refs + 1, On)
    else if v.refs == 0 then
      if v.state == EarlyGate && s == Off then Vote(0, Off) else v
    else
      Vote(v.refs - 1, if v.refs == 1 then s else v.state)
  }

  /** ON is asked for exactly by the clients that hold a reference. */
  predicate Consistent(v: Vote) {
    v.refs <= U32_MAX && (v.state == On <==> v.refs > 0)
  }

  /** The half of Consistent that even a wrapped counter keeps. */
  predicate Held(v: Vote) {
    v.refs <= U32_MAX && (v.refs > 0 ==> v.state == On)
  }

  /** The vote after a whole history of requests. */
  function AfterHistory(v: Vote, reqs: seq<ClkState>): Vote {
    if reqs == [] then v else AfterRequest(AfterHistory(v, reqs[..|reqs| - 1]), reqs[|reqs| - 1])
  }

  /** A request keeps a client consistent unless it is an ON on a counter already at its 32-bit maximum. */
  lemma RequestKeepsConsistent(v: Vote, s: ClkState)
    requires Consistent(v)
    ensures Consistent(AfterRequest(v, s)) <==> !(s == On && v.refs == U32_MAX)
    ensures Held(AfterRequest(v, s))
  {
  }

  lemma RequestKeepsHeld(v: Vote, s: ClkState)
    ensures Held(v) ==> Held(AfterRequest(v, s))
  {
  }

  /** Over any history shorter than the counter's range a client is ON exactly when its refcount is
      positive, whether or not the requests could be carried out. */
  lemma {:induction false} HistoryConsistent(reqs: seq<ClkState>)
    requires |reqs| <= U32_MAX
    ensures Consistent(AfterHistory(NoVote, reqs))
    ensures AfterHistory(NoVote, reqs).refs <= |reqs|
  {
    if reqs != [] {
      HistoryConsistent(reqs[..|reqs| - 1]);
    }
  }

  /** Whatever the history, even past the counter's range, a positive refcount means ON. */
  lemma {:induction false} HistoryHeld(reqs: seq<ClkState>)
    ensures Held(AfterHistory(NoVote, reqs))
  {
    if reqs != [] {
      HistoryHeld(reqs[..|reqs| - 1]);
    }
  }

  /** How many more requests were ON than were not. */
  function Net(reqs: seq<ClkState>): int {
    if reqs == [] then 0 else Net(reqs[..|reqs| - 1]) + if reqs[|reqs| - 1] == On then 1 else -1
  }

  /** Within the counter's range a client holds as many references as the best of the recent pasts: the largest
      surplus of ON requests over the others, counted from any moment on. */
  lemma {:induction false} RefsAreLargestSurplus(reqs: seq<ClkState>)
    requires |reqs| <= U32_MAX
    ensures forall k | 0 <= k <= |reqs| :: Net(reqs[k..]) <= AfterHistory(NoVote, reqs).refs
    ensures exists k | 0 <= k <= |reqs| :: Net(reqs[k..]) == AfterHistory(NoVote, reqs).refs
  {
    HistoryConsistent(reqs);
    assert Net(reqs[|reqs|..]) == 0;
    if reqs != [] {
      var before, r := reqs[..|reqs| - 1], reqs[|reqs| - 1];
      HistoryConsistent(before);
      RefsAreLargestSurplus(before);
      forall k | 0 <= k < |reqs|
        ensures Net(reqs[k..]) == Net(before[k..]) + if r == On then 1 else -1
      {
        assert reqs[k..][..|reqs| - 1 - k] == before[k..];
      }
      var k :| 0 <= k <= |before| && Net(before[k..]) == AfterHistory(NoVote, before).refs;
      assert Net(reqs[k..]) == Net(before[k..]) + if r == On then 1 else -1;
    }
  }

  /** Request n gave up the last reference for EARLY_GATE, and nothing else was asked since. */
  predicate GatedAt(reqs: seq<ClkState>, n: nat)
    requires n < |reqs|
  {
    && reqs[n] == EarlyGate && AfterHistory(NoVote, reqs[..n]).refs == 1
    && forall m | n < m < |reqs| :: reqs[m] == EarlyGate
  }

  /** And it is at EARLY_GATE exactly if that is what it gave up its last reference for, and has asked since. */
  lemma {:induction false} GatedExactly(reqs: seq<ClkState>)
    requires |reqs| <= U32_MAX
    ensures AfterHistory(NoVote, reqs).state == EarlyGate <==> exists n | 0 <= n < |reqs| :: GatedAt(reqs, n)
  {
    if reqs != [] {
      var before, last := reqs[..|reqs| - 1], |reqs| - 1;
      HistoryConsistent(before);
      GatedExactly(before);
      forall n | 0 <= n < last
        ensures GatedAt(reqs, n) <==> GatedAt(before, n) && reqs[last] == EarlyGate
      {
        assert before[..n] == reqs[..n];
        assert forall m | 0 <= m < last :: before[m] == reqs[m];
      }
      if n :| 0 <= n < last && GatedAt(before, n) {
        assert reqs[last] == EarlyGate ==> GatedAt(reqs, n);
      }
      assert GatedAt(reqs, last) <==> reqs[last] == EarlyGate && AfterHistory(NoVote, before).refs == 1;
    }
  }

  /** s is the most demanding of the votes, and OFF when there is none. */
  predicate IsMax(s: ClkState, votes: seq<Vote>) {
    && (forall i | 0 <= i < |votes| :: Demand(votes[i].state) <= Demand(s))
    && (s == Off || exists i | 0 <= i < |votes| :: votes[i].state == s)
  }

  /** No reading of the votes asks a manager in state s to step from OFF to EARLY_GATE. */
  ghost predicate StepOk(s: ClkState, votes: seq<Vote>) {
    forall m | IsMax(m, votes) :: !(s == Off && m == EarlyGate)
  }

  predicate AllHeld(votes: seq<Vote>) {
    forall i | 0 <= i < |votes| :: Held(votes[i])
  }

  predicate AnyOn(votes: seq<Vote>) {
    exists i | 0 <= i < |votes| :: votes[i].state == On
  }

  /** A vote ON makes ON the most demanding one; with votes ON and OFF alone there is no third. */
  lemma MaxOn(s: ClkState, votes: seq<Vote>)
    requires IsMax(s, votes)
    ensures AnyOn(votes) <==> s == On
    ensures NoneEarlyGated(votes) ==> s != EarlyGate
  {
  }

  /** EARLY_GATE has not been asked for. */
  predicate NoneEarlyGated(votes: seq<Vote>) {
    forall i | 0 <= i < |votes| :: votes[i].state != EarlyGate
  }

  /** A client that holds the link clocks holds the core clocks too. */
  predicate LinkNeedsCore(core: seq<Vote>, link: seq<Vote>) {
    |core| == |link| && forall i | 0 <= i < |core| :: link[i].state == On ==> core[i].state == On
  }

  lemma MaxIsUnique(s: ClkState, t: ClkState, votes: seq<Vote>)
    requires IsMax(s, votes) && IsMax(t, votes)
    ensures s == t
  {
    if t != Off {
      var i :| 0 <= i < |votes| && votes[i].state == t;
      assert Demand(t) <= Demand(s);
    }
    if s != Off {
      var i :| 0 <= i < |votes| && votes[i].state == s;
      assert Demand(s) <= Demand(t);
    }
  }

  /** The most demanding vote, computed. */
  function MaxOf(votes: seq<Vote>): ClkState {
    if votes == [] then Off
    else
      var before, last := MaxOf(votes[..|votes| - 1]), votes[|votes| - 1].state;
      if Demand(before) < Demand(last) then last else before
  }

  lemma {:induction false} MaxOfIsMax(votes: seq<Vote>)
    ensures IsMax(MaxOf(votes), votes)
  {
    if votes != [] {
      var before := votes[..|votes| - 1];
      MaxOfIsMax(before);
      assert forall i | 0 <= i < |before| :: before[i] == votes[i];
    }
  }

  lemma MaxIsVoted(s: ClkState, votes: seq<Vote>)
    ensures IsMax(s, votes) && NoneEarlyGated(votes) ==> s != EarlyGate
  {
  }

  lemma MaxLinkNeedsCore(c: ClkState, l: ClkState, core: seq<Vote>, link: seq<Vote>)
    ensures LinkNeedsCore(core, link) && IsMax(c, core) && IsMax(l, link) ==> (l == On ==> c == On)
  {
    if l == On && LinkNeedsCore(core, link) && IsMax(c, core) && IsMax(l, link) {
      var i :| 0 <= i < |link| && link[i].state == On;
      assert core[i].state == On;
    }
  }

  /** The aggregate never steps from OFF to EARLY_GATE: a client can only enter EARLY_GATE from ON,
      and then the aggregate was ON. */
  lemma OffToEarlyGateUnreachable(votes: seq<Vote>, k: nat, s: ClkState, mgr: ClkState)
    requires k < |votes| && Held(votes[k]) && IsMax(mgr, votes)
    ensures StepOk(mgr, votes[k := AfterRequest(votes[k], s)])
  {
    var after := votes[k := AfterRequest(votes[k], s)];
    forall m | IsMax(m, after)
      ensures !(mgr == Off && m == EarlyGate)
    {
      if m == EarlyGate {
        var i :| 0 <= i < |after| && after[i].state == EarlyGate;
        if i != k {
          assert votes[i].state == EarlyGate;
        }
      }
    }
  }

  /** Putting a client OFF cannot step the aggregate from OFF to EARLY_GATE either. */
  lemma LeavingNeverEarlyGates(votes: seq<Vote>, k: nat, mgr: ClkState)
    requires k < |votes| && IsMax(mgr, votes)
    ensures StepOk(mgr, votes[k := Vote(votes[k].refs, Off)])
  {
    var after := votes[k := Vote(votes[k].refs, Off)];
    forall m | IsMax(m, after)
      ensures !(mgr == Off && m == EarlyGate)
    {
      if m == EarlyGate {
        var i :| 0 <= i < |after| && after[i].state == EarlyGate;
        assert votes[i].state == EarlyGate;
      }
    }
  }

  lemma UnmovedStepOk(votes: seq<Vote>, mgr: ClkState)
    requires IsMax(mgr, votes)
    ensures StepOk(mgr, votes)
  {
    forall m | IsMax(m, votes)
      ensures !(mgr == Off && m == EarlyGate)
    {
      MaxIsUnique(m, mgr, votes);
    }
  }

  function Without<T>(s: seq<T>, k: nat): seq<T>
    requires k < |s|
  {
    s[..k] + s[k + 1..]
  }

  /** Once OFF, a vote can be left out of the aggregate. */
  lemma OffVotesDoNotCount(s: ClkState, votes: seq<Vote>, k: nat)
    requires k < |votes| && votes[k].state == Off
    ensures IsMax(s, votes) <==> IsMax(s, Without(votes, k))
  {
    var rest := Without(votes, k);
    if IsMax(s, votes) {
      forall j | 0 <= j < |rest|
        ensures Demand(rest[j].state) <= Demand(s)
      {
        assert rest[j] == votes[if j < k then j else j + 1];
      }
      if s != Off {
        var i :| 0 <= i < |votes| && votes[i].state == s;
        assert rest[if i < k then i else i - 1] == votes[i];
      }
    }
    if IsMax(s, rest) {
      forall i | 0 <= i < |votes|
        ensures Demand(votes[i].state) <= Demand(s)
      {
        assert i != k ==> rest[if i < k then i else i - 1] == votes[i];
      }
      if s != Off {
        var j :| 0 <= j < |rest| && rest[j].state == s;
        assert rest[j] == votes[if j < k then j else j + 1];
      }
    }
  }

  lemma StepOkAt(mgr: ClkState, votes: seq<Vote>, m: ClkState)
    ensures StepOk(mgr, votes) && IsMax(m, votes) ==> !(mgr == Off && m == EarlyGate)
  {
  }
}
