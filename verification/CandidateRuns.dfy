/** One candidate through whole runs: the gap of its bottom total, and the floor of its self-bond. */
module CandidateRuns {
  import opened Wrappers
  import opened Bonds
  import opened Candidates
  import opened CandidateLaws
  import opened Nominators
  import opened Staking
  import opened StakingLaws
  import opened Runs
  import opened Timelock
  import opened CandidateHistory

  // ----- calls that leave the lists alone

  ghost predicate ListsKept(st: Storage, st': Storage, x: Account) {
    x in st.candidates && x in st'.candidates ==>
      st'.candidates[x].top == st.candidates[x].top && st'.candidates[x].bottom == st.candidates[x].bottom
  }

  lemma JoinLists(cfg: Config, st: Storage, stash: Account, c: Account, relayer: Option<bool>, bond: nat, hint: nat, x: Account)
    requires JoinCandidates(cfg, st, stash, c, relayer, bond, hint).Ok?
    ensures ListsKept(st, JoinCandidates(cfg, st, stash, c, relayer, bond, hint).value, x)
  {
  }

  lemma SelfBondLists(cfg: Config, st: Storage, stash: Account, more: nat, tier: Tier, relayer: Option<bool>, x: Account)
    ensures CandidateBondMore(st, stash, more).Ok? ==> ListsKept(st, CandidateBondMore(st, stash, more).value, x)
    ensures ExecuteCandidateBondLess(st, stash).Ok? ==> ListsKept(st, ExecuteCandidateBondLess(st, stash).value, x)
    ensures SetValidatorTier(cfg, st, stash, more, tier, relayer).Ok? ==>
      ListsKept(st, SetValidatorTier(cfg, st, stash, more, tier, relayer).value, x)
  {
    hide UpdateActive, Get, MinSelfBond;
  }

  lemma SlashLists(cfg: Config, st: Storage, c: Account, amount: nat, x: Account)
    requires Slash(cfg, st, c, amount).Ok?
    ensures ListsKept(st, Slash(cfg, st, c, amount).value, x)
  {
  }

  lemma BondCallLists(cfg: Config, st: Storage, call: Call, x: Account)
    requires BondCall(call)
    ensures ListsKept(st, Next(cfg, st, call), x)
  {
    hide JoinCandidates, CandidateBondMore, ExecuteCandidateBondLess, SetValidatorTier, Slash;
    if Step(cfg, st, call).Ok? {
      match call
      case CallJoin(stash, c, relayer, bond, hint) => JoinLists(cfg, st, stash, c, relayer, bond, hint, x);
      case CallSetTier(stash, more, tier, relayer) => SelfBondLists(cfg, st, stash, more, tier, relayer, x);
      case CallExecuteBondLess(stash) => SelfBondLists(cfg, st, stash, 0, FullNode, None, x);
      case CallCandidateBondMore(stash, more) => SelfBondLists(cfg, st, stash, more, FullNode, None, x);
      case Offence(c, amount) => SlashLists(cfg, st, c, amount, x);
    }
  }

  /** Nothing but the status and the request of `c` changes, and a new request leaves the minimum. */
  ghost predicate SelfOnly(cfg: Config, st: Storage, st': Storage, c: Account) {
    && c in st.candidates && c in st'.candidates
    && var cand, cand' := st.candidates[c], st'.candidates[c];
    && st'.candidates == st.candidates[c := cand'] && cand' == cand.(status := cand'.status, request := cand'.request)
    && (cand'.request == cand.request || AboveFloor(cfg, cand'))
  }

  lemma StatusForm(cfg: Config, st: Storage, call: Call)
    requires call.CallScheduleLeaveCandidates? || call.CallCancelLeaveCandidates? || call.CallGoOffline? || call.CallGoOnline?
    requires Step(cfg, st, call).Ok?
    ensures SelfOnly(cfg, st, Step(cfg, st, call).value, call.c)
  {
    match call
    case CallScheduleLeaveCandidates(_, _) =>
    case CallCancelLeaveCandidates(_, _) =>
    case CallGoOnline(_) =>
    case CallGoOffline(_) =>
  }

  lemma RequestForm(cfg: Config, st: Storage, call: Call)
    requires (call.CallScheduleBondLess? || call.CallCancelBondLess?) && Step(cfg, st, call).Ok?
    ensures SelfOnly(cfg, st, Step(cfg, st, call).value, call.c)
  {
    hide MinSelfBond;
  }

  /** A status call changes nothing but the status and the request of one candidate. */
  lemma StatusCallForm(cfg: Config, st: Storage, call: Call)
    requires StatusCall(call)
    ensures Next(cfg, st, call).candidates == st.candidates
      || (!call.Deposit? && !call.NewRound? && SelfOnly(cfg, st, Next(cfg, st, call), call.c))
  {
    hide ScheduleLeaveCandidates, CancelLeaveCandidates, GoOffline, GoOnline, ScheduleCandidateBondLess, CancelCandidateBondLess, SelfOnly;
    if Step(cfg, st, call).Ok? {
      if call.CallScheduleBondLess? || call.CallCancelBondLess? {
        RequestForm(cfg, st, call);
      } else if !call.Deposit? && !call.NewRound? {
        StatusForm(cfg, st, call);
      }
    }
  }

  lemma StatusCallLists(cfg: Config, st: Storage, call: Call, x: Account)
    requires StatusCall(call)
    ensures ListsKept(st, Next(cfg, st, call), x)
  {
    hide Step;
    StatusCallForm(cfg, st, call);
  }

  // ----- the gap of the bottom total

  /** What a call, if accepted, takes from a bottom nomination of `x`. */
  ghost function BottomLess(st: Storage, call: Call, x: Account): nat {
    if call.CallExecuteRequest? && call.c == x && x in st.candidates && call.n in st.nominators && x in st.nominators[call.n].requests
       && st.nominators[call.n].requests[x].action.Decrease? && Records(st, call.n, x).Some?
       && Bond(call.n, Records(st, call.n, x).value) in st.candidates[x].bottom.nominations
    then st.nominators[call.n].requests[x].amount
    else 0
  }

  lemma NominateDrift(cfg: Config, st: Storage, n: Account, c: Account, amount: nat, h: nat, hint: nat, x: Account)
    requires cfg.Valid() && Valid(cfg, st) && Nominate(cfg, st, n, c, amount, h, hint).Ok? && x in st.candidates
    ensures var st' := Nominate(cfg, st, n, c, amount, h, hint).value;
      x in st'.candidates && Drift(st'.candidates[x]) == Drift(st.candidates[x])
  {
    hide Inv, LedgerOk, Agree, PoolOk, StashOk, Solvent, Nominate, AddNomination, Drift, Kick, NominatorFor, Records, AddEffect;
    NominateForm(cfg, st, n, c, amount, h, hint);
    NominatorForOk(cfg, st, n, c, amount, hint);
    NotListed(cfg, st, n, c);
    AddKeeps(cfg, st.candidates[c], Bond(n, amount));
  }

  lemma BondMoreDrift(cfg: Config, st: Storage, n: Account, c: Account, more: nat, x: Account)
    requires cfg.Valid() && Valid(cfg, st) && NominatorBondMore(cfg, st, n, c, more).Ok? && x in st.candidates
    ensures var st' := NominatorBondMore(cfg, st, n, c, more).value;
      x in st'.candidates && Drift(st'.candidates[x]) == Drift(st.candidates[x])
  {
    hide Inv, LedgerOk, Agree, PoolOk, StashOk, Solvent, NominatorBondMore, Increase, Drift, Records, Becomes;
    BondMoreForm(cfg, st, n, c, more);
    Listed(st, n, c);
    IncreaseRefinesLookup(cfg, st.candidates[c], n, Records(st, n, c).value, more);
  }

  lemma LeavesDrift(cfg: Config, st: Storage, c: Account, n: Account, claimed: nat, a: nat, x: Account)
    requires cfg.Valid() && CandidatesOk(cfg, st) && c in st.candidates && Bond(n, a) in All(st.candidates[c]) && claimed <= a
    requires NominatorLeavesCandidate(cfg, st, c, n, claimed).Ok? && x in st.candidates
    ensures var st' := NominatorLeavesCandidate(cfg, st, c, n, claimed).value;
      x in st'.candidates && Drift(st'.candidates[x]) == Drift(st.candidates[x])
  {
    hide Inv, RmIfExists, Drift, Becomes, All;
    RmWithStaleAmount(cfg, st.candidates[c], n, a, claimed);
    RmRefinesLookup(cfg, st.candidates[c], n, a);
  }

  lemma ExecuteDrift(cfg: Config, st: Storage, n: Account, c: Account, x: Account)
    requires cfg.Valid() && Valid(cfg, st) && ExecuteRequest(cfg, st, n, c).Ok? && x in st.candidates
    ensures var st' := ExecuteRequest(cfg, st, n, c).value;
      x in st'.candidates && Drift(st'.candidates[x]) == Drift(st.candidates[x]) + BottomLess(st, CallExecuteRequest(n, c), x)
  {
    hide Inv, LedgerOk, Agree, PoolOk, StashOk, Solvent, NominatorLeavesCandidate, ExecuteDecrease, Candidates.Decrease, Drift, Becomes, All;
    var s := st.nominators[n];
    var amount := s.requests[c].amount;
    if s.requests[c].action.Revoke? {
      RevokedOk(s, c);
      Listed(st, n, c);
      LeavesDrift(cfg, st, c, n, amount, s.nominations[c], x);
    } else {
      DecreaseForm(cfg, st, n, c);
      Listed(st, n, c);
      DecreaseRefinesLookup(cfg, st.candidates[c], n, Records(st, n, c).value, amount);
    }
  }

  lemma {:induction false} LeaveEachDrift(cfg: Config, st: Storage, n: Account, when: nat, todo: map<Account, nat>, x: Account)
    requires cfg.Valid() && Valid(cfg, Halfway(st, n, when, todo)) && x in st.candidates
    ensures var st' := LeaveEach(cfg, st, n, todo); x in st'.candidates && Drift(st'.candidates[x]) == Drift(st.candidates[x])
    decreases |todo|
  {
    hide Valid, EntryChange, NominatorLeavesCandidate, Backing, Records, Excess, Drift, CandidatesOk, All, LedgerOk, PoolOk, Halfway;
    if todo != map[] {
      var c := Least(todo.Keys);
      HalfwayReady(cfg, st, n, when, todo, c);
      HalfwayEntry(cfg, st, n, when, todo, c);
      var st1 := NominatorLeavesCandidate(cfg, st, c, n, todo[c]).value;
      LeavesDrift(cfg, st, c, n, todo[c], todo[c], x);
      EntryStep(cfg, Halfway(st, n, when, todo), Halfway(st1, n, when, todo - {c}), n, c, None, 0);
      LeaveEachDrift(cfg, st1, n, when, todo - {c}, x);
    }
  }

  lemma ExitDrift(cfg: Config, st: Storage, n: Account, hint: nat, x: Account)
    requires cfg.Valid() && Valid(cfg, st) && ExecuteLeaveNominators(cfg, st, n, hint).Ok? && x in st.candidates
    ensures var st' := ExecuteLeaveNominators(cfg, st, n, hint).value;
      x in st'.candidates && Drift(st'.candidates[x]) == Drift(st.candidates[x])
  {
    hide Inv, Agree, StashOk, PoolOk, CandidatesOk, LeaveEach, Drift;
    var s := st.nominators[n];
    assert s.requests == map[] && s.lessTotal == 0 && s.revocations == 0;
    assert s == Exiter(s.nominations, s.status.when);
    assert st.nominators[n := s] == st.nominators;
    LeaveEachDrift(cfg, st, n, s.status.when, s.nominations, x);
  }

  /** Through any call, the gap of a candidate's bottom total grows by exactly what the call takes from
      one of its bottom nominations. */
  lemma DriftStep(cfg: Config, st: Storage, call: Call, x: Account)
    requires cfg.Valid() && Valid(cfg, st) && x in st.candidates && x in Next(cfg, st, call).candidates && Step(cfg, st, call).Ok?
    ensures Drift(Next(cfg, st, call).candidates[x]) == Drift(st.candidates[x]) + BottomLess(st, call, x)
  {
    hide Valid, Nominate, NominatorBondMore, ExecuteRequest, ExecuteLeaveNominators, ExecuteLeaveCandidates, JoinCandidates,
      CandidateBondMore, ExecuteCandidateBondLess, SetValidatorTier, Slash, ScheduleLeaveCandidates, CancelLeaveCandidates,
      GoOffline, GoOnline, ScheduleCandidateBondLess, CancelCandidateBondLess, ScheduleNominatorRequest, CancelNominationRequest,
      ScheduleLeaveNominators, CancelLeaveNominators;
    if BondCall(call) {
      BondCallLists(cfg, st, call, x);
    } else if StatusCall(call) {
      StatusCallLists(cfg, st, call, x);
    } else {
      match call
      case CallNominate(n, c, amount, h, hint) => NominateDrift(cfg, st, n, c, amount, h, hint, x);
      case CallNominatorBondMore(n, c, more) => BondMoreDrift(cfg, st, n, c, more, x);
      case CallExecuteRequest(n, c) => ExecuteDrift(cfg, st, n, c, x);
      case CallExecuteLeaveNominators(n, hint) => ExitDrift(cfg, st, n, hint, x);
      case CallExecuteLeaveCandidates(stash, hint) => LeaveTickets(st, stash, hint);
      case _ => RequestCallsQuiet(cfg, st, call);
    }
  }

  /** `x` stays a candidate through the whole run. */
  ghost predicate Stays(cfg: Config, st: Storage, calls: seq<Call>, x: Account)
    decreases calls
  {
    x in st.candidates && (calls == [] || Stays(cfg, Next(cfg, st, calls[0]), calls[1..], x))
  }

  ghost function AllBottomLess(cfg: Config, st: Storage, calls: seq<Call>, x: Account): nat
    decreases calls
  {
    if calls == [] then 0
    else
      (if Step(cfg, st, calls[0]).Ok? then BottomLess(st, calls[0], x) else 0)
      + AllBottomLess(cfg, Next(cfg, st, calls[0]), calls[1..], x)
  }

  /** Over a run, the gap of the bottom total of a candidate that stays is what it was plus the sum of
      everything the bottom decreases took; without a bottom decrease it does not move. */
  lemma {:induction false} DriftRun(cfg: Config, st: Storage, calls: seq<Call>, x: Account)
    requires cfg.Valid() && Valid(cfg, st) && Stays(cfg, st, calls, x)
    ensures x in Run(cfg, st, calls).candidates
    ensures Drift(Run(cfg, st, calls).candidates[x]) == Drift(st.candidates[x]) + AllBottomLess(cfg, st, calls, x)
    decreases calls
  {
    hide Valid, Next, Step, Drift, BottomLess, Moves;
    if calls != [] {
      StepKeeps(cfg, st, calls[0]);
      DriftRun(cfg, Next(cfg, st, calls[0]), calls[1..], x);
      if Step(cfg, st, calls[0]).Ok? {
        DriftStep(cfg, st, calls[0], x);
      }
    }
  }

  // ----- the floor of the self-bond

  /** Executing the pending bond-less request would leave the minimum of the tier. */
  ghost predicate AboveFloor(cfg: Config, cand: Candidate) {
    cand.request.Some? ==> cand.bond >= cand.request.value.amount + MinSelfBond(cfg, cand.tier)
  }

  /** A change of tier that, if accepted, ignores the pending request. */
  ghost predicate BreaksFloor(cfg: Config, st: Storage, call: Call, x: Account)
    requires x in st.candidates
  {
    && call.CallSetTier? && call.stash in st.bondedStash && st.bondedStash[call.stash] == x && st.candidates[x].request.Some?
    && st.candidates[x].bond + call.more < st.candidates[x].request.value.amount + MinSelfBond(cfg, call.tier)
  }

  lemma TierFloor(cfg: Config, st: Storage, stash: Account, more: nat, tier: Tier, relayer: Option<bool>, x: Account)
    requires SetValidatorTier(cfg, st, stash, more, tier, relayer).Ok? && x in st.candidates && AboveFloor(cfg, st.candidates[x])
    ensures var st' := SetValidatorTier(cfg, st, stash, more, tier, relayer).value;
      x in st'.candidates && (AboveFloor(cfg, st'.candidates[x]) <==> !BreaksFloor(cfg, st, CallSetTier(stash, more, tier, relayer), x))
  {
    hide UpdateActive, Get;
  }

  lemma BondFloor(cfg: Config, st: Storage, stash: Account, more: nat, x: Account)
    requires x in st.candidates && AboveFloor(cfg, st.candidates[x])
    ensures CandidateBondMore(st, stash, more).Ok? ==>
      x in CandidateBondMore(st, stash, more).value.candidates && AboveFloor(cfg, CandidateBondMore(st, stash, more).value.candidates[x])
    ensures ExecuteCandidateBondLess(st, stash).Ok? ==>
      x in ExecuteCandidateBondLess(st, stash).value.candidates && AboveFloor(cfg, ExecuteCandidateBondLess(st, stash).value.candidates[x])
  {
    hide UpdateActive, Get;
  }

  lemma SlashFloor(cfg: Config, st: Storage, c: Account, amount: nat, x: Account)
    requires Slash(cfg, st, c, amount).Ok? && x in st.candidates && AboveFloor(cfg, st.candidates[x])
    ensures x in Slash(cfg, st, c, amount).value.candidates && AboveFloor(cfg, Slash(cfg, st, c, amount).value.candidates[x])
  {
    hide Get;
  }

  lemma StatusFloor(cfg: Config, st: Storage, call: Call, x: Account)
    requires StatusCall(call) && x in st.candidates && AboveFloor(cfg, st.candidates[x])
    ensures x in Next(cfg, st, call).candidates && AboveFloor(cfg, Next(cfg, st, call).candidates[x])
  {
    hide Step;
    StatusCallForm(cfg, st, call);
  }

  /** A pending bond-less request stays affordable through every call, slashes included, unless the call
      changes the tier to one whose minimum the bond less the request does not reach. */
  lemma FloorStep(cfg: Config, st: Storage, call: Call, x: Account)
    requires x in st.candidates && AboveFloor(cfg, st.candidates[x]) && x in Next(cfg, st, call).candidates && Step(cfg, st, call).Ok?
    ensures AboveFloor(cfg, Next(cfg, st, call).candidates[x]) <==> !BreaksFloor(cfg, st, call, x)
  {
    hide JoinCandidates, CandidateBondMore, ExecuteCandidateBondLess, SetValidatorTier, Slash, Nominate, NominatorBondMore,
      ExecuteRequest, ExecuteLeaveNominators, ExecuteLeaveCandidates, ScheduleLeaveCandidates, CancelLeaveCandidates,
      GoOffline, GoOnline, ScheduleCandidateBondLess, CancelCandidateBondLess, ScheduleNominatorRequest, CancelNominationRequest,
      ScheduleLeaveNominators, CancelLeaveNominators;
    if StatusCall(call) {
      StatusFloor(cfg, st, call, x);
    } else {
      match call
      case CallJoin(stash, c, relayer, bond, hint) => JoinFloor(cfg, st, stash, c, relayer, bond, hint, x);
      case CallSetTier(stash, more, tier, relayer) => TierFloor(cfg, st, stash, more, tier, relayer, x);
      case CallExecuteBondLess(stash) => BondFloor(cfg, st, stash, 0, x);
      case CallCandidateBondMore(stash, more) => BondFloor(cfg, st, stash, more, x);
      case Offence(c, amount) => SlashFloor(cfg, st, c, amount, x);
      case CallExecuteLeaveCandidates(_, _) => LeaveSelves(cfg, st, call);
      case CallNominate(_, _, _, _, _) => NominatorCallsSelves(cfg, st, call);
      case CallNominatorBondMore(_, _, _) => NominatorCallsSelves(cfg, st, call);
      case CallExecuteRequest(_, _) => NominatorCallsSelves(cfg, st, call);
      case CallExecuteLeaveNominators(_, _) => NominatorCallsSelves(cfg, st, call);
      case _ => RequestCallsQuiet(cfg, st, call);
    }
  }

  lemma JoinFloor(cfg: Config, st: Storage, stash: Account, c: Account, relayer: Option<bool>, bond: nat, hint: nat, x: Account)
    requires JoinCandidates(cfg, st, stash, c, relayer, bond, hint).Ok? && (x in st.candidates ==> AboveFloor(cfg, st.candidates[x]))
    ensures var st' := JoinCandidates(cfg, st, stash, c, relayer, bond, hint).value;
      x in st'.candidates ==> AboveFloor(cfg, st'.candidates[x])
  {
  }

  ghost predicate FloorsKept(cfg: Config, st: Storage, calls: seq<Call>)
    decreases calls
  {
    calls == []
    || ((Step(cfg, st, calls[0]).Ok? ==> forall x :: x in st.candidates ==> !BreaksFloor(cfg, st, calls[0], x))
        && FloorsKept(cfg, Next(cfg, st, calls[0]), calls[1..]))
  }

  lemma NewcomerFloor(cfg: Config, st: Storage, call: Call, x: Account)
    requires x !in st.candidates && x in Next(cfg, st, call).candidates
    ensures AboveFloor(cfg, Next(cfg, st, call).candidates[x])
  {
    hide Step, AboveFloor;
    if call.CallJoin? {
      JoinedFloor(cfg, st, call, x);
    } else {
      NoNewcomer(cfg, st, call, x);
    }
  }

  lemma JoinedFloor(cfg: Config, st: Storage, call: Call, x: Account)
    requires call.CallJoin? && x !in st.candidates && x in Next(cfg, st, call).candidates
    ensures AboveFloor(cfg, Next(cfg, st, call).candidates[x])
  {
    hide JoinCandidates, AboveFloor;
    JoinFloor(cfg, st, call.stash, call.c, call.relayer, call.bond, call.hint, x);
  }

  /** Only joining makes a candidate. */
  lemma NoNewcomer(cfg: Config, st: Storage, call: Call, x: Account)
    requires !call.CallJoin? && x !in st.candidates
    ensures x !in Next(cfg, st, call).candidates
  {
    hide Step;
    if StatusCall(call) {
      StatusCallForm(cfg, st, call);
    } else if BondCall(call) {
      BondNoNewcomer(cfg, st, call, x);
    } else if Step(cfg, st, call).Ok? {
      if call.CallExecuteLeaveCandidates? {
        LeaveSelves(cfg, st, call);
      } else if call.CallNominate? || call.CallNominatorBondMore? || call.CallExecuteRequest? || call.CallExecuteLeaveNominators? {
        NominatorCallsSelves(cfg, st, call);
      } else {
        RequestCallsQuiet(cfg, st, call);
      }
    }
  }

  lemma BondNoNewcomer(cfg: Config, st: Storage, call: Call, x: Account)
    requires BondCall(call) && !call.CallJoin? && x !in st.candidates
    ensures x !in Next(cfg, st, call).candidates
  {
    hide ExecuteBondLess, SlashBond, UpdateActive, Get, MinSelfBond, BondMore;
    match call
    case CallSetTier(_, _, _, _) =>
    case CallExecuteBondLess(_) =>
    case CallCandidateBondMore(_, _) =>
    case Offence(_, _) =>
  }

  /** Over a run without such a change of tier, every pending bond-less request of every candidate stays
      within the minimum of its tier. */
  lemma {:induction false} FloorRun(cfg: Config, st: Storage, calls: seq<Call>)
    requires (forall x :: x in st.candidates ==> AboveFloor(cfg, st.candidates[x])) && FloorsKept(cfg, st, calls)
    ensures forall x :: x in Run(cfg, st, calls).candidates ==> AboveFloor(cfg, Run(cfg, st, calls).candidates[x])
    decreases calls
  {
    hide Step, AboveFloor, BreaksFloor;
    if calls != [] {
      var st1 := Next(cfg, st, calls[0]);
      forall x | x in st1.candidates ensures AboveFloor(cfg, st1.candidates[x]) {
        if x in st.candidates {
          if Step(cfg, st, calls[0]).Ok? {
            FloorStep(cfg, st, calls[0], x);
          }
        } else {
          NewcomerFloor(cfg, st, calls[0], x);
        }
      }
      FloorRun(cfg, st1, calls[1..]);
    }
  }

  // ----- voting power in every reachable storage

  /** In every storage a run reaches, each candidate's voting power is its self-bond plus its `maxTop`
      largest nominations, and that is its entry in the pool if it is active. */
  lemma ReachableVotingPower(cfg: Config, free: map<Account, nat>, calls: seq<Call>, c: Account)
    requires cfg.Valid() && c in Run(cfg, Genesis(free), calls).candidates
    ensures var st := Run(cfg, Genesis(free), calls);
      && st.candidates[c].votingPower == st.candidates[c].bond + SumOfLargest(HeldAmounts(st.candidates[c]), cfg.maxTop)
      && (st.candidates[c].status.Active? <==> c in st.pool)
      && (c in st.pool ==> st.pool[c] == st.candidates[c].votingPower)
  {
    hide Inv, LedgerOk, Agree, StashOk, Solvent, NominatorsOk, Run, SumOfLargest, HeldAmounts;
    GenesisValid(cfg, free);
    RunKeeps(cfg, Genesis(free), calls);
    VotingPowerIs(cfg, Run(cfg, Genesis(free), calls).candidates[c]);
  }

  /** Two candidates of any two reachable storages with the same self-bond and the same amounts stand
      the same. */
  lemma ReachableStandings(cfg: Config, free: map<Account, nat>, calls: seq<Call>, c: Account,
                           free': map<Account, nat>, calls': seq<Call>, c': Account)
    requires cfg.Valid() && c in Run(cfg, Genesis(free), calls).candidates && c' in Run(cfg, Genesis(free'), calls').candidates
    requires var x, y := Run(cfg, Genesis(free), calls).candidates[c], Run(cfg, Genesis(free'), calls').candidates[c'];
      x.bond == y.bond && HeldAmounts(x) == HeldAmounts(y)
    ensures SameStanding(Run(cfg, Genesis(free), calls).candidates[c], Run(cfg, Genesis(free'), calls').candidates[c'])
  {
    hide Inv, LedgerOk, Agree, StashOk, Solvent, NominatorsOk, PoolOk, Run, HeldAmounts, Amounts;
    GenesisValid(cfg, free);
    GenesisValid(cfg, free');
    RunKeeps(cfg, Genesis(free), calls);
    RunKeeps(cfg, Genesis(free'), calls');
    HistoryIndependent(cfg, Run(cfg, Genesis(free), calls).candidates[c], Run(cfg, Genesis(free'), calls').candidates[c']);
  }
}
