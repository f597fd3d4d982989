/** Cancelling: it undoes the schedule, it closes what it cancels, and nothing cancelled is executed unless it
    is scheduled anew. */
module Cancels {
  import opened Wrappers
  import opened Bonds
  import opened Candidates
  import opened Nominators
  import opened Staking
  import opened StakingLaws
  import opened Runs
  import opened Timelock
  import opened Reference
  import opened Refinement

  // ----- a schedule and its cancelling

  lemma PutTwice(st: Storage, n: Account, s: Nominator)
    requires n in st.nominators
    ensures PutNominator(PutNominator(st, n, s), n, st.nominators[n]) == st
  {
    assert st.nominators[n := s][n := st.nominators[n]] == st.nominators;
  }

  lemma LedgerHolds(cfg: Config, st: Storage, n: Account)
    requires Valid(cfg, st) && n in st.nominators
    ensures LedgerOk(st.nominators[n])
  {
    hide CandidatesOk, Agree, PoolOk, StashOk, Solvent, LedgerOk;
  }

  /** Scheduling a request and cancelling it gives the storage back. */
  lemma RequestUndone(cfg: Config, st: Storage, call: Call)
    requires Valid(cfg, st) && (call.CallScheduleRevoke? || call.CallScheduleDecrease?) && Step(cfg, st, call).Ok?
    ensures Step(cfg, Next(cfg, st, call), CallCancelRequest(call.n, call.c)) == Ok(st)
  {
    hide Valid, LedgerOk, WrapSub, RemoveRequest, Nominate, NominatorBondMore, ExecuteRequest, ScheduleLeaveNominators,
      CancelLeaveNominators, ExecuteLeaveNominators, JoinCandidates, ScheduleLeaveCandidates, CancelLeaveCandidates,
      ExecuteLeaveCandidates, GoOffline, GoOnline, CandidateBondMore, ScheduleCandidateBondLess, ExecuteCandidateBondLess,
      CancelCandidateBondLess, SetValidatorTier, Slash;
    var s := st.nominators[call.n];
    LedgerHolds(cfg, st, call.n);
    ScheduleThenCancel(cfg, s, st.round, call.c, if call.CallScheduleDecrease? then call.less else 0);
    PutTwice(st, call.n, Next(cfg, st, call).nominators[call.n]);
  }

  /** Scheduling a bond-less request and cancelling it gives the storage back. */
  lemma BondLessUndone(cfg: Config, st: Storage, c: Account, less: nat)
    requires Step(cfg, st, CallScheduleBondLess(c, less)).Ok?
    ensures Step(cfg, Next(cfg, st, CallScheduleBondLess(c, less)), CallCancelBondLess(c)) == Ok(st)
  {
    hide MinSelfBond, Nominate, NominatorBondMore, ScheduleNominatorRequest, ExecuteRequest, CancelNominationRequest,
      ScheduleLeaveNominators, CancelLeaveNominators, ExecuteLeaveNominators, JoinCandidates, ScheduleLeaveCandidates,
      CancelLeaveCandidates, ExecuteLeaveCandidates, GoOffline, GoOnline, CandidateBondMore, ExecuteCandidateBondLess,
      SetValidatorTier, Slash;
    var st' := Step(cfg, st, CallScheduleBondLess(c, less)).value;
    assert st'.candidates[c := st'.candidates[c].(request := None)] == st.candidates;
  }

  /** Scheduling a nominator's leaving and cancelling it gives the storage back. */
  lemma ExitUndone(cfg: Config, st: Storage, n: Account)
    requires Step(cfg, st, CallScheduleLeaveNominators(n)).Ok?
    ensures Step(cfg, Next(cfg, st, CallScheduleLeaveNominators(n)), CallCancelLeaveNominators(n)) == Ok(st)
  {
    hide Nominate, NominatorBondMore, ScheduleNominatorRequest, ExecuteRequest, CancelNominationRequest,
      ExecuteLeaveNominators, JoinCandidates, ScheduleLeaveCandidates, CancelLeaveCandidates, ExecuteLeaveCandidates,
      GoOffline, GoOnline, CandidateBondMore, ScheduleCandidateBondLess, ExecuteCandidateBondLess, CancelCandidateBondLess,
      SetValidatorTier, Slash;
    PutTwice(st, n, Step(cfg, st, CallScheduleLeaveNominators(n)).value.nominators[n]);
  }

  /** Scheduling a candidate's leaving and cancelling it gives the storage back; the cancelling is accepted
      with a sufficient hint, since the schedule made room for it. */
  lemma LeavingUndone(cfg: Config, st: Storage, c: Account, hint: nat, hint': nat)
    requires Valid(cfg, st) && |st.pool| <= cfg.maxCandidates && Step(cfg, st, CallScheduleLeaveCandidates(c, hint)).Ok?
    requires hint' + 1 >= |st.pool|
    ensures Step(cfg, Next(cfg, st, CallScheduleLeaveCandidates(c, hint)), CallCancelLeaveCandidates(c, hint')) == Ok(st)
  {
    hide Valid, ScheduleLeaveCandidates, CancelLeaveCandidates, PoolOk, Nominate, NominatorBondMore, ScheduleNominatorRequest,
      ExecuteRequest, CancelNominationRequest, ScheduleLeaveNominators, CancelLeaveNominators, ExecuteLeaveNominators,
      JoinCandidates, ExecuteLeaveCandidates, GoOffline, GoOnline, CandidateBondMore, ScheduleCandidateBondLess,
      ExecuteCandidateBondLess, CancelCandidateBondLess, SetValidatorTier, Slash;
    NominatorsOf(cfg, st);
    LeavingPool(cfg, st, c, hint);
    PutBack(cfg, st, c, st.round + cfg.leaveCandidatesDelay, hint');
  }

  /** The storage after the schedule. */
  lemma LeavingPool(cfg: Config, st: Storage, c: Account, hint: nat)
    requires PoolOk(st) && ScheduleLeaveCandidates(cfg, st, c, hint).Ok?
    ensures c in st.candidates && c in st.pool && st.candidates[c].status.Active? && st.pool[c] == st.candidates[c].votingPower
    ensures ScheduleLeaveCandidates(cfg, st, c, hint).value == Parted(st, c, st.round + cfg.leaveCandidatesDelay)
  {
  }

  function Parted(st: Storage, c: Account, when: nat): Storage
    requires c in st.candidates
  {
    st.(candidates := st.candidates[c := st.candidates[c].(status := Leaving(when))], pool := st.pool - {c})
  }

  lemma PutBack(cfg: Config, st: Storage, c: Account, when: nat, hint: nat)
    requires c in st.candidates && c in st.pool && st.candidates[c].status.Active? && st.pool[c] == st.candidates[c].votingPower
    requires |st.pool| <= cfg.maxCandidates && hint + 1 >= |st.pool|
    ensures CancelLeaveCandidates(cfg, Parted(st, c, when), c, hint) == Ok(st)
  {
    var st' := Parted(st, c, when);
    assert st.pool.Keys == st'.pool.Keys + {c};
    assert st'.pool[c := st.candidates[c].votingPower] == st.pool;
    assert st'.candidates[c := st'.candidates[c].(status := Active)] == st.candidates;
  }

  // ----- what is cancelled is closed

  /** The call that cancels `t`, accepted while `t` is open. */
  ghost predicate Cancels(cfg: Config, st: Storage, call: Call, t: Ticket) {
    && Step(cfg, st, call).Ok? && Open(st, t)
    && match t
       case Nomination(n, c, _) => call == CallCancelRequest(n, c)
       case SelfBond(c, _) => call == CallCancelBondLess(c)
       case CandidateExit(c, _) => call.CallCancelLeaveCandidates? && call.c == c
       case NominatorExit(n, _) => call == CallCancelLeaveNominators(n)
  }

  lemma CancelCloses(cfg: Config, st: Storage, call: Call, t: Ticket)
    requires cfg.Valid() && Valid(cfg, st) && Cancels(cfg, st, call, t)
    ensures !Open(Next(cfg, st, call), t)
  {
    hide Valid, Step, Next, RecordAfter, Records, Slashed;
    var st' := Next(cfg, st, call);
    CallEffect(cfg, st, call);
    match t
    case Nomination(n, c, _) => assert RequestOf(st', n, c) == RequestAfter(cfg, st, call, n, c);
    case SelfBond(c, _) => assert SelfOf(st', c) == SelfAfter(cfg, st, call, c);
    case CandidateExit(c, _) => assert SelfOf(st', c) == SelfAfter(cfg, st, call, c);
    case NominatorExit(n, _) => assert n in st'.nominators ==> ExitOf(st', n) == ExitAfter(cfg, st, call, n);
  }

  lemma CancelSchedulesNothing(cfg: Config, st: Storage, call: Call, t: Ticket)
    requires Cancels(cfg, st, call, t)
    ensures !Schedules(cfg, st, call, t)
  {
    hide Step;
  }

  /** Over whole runs: whatever is executed after it was cancelled was scheduled again in between, by an
      accepted call at least its delay of rounds before the execution. */
  lemma NothingCancelledExecutes(cfg: Config, free: map<Account, nat>, calls: seq<Call>, i: nat, i': nat, t: Ticket) returns (j: nat)
    requires cfg.Valid() && i < i' < |calls|
    requires Cancels(cfg, At(cfg, Genesis(free), calls, i), calls[i], t)
    requires Executes(cfg, At(cfg, Genesis(free), calls, i'), calls[i'], t)
    ensures i < j < i' && OpenSince(cfg, Genesis(free), calls, j, i', t)
    ensures At(cfg, Genesis(free), calls, j).round + Delay(cfg, t) <= At(cfg, Genesis(free), calls, i').round
  {
    hide Executes, Cancels, Schedules, Open, Next, Run, Valid, Exact;
    var st := Genesis(free);
    GenesisValid(cfg, free);
    RunKeeps(cfg, st, calls[..i]);
    j := TimelockHolds(cfg, free, calls, i', t);
    CancelCloses(cfg, At(cfg, st, calls, i), calls[i], t);
    CancelSchedulesNothing(cfg, At(cfg, st, calls, i), calls[i], t);
    AtNext(cfg, st, calls, i);
    assert !Open(At(cfg, st, calls, i + 1), t);
  }
}
