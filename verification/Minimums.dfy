/** Minimum stakes over whole runs: what every nomination and every pending decrease leave, and exactly
    when the plain subtractions of the stake checks wrap. */
module Minimums {
  import opened Bonds
  import opened Candidates
  import opened CandidateLaws
  import opened Nominators
  import opened MapSums
  import opened Staking
  import opened StakingLaws
  import opened Runs
  import opened Timelock

  /** The least amount a nomination is made for. */
  function LeastNomination(cfg: Config): nat {
    if cfg.minNomination <= cfg.minNominatorStk then cfg.minNomination else cfg.minNominatorStk
  }

  /** Every nomination has at least the least amount, and every pending decrease leaves the minimum. */
  ghost predicate Enough(cfg: Config, s: Nominator) {
    && (forall c :: c in s.nominations ==> s.nominations[c] >= LeastNomination(cfg))
    && (forall c :: c in s.requests && c in s.nominations && s.requests[c].action.Decrease? ==>
         s.nominations[c] >= s.requests[c].amount + cfg.minNomination)
  }

  ghost predicate AllEnough(cfg: Config, st: Storage) {
    forall n :: n in st.nominators ==> Enough(cfg, st.nominators[n])
  }

  // ----- one step

  lemma ThinsEnough(cfg: Config, st: Storage, st': Storage)
    requires AllEnough(cfg, st) && Thins(st, st')
    ensures AllEnough(cfg, st')
  {
  }

  lemma NominateEnough(cfg: Config, st: Storage, n: Account, c: Account, amount: nat, h: nat, hint: nat)
    requires cfg.Valid() && Valid(cfg, st) && AllEnough(cfg, st) && Nominate(cfg, st, n, c, amount, h, hint).Ok?
    ensures AllEnough(cfg, Nominate(cfg, st, n, c, amount, h, hint).value)
  {
    hide Valid, Nominate, AddNomination, Kick, PutNominated, Thins, Enough, NominatorFor;
    NominateForm(cfg, st, n, c, amount, h, hint);
    var r := AddNomination(cfg, st.candidates[c], Bond(n, amount)).value;
    var mid := PutNominated(st, c, r.candidate);
    PutKeeps(st, c, r.candidate);
    KickThins(mid, c, r.kicked);
    ThinsEnough(cfg, mid, Kick(mid, c, r.kicked).value);
    NewEntryEnough(cfg, st, n, c, amount, hint);
  }

  lemma NewEntryEnough(cfg: Config, st: Storage, n: Account, c: Account, amount: nat, hint: nat)
    requires Valid(cfg, st) && AllEnough(cfg, st) && NominatorFor(cfg, st, n, c, amount, hint).Ok?
    ensures Enough(cfg, NominatorFor(cfg, st, n, c, amount, hint).value)
  {
    hide CandidatesOk, Agree, PoolOk, StashOk, Solvent, SumBy;
  }

  lemma BondMoreEnough(cfg: Config, st: Storage, n: Account, c: Account, more: nat)
    requires AllEnough(cfg, st) && NominatorBondMore(cfg, st, n, c, more).Ok?
    ensures AllEnough(cfg, NominatorBondMore(cfg, st, n, c, more).value)
  {
    hide NominatorBondMore, Increase;
    BondMoreForm(cfg, st, n, c, more);
  }

  lemma ExecuteEnough(cfg: Config, st: Storage, n: Account, c: Account)
    requires AllEnough(cfg, st) && ExecuteRequest(cfg, st, n, c).Ok?
    ensures AllEnough(cfg, ExecuteRequest(cfg, st, n, c).value)
  {
    hide NominatorLeavesCandidate, ExecuteDecrease, Candidates.Decrease, Unreserve, PutNominated;
    if st.nominators[n].requests[c].action.Revoke? {
      LeavesKeeps(cfg, st, c, n, st.nominators[n].requests[c].amount);
    } else {
      DecreaseForm(cfg, st, n, c);
    }
  }

  lemma RequestsEnough(cfg: Config, st: Storage, call: Call)
    requires Valid(cfg, st) && AllEnough(cfg, st) && Step(cfg, st, call).Ok?
    requires call.CallScheduleRevoke? || call.CallScheduleDecrease? || call.CallCancelRequest?
      || call.CallScheduleLeaveNominators? || call.CallCancelLeaveNominators?
    ensures AllEnough(cfg, Step(cfg, st, call).value)
  {
    hide Valid, WrapSub, Nominate, NominatorBondMore, ExecuteRequest, ExecuteLeaveNominators, JoinCandidates, ExecuteLeaveCandidates,
      CandidateBondMore, ExecuteCandidateBondLess, SetValidatorTier, Slash, ScheduleLeaveCandidates, CancelLeaveCandidates,
      GoOffline, GoOnline, ScheduleCandidateBondLess, CancelCandidateBondLess;
  }

  /** Every call keeps the minimum of every nomination and of every pending decrease. */
  lemma EnoughStep(cfg: Config, st: Storage, call: Call)
    requires cfg.Valid() && Valid(cfg, st) && AllEnough(cfg, st)
    ensures AllEnough(cfg, Next(cfg, st, call))
  {
    hide Valid, Thins, OnlyCloses, Enough, Nominate, NominatorBondMore, ExecuteRequest, ExecuteLeaveNominators, JoinCandidates,
      ExecuteLeaveCandidates, CandidateBondMore, ExecuteCandidateBondLess, SetValidatorTier, Slash, ScheduleLeaveCandidates,
      CancelLeaveCandidates, GoOffline, GoOnline, ScheduleCandidateBondLess, CancelCandidateBondLess, ScheduleNominatorRequest,
      CancelNominationRequest, ScheduleLeaveNominators, CancelLeaveNominators;
    if Step(cfg, st, call).Ok? {
      match call
      case CallNominate(n, c, amount, h, hint) => NominateEnough(cfg, st, n, c, amount, h, hint);
      case CallNominatorBondMore(n, c, more) => BondMoreEnough(cfg, st, n, c, more);
      case CallExecuteRequest(n, c) => ExecuteEnough(cfg, st, n, c);
      case CallExecuteLeaveNominators(n, hint) => ExitTickets(cfg, st, n, hint);
      case CallExecuteLeaveCandidates(stash, hint) =>
        LeaveTickets(st, stash, hint);
        ThinsEnough(cfg, st, Next(cfg, st, call));
      case CallScheduleRevoke(_, _) => RequestsEnough(cfg, st, call);
      case CallScheduleDecrease(_, _, _) => RequestsEnough(cfg, st, call);
      case CallCancelRequest(_, _) => RequestsEnough(cfg, st, call);
      case CallScheduleLeaveNominators(_) => RequestsEnough(cfg, st, call);
      case CallCancelLeaveNominators(_) => RequestsEnough(cfg, st, call);
      case _ => QuietCalls(cfg, st, call);
    }
  }

  /** In every run from an empty storage, every nomination keeps the least amount and every pending
      decrease leaves the minimum nomination. */
  lemma {:induction false} EnoughRun(cfg: Config, st: Storage, calls: seq<Call>)
    requires cfg.Valid() && Valid(cfg, st) && AllEnough(cfg, st)
    ensures AllEnough(cfg, Run(cfg, st, calls)) && Valid(cfg, Run(cfg, st, calls))
    decreases calls
  {
    hide Valid, Moves, Next, AllEnough;
    if calls != [] {
      StepKeeps(cfg, st, calls[0]);
      EnoughStep(cfg, st, calls[0]);
      EnoughRun(cfg, Next(cfg, st, calls[0]), calls[1..]);
    }
  }

  lemma ReachableEnough(cfg: Config, free: map<Account, nat>, calls: seq<Call>)
    requires cfg.Valid()
    ensures AllEnough(cfg, Run(cfg, Genesis(free), calls)) && Valid(cfg, Run(cfg, Genesis(free), calls))
  {
    hide Valid, Run, Exact;
    GenesisValid(cfg, free);
    EnoughRun(cfg, Genesis(free), calls);
  }

  // ----- the checks of the minimum stake

  /** Two nominations are worth more than either and the least amount. */
  lemma OthersAtLeast(cfg: Config, s: Nominator, c: Account)
    requires LedgerOk(s) && Enough(cfg, s) && c in s.nominations && |s.nominations| != 1
    ensures s.total >= s.nominations[c] + LeastNomination(cfg)
  {
    EntryWithinTotal(s, c);
    var d :| d in s.nominations - {c};
    SumByTake(s.nominations, Itself, c);
    SumByTake(s.nominations - {c}, Itself, d);
  }

  /** If a nomination must be at least the minimum stake, then in every reachable storage every nominator
      has the minimum stake, a decrease is accepted exactly when the check is right to accept it, and a
      revocation never falls short: neither subtraction wraps in a call that could be accepted. */
  lemma NeitherWraps(cfg: Config, free: map<Account, nat>, calls: seq<Call>, n: Account, c: Account, less: nat)
    requires cfg.Valid() && cfg.minNomination >= cfg.minNominatorStk
    requires var st := Run(cfg, Genesis(free), calls); n in st.nominators && c in st.nominators[n].nominations
    ensures var st := Run(cfg, Genesis(free), calls); var s := st.nominators[n];
      && s.total >= cfg.minNominatorStk
      && (c !in s.requests ==> s.total - s.lessTotal >= cfg.minNominatorStk)
      && (|s.nominations| != 1 && c in s.requests ==> s.total - s.requests[c].amount >= cfg.minNominatorStk)
      && (ScheduleDecrease(cfg, s, st.round, c, less).Ok? <==>
            && c !in s.requests && less < s.nominations[c] && s.nominations[c] - less >= cfg.minNomination
            && s.total - s.lessTotal - less >= cfg.minNominatorStk)
  {
    hide Run, Valid, AllEnough;
    ReachableEnough(cfg, free, calls);
    NominatorReached(cfg, Run(cfg, Genesis(free), calls), n);
    FloorsHold(cfg, Run(cfg, Genesis(free), calls).nominators[n], Run(cfg, Genesis(free), calls).round, c, less);
  }

  lemma NominatorReached(cfg: Config, st: Storage, n: Account)
    requires Valid(cfg, st) && AllEnough(cfg, st) && n in st.nominators
    ensures LedgerOk(st.nominators[n]) && Enough(cfg, st.nominators[n])
  {
    hide CandidatesOk, Agree, PoolOk, StashOk, Solvent, LedgerOk, Enough;
  }

  lemma FloorsHold(cfg: Config, s: Nominator, round: nat, c: Account, less: nat)
    requires LedgerOk(s) && Enough(cfg, s) && c in s.nominations && cfg.minNomination >= cfg.minNominatorStk
    ensures s.total >= cfg.minNominatorStk
    ensures c !in s.requests ==> s.total - s.lessTotal >= cfg.minNominatorStk
    ensures |s.nominations| != 1 && c in s.requests ==> s.total - s.requests[c].amount >= cfg.minNominatorStk
    ensures ScheduleDecrease(cfg, s, round, c, less).Ok? <==>
      && c !in s.requests && less < s.nominations[c] && s.nominations[c] - less >= cfg.minNomination
      && s.total - s.lessTotal - less >= cfg.minNominatorStk
  {
    EntryWithinTotal(s, c);
    PendingWithinTotal(s);
    if c !in s.requests {
      NetCovers(s, c);
    }
    if |s.nominations| != 1 {
      OthersAtLeast(cfg, s, c);
    }
  }

  /** The nomination was increased after its revocation was scheduled, it is in a full top list, and the
      amount of the revocation is below all of that list. */
  ghost predicate Overtaken(st: Storage, n: Account, c: Account)
    requires n in st.nominators && c in st.nominators[n].requests && Records(st, n, c).Some? && c in st.candidates
  {
    var cand := st.candidates[c];
    && cand.topCapacity.Full? && st.nominators[n].requests[c].amount < cand.lowestTop
    && Bond(n, Records(st, n, c).value) in cand.top.nominations
  }

  /** When a due revocation is accepted: the last nomination of a nominator always may go; otherwise the
      rest must reach the minimum stake, or the total must already be below it, for then the subtraction
      wraps; and the removal must find the nomination. */
  lemma RevokeAcceptedIff(cfg: Config, st: Storage, n: Account, c: Account)
    requires cfg.Valid() && Valid(cfg, st) && cfg.minNominatorStk < BALANCES
    requires n in st.nominators && c in st.nominators[n].requests && st.nominators[n].requests[c].action.Revoke?
    ensures Records(st, n, c).Some? && c in st.candidates
    ensures var s := st.nominators[n];
      ExecuteRevoke(cfg, st, n, c).Ok? <==>
        && (|s.nominations| == 1 || s.total - s.requests[c].amount >= cfg.minNominatorStk || s.total < cfg.minNominatorStk)
        && !Overtaken(st, n, c)
  {
    hide Inv, LedgerOk, Agree, PoolOk, StashOk, Solvent, RmIfExists, All, RmEntry, Unreserve, PutNominated, WrapSub;
    var s := st.nominators[n];
    RevokedOk(s, c);
    Listed(st, n, c);
    RmWithStaleAmount(cfg, st.candidates[c], n, s.nominations[c], s.requests[c].amount);
    WrapIs(s.total, cfg.minNominatorStk);
  }

  /** If a nomination must be at least the minimum stake, a revocation that is due in a reachable storage
      is refused only because the removal looks in the wrong list. */
  lemma RevokeNeverShort(cfg: Config, free: map<Account, nat>, calls: seq<Call>, n: Account, c: Account)
    requires cfg.Valid() && cfg.minNominatorStk < BALANCES && cfg.minNomination >= cfg.minNominatorStk
    requires var st := Run(cfg, Genesis(free), calls);
      n in st.nominators && c in st.nominators[n].requests && st.nominators[n].requests[c].action.Revoke?
    ensures var st := Run(cfg, Genesis(free), calls);
      && Records(st, n, c).Some? && c in st.candidates
      && (ExecuteRevoke(cfg, st, n, c).Ok? <==> !Overtaken(st, n, c))
  {
    hide Run, Valid, AllEnough, ExecuteRevoke, Overtaken;
    var st := Run(cfg, Genesis(free), calls);
    ReachableEnough(cfg, free, calls);
    RevokeAcceptedIff(cfg, st, n, c);
    NeitherWraps(cfg, free, calls, n, c, 0);
  }
}
