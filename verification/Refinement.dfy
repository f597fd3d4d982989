/** The pallet keeps the promises of `Reference`: every call is refused exactly for the reasons stated there,
    and an accepted call leaves exactly what is stated there. */
module Refinement {
  import opened Wrappers
  import opened Bonds
  import opened Candidates
  import opened CandidateLaws
  import opened Nominators
  import opened MapSums
  import opened Staking
  import opened StakingLaws
  import opened Runs
  import opened Timelock
  import opened Reference
  import opened CandidateHistory

  /** The call is refused with exactly this error, or accepted. */
  ghost predicate Verdict(r: Result<Storage>, e: Option<Error>) {
    match e case None => r.Ok? case Some(error) => r == Err(error)
  }

  // ----- refusals: nominators

  /** What holds of a candidate's lists and caches. */
  lemma CandidateFacts(cfg: Config, st: Storage, c: Account)
    requires Valid(cfg, st) && c in st.candidates
    ensures var cand := st.candidates[c];
      && Inv(cfg, cand) && RequestOk(cand)
      && cand.count == |cand.top.nominations| + |cand.bottom.nominations|
      && |cand.top.nominations| <= cfg.maxTop && |cand.bottom.nominations| <= cfg.maxBottom
      && cand.lowestTop == Lowest(cand.top) && cand.lowestBottom == Lowest(cand.bottom)
      && (cand.topCapacity.Full? <==> |cand.top.nominations| >= cfg.maxTop)
  {
    hide Sum, OneEach, Above, Sorted, NominatorsOk, Agree, PoolOk, StashOk, Solvent;
  }

  lemma KickFree(st: Storage, c: Account, kicked: Option<Bond>, a: Account)
    requires Kick(st, c, kicked).Ok?
    ensures Get(Kick(st, c, kicked).value.free, a) >= Get(st.free, a)
  {
    hide RemoveRequest, RmEntry;
  }

  lemma NominatorForVerdict(cfg: Config, st: Storage, n: Account, c: Account, amount: nat, h: nat, hint: nat)
    requires Get(st.free, n) >= amount
    ensures match NominatorFor(cfg, st, n, c, amount, hint)
      case Err(e) => NominateRefusal(cfg, st, n, c, amount, h, hint) == Some(e)
      case Ok(_) =>
        var e :=
          if c !in st.candidates then Some(CandidateDNE)
          else if h < |st.candidates[c].top.nominations| + |st.candidates[c].bottom.nominations| then Some(TooLowCandidateNominationCount)
          else if Outbid(cfg, st.candidates[c], amount) then Some(CannotNominateLessThanLowestBottomWhenBottomIsFull)
          else None;
        NominateRefusal(cfg, st, n, c, amount, h, hint) == e
  {
    hide Outbid, Get;
  }

  /** Past its checks, a nomination fails only if it is outbid. */
  lemma AddVerdict(cfg: Config, st: Storage, n: Account, c: Account, amount: nat)
    requires cfg.Valid() && Valid(cfg, st) && c in st.candidates && Records(st, n, c) == None
    ensures var r := AddNomination(cfg, st.candidates[c], Bond(n, amount));
      if Outbid(cfg, st.candidates[c], amount) then r == Err(CannotNominateLessThanLowestBottomWhenBottomIsFull)
      else r.Ok? && Kick(PutNominated(st, c, r.value.candidate), c, r.value.kicked).Ok?
  {
    hide Inv, LedgerOk, SumBy, AddNomination, AddEffect, Kick, Evicted, ListSide, All, PutNominated;
    CandidateFacts(cfg, st, c);
    NotListed(cfg, st, n, c);
    AddKeeps(cfg, st.candidates[c], Bond(n, amount));
    var r := AddNomination(cfg, st.candidates[c], Bond(n, amount));
    if r.Ok? {
      if r.value.kicked.Some? {
        KickedIsListed(cfg, st, c, Bond(n, amount), r.value);
      }
      KickAccepted(st, c, r.value.candidate, r.value.kicked);
    }
  }

  lemma KickAccepted(st: Storage, c: Account, cand: Candidate, kicked: Option<Bond>)
    requires c in st.candidates && (kicked.Some? ==> kicked.value.owner in st.nominators)
    ensures Kick(PutNominated(st, c, cand), c, kicked).Ok?
  {
    hide Unreserve, RemoveRequest, RmEntry;
  }

  lemma NominateVerdict(cfg: Config, st: Storage, n: Account, c: Account, amount: nat, h: nat, hint: nat)
    requires cfg.Valid() && Valid(cfg, st)
    ensures Verdict(Nominate(cfg, st, n, c, amount, h, hint), NominateRefusal(cfg, st, n, c, amount, h, hint))
  {
    hide Valid, NominatorFor, AddNomination, Kick, Outbid, Inv, NominateRefusal;
    if Get(st.free, n) < amount {
      Unaffordable(cfg, st, n, c, amount, h, hint);
    } else {
      NominatorForVerdict(cfg, st, n, c, amount, h, hint);
      if NominatorFor(cfg, st, n, c, amount, hint).Ok? && c in st.candidates {
        NominatorsOf(cfg, st);
        NominatorForOk(cfg, st, n, c, amount, hint);
        CandidateFacts(cfg, st, c);
        AddVerdict(cfg, st, n, c, amount);
        var r := AddNomination(cfg, st.candidates[c], Bond(n, amount));
        if r.Ok? && Kick(PutNominated(st, c, r.value.candidate), c, r.value.kicked).Ok? {
          KickFree(PutNominated(st, c, r.value.candidate), c, r.value.kicked, n);
        }
      }
    }
  }

  lemma Unaffordable(cfg: Config, st: Storage, n: Account, c: Account, amount: nat, h: nat, hint: nat)
    requires Get(st.free, n) < amount
    ensures NominateRefusal(cfg, st, n, c, amount, h, hint) == Some(InsufficientBalance)
  {
    hide Outbid;
  }

  lemma NominatorsOf(cfg: Config, st: Storage)
    requires Valid(cfg, st)
    ensures NominatorsOk(st) && Agree(st) && PoolOk(st) && StashOk(st)
  {
    hide CandidatesOk, NominatorsOk, Agree, PoolOk, StashOk, Solvent;
  }

  lemma BondMoreVerdict(cfg: Config, st: Storage, n: Account, c: Account, more: nat)
    requires cfg.Valid() && Valid(cfg, st)
    ensures Verdict(NominatorBondMore(cfg, st, n, c, more), BondMoreRefusal(st, n, c, more))
  {
    hide Inv, LedgerOk, Agree, PoolOk, StashOk, Solvent, Increase, Becomes, All;
    if Records(st, n, c).Some? {
      Listed(st, n, c);
      IncreaseRefinesLookup(cfg, st.candidates[c], n, Records(st, n, c).value, more);
    }
  }

  lemma ScheduleVerdict(cfg: Config, st: Storage, n: Account, c: Account, less: nat)
    requires Valid(cfg, st) && cfg.minNominatorStk < BALANCES
    ensures Verdict(ScheduleNominatorRequest(st, n, s => ScheduleRevoke(cfg, s, st.round, c)), ScheduleRefusal(cfg, st, n, c, None))
    ensures Verdict(ScheduleNominatorRequest(st, n, s => ScheduleDecrease(cfg, s, st.round, c, less)), ScheduleRefusal(cfg, st, n, c, Some(less)))
  {
    hide CandidatesOk, LedgerOk, Agree, PoolOk, StashOk, Solvent, WrapSub;
    if n in st.nominators {
      var s := st.nominators[n];
      PendingWithinTotal(s);
      NetIs(s);
      WrapIs(s.total - s.lessTotal, cfg.minNominatorStk);
    }
  }

  lemma NetIs(s: Nominator)
    requires s.lessTotal <= s.total
    ensures WrapSub(s.total, s.lessTotal) == s.total - s.lessTotal
  {
  }

  lemma RevokeVerdict(cfg: Config, st: Storage, n: Account, c: Account)
    requires cfg.Valid() && Valid(cfg, st) && cfg.minNominatorStk < BALANCES
    requires n in st.nominators && c in st.nominators[n].requests && st.nominators[n].requests[c].action.Revoke?
    ensures var s := st.nominators[n]; var amount := s.requests[c].amount;
      Verdict(ExecuteRevoke(cfg, st, n, c),
              if |s.nominations| != 1 && s.total >= cfg.minNominatorStk && s.total - amount < cfg.minNominatorStk
              then Some(NominatorBondBelowMin)
              else if Missed(cfg, st, n, c, amount) then Some(NominationDNE)
              else None)
  {
    hide Inv, LedgerOk, Agree, PoolOk, StashOk, Solvent, RmIfExists, All, RmEntry, Unreserve, PutNominated, WrapSub;
    var s := st.nominators[n];
    RevokedOk(s, c);
    Listed(st, n, c);
    CandidateFacts(cfg, st, c);
    RmWithStaleAmount(cfg, st.candidates[c], n, s.nominations[c], s.requests[c].amount);
    WrapIs(s.total, cfg.minNominatorStk);
  }

  lemma DecreaseVerdict(cfg: Config, st: Storage, n: Account, c: Account)
    requires cfg.Valid() && Valid(cfg, st)
    requires n in st.nominators && c in st.nominators[n].requests && st.nominators[n].requests[c].action.Decrease?
    ensures var s := st.nominators[n]; var amount := s.requests[c].amount;
      Verdict(ExecuteDecrease(cfg, st, n, c),
              if s.total - amount < cfg.minNomination then Some(NominationBelowMin)
              else if s.total - amount < cfg.minNominatorStk then Some(NominatorBondBelowMin)
              else None)
  {
    hide Inv, LedgerOk, Agree, PoolOk, StashOk, Solvent, Candidates.Decrease, All, Unreserve, PutNominated, Becomes;
    var s := st.nominators[n];
    LoweredEntryOk(s, c);
    assert Records(st, n, c) == Some(s.nominations[c]);
    Listed(st, n, c);
    DecreaseRefinesLookup(cfg, st.candidates[c], n, s.nominations[c], s.requests[c].amount);
  }

  lemma ExecuteVerdict(cfg: Config, st: Storage, n: Account, c: Account)
    requires cfg.Valid() && Valid(cfg, st) && cfg.minNominatorStk < BALANCES
    ensures Verdict(ExecuteRequest(cfg, st, n, c), ExecuteRefusal(cfg, st, n, c))
  {
    hide Valid, ExecuteRevoke, ExecuteDecrease, Missed;
    if n in st.nominators && c in st.nominators[n].requests {
      if st.nominators[n].requests[c].action.Revoke? {
        RevokeVerdict(cfg, st, n, c);
      } else {
        DecreaseVerdict(cfg, st, n, c);
      }
    }
  }

  lemma ExitVerdict(cfg: Config, st: Storage, n: Account, hint: nat)
    ensures Verdict(ExecuteLeaveNominators(cfg, st, n, hint), ExitRefusal(st, n, hint))
  {
    hide LeaveEach;
  }

  lemma LeavingVerdict(cfg: Config, st: Storage, n: Account, c: Account)
    ensures Verdict(CancelNominationRequest(st, n, c),
                    if n !in st.nominators then Some(NominatorDNE)
                    else if RequestOf(st, n, c).None? then Some(PendingNominationRequestDNE)
                    else None)
    ensures Verdict(ScheduleLeaveNominators(cfg, st, n),
                    if n !in st.nominators then Some(NominatorDNE)
                    else if st.nominators[n].status.Exiting? then Some(NominatorAlreadyLeaving)
                    else if exists d :: RequestOf(st, n, d).Some? then Some(PendingNominationRequestAlreadyExists)
                    else None)
    ensures Verdict(CancelLeaveNominators(st, n),
                    if n in st.nominators && st.nominators[n].status.Exiting? then None else Some(NominatorDNE))
  {
    hide RemoveRequest;
    if n in st.nominators {
      var s := st.nominators[n];
      if s.requests != map[] {
        var d :| d in s.requests;
        assert RequestOf(st, n, d).Some?;
      } else {
        assert forall d :: RequestOf(st, n, d).None?;
      }
    }
  }

  // ----- refusals: candidates

  lemma JoinVerdict(cfg: Config, st: Storage, stash: Account, c: Account, relayer: Option<bool>, bond: nat, hint: nat)
    requires PoolOk(st)
    ensures Verdict(JoinCandidates(cfg, st, stash, c, relayer, bond, hint), JoinRefusal(cfg, st, stash, c, relayer, bond, hint))
  {
    hide NewCandidate, Get;
  }

  lemma SelfVerdict(cfg: Config, st: Storage, call: Call)
    requires PoolOk(st)
    requires call.CallScheduleLeaveCandidates? || call.CallCancelLeaveCandidates? || call.CallGoOffline? || call.CallGoOnline?
      || call.CallScheduleBondLess? || call.CallCancelBondLess?
    ensures Verdict(Step(cfg, st, call), SelfRefusal(cfg, st, call))
  {
    hide Get, Nominate, NominatorBondMore, ScheduleNominatorRequest, ExecuteRequest, CancelNominationRequest, ScheduleLeaveNominators,
      CancelLeaveNominators, ExecuteLeaveNominators, JoinCandidates, ExecuteLeaveCandidates, CandidateBondMore, ExecuteCandidateBondLess,
      SetValidatorTier, Slash;
    match call
    case CallScheduleLeaveCandidates(_, _) =>
    case CallCancelLeaveCandidates(_, _) =>
    case CallGoOnline(_) =>
    case CallGoOffline(_) =>
    case CallScheduleBondLess(_, _) =>
    case CallCancelBondLess(_) =>
  }

  lemma StashVerdict(cfg: Config, st: Storage, call: Call)
    requires Valid(cfg, st)
    requires call.CallCandidateBondMore? || call.CallExecuteBondLess? || call.CallSetTier?
    ensures Verdict(Step(cfg, st, call), StashRefusal(cfg, st, call))
  {
    hide Valid, Get, Unreserve, UpdateActive, Nominate, NominatorBondMore, ScheduleNominatorRequest, ExecuteRequest,
      CancelNominationRequest, ScheduleLeaveNominators, CancelLeaveNominators, ExecuteLeaveNominators, JoinCandidates,
      ExecuteLeaveCandidates, Slash, ScheduleLeaveCandidates, CancelLeaveCandidates, GoOffline, GoOnline, ScheduleCandidateBondLess,
      CancelCandidateBondLess;
    if call.stash in st.bondedStash {
      StashIs(cfg, st, call.stash);
    }
    match call
    case CallCandidateBondMore(_, _) =>
    case CallExecuteBondLess(_) =>
    case CallSetTier(_, _, _, _) =>
  }

  lemma LeaveVerdict(cfg: Config, st: Storage, stash: Account, hint: nat)
    requires Valid(cfg, st)
    ensures Verdict(ExecuteLeaveCandidates(st, stash, hint), StashRefusal(cfg, st, CallExecuteLeaveCandidates(stash, hint)))
  {
    hide Valid, ReturnStakes, NominatorsOk, AgreeWith, Excess, Unreserve, Inv;
    if stash in st.bondedStash {
      StashIs(cfg, st, stash);
      CandidateFacts(cfg, st, st.bondedStash[stash]);
      LeaveReady(cfg, st, st.bondedStash[stash]);
    }
  }

  lemma OtherVerdict(cfg: Config, st: Storage, call: Call)
    requires call.Offence? || call.Deposit? || call.NewRound?
    ensures Verdict(Step(cfg, st, call), Refusal(cfg, st, call))
  {
    hide Get, SlashBond, Nominate, NominatorBondMore, ScheduleNominatorRequest, ExecuteRequest, CancelNominationRequest,
      ScheduleLeaveNominators, CancelLeaveNominators, ExecuteLeaveNominators, JoinCandidates, ExecuteLeaveCandidates,
      CandidateBondMore, ExecuteCandidateBondLess, SetValidatorTier, ScheduleLeaveCandidates, CancelLeaveCandidates,
      GoOffline, GoOnline, ScheduleCandidateBondLess, CancelCandidateBondLess;
  }

  ghost predicate NominatorCall(call: Call) {
    || call.CallNominate? || call.CallNominatorBondMore? || call.CallScheduleRevoke? || call.CallScheduleDecrease?
    || call.CallExecuteRequest? || call.CallCancelRequest? || call.CallScheduleLeaveNominators? || call.CallCancelLeaveNominators?
    || call.CallExecuteLeaveNominators?
  }

  lemma NominatorVerdict(cfg: Config, st: Storage, call: Call)
    requires cfg.Valid() && Valid(cfg, st) && cfg.minNominatorStk < BALANCES && NominatorCall(call)
    ensures Verdict(Step(cfg, st, call), Refusal(cfg, st, call))
  {
    hide Valid, Verdict, NominateRefusal, BondMoreRefusal, ScheduleRefusal, ExecuteRefusal, ExitRefusal, JoinRefusal,
      SelfRefusal, StashRefusal, Nominate, NominatorBondMore, ScheduleNominatorRequest, ExecuteRequest,
      CancelNominationRequest, ScheduleLeaveNominators, CancelLeaveNominators, ExecuteLeaveNominators, JoinCandidates,
      ScheduleLeaveCandidates, CancelLeaveCandidates, ExecuteLeaveCandidates, GoOffline, GoOnline, CandidateBondMore,
      ScheduleCandidateBondLess, ExecuteCandidateBondLess, CancelCandidateBondLess, SetValidatorTier, Slash;
    match call
    case CallNominate(n, c, amount, h, hint) => NominateVerdict(cfg, st, n, c, amount, h, hint);
    case CallNominatorBondMore(n, c, more) => BondMoreVerdict(cfg, st, n, c, more);
    case CallScheduleRevoke(n, c) => ScheduleVerdict(cfg, st, n, c, 0);
    case CallScheduleDecrease(n, c, less) => ScheduleVerdict(cfg, st, n, c, less);
    case CallExecuteRequest(n, c) => ExecuteVerdict(cfg, st, n, c);
    case CallCancelRequest(n, c) => LeavingVerdict(cfg, st, n, c);
    case CallScheduleLeaveNominators(n) => LeavingVerdict(cfg, st, n, 0);
    case CallCancelLeaveNominators(n) => LeavingVerdict(cfg, st, n, 0);
    case CallExecuteLeaveNominators(n, hint) => ExitVerdict(cfg, st, n, hint);
  }

  lemma CandidateVerdict(cfg: Config, st: Storage, call: Call)
    requires cfg.Valid() && Valid(cfg, st) && !NominatorCall(call)
    ensures Verdict(Step(cfg, st, call), Refusal(cfg, st, call))
  {
    hide Valid, Verdict, NominateRefusal, BondMoreRefusal, ScheduleRefusal, ExecuteRefusal, ExitRefusal, JoinRefusal,
      SelfRefusal, StashRefusal, Nominate, NominatorBondMore, ScheduleNominatorRequest, ExecuteRequest,
      CancelNominationRequest, ScheduleLeaveNominators, CancelLeaveNominators, ExecuteLeaveNominators, JoinCandidates,
      ScheduleLeaveCandidates, CancelLeaveCandidates, ExecuteLeaveCandidates, GoOffline, GoOnline, CandidateBondMore,
      ScheduleCandidateBondLess, ExecuteCandidateBondLess, CancelCandidateBondLess, SetValidatorTier, Slash;
    NominatorsOf(cfg, st);
    match call
    case CallJoin(stash, c, relayer, bond, hint) => JoinVerdict(cfg, st, stash, c, relayer, bond, hint);
    case CallExecuteLeaveCandidates(stash, hint) => LeaveVerdict(cfg, st, stash, hint);
    case CallCandidateBondMore(_, _) => StashVerdict(cfg, st, call);
    case CallExecuteBondLess(_) => StashVerdict(cfg, st, call);
    case CallSetTier(_, _, _, _) => StashVerdict(cfg, st, call);
    case Offence(_, _) => OtherVerdict(cfg, st, call);
    case Deposit(_, _) => OtherVerdict(cfg, st, call);
    case NewRound => OtherVerdict(cfg, st, call);
    case _ => SelfVerdict(cfg, st, call);
  }

  /** In every storage that satisfies the invariant, every call is refused with exactly the error that the
      reference states, and accepted if it states none. */
  lemma CallVerdict(cfg: Config, st: Storage, call: Call)
    requires cfg.Valid() && Valid(cfg, st) && cfg.minNominatorStk < BALANCES
    ensures Verdict(Step(cfg, st, call), Refusal(cfg, st, call))
  {
    hide Valid, Verdict, Refusal, Step, NominatorCall;
    if NominatorCall(call) {
      NominatorVerdict(cfg, st, call);
    } else {
      CandidateVerdict(cfg, st, call);
    }
  }

  // ----- the nominators after a call

  /** The three ledgers of the nominators are as promised. */
  ghost predicate LedgersPromised(cfg: Config, st: Storage, call: Call, st': Storage) {
    && (forall n, c :: Records(st', n, c) == RecordAfter(cfg, st, call, n, c))
    && (forall n, c :: RequestOf(st', n, c) == RequestAfter(cfg, st, call, n, c))
    && (forall n :: n in st'.nominators ==> ExitOf(st', n) == ExitAfter(cfg, st, call, n))
  }

  /** The ledger of one nominator: nothing if it is gone, otherwise `s`. */
  ghost predicate LedgerIs(st: Storage, n: Account, s: Option<Nominator>) {
    match s case None => n !in st.nominators case Some(l) => n in st.nominators && st.nominators[n] == l
  }

  ghost function LedgerOf(st: Storage, n: Account): Option<Nominator> {
    if n in st.nominators then Some(st.nominators[n]) else None
  }

  /** What an evicted entry leaves of a ledger. */
  ghost function Remnant(s: Nominator, c: Account): Option<Nominator> {
    if |s.nominations| == 1 then None else Some(RemoveRequest(RmEntry(s, c), c))
  }

  lemma KickLedgers(st: Storage, c: Account, kicked: Option<Bond>, n: Account)
    requires Kick(st, c, kicked).Ok?
    ensures kicked.Some? ==> kicked.value.owner in st.nominators
    ensures LedgerIs(Kick(st, c, kicked).value, n,
                     if kicked.Some? && n == kicked.value.owner then Remnant(st.nominators[n], c) else LedgerOf(st, n))
  {
    hide Unreserve, RemoveRequest, RmEntry;
    if kicked.Some? {
      UnreserveKeeps(st, kicked.value.owner, kicked.value.amount);
    }
  }

  /** Who an accepted nomination evicts. */
  lemma NominateEvicts(cfg: Config, st: Storage, n: Account, c: Account, amount: nat, h: nat, hint: nat)
    requires cfg.Valid() && Valid(cfg, st) && Nominate(cfg, st, n, c, amount, h, hint).Ok?
    ensures c in st.candidates && AddNomination(cfg, st.candidates[c], Bond(n, amount)).Ok? && Records(st, n, c) == None
    ensures NominatorFor(cfg, st, n, c, amount, hint).Ok?
    ensures var k := AddNomination(cfg, st.candidates[c], Bond(n, amount)).value.kicked;
      && (k.Some? ==> k.value.owner != n && Records(st, k.value.owner, c) == Some(k.value.amount))
      && forall o :: Evicts(cfg, st, c, o) <==> k.Some? && k.value.owner == o
  {
    hide Inv, LedgerOk, NominatorsOk, Agree, PoolOk, StashOk, Solvent, SumBy, AddNomination, ListSide, Nominate, Kick,
      NominatorFor, Becomes, All, Evicted;
    NominateForm(cfg, st, n, c, amount, h, hint);
    NominatorForOk(cfg, st, n, c, amount, hint);
    NotListed(cfg, st, n, c);
    AddKeeps(cfg, st.candidates[c], Bond(n, amount));
    var r := AddNomination(cfg, st.candidates[c], Bond(n, amount)).value;
    if r.kicked.Some? {
      KickedIsListed(cfg, st, c, Bond(n, amount), r);
    } else {
      NoneEvicted(cfg, st, c);
    }
  }

  lemma NoneEvicted(cfg: Config, st: Storage, c: Account)
    requires c in st.candidates && !BothFull(cfg, st.candidates[c])
    ensures forall o :: !Evicts(cfg, st, c, o)
  {
  }

  lemma OnlyEntry(s: Nominator, c: Account)
    requires LedgerOk(s) && c in s.nominations && |s.nominations| == 1
    ensures s.nominations.Keys == {c} && s.requests.Keys <= {c}
  {
    hide SumBy;
    assert s.nominations.Keys == {c} + (s.nominations.Keys - {c});
    assert |s.nominations.Keys - {c}| == 0;
  }

  lemma DroppedEntry(s: Nominator, c: Account)
    requires c in s.nominations
    ensures var s' := RemoveRequest(RmEntry(s, c), c);
      s'.nominations == s.nominations - {c} && s'.requests == s.requests - {c} && s'.status == s.status
  {
    assert c !in s.requests ==> s.requests - {c} == s.requests;
  }

  /** An evicted entry and its request are gone, and everything else of that nominator stays. */
  lemma RemnantObserved(s: Nominator, c: Account)
    requires LedgerOk(s) && c in s.nominations
    ensures Remnant(s, c).None? ==> s.nominations.Keys == {c} && s.requests.Keys <= {c}
    ensures Remnant(s, c).Some? ==>
      var s' := Remnant(s, c).value;
      s'.nominations == s.nominations - {c} && s'.requests == s.requests - {c} && s'.status == s.status
  {
    hide LedgerOk, RemoveRequest, RmEntry;
    DroppedEntry(s, c);
    if |s.nominations| == 1 {
      OnlyEntry(s, c);
    }
  }

  lemma NominateLedgers(cfg: Config, st: Storage, n: Account, c: Account, amount: nat, h: nat, hint: nat)
    requires cfg.Valid() && Valid(cfg, st) && Nominate(cfg, st, n, c, amount, h, hint).Ok?
    ensures LedgersPromised(cfg, st, CallNominate(n, c, amount, h, hint), Nominate(cfg, st, n, c, amount, h, hint).value)
  {
    hide Valid, Nominate, AddNomination, Kick, NominatorFor, Records, RequestOf, ExitOf, Evicts, RecordAfter, RequestAfter, ExitAfter;
    NominateEvicts(cfg, st, n, c, amount, h, hint);
    var call, st' := CallNominate(n, c, amount, h, hint), Nominate(cfg, st, n, c, amount, h, hint).value;
    forall m, d
      ensures Records(st', m, d) == RecordAfter(cfg, st, call, m, d) && RequestOf(st', m, d) == RequestAfter(cfg, st, call, m, d)
    {
      if m == n {
        NominateNewcomer(cfg, st, n, c, amount, h, hint, d);
      } else {
        NominateOther(cfg, st, n, c, amount, h, hint, m, d);
      }
    }
    forall m | m in st'.nominators ensures ExitOf(st', m) == ExitAfter(cfg, st, call, m) {
      if m == n {
        NominateNewcomer(cfg, st, n, c, amount, h, hint, c);
      } else {
        NominateOther(cfg, st, n, c, amount, h, hint, m, c);
      }
    }
  }

  lemma NominateNewcomer(cfg: Config, st: Storage, n: Account, c: Account, amount: nat, h: nat, hint: nat, d: Account)
    requires cfg.Valid() && Valid(cfg, st) && Nominate(cfg, st, n, c, amount, h, hint).Ok?
    requires !Evicts(cfg, st, c, n)
    ensures var call, st' := CallNominate(n, c, amount, h, hint), Nominate(cfg, st, n, c, amount, h, hint).value;
      && Records(st', n, d) == RecordAfter(cfg, st, call, n, d) && RequestOf(st', n, d) == RequestAfter(cfg, st, call, n, d)
      && ExitOf(st', n) == ExitAfter(cfg, st, call, n)
  {
    hide Valid, Nominate, AddNomination, Kick, Evicts, PutNominated;
    NominateForm(cfg, st, n, c, amount, h, hint);
  }

  lemma NominateOther(cfg: Config, st: Storage, n: Account, c: Account, amount: nat, h: nat, hint: nat, m: Account, d: Account)
    requires cfg.Valid() && Valid(cfg, st) && Nominate(cfg, st, n, c, amount, h, hint).Ok? && m != n
    ensures var call, st' := CallNominate(n, c, amount, h, hint), Nominate(cfg, st, n, c, amount, h, hint).value;
      && Records(st', m, d) == RecordAfter(cfg, st, call, m, d) && RequestOf(st', m, d) == RequestAfter(cfg, st, call, m, d)
      && (m in st'.nominators ==> ExitOf(st', m) == ExitAfter(cfg, st, call, m))
  {
    hide Valid, Nominate, AddNomination, Kick, NominatorFor, Evicts, PutNominated, Remnant, LedgerOk;
    NominateForm(cfg, st, n, c, amount, h, hint);
    NominateEvicts(cfg, st, n, c, amount, h, hint);
    NominatorsOf(cfg, st);
    var r := AddNomination(cfg, st.candidates[c], Bond(n, amount)).value;
    var st0 := PutNominated(st, c, r.candidate);
    PutKeeps(st, c, r.candidate);
    KickLedgers(st0, c, r.kicked, m);
    if r.kicked.Some? && m == r.kicked.value.owner {
      RemnantObserved(st.nominators[m], c);
    }
  }

  lemma BondMoreLedgers(cfg: Config, st: Storage, n: Account, c: Account, more: nat)
    requires NominatorBondMore(cfg, st, n, c, more).Ok?
    ensures LedgersPromised(cfg, st, CallNominatorBondMore(n, c, more), NominatorBondMore(cfg, st, n, c, more).value)
  {
    hide NominatorBondMore, Increase;
    BondMoreForm(cfg, st, n, c, more);
  }

  /** The observations after one nominator's ledger was written or dropped. */
  lemma PutObserved(st: Storage, st': Storage, n: Account, s: Option<Nominator>, m: Account, d: Account)
    requires st'.nominators == match s case None => st.nominators - {n} case Some(l) => st.nominators[n := l]
    ensures m != n ==> Records(st', m, d) == Records(st, m, d) && RequestOf(st', m, d) == RequestOf(st, m, d) && ExitOf(st', m) == ExitOf(st, m)
    ensures Records(st', n, d) == if s.Some? && d in s.value.nominations then Some(s.value.nominations[d]) else None
    ensures RequestOf(st', n, d) == if s.Some? && d in s.value.requests then Some(s.value.requests[d]) else None
    ensures ExitOf(st', n) == if s.Some? then Some(s.value.status) else None
  {
  }

  lemma ExecutedAt(cfg: Config, st: Storage, n: Account, c: Account, m: Account, d: Account)
    requires cfg.Valid() && Valid(cfg, st) && ExecuteRequest(cfg, st, n, c).Ok?
    ensures var call, st' := CallExecuteRequest(n, c), ExecuteRequest(cfg, st, n, c).value;
      && Records(st', m, d) == RecordAfter(cfg, st, call, m, d) && RequestOf(st', m, d) == RequestAfter(cfg, st, call, m, d)
      && (m in st'.nominators ==> ExitOf(st', m) == ExitAfter(cfg, st, call, m))
  {
    hide Valid, NominatorLeavesCandidate, ExecuteDecrease, Candidates.Decrease, LedgerOk;
    NominatorsOf(cfg, st);
    var s, st' := st.nominators[n], ExecuteRequest(cfg, st, n, c).value;
    if s.requests[c].action.Revoke? {
      LeavesKeeps(cfg, st, c, n, s.requests[c].amount);
      RevokedLedger(s, c);
      PutObserved(st, st', n, LedgerOf(st', n), m, d);
    } else {
      DecreaseForm(cfg, st, n, c);
      PutObserved(st, st', n, LedgerOf(st', n), m, d);
    }
  }

  lemma ExecuteLedgers(cfg: Config, st: Storage, n: Account, c: Account)
    requires cfg.Valid() && Valid(cfg, st) && ExecuteRequest(cfg, st, n, c).Ok?
    ensures LedgersPromised(cfg, st, CallExecuteRequest(n, c), ExecuteRequest(cfg, st, n, c).value)
  {
    hide Valid, ExecuteRequest, Records, RequestOf, ExitOf, RecordAfter, RequestAfter, ExitAfter;
    var call, st' := CallExecuteRequest(n, c), ExecuteRequest(cfg, st, n, c).value;
    forall m, d
      ensures Records(st', m, d) == RecordAfter(cfg, st, call, m, d) && RequestOf(st', m, d) == RequestAfter(cfg, st, call, m, d)
    {
      ExecutedAt(cfg, st, n, c, m, d);
    }
    forall m | m in st'.nominators ensures ExitOf(st', m) == ExitAfter(cfg, st, call, m) {
      ExecutedAt(cfg, st, n, c, m, c);
    }
  }

  lemma RevokedLedger(s: Nominator, c: Account)
    requires LedgerOk(s) && c in s.requests
    ensures c in s.nominations && (|s.nominations| == 1 ==> s.nominations.Keys == {c} && s.requests.Keys == {c})
  {
    EntryWithinTotal(s, c);
    if |s.nominations| == 1 {
      assert s.nominations.Keys == (s.nominations - {c}).Keys + {c};
    }
  }

  lemma ExitLedgers(cfg: Config, st: Storage, n: Account, hint: nat)
    requires ExecuteLeaveNominators(cfg, st, n, hint).Ok?
    ensures LedgersPromised(cfg, st, CallExecuteLeaveNominators(n, hint), ExecuteLeaveNominators(cfg, st, n, hint).value)
  {
    hide ExecuteLeaveNominators, OnlyCloses;
    ExitTickets(cfg, st, n, hint);
  }

  /** Scheduling and cancelling write one ledger. */
  lemma RequestForm(cfg: Config, st: Storage, call: Call) returns (s: Nominator)
    requires Step(cfg, st, call).Ok?
    requires call.CallScheduleRevoke? || call.CallScheduleDecrease? || call.CallCancelRequest?
      || call.CallScheduleLeaveNominators? || call.CallCancelLeaveNominators?
    ensures call.n in st.nominators && Step(cfg, st, call).value == PutNominator(st, call.n, s)
    ensures s.nominations == st.nominators[call.n].nominations
    ensures call.CallScheduleRevoke? ==>
      && call.c in s.nominations
      && s.requests == st.nominators[call.n].requests[call.c := Request(s.nominations[call.c], st.round + cfg.revokeNominationDelay, Revoke)]
    ensures call.CallScheduleDecrease? ==>
      s.requests == st.nominators[call.n].requests[call.c := Request(call.less, st.round + cfg.nominationBondLessDelay, Decrease)]
    ensures call.CallCancelRequest? ==> s.requests == st.nominators[call.n].requests - {call.c}
    ensures call.CallScheduleLeaveNominators? || call.CallCancelLeaveNominators? ==> s.requests == st.nominators[call.n].requests
    ensures s.status ==
      if call.CallScheduleLeaveNominators? then Exiting(st.round + cfg.leaveNominatorsDelay)
      else if call.CallCancelLeaveNominators? then Staying
      else st.nominators[call.n].status
  {
    hide WrapSub, Nominate, NominatorBondMore, ExecuteRequest, ExecuteLeaveNominators, JoinCandidates, ExecuteLeaveCandidates,
      CandidateBondMore, ExecuteCandidateBondLess, SetValidatorTier, Slash, ScheduleLeaveCandidates, CancelLeaveCandidates,
      GoOffline, GoOnline, ScheduleCandidateBondLess, CancelCandidateBondLess;
    s := Step(cfg, st, call).value.nominators[call.n];
  }

  lemma RequestedAt(cfg: Config, st: Storage, call: Call, m: Account, d: Account)
    requires Step(cfg, st, call).Ok?
    requires call.CallScheduleRevoke? || call.CallScheduleDecrease? || call.CallCancelRequest?
      || call.CallScheduleLeaveNominators? || call.CallCancelLeaveNominators?
    ensures var st' := Step(cfg, st, call).value;
      && Records(st', m, d) == RecordAfter(cfg, st, call, m, d) && RequestOf(st', m, d) == RequestAfter(cfg, st, call, m, d)
      && ExitOf(st', m) == ExitAfter(cfg, st, call, m)
  {
    hide Step;
    var s := RequestForm(cfg, st, call);
    PutObserved(st, Step(cfg, st, call).value, call.n, Some(s), m, d);
  }

  lemma RequestLedgers(cfg: Config, st: Storage, call: Call)
    requires Step(cfg, st, call).Ok?
    requires call.CallScheduleRevoke? || call.CallScheduleDecrease? || call.CallCancelRequest?
      || call.CallScheduleLeaveNominators? || call.CallCancelLeaveNominators?
    ensures LedgersPromised(cfg, st, call, Step(cfg, st, call).value)
  {
    hide Step, Records, RequestOf, ExitOf, RecordAfter, RequestAfter, ExitAfter;
    var st' := Step(cfg, st, call).value;
    forall m, d
      ensures Records(st', m, d) == RecordAfter(cfg, st, call, m, d) && RequestOf(st', m, d) == RequestAfter(cfg, st, call, m, d)
    {
      RequestedAt(cfg, st, call, m, d);
    }
    forall m | m in st'.nominators ensures ExitOf(st', m) == ExitAfter(cfg, st, call, m) {
      RequestedAt(cfg, st, call, m, m);
    }
  }

  /** Whoever is still a nominator has kept its requests at all candidates but `c`. */
  ghost predicate Spares(st: Storage, st': Storage, c: Account) {
    forall n :: n in st'.nominators ==>
      n in st.nominators && forall d :: d != c ==> (d in st'.nominators[n].requests <==> d in st.nominators[n].requests)
  }

  lemma ReturnStakeSpares(st: Storage, c: Account, b: Bond)
    requires ReturnStake(st, c, b).Ok?
    ensures Spares(st, ReturnStake(st, c, b).value, c)
  {
    hide Unreserve;
    UnreserveKeeps(st, b.owner, b.amount);
  }

  lemma SparesSelf(st: Storage, c: Account)
    ensures Spares(st, st, c)
  {
  }

  lemma SparesOn(st: Storage, mid: Storage, st': Storage, c: Account)
    requires Spares(st, mid, c) && Spares(mid, st', c)
    ensures Spares(st, st', c)
  {
  }

  lemma {:induction false} ReturnStakesSpares(st: Storage, c: Account, bonds: seq<Bond>)
    requires ReturnStakes(st, c, bonds).Ok?
    ensures Spares(st, ReturnStakes(st, c, bonds).value, c)
    decreases bonds
  {
    hide Spares, ReturnStake;
    if bonds == [] {
      SparesSelf(st, c);
    } else {
      var mid := ReturnStake(st, c, bonds[0]).value;
      ReturnStakeSpares(st, c, bonds[0]);
      ReturnStakesSpares(mid, c, bonds[1..]);
      SparesOn(st, mid, ReturnStakes(mid, c, bonds[1..]).value, c);
    }
  }

  lemma LeaveSpares(st: Storage, stash: Account, hint: nat)
    requires ExecuteLeaveCandidates(st, stash, hint).Ok?
    ensures stash in st.bondedStash && Spares(st, ExecuteLeaveCandidates(st, stash, hint).value, st.bondedStash[stash])
  {
    hide Spares, ReturnStakes;
    var c := st.bondedStash[stash];
    var st1 := ReturnStakes(st, c, st.candidates[c].top.nominations).value;
    var st2 := ReturnStakes(st1, c, st.candidates[c].bottom.nominations).value;
    ReturnStakesSpares(st, c, st.candidates[c].top.nominations);
    ReturnStakesSpares(st1, c, st.candidates[c].bottom.nominations);
    SparesOn(st, st1, st2, c);
    SparesLike(st, st2, ExecuteLeaveCandidates(st, stash, hint).value, c);
  }

  lemma SparesLike(st: Storage, st1: Storage, st2: Storage, c: Account)
    requires Spares(st, st1, c) && st2.nominators == st1.nominators
    ensures Spares(st, st2, c)
  {
  }

  /** With both storages' ledgers in agreement with the lists, the records follow the lists. */
  lemma LeaveRecords(st: Storage, st': Storage, c: Account, n: Account, d: Account)
    requires Agree(st) && Agree(st') && st'.candidates == st.candidates - {c}
    ensures Records(st', n, d) == if d == c then None else Records(st, n, d)
  {
    hide All;
    forall a: nat ensures Records(st', n, d) == Some(a) <==> d != c && Records(st, n, d) == Some(a) {
      assert Lists(st', n, d, a) <==> Records(st', n, d) == Some(a);
      assert Lists(st, n, d, a) <==> Records(st, n, d) == Some(a);
    }
    SameOption(Records(st', n, d), if d == c then None else Records(st, n, d));
  }

  lemma SameOption(x: Option<nat>, y: Option<nat>)
    requires forall a: nat :: x == Some(a) <==> y == Some(a)
    ensures x == y
  {
    assert x.Some? ==> y == Some(x.value);
  }

  lemma RequestNeedsRecord(st: Storage, n: Account, c: Account)
    requires NominatorsOk(st) && RequestOf(st, n, c).Some?
    ensures Records(st, n, c).Some?
  {
    hide SumBy;
  }

  lemma LeaveLedgers(cfg: Config, st: Storage, stash: Account, hint: nat)
    requires cfg.Valid() && Valid(cfg, st) && ExecuteLeaveCandidates(st, stash, hint).Ok?
    ensures LedgersPromised(cfg, st, CallExecuteLeaveCandidates(stash, hint), ExecuteLeaveCandidates(st, stash, hint).value)
  {
    hide Valid, ExecuteLeaveCandidates, OnlyCloses, NominatorsOk, Agree, PoolOk, StashOk, Moves;
    ExecuteLeaveCandidatesKeeps(cfg, st, stash, hint);
    var c, st' := st.bondedStash[stash], ExecuteLeaveCandidates(st, stash, hint).value;
    NominatorsOf(cfg, st);
    NominatorsOf(cfg, st');
    LeaveTickets(st, stash, hint);
    LeaveSpares(st, stash, hint);
    forall n, d
      ensures Records(st', n, d) == if d == c then None else Records(st, n, d)
      ensures RequestOf(st', n, d) == if d == c then None else RequestOf(st, n, d)
    {
      LeaveRecords(st, st', c, n, d);
      if RequestOf(st', n, d).Some? {
        RequestNeedsRecord(st', n, d);
      }
      if RequestOf(st, n, d).Some? {
        RequestNeedsRecord(st, n, d);
      }
    }
  }

  lemma QuietAfter(cfg: Config, st: Storage, call: Call, n: Account, c: Account)
    requires (BondCall(call) || StatusCall(call)) && !call.CallExecuteLeaveCandidates?
    ensures RecordAfter(cfg, st, call, n, c) == Records(st, n, c)
    ensures RequestAfter(cfg, st, call, n, c) == RequestOf(st, n, c)
    ensures ExitAfter(cfg, st, call, n) == ExitOf(st, n)
  {
  }

  lemma QuietLedgers(cfg: Config, st: Storage, call: Call)
    requires BondCall(call) || StatusCall(call)
    ensures LedgersPromised(cfg, st, call, Next(cfg, st, call))
  {
    hide Next, RecordAfter, RequestAfter, ExitAfter;
    QuietCalls(cfg, st, call);
    forall n, c ensures RecordAfter(cfg, st, call, n, c) == Records(st, n, c) && RequestAfter(cfg, st, call, n, c) == RequestOf(st, n, c) {
      QuietAfter(cfg, st, call, n, c);
    }
    forall n ensures ExitAfter(cfg, st, call, n) == ExitOf(st, n) {
      QuietAfter(cfg, st, call, n, n);
    }
  }

  lemma CallLedgers(cfg: Config, st: Storage, call: Call)
    requires cfg.Valid() && Valid(cfg, st) && Step(cfg, st, call).Ok?
    ensures LedgersPromised(cfg, st, call, Next(cfg, st, call))
  {
    hide Valid, LedgersPromised, Nominate, NominatorBondMore, ScheduleNominatorRequest, ExecuteRequest, CancelNominationRequest,
      ScheduleLeaveNominators, CancelLeaveNominators, ExecuteLeaveNominators, JoinCandidates, ExecuteLeaveCandidates,
      CandidateBondMore, ExecuteCandidateBondLess, SetValidatorTier, Slash, ScheduleLeaveCandidates, CancelLeaveCandidates,
      GoOffline, GoOnline, ScheduleCandidateBondLess, CancelCandidateBondLess;
    match call
    case CallNominate(n, c, amount, h, hint) => NominateLedgers(cfg, st, n, c, amount, h, hint);
    case CallNominatorBondMore(n, c, more) => BondMoreLedgers(cfg, st, n, c, more);
    case CallExecuteRequest(n, c) => ExecuteLedgers(cfg, st, n, c);
    case CallExecuteLeaveNominators(n, hint) => ExitLedgers(cfg, st, n, hint);
    case CallExecuteLeaveCandidates(stash, hint) => LeaveLedgers(cfg, st, stash, hint);
    case CallScheduleRevoke(_, _) => RequestLedgers(cfg, st, call);
    case CallScheduleDecrease(_, _, _) => RequestLedgers(cfg, st, call);
    case CallCancelRequest(_, _) => RequestLedgers(cfg, st, call);
    case CallScheduleLeaveNominators(_) => RequestLedgers(cfg, st, call);
    case CallCancelLeaveNominators(_) => RequestLedgers(cfg, st, call);
    case _ => QuietLedgers(cfg, st, call);
  }

  // ----- the candidates after a call

  ghost predicate SelvesPromised(cfg: Config, st: Storage, call: Call, st': Storage) {
    forall c :: SelfOf(st', c) == SelfAfter(cfg, st, call, c)
  }

  /** The calls of nominators keep every candidate itself and make none. */
  ghost predicate SameSelves(st: Storage, st': Storage) {
    st'.candidates.Keys == st.candidates.Keys && SelvesKept(st, st')
  }

  lemma {:induction false} LeaveEachKeys(cfg: Config, st: Storage, n: Account, todo: map<Account, nat>)
    ensures LeaveEach(cfg, st, n, todo).candidates.Keys == st.candidates.Keys
    decreases |todo|
  {
    hide NominatorLeavesCandidate;
    if todo != map[] {
      var c := Least(todo.Keys);
      var r := NominatorLeavesCandidate(cfg, st, c, n, todo[c]);
      if r.Ok? {
        LeavesKeys(cfg, st, c, n, todo[c]);
      }
      LeaveEachKeys(cfg, match r case Ok(s) => s case Err(_) => st, n, todo - {c});
    }
  }

  lemma LeavesKeys(cfg: Config, st: Storage, c: Account, n: Account, amount: nat)
    requires NominatorLeavesCandidate(cfg, st, c, n, amount).Ok?
    ensures NominatorLeavesCandidate(cfg, st, c, n, amount).value.candidates.Keys == st.candidates.Keys
  {
    hide RmIfExists;
  }

  lemma ExecuteKeys(cfg: Config, st: Storage, n: Account, c: Account)
    requires ExecuteRequest(cfg, st, n, c).Ok?
    ensures ExecuteRequest(cfg, st, n, c).value.candidates.Keys == st.candidates.Keys
  {
    hide NominatorLeavesCandidate, ExecuteDecrease, Candidates.Decrease, RmEntry;
    if st.nominators[n].requests[c].action.Revoke? {
      LeavesKeys(cfg, st, c, n, st.nominators[n].requests[c].amount);
    } else {
      DecreaseForm(cfg, st, n, c);
    }
  }

  lemma NominatorCallsKeys(cfg: Config, st: Storage, call: Call)
    requires Step(cfg, st, call).Ok?
    requires call.CallNominate? || call.CallNominatorBondMore? || call.CallExecuteRequest? || call.CallExecuteLeaveNominators?
    ensures Step(cfg, st, call).value.candidates.Keys == st.candidates.Keys
  {
    hide AddNomination, Increase, LeaveEach, Nominate, NominatorBondMore, ScheduleNominatorRequest, ExecuteRequest,
      CancelNominationRequest, ScheduleLeaveNominators, CancelLeaveNominators, JoinCandidates, ScheduleLeaveCandidates,
      CancelLeaveCandidates, ExecuteLeaveCandidates, GoOffline, GoOnline, CandidateBondMore, ScheduleCandidateBondLess,
      ExecuteCandidateBondLess, CancelCandidateBondLess, SetValidatorTier, Slash;
    match call
    case CallNominate(n, c, amount, h, hint) => NominateForm(cfg, st, n, c, amount, h, hint);
    case CallNominatorBondMore(n, c, more) => BondMoreForm(cfg, st, n, c, more);
    case CallExecuteRequest(n, c) => ExecuteKeys(cfg, st, n, c);
    case CallExecuteLeaveNominators(n, _) => LeaveEachKeys(cfg, st, n, st.nominators[n].nominations);
  }

  lemma SameSelvesAre(st: Storage, st': Storage, c: Account)
    requires SameSelves(st, st')
    ensures SelfOf(st', c) == SelfOf(st, c)
  {
  }

  /** The calls that leave every candidate itself alone. */
  ghost predicate LeavesSelvesAlone(call: Call) {
    || call.CallNominate? || call.CallNominatorBondMore? || call.CallExecuteRequest? || call.CallExecuteLeaveNominators?
    || call.CallScheduleRevoke? || call.CallScheduleDecrease? || call.CallCancelRequest?
    || call.CallScheduleLeaveNominators? || call.CallCancelLeaveNominators? || call.Deposit? || call.NewRound?
  }

  lemma AloneAfter(cfg: Config, st: Storage, call: Call, c: Account)
    requires LeavesSelvesAlone(call)
    ensures SelfAfter(cfg, st, call, c) == SelfOf(st, c)
  {
  }

  lemma AloneSelves(cfg: Config, st: Storage, call: Call)
    requires LeavesSelvesAlone(call) && Step(cfg, st, call).Ok?
    ensures SelvesPromised(cfg, st, call, Next(cfg, st, call))
  {
    hide Step, SelfAfter, SelfOf, SelvesKept;
    var st' := Next(cfg, st, call);
    SelvesSelf(st);
    if call.CallNominate? || call.CallNominatorBondMore? || call.CallExecuteRequest? || call.CallExecuteLeaveNominators? {
      NominatorCallsKeys(cfg, st, call);
      NominatorCallsSelves(cfg, st, call);
    } else {
      CandidatesStay(cfg, st, call);
      SelvesLike(st, st');
    }
    forall c ensures SelfOf(st', c) == SelfAfter(cfg, st, call, c) {
      AloneAfter(cfg, st, call, c);
      SameSelvesAre(st, st', c);
    }
  }

  lemma SelvesLike(st: Storage, st': Storage)
    requires st'.candidates == st.candidates
    ensures SelvesKept(st, st')
  {
  }

  lemma CandidatesStay(cfg: Config, st: Storage, call: Call)
    requires call.CallScheduleRevoke? || call.CallScheduleDecrease? || call.CallCancelRequest?
      || call.CallScheduleLeaveNominators? || call.CallCancelLeaveNominators? || call.Deposit? || call.NewRound?
    ensures Next(cfg, st, call).candidates == st.candidates
  {
    hide Nominate, NominatorBondMore, ScheduleNominatorRequest, ExecuteRequest, CancelNominationRequest,
      ScheduleLeaveNominators, CancelLeaveNominators, ExecuteLeaveNominators, JoinCandidates, ScheduleLeaveCandidates,
      CancelLeaveCandidates, ExecuteLeaveCandidates, GoOffline, GoOnline, CandidateBondMore, ScheduleCandidateBondLess,
      ExecuteCandidateBondLess, CancelCandidateBondLess, SetValidatorTier, Slash;
    if !call.Deposit? && !call.NewRound? {
      RequestCallsQuiet(cfg, st, call);
    }
  }

  /** One candidate is written; all others stay. */
  ghost predicate WritesSelf(cfg: Config, st: Storage, call: Call, st': Storage, c: Account) {
    && (forall d :: d != c ==> (d in st'.candidates <==> d in st.candidates))
    && (forall d :: d != c && d in st.candidates && d in st'.candidates ==> st'.candidates[d] == st.candidates[d])
    && SelfOf(st', c) == SelfAfter(cfg, st, call, c)
  }

  /** The candidate that a call writes. */
  ghost function Written(st: Storage, call: Call): Account {
    match call
    case CallJoin(_, c, _, _, _) => c
    case CallScheduleLeaveCandidates(c, _) => c
    case CallCancelLeaveCandidates(c, _) => c
    case CallGoOffline(c) => c
    case CallGoOnline(c) => c
    case CallScheduleBondLess(c, _) => c
    case CallCancelBondLess(c) => c
    case Offence(c, _) => c
    case CallExecuteLeaveCandidates(stash, _) => if stash in st.bondedStash then st.bondedStash[stash] else 0
    case CallCandidateBondMore(stash, _) => if stash in st.bondedStash then st.bondedStash[stash] else 0
    case CallExecuteBondLess(stash) => if stash in st.bondedStash then st.bondedStash[stash] else 0
    case CallSetTier(stash, _, _, _) => if stash in st.bondedStash then st.bondedStash[stash] else 0
    case _ => 0
  }

  lemma OthersAfter(cfg: Config, st: Storage, call: Call, d: Account)
    requires !LeavesSelvesAlone(call) && d != Written(st, call)
    ensures SelfAfter(cfg, st, call, d) == SelfOf(st, d)
  {
    hide Slashed;
  }

  lemma OneWritten(cfg: Config, st: Storage, call: Call, st': Storage)
    requires !LeavesSelvesAlone(call) && WritesSelf(cfg, st, call, st', Written(st, call))
    ensures SelvesPromised(cfg, st, call, st')
  {
    hide SelfAfter, Written;
    forall d ensures SelfOf(st', d) == SelfAfter(cfg, st, call, d) {
      if d != Written(st, call) {
        OthersAfter(cfg, st, call, d);
      }
    }
  }

  lemma JoinSelf(cfg: Config, st: Storage, stash: Account, c: Account, relayer: Option<bool>, bond: nat, hint: nat)
    requires JoinCandidates(cfg, st, stash, c, relayer, bond, hint).Ok?
    ensures WritesSelf(cfg, st, CallJoin(stash, c, relayer, bond, hint), JoinCandidates(cfg, st, stash, c, relayer, bond, hint).value, c)
  {
    hide MinSelfBond, Get;
  }

  lemma ExitSelves(cfg: Config, st: Storage, c: Account, hint: nat)
    ensures ScheduleLeaveCandidates(cfg, st, c, hint).Ok? ==>
      WritesSelf(cfg, st, CallScheduleLeaveCandidates(c, hint), ScheduleLeaveCandidates(cfg, st, c, hint).value, c)
    ensures CancelLeaveCandidates(cfg, st, c, hint).Ok? ==>
      WritesSelf(cfg, st, CallCancelLeaveCandidates(c, hint), CancelLeaveCandidates(cfg, st, c, hint).value, c)
  {
  }

  lemma PoolSelves(cfg: Config, st: Storage, c: Account)
    ensures GoOffline(st, c).Ok? ==> WritesSelf(cfg, st, CallGoOffline(c), GoOffline(st, c).value, c)
    ensures GoOnline(cfg, st, c).Ok? ==> WritesSelf(cfg, st, CallGoOnline(c), GoOnline(cfg, st, c).value, c)
  {
  }

  lemma BondLessSelves(cfg: Config, st: Storage, c: Account, less: nat)
    ensures ScheduleCandidateBondLess(cfg, st, c, less).Ok? ==>
      WritesSelf(cfg, st, CallScheduleBondLess(c, less), ScheduleCandidateBondLess(cfg, st, c, less).value, c)
    ensures CancelCandidateBondLess(st, c).Ok? ==> WritesSelf(cfg, st, CallCancelBondLess(c), CancelCandidateBondLess(st, c).value, c)
  {
    hide MinSelfBond;
  }

  lemma BondSelves(cfg: Config, st: Storage, stash: Account, more: nat)
    requires CandidateBondMore(st, stash, more).Ok?
    ensures stash in st.bondedStash
    ensures WritesSelf(cfg, st, CallCandidateBondMore(stash, more), CandidateBondMore(st, stash, more).value, st.bondedStash[stash])
  {
    hide UpdateActive, Get;
  }

  lemma TierSelves(cfg: Config, st: Storage, stash: Account, more: nat, tier: Tier, relayer: Option<bool>)
    requires SetValidatorTier(cfg, st, stash, more, tier, relayer).Ok?
    ensures stash in st.bondedStash
    ensures WritesSelf(cfg, st, CallSetTier(stash, more, tier, relayer), SetValidatorTier(cfg, st, stash, more, tier, relayer).value,
                       st.bondedStash[stash])
  {
    hide UpdateActive, Get, MinSelfBond;
  }

  lemma ExecutedBondSelves(cfg: Config, st: Storage, stash: Account)
    requires Valid(cfg, st) && ExecuteCandidateBondLess(st, stash).Ok?
    ensures stash in st.bondedStash
    ensures WritesSelf(cfg, st, CallExecuteBondLess(stash), ExecuteCandidateBondLess(st, stash).value, st.bondedStash[stash])
  {
    hide Valid, Inv, UpdateActive, Unreserve;
    CandidateFacts(cfg, st, st.bondedStash[stash]);
    UnreserveKeeps(st, stash, st.candidates[st.bondedStash[stash]].request.value.amount);
  }

  lemma SlashSelves(cfg: Config, st: Storage, c: Account, amount: nat)
    requires Slash(cfg, st, c, amount).Ok?
    ensures WritesSelf(cfg, st, Offence(c, amount), Slash(cfg, st, c, amount).value, c)
  {
    hide Get;
  }

  lemma LeftSelves(cfg: Config, st: Storage, stash: Account, hint: nat)
    requires ExecuteLeaveCandidates(st, stash, hint).Ok?
    ensures stash in st.bondedStash
    ensures WritesSelf(cfg, st, CallExecuteLeaveCandidates(stash, hint), ExecuteLeaveCandidates(st, stash, hint).value, st.bondedStash[stash])
  {
    hide ExecuteLeaveCandidates, OnlyCloses, Thins;
    LeaveTickets(st, stash, hint);
  }

  lemma CallSelves(cfg: Config, st: Storage, call: Call)
    requires cfg.Valid() && Valid(cfg, st) && Step(cfg, st, call).Ok?
    ensures SelvesPromised(cfg, st, call, Next(cfg, st, call))
  {
    hide Valid, SelvesPromised, WritesSelf, Nominate, NominatorBondMore, ScheduleNominatorRequest,
      ExecuteRequest, CancelNominationRequest, ScheduleLeaveNominators, CancelLeaveNominators, ExecuteLeaveNominators,
      JoinCandidates, ScheduleLeaveCandidates, CancelLeaveCandidates, ExecuteLeaveCandidates, GoOffline, GoOnline,
      CandidateBondMore, ScheduleCandidateBondLess, ExecuteCandidateBondLess, CancelCandidateBondLess, SetValidatorTier, Slash;
    match call {
      case CallJoin(stash, c, relayer, bond, hint) => JoinSelf(cfg, st, stash, c, relayer, bond, hint);
      case CallScheduleLeaveCandidates(c, hint) => ExitSelves(cfg, st, c, hint);
      case CallCancelLeaveCandidates(c, hint) => ExitSelves(cfg, st, c, hint);
      case CallGoOffline(c) => PoolSelves(cfg, st, c);
      case CallGoOnline(c) => PoolSelves(cfg, st, c);
      case CallScheduleBondLess(c, less) => BondLessSelves(cfg, st, c, less);
      case CallCancelBondLess(c) => BondLessSelves(cfg, st, c, 0);
      case CallCandidateBondMore(stash, more) => BondSelves(cfg, st, stash, more);
      case CallSetTier(stash, more, tier, relayer) => TierSelves(cfg, st, stash, more, tier, relayer);
      case CallExecuteBondLess(stash) => ExecutedBondSelves(cfg, st, stash);
      case Offence(c, amount) => SlashSelves(cfg, st, c, amount);
      case CallExecuteLeaveCandidates(stash, hint) => LeftSelves(cfg, st, stash, hint);
      case _ =>
    }
    AloneOrNot(cfg, st, call);
  }

  lemma AloneOrNot(cfg: Config, st: Storage, call: Call)
    requires Step(cfg, st, call).Ok?
    requires !LeavesSelvesAlone(call) ==> WritesSelf(cfg, st, call, Next(cfg, st, call), Written(st, call))
    ensures SelvesPromised(cfg, st, call, Next(cfg, st, call))
  {
    hide Step, SelvesPromised, WritesSelf, LeavesSelvesAlone, Written;
    if LeavesSelvesAlone(call) {
      AloneSelves(cfg, st, call);
    } else {
      OneWritten(cfg, st, call, Next(cfg, st, call));
    }
  }

  // ----- the round

  lemma KickRound(st: Storage, c: Account, kicked: Option<Bond>)
    requires Kick(st, c, kicked).Ok?
    ensures Kick(st, c, kicked).value.round == st.round
  {
    hide RemoveRequest, RmEntry;
  }

  lemma NominateRound(cfg: Config, st: Storage, n: Account, c: Account, amount: nat, h: nat, hint: nat)
    requires Nominate(cfg, st, n, c, amount, h, hint).Ok?
    ensures Nominate(cfg, st, n, c, amount, h, hint).value.round == st.round
  {
    hide AddNomination, NominatorFor, Kick;
    var r := AddNomination(cfg, st.candidates[c], Bond(n, amount)).value;
    KickRound(PutNominated(st, c, r.candidate), c, r.kicked);
  }

  lemma LeavesRound(cfg: Config, st: Storage, c: Account, n: Account, amount: nat)
    requires NominatorLeavesCandidate(cfg, st, c, n, amount).Ok?
    ensures NominatorLeavesCandidate(cfg, st, c, n, amount).value.round == st.round
  {
    hide RmIfExists;
  }

  lemma {:induction false} LeaveEachRound(cfg: Config, st: Storage, n: Account, todo: map<Account, nat>)
    ensures LeaveEach(cfg, st, n, todo).round == st.round
    decreases |todo|
  {
    hide NominatorLeavesCandidate;
    if todo != map[] {
      var c := Least(todo.Keys);
      var r := NominatorLeavesCandidate(cfg, st, c, n, todo[c]);
      if r.Ok? {
        LeavesRound(cfg, st, c, n, todo[c]);
      }
      LeaveEachRound(cfg, match r case Ok(s) => s case Err(_) => st, n, todo - {c});
    }
  }

  lemma ExecuteRound(cfg: Config, st: Storage, n: Account, c: Account)
    requires ExecuteRequest(cfg, st, n, c).Ok?
    ensures ExecuteRequest(cfg, st, n, c).value.round == st.round
  {
    hide NominatorLeavesCandidate, Candidates.Decrease, RmEntry;
    if st.nominators[n].requests[c].action.Revoke? {
      LeavesRound(cfg, st, c, n, st.nominators[n].requests[c].amount);
    }
  }

  lemma {:induction false} ReturnStakesRound(st: Storage, c: Account, bonds: seq<Bond>)
    requires ReturnStakes(st, c, bonds).Ok?
    ensures ReturnStakes(st, c, bonds).value.round == st.round
    decreases bonds
  {
    hide RemoveRequest, RmEntry;
    if bonds != [] {
      ReturnStakesRound(ReturnStake(st, c, bonds[0]).value, c, bonds[1..]);
    }
  }

  lemma LeaveRound(st: Storage, stash: Account, hint: nat)
    requires ExecuteLeaveCandidates(st, stash, hint).Ok?
    ensures ExecuteLeaveCandidates(st, stash, hint).value.round == st.round
  {
    hide ReturnStakes;
    var c := st.bondedStash[stash];
    ReturnStakesRound(st, c, st.candidates[c].top.nominations);
    ReturnStakesRound(ReturnStakes(st, c, st.candidates[c].top.nominations).value, c, st.candidates[c].bottom.nominations);
  }

  lemma BondRound(cfg: Config, st: Storage, call: Call)
    requires BondCall(call) && Step(cfg, st, call).Ok?
    ensures Next(cfg, st, call).round == st.round
  {
    hide MinSelfBond, UpdateActive, Get, NewCandidate, SlashBond, BondMore, Nominate, NominatorBondMore,
      ScheduleNominatorRequest, ExecuteRequest, CancelNominationRequest, ScheduleLeaveNominators, CancelLeaveNominators,
      ExecuteLeaveNominators, ScheduleLeaveCandidates, CancelLeaveCandidates, ExecuteLeaveCandidates, GoOffline, GoOnline,
      ScheduleCandidateBondLess, CancelCandidateBondLess;
    match call
    case CallJoin(_, _, _, _, _) =>
    case CallSetTier(_, _, _, _) =>
    case CallExecuteBondLess(_) =>
    case CallCandidateBondMore(_, _) =>
    case Offence(_, _) =>
  }

  lemma StatusRound(cfg: Config, st: Storage, call: Call)
    requires StatusCall(call) && Step(cfg, st, call).Ok?
    ensures Next(cfg, st, call).round == st.round + if call.NewRound? then 1 else 0
  {
    hide Get, ScheduleBondLess, Nominate, NominatorBondMore, ScheduleNominatorRequest, ExecuteRequest, CancelNominationRequest,
      ScheduleLeaveNominators, CancelLeaveNominators, ExecuteLeaveNominators, JoinCandidates, ExecuteLeaveCandidates,
      CandidateBondMore, ExecuteCandidateBondLess, SetValidatorTier, Slash;
    match call
    case CallScheduleLeaveCandidates(_, _) =>
    case CallCancelLeaveCandidates(_, _) =>
    case CallGoOnline(_) =>
    case CallGoOffline(_) =>
    case CallScheduleBondLess(_, _) =>
    case CallCancelBondLess(_) =>
    case _ =>
  }

  lemma BondMoreRound(cfg: Config, st: Storage, n: Account, c: Account, more: nat)
    requires NominatorBondMore(cfg, st, n, c, more).Ok?
    ensures NominatorBondMore(cfg, st, n, c, more).value.round == st.round
  {
    hide Increase;
  }

  /** Only the end of a round moves the round. */
  lemma CallRound(cfg: Config, st: Storage, call: Call)
    requires Step(cfg, st, call).Ok?
    ensures Next(cfg, st, call).round == st.round + if call.NewRound? then 1 else 0
  {
    hide LeaveEach, Nominate, NominatorBondMore, ScheduleNominatorRequest, ExecuteRequest, CancelNominationRequest,
      ScheduleLeaveNominators, CancelLeaveNominators, JoinCandidates, ScheduleLeaveCandidates, CancelLeaveCandidates,
      ExecuteLeaveCandidates, GoOffline, GoOnline, CandidateBondMore, ScheduleCandidateBondLess, ExecuteCandidateBondLess,
      CancelCandidateBondLess, SetValidatorTier, Slash;
    match call
    case CallNominate(n, c, amount, h, hint) => NominateRound(cfg, st, n, c, amount, h, hint);
    case CallNominatorBondMore(n, c, more) => BondMoreRound(cfg, st, n, c, more);
    case CallExecuteRequest(n, c) => ExecuteRound(cfg, st, n, c);
    case CallExecuteLeaveNominators(n, _) => LeaveEachRound(cfg, st, n, st.nominators[n].nominations);
    case CallExecuteLeaveCandidates(stash, hint) => LeaveRound(st, stash, hint);
    case _ =>
      if BondCall(call) {
        BondRound(cfg, st, call);
      } else if StatusCall(call) {
        StatusRound(cfg, st, call);
      } else {
        var s := RequestForm(cfg, st, call);
      }
  }

  /** Every accepted call leaves behind exactly what the reference promises, for every nominator and every
      candidate: what is recorded, what is requested, who is leaving, and the candidates themselves. */
  lemma CallEffect(cfg: Config, st: Storage, call: Call)
    requires cfg.Valid() && Valid(cfg, st) && Step(cfg, st, call).Ok?
    ensures AsPromised(cfg, st, call, Next(cfg, st, call))
  {
    hide Valid, Step, Next, RecordAfter, RequestAfter, ExitAfter, SelfAfter, Records, RequestOf, ExitOf, SelfOf;
    CallLedgers(cfg, st, call);
    CallSelves(cfg, st, call);
    CallRound(cfg, st, call);
  }

  // ----- whole runs, and what the observations determine

  /** So in every storage that a run reaches. */
  lemma ReachableCall(cfg: Config, free: map<Account, nat>, calls: seq<Call>, call: Call)
    requires cfg.Valid() && cfg.minNominatorStk < BALANCES
    ensures var st := Run(cfg, Genesis(free), calls);
      && Verdict(Step(cfg, st, call), Refusal(cfg, st, call))
      && (Step(cfg, st, call).Ok? ==> AsPromised(cfg, st, call, Next(cfg, st, call)))
  {
    hide Valid, Run, Step, Verdict, Refusal, AsPromised, Exact, Next;
    GenesisValid(cfg, free);
    RunKeeps(cfg, Genesis(free), calls);
    CallVerdict(cfg, Run(cfg, Genesis(free), calls), call);
    if Step(cfg, Run(cfg, Genesis(free), calls), call).Ok? {
      CallEffect(cfg, Run(cfg, Genesis(free), calls), call);
    }
  }

  lemma SameBonds(x: multiset<Bond>, y: multiset<Bond>)
    requires OneEach(x) && OneEach(y) && forall b :: b in x <==> b in y
    ensures x == y
  {
    forall b ensures x[b] == y[b] {
      if b in x {
        assert SameOwner(x, b, b) && SameOwner(y, b, b);
      }
    }
  }

  lemma ListsFollow(cfg: Config, st: Storage, st': Storage, c: Account)
    requires Valid(cfg, st) && Valid(cfg, st') && c in st.candidates && c in st'.candidates
    requires forall n, d :: Records(st, n, d) == Records(st', n, d)
    ensures All(st.candidates[c]) == All(st'.candidates[c])
  {
    hide Inv, NominatorsOk, PoolOk, StashOk, Solvent, OneEach, All, Records;
    AllOneEach(cfg, st.candidates[c]);
    AllOneEach(cfg, st'.candidates[c]);
    forall b ensures b in All(st.candidates[c]) <==> b in All(st'.candidates[c]) {
      assert b == Bond(b.owner, b.amount);
      assert Lists(st, b.owner, c, b.amount) <==> Records(st, b.owner, c) == Some(b.amount);
      assert Lists(st', b.owner, c, b.amount) <==> Records(st', b.owner, c) == Some(b.amount);
    }
    SameBonds(All(st.candidates[c]), All(st'.candidates[c]));
  }

  /** Two storages that agree on what is recorded and on the candidates themselves agree on the rest of what
      is kept about candidates: amounts in both lists, caches, voting power and pool. */
  lemma ObservationsDetermine(cfg: Config, st: Storage, st': Storage)
    requires cfg.Valid() && Valid(cfg, st) && Valid(cfg, st')
    requires forall n, d :: Records(st, n, d) == Records(st', n, d)
    requires forall c :: SelfOf(st, c) == SelfOf(st', c)
    ensures st.candidates.Keys == st'.candidates.Keys
    ensures forall c :: c in st.candidates ==> SameStanding(st.candidates[c], st'.candidates[c])
    ensures st.pool == st'.pool && st.bondedStash == st'.bondedStash
  {
    hide Valid, Records, Amounts, Inv, All;
    forall c ensures c in st.candidates <==> c in st'.candidates {
      assert SelfOf(st, c) == SelfOf(st', c);
    }
    forall c | c in st.candidates ensures SameStanding(st.candidates[c], st'.candidates[c]) {
      assert SelfOf(st, c) == SelfOf(st', c);
      ListsFollow(cfg, st, st', c);
      CandidateFacts(cfg, st, c);
      CandidateFacts(cfg, st', c);
      SameAll(st.candidates[c], st'.candidates[c]);
      HistoryIndependent(cfg, st.candidates[c], st'.candidates[c]);
    }
    forall c | c in st.candidates ensures st.candidates[c].votingPower == st'.candidates[c].votingPower {
      SamePower(st.candidates[c], st'.candidates[c]);
    }
    NominatorsOf(cfg, st);
    NominatorsOf(cfg, st');
    PoolsAgree(st, st');
    StashesAgree(st, st');
  }

  lemma SamePower(c: Candidate, d: Candidate)
    requires SameStanding(c, d)
    ensures c.votingPower == d.votingPower
  {
  }

  lemma PoolsAgree(st: Storage, st': Storage)
    requires PoolOk(st) && PoolOk(st') && forall c :: SelfOf(st, c) == SelfOf(st', c)
    requires forall c :: c in st.candidates && c in st'.candidates ==> st.candidates[c].votingPower == st'.candidates[c].votingPower
    ensures st.pool == st'.pool
  {
    forall c ensures c in st.pool <==> c in st'.pool {
      assert SelfOf(st, c) == SelfOf(st', c);
    }
  }

  lemma StashesAgree(st: Storage, st': Storage)
    requires StashOk(st) && StashOk(st') && forall c :: SelfOf(st, c) == SelfOf(st', c)
    ensures st.bondedStash == st'.bondedStash
  {
    forall s ensures s in st.bondedStash ==> s in st'.bondedStash && st'.bondedStash[s] == st.bondedStash[s] {
      if s in st.bondedStash {
        assert SelfOf(st, st.bondedStash[s]) == SelfOf(st', st.bondedStash[s]);
      }
    }
    forall s ensures s in st'.bondedStash ==> s in st.bondedStash {
      if s in st'.bondedStash {
        assert SelfOf(st, st'.bondedStash[s]) == SelfOf(st', st'.bondedStash[s]);
      }
    }
  }
}
