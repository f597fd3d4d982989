/** Delayed requests over whole runs: nothing is executed that was not scheduled, left open ever since,
    and scheduled at least its delay of rounds ago. */
module Timelock {
  import opened Wrappers
  import opened Bonds
  import opened Candidates
  import opened Nominators
  import opened Staking
  import opened CandidateLaws
  import opened StakingLaws
  import opened Runs

  /** A pending request of one of the four kinds. */
  datatype Ticket =
    | Nomination(n: Account, c: Account, request: Request)
    | SelfBond(c: Account, less: BondLessRequest)
    | CandidateExit(c: Account, when: nat)
    | NominatorExit(n: Account, when: nat)
  {
    function Due(): nat {
      match this
      case Nomination(_, _, r) => r.when
      case SelfBond(_, r) => r.when
      case CandidateExit(_, w) => w
      case NominatorExit(_, w) => w
    }
  }

  ghost predicate Open(st: Storage, t: Ticket) {
    match t
    case Nomination(n, c, r) => n in st.nominators && c in st.nominators[n].requests && st.nominators[n].requests[c] == r
    case SelfBond(c, r) => c in st.candidates && st.candidates[c].request == Some(r)
    case CandidateExit(c, w) => c in st.candidates && st.candidates[c].status == Leaving(w)
    case NominatorExit(n, w) => n in st.nominators && st.nominators[n].status == Exiting(w)
  }

  function Delay(cfg: Config, t: Ticket): nat {
    match t
    case Nomination(_, _, r) => if r.action.Revoke? then cfg.revokeNominationDelay else cfg.nominationBondLessDelay
    case SelfBond(_, _) => cfg.candidateBondLessDelay
    case CandidateExit(_, _) => cfg.leaveCandidatesDelay
    case NominatorExit(_, _) => cfg.leaveNominatorsDelay
  }

  /** The call that schedules `t`, accepted when nothing of its kind was open, with `t` due its delay
      after the current round. */
  ghost predicate Schedules(cfg: Config, st: Storage, call: Call, t: Ticket) {
    && Step(cfg, st, call).Ok? && t.Due() == st.round + Delay(cfg, t)
    && match t
       case Nomination(n, c, r) =>
         && call == (if r.action.Revoke? then CallScheduleRevoke(n, c) else CallScheduleDecrease(n, c, r.amount))
         && n in st.nominators && c !in st.nominators[n].requests
       case SelfBond(c, r) =>
         call == CallScheduleBondLess(c, r.amount) && c in st.candidates && st.candidates[c].request.None?
       case CandidateExit(c, _) =>
         call.CallScheduleLeaveCandidates? && call.c == c && c in st.candidates && !st.candidates[c].status.Leaving?
       case NominatorExit(n, _) =>
         call == CallScheduleLeaveNominators(n) && n in st.nominators && !st.nominators[n].status.Exiting?
  }

  /** The call that executes `t`, accepted while `t` is open. */
  ghost predicate Executes(cfg: Config, st: Storage, call: Call, t: Ticket) {
    && Step(cfg, st, call).Ok? && Open(st, t)
    && match t
       case Nomination(n, c, _) => call == CallExecuteRequest(n, c)
       case SelfBond(c, _) => call.CallExecuteBondLess? && call.stash in st.bondedStash && st.bondedStash[call.stash] == c
       case CandidateExit(c, _) => call.CallExecuteLeaveCandidates? && call.stash in st.bondedStash && st.bondedStash[call.stash] == c
       case NominatorExit(n, _) => call.CallExecuteLeaveNominators? && call.n == n
  }

  // ----- one step

  /** Every nominator of `st'` was there before, with at least its requests and with its status. */
  ghost predicate OnlyCloses(st: Storage, st': Storage) {
    forall n :: n in st'.nominators ==>
      && n in st.nominators && st'.nominators[n].status == st.nominators[n].status
      && forall c :: c in st'.nominators[n].requests ==>
           c in st.nominators[n].requests && st'.nominators[n].requests[c] == st.nominators[n].requests[c]
  }

  /** Every nominator of `st'` was there before, and has lost nominations and requests at most. */
  ghost predicate Thins(st: Storage, st': Storage) {
    forall n :: n in st'.nominators ==> n in st.nominators && Thinner(st.nominators[n], st'.nominators[n])
  }

  ghost predicate Thinner(s: Nominator, s': Nominator) {
    && s'.status == s.status
    && (forall c :: c in s'.nominations ==> c in s.nominations && s'.nominations[c] == s.nominations[c])
    && (forall c :: c in s'.requests ==> c in s.requests && s'.requests[c] == s.requests[c])
  }

  lemma ThinsCloses(st: Storage, st': Storage)
    requires Thins(st, st')
    ensures OnlyCloses(st, st')
  {
  }

  lemma LeavesKeeps(cfg: Config, st: Storage, c: Account, n: Account, amount: nat)
    requires NominatorLeavesCandidate(cfg, st, c, n, amount).Ok?
    ensures NominatorLeavesCandidate(cfg, st, c, n, amount).value.nominators == st.nominators
  {
    hide RmIfExists;
  }

  lemma {:induction false} LeaveEachNominators(cfg: Config, st: Storage, n: Account, todo: map<Account, nat>)
    ensures LeaveEach(cfg, st, n, todo).nominators == st.nominators
    decreases |todo|
  {
    hide NominatorLeavesCandidate;
    if todo != map[] {
      var c := Least(todo.Keys);
      var r := NominatorLeavesCandidate(cfg, st, c, n, todo[c]);
      if r.Ok? {
        LeavesKeeps(cfg, st, c, n, todo[c]);
      }
      LeaveEachNominators(cfg, match r case Ok(s) => s case Err(_) => st, n, todo - {c});
    }
  }

  lemma KickThins(st: Storage, c: Account, kicked: Option<Bond>)
    requires Kick(st, c, kicked).Ok?
    ensures Thins(st, Kick(st, c, kicked).value)
  {
    hide Unreserve, RemoveRequest, RmEntry, Thinner;
    ThinsSelf(st);
    if kicked.Some? {
      UnreserveKeeps(st, kicked.value.owner, kicked.value.amount);
      DropThins(st.nominators[kicked.value.owner], c);
    }
  }

  lemma ReturnStakeThins(st: Storage, c: Account, b: Bond)
    requires ReturnStake(st, c, b).Ok?
    ensures Thins(st, ReturnStake(st, c, b).value) && ReturnStake(st, c, b).value.candidates == st.candidates
  {
    hide Unreserve, RemoveRequest, RmEntry, Thinner;
    ThinsSelf(st);
    UnreserveKeeps(st, b.owner, b.amount);
    DropThins(st.nominators[b.owner], c);
  }

  lemma UnreserveKeeps(st: Storage, a: Account, v: nat)
    ensures Unreserve(st, a, v).nominators == st.nominators && Unreserve(st, a, v).candidates == st.candidates
  {
  }

  lemma DropThins(s: Nominator, c: Account)
    ensures Thinner(s, RemoveRequest(RmEntry(s, c), c)) && Thinner(s, RmEntry(s, c))
  {
  }

  lemma ThinsOn(st: Storage, mid: Storage, st': Storage)
    requires Thins(st, mid) && Thins(mid, st')
    ensures Thins(st, st')
  {
  }

  lemma {:induction false} ReturnStakesThins(st: Storage, c: Account, bonds: seq<Bond>)
    requires ReturnStakes(st, c, bonds).Ok?
    ensures Thins(st, ReturnStakes(st, c, bonds).value)
    ensures ReturnStakes(st, c, bonds).value.candidates == st.candidates
    decreases bonds
  {
    hide Thins, ReturnStake;
    if bonds == [] {
      ThinsSelf(st);
    } else {
      var mid := ReturnStake(st, c, bonds[0]).value;
      ReturnStakeThins(st, c, bonds[0]);
      ReturnStakesThins(mid, c, bonds[1..]);
      ThinsOn(st, mid, ReturnStakes(mid, c, bonds[1..]).value);
    }
  }

  lemma ThinsSelf(st: Storage)
    ensures Thins(st, st)
    ensures forall n :: n in st.nominators ==> Thinner(st.nominators[n], st.nominators[n])
  {
  }

  /** A ticket of a nominator that is open after a step was open before or was scheduled by the step. */
  lemma NominatorTickets(cfg: Config, st: Storage, call: Call, t: Ticket)
    requires (t.Nomination? || t.NominatorExit?) && Open(Next(cfg, st, call), t)
    ensures Open(st, t) || Schedules(cfg, st, call, t)
  {
    hide Nominate, NominatorBondMore, ScheduleNominatorRequest, ExecuteRequest, CancelNominationRequest,
      ScheduleLeaveNominators, CancelLeaveNominators, ExecuteLeaveNominators, JoinCandidates, ScheduleLeaveCandidates,
      CancelLeaveCandidates, ExecuteLeaveCandidates, GoOffline, GoOnline, CandidateBondMore, ScheduleCandidateBondLess,
      ExecuteCandidateBondLess, CancelCandidateBondLess, SetValidatorTier, Slash, Schedules;
    if Step(cfg, st, call).Ok? {
      match call
      case CallNominate(n, c, amount, h, hint) => NominateTickets(cfg, st, n, c, amount, h, hint, t);
      case CallNominatorBondMore(n, c, more) => BondMoreTickets(cfg, st, n, c, more);
      case CallExecuteRequest(n, c) => ExecuteTickets(cfg, st, n, c);
      case CallExecuteLeaveNominators(n, hint) => ExitTickets(cfg, st, n, hint);
      case CallExecuteLeaveCandidates(stash, hint) => LeaveTickets(st, stash, hint);
      case CallScheduleRevoke(_, _) => RequestTickets(cfg, st, call, t);
      case CallScheduleDecrease(_, _, _) => RequestTickets(cfg, st, call, t);
      case CallCancelRequest(_, _) => RequestTickets(cfg, st, call, t);
      case CallScheduleLeaveNominators(_) => RequestTickets(cfg, st, call, t);
      case CallCancelLeaveNominators(_) => RequestTickets(cfg, st, call, t);
      case _ => QuietCalls(cfg, st, call);
    }
  }

  lemma RequestTickets(cfg: Config, st: Storage, call: Call, t: Ticket)
    requires (t.Nomination? || t.NominatorExit?) && Open(Next(cfg, st, call), t)
    requires call.CallScheduleRevoke? || call.CallScheduleDecrease? || call.CallCancelRequest?
      || call.CallScheduleLeaveNominators? || call.CallCancelLeaveNominators?
    ensures Open(st, t) || Schedules(cfg, st, call, t)
  {
    hide Nominate, NominatorBondMore, ExecuteRequest, ExecuteLeaveNominators, JoinCandidates, ScheduleLeaveCandidates,
      CancelLeaveCandidates, ExecuteLeaveCandidates, GoOffline, GoOnline, CandidateBondMore, ScheduleCandidateBondLess,
      ExecuteCandidateBondLess, CancelCandidateBondLess, SetValidatorTier, Slash, WrapSub;
  }

  lemma NominateTickets(cfg: Config, st: Storage, n: Account, c: Account, amount: nat, h: nat, hint: nat, t: Ticket)
    requires (t.Nomination? || t.NominatorExit?) && Nominate(cfg, st, n, c, amount, h, hint).Ok?
    requires Open(Nominate(cfg, st, n, c, amount, h, hint).value, t)
    ensures Open(st, t)
  {
    hide Nominate, AddNomination, Kick, PutNominated, Thins;
    NominateForm(cfg, st, n, c, amount, h, hint);
    var r := AddNomination(cfg, st.candidates[c], Bond(n, amount)).value;
    KickThins(PutNominated(st, c, r.candidate), c, r.kicked);
    ThinsCloses(PutNominated(st, c, r.candidate), Kick(PutNominated(st, c, r.candidate), c, r.kicked).value);
    PutKeeps(st, c, r.candidate);
  }

  lemma PutKeeps(st: Storage, c: Account, cand: Candidate)
    requires c in st.candidates
    ensures PutNominated(st, c, cand).nominators == st.nominators
  {
  }

  lemma BondMoreTickets(cfg: Config, st: Storage, n: Account, c: Account, more: nat)
    requires NominatorBondMore(cfg, st, n, c, more).Ok?
    ensures OnlyCloses(st, NominatorBondMore(cfg, st, n, c, more).value)
  {
    hide NominatorBondMore, Increase;
    BondMoreForm(cfg, st, n, c, more);
  }

  lemma ExecuteTickets(cfg: Config, st: Storage, n: Account, c: Account)
    requires ExecuteRequest(cfg, st, n, c).Ok?
    ensures var st' := ExecuteRequest(cfg, st, n, c).value;
      OnlyCloses(st, st') && (n in st'.nominators ==> c !in st'.nominators[n].requests)
  {
    hide NominatorLeavesCandidate, ExecuteDecrease, Candidates.Decrease, Unreserve, PutNominated;
    if st.nominators[n].requests[c].action.Revoke? {
      LeavesKeeps(cfg, st, c, n, st.nominators[n].requests[c].amount);
    } else {
      DecreaseForm(cfg, st, n, c);
    }
  }

  lemma ExitTickets(cfg: Config, st: Storage, n: Account, hint: nat)
    requires ExecuteLeaveNominators(cfg, st, n, hint).Ok?
    ensures ExecuteLeaveNominators(cfg, st, n, hint).value.nominators == st.nominators - {n}
    ensures OnlyCloses(st, ExecuteLeaveNominators(cfg, st, n, hint).value)
  {
    hide LeaveEach;
    LeaveEachNominators(cfg, st, n, st.nominators[n].nominations);
  }

  lemma LeaveTickets(st: Storage, stash: Account, hint: nat)
    requires ExecuteLeaveCandidates(st, stash, hint).Ok?
    ensures Thins(st, ExecuteLeaveCandidates(st, stash, hint).value) && OnlyCloses(st, ExecuteLeaveCandidates(st, stash, hint).value)
    ensures stash in st.bondedStash
    ensures ExecuteLeaveCandidates(st, stash, hint).value.candidates == st.candidates - {st.bondedStash[stash]}
  {
    hide OnlyCloses, Thins, ReturnStakes;
    var c := st.bondedStash[stash];
    var cand := st.candidates[c];
    var st1 := ReturnStakes(st, c, cand.top.nominations).value;
    var st2 := ReturnStakes(st1, c, cand.bottom.nominations).value;
    var st' := ExecuteLeaveCandidates(st, stash, hint).value;
    ReturnStakesThins(st, c, cand.top.nominations);
    ReturnStakesThins(st1, c, cand.bottom.nominations);
    ThinsOn(st, st1, st2);
    ThinsLike(st, st2, st');
    ThinsCloses(st, st');
  }

  lemma ThinsLike(st: Storage, st1: Storage, st2: Storage)
    requires Thins(st, st1) && st2.nominators == st1.nominators
    ensures Thins(st, st2)
  {
  }

  /** The calls that change a self-bond. */
  ghost predicate BondCall(call: Call) {
    || call.CallJoin? || call.CallCandidateBondMore? || call.CallExecuteBondLess? || call.CallSetTier? || call.Offence?
  }

  /** The calls that change a candidate's status or request, and those that change no candidate. */
  ghost predicate StatusCall(call: Call) {
    || call.CallScheduleLeaveCandidates? || call.CallCancelLeaveCandidates? || call.CallGoOffline? || call.CallGoOnline?
    || call.CallScheduleBondLess? || call.CallCancelBondLess? || call.Deposit? || call.NewRound?
  }

  lemma QuietCalls(cfg: Config, st: Storage, call: Call)
    requires BondCall(call) || StatusCall(call)
    ensures Next(cfg, st, call).nominators == st.nominators
  {
    hide Step;
    if BondCall(call) {
      QuietBondCalls(cfg, st, call);
    } else {
      QuietStatusCalls(cfg, st, call);
    }
  }

  lemma QuietStatusCalls(cfg: Config, st: Storage, call: Call)
    requires StatusCall(call)
    ensures Next(cfg, st, call).nominators == st.nominators
  {
    hide Nominate, NominatorBondMore, ScheduleNominatorRequest, ExecuteRequest, CancelNominationRequest,
      ScheduleLeaveNominators, CancelLeaveNominators, ExecuteLeaveNominators, JoinCandidates, ScheduleLeaveCandidates,
      CancelLeaveCandidates, ExecuteLeaveCandidates, GoOffline, GoOnline, CandidateBondMore, ScheduleCandidateBondLess,
      ExecuteCandidateBondLess, CancelCandidateBondLess, SetValidatorTier, Slash, Get;
    match call
    case CallScheduleLeaveCandidates(c, hint) => QuietExits(cfg, st, c, hint);
    case CallCancelLeaveCandidates(c, hint) => QuietExits(cfg, st, c, hint);
    case CallGoOnline(c) => QuietPool(cfg, st, c);
    case CallGoOffline(c) => QuietPool(cfg, st, c);
    case CallScheduleBondLess(c, less) => QuietBondLess(cfg, st, c, less);
    case CallCancelBondLess(c) => QuietBondLess(cfg, st, c, 0);
    case _ =>
  }

  ghost predicate Quiet(st: Storage, r: Result<Storage>) {
    r.Ok? ==> r.value.nominators == st.nominators
  }

  lemma QuietExits(cfg: Config, st: Storage, c: Account, hint: nat)
    ensures Quiet(st, ScheduleLeaveCandidates(cfg, st, c, hint)) && Quiet(st, CancelLeaveCandidates(cfg, st, c, hint))
  {
  }

  lemma QuietPool(cfg: Config, st: Storage, c: Account)
    ensures Quiet(st, GoOffline(st, c)) && Quiet(st, GoOnline(cfg, st, c))
  {
  }

  lemma QuietBondLess(cfg: Config, st: Storage, c: Account, less: nat)
    ensures Quiet(st, ScheduleCandidateBondLess(cfg, st, c, less)) && Quiet(st, CancelCandidateBondLess(st, c))
  {
    hide ScheduleBondLess;
  }

  lemma QuietBondCalls(cfg: Config, st: Storage, call: Call)
    requires BondCall(call)
    ensures Next(cfg, st, call).nominators == st.nominators
  {
    hide ExecuteBondLess, SlashBond, UpdateActive, Get, NewCandidate, MinSelfBond, BondMore, CanLeave;
    match call
    case CallJoin(_, _, _, _, _) =>
    case CallSetTier(_, _, _, _) =>
    case CallExecuteBondLess(_) =>
    case CallCandidateBondMore(_, _) =>
    case Offence(_, _) =>
  }

  // ----- the candidates' tickets

  lemma AddSame(cfg: Config, c: Candidate, b: Bond)
    requires AddNomination(cfg, c, b).Ok?
    ensures SameSelf(c, AddNomination(cfg, c, b).value.candidate)
  {
    hide Insert;
  }

  lemma RmSame(cfg: Config, c: Candidate, n: Account, amount: nat)
    requires RmIfExists(cfg, c, n, amount).Ok?
    ensures SameSelf(c, RmIfExists(cfg, c, n, amount).value.0)
  {
    hide Insert, Without, Held;
  }

  lemma IncreaseSame(cfg: Config, c: Candidate, n: Account, bond: nat, more: nat)
    requires Increase(cfg, c, n, bond, more).Ok?
    ensures SameSelf(c, Increase(cfg, c, n, bond, more).value.0)
  {
    hide Insert, Without, Held, StableSort, Shift;
  }

  lemma DecreaseSame(cfg: Config, c: Candidate, n: Account, bond: nat, less: nat)
    requires Candidates.Decrease(cfg, c, n, bond, less).Ok?
    ensures SameSelf(c, Candidates.Decrease(cfg, c, n, bond, less).value.0)
  {
    hide Insert, Without, Held, StableSort, Shift;
  }

  /** Every candidate of `st'` was there before with the same request and status. */
  ghost predicate SelvesKept(st: Storage, st': Storage) {
    forall c :: c in st'.candidates ==> c in st.candidates && SameSelf(st.candidates[c], st'.candidates[c])
  }

  lemma LeavesSelves(cfg: Config, st: Storage, c: Account, n: Account, amount: nat)
    requires NominatorLeavesCandidate(cfg, st, c, n, amount).Ok?
    ensures SelvesKept(st, NominatorLeavesCandidate(cfg, st, c, n, amount).value)
  {
    hide RmIfExists;
    RmSame(cfg, st.candidates[c], n, amount);
  }

  lemma {:induction false} LeaveEachSelves(cfg: Config, st: Storage, n: Account, todo: map<Account, nat>)
    ensures SelvesKept(st, LeaveEach(cfg, st, n, todo))
    decreases |todo|
  {
    hide NominatorLeavesCandidate, SelvesKept;
    if todo == map[] {
      SelvesSelf(st);
    } else {
      var c := Least(todo.Keys);
      var r := NominatorLeavesCandidate(cfg, st, c, n, todo[c]);
      var mid := match r case Ok(s) => s case Err(_) => st;
      if r.Ok? {
        LeavesSelves(cfg, st, c, n, todo[c]);
      } else {
        SelvesSelf(st);
      }
      LeaveEachSelves(cfg, mid, n, todo - {c});
      SelvesOn(st, mid, LeaveEach(cfg, mid, n, todo - {c}));
    }
  }

  lemma SelvesSelf(st: Storage)
    ensures SelvesKept(st, st)
  {
  }

  lemma SelvesOn(st: Storage, mid: Storage, st': Storage)
    requires SelvesKept(st, mid) && SelvesKept(mid, st')
    ensures SelvesKept(st, st')
  {
  }

  lemma NominatorCallsSelves(cfg: Config, st: Storage, call: Call)
    requires Step(cfg, st, call).Ok?
    requires call.CallNominate? || call.CallNominatorBondMore? || call.CallExecuteRequest? || call.CallExecuteLeaveNominators?
    ensures SelvesKept(st, Step(cfg, st, call).value)
  {
    hide Nominate, NominatorBondMore, AddNomination, RmIfExists, Increase, Candidates.Decrease, Kick, NominatorLeavesCandidate, LeaveEach,
      SameSelf, NominatorFor, ExecuteDecrease;
    match call
    case CallNominate(n, c, amount, h, hint) =>
      NominateForm(cfg, st, n, c, amount, h, hint);
      AddSame(cfg, st.candidates[c], Bond(n, amount));
      SelvesSelf(st);
    case CallNominatorBondMore(n, c, more) =>
      BondMoreForm(cfg, st, n, c, more);
      IncreaseSame(cfg, st.candidates[c], n, Records(st, n, c).value, more);
      SelvesSelf(st);
    case CallExecuteRequest(n, c) =>
      var amount := st.nominators[n].requests[c].amount;
      if st.nominators[n].requests[c].action.Revoke? {
        LeavesSelves(cfg, st, c, n, amount);
      } else {
        DecreaseForm(cfg, st, n, c);
        DecreaseSame(cfg, st.candidates[c], n, Records(st, n, c).value, amount);
        SelvesSelf(st);
      }
    case CallExecuteLeaveNominators(n, _) =>
      LeaveEachSelves(cfg, st, n, st.nominators[n].nominations);
  }

  /** Candidate `c` carries no ticket it did not carry before. */
  ghost predicate DropsOnly(st: Storage, st': Storage, c: Account) {
    c in st'.candidates ==>
      && (st'.candidates[c].request.Some? ==> c in st.candidates && st'.candidates[c].request == st.candidates[c].request)
      && (st'.candidates[c].status.Leaving? ==> c in st.candidates && st'.candidates[c].status == st.candidates[c].status)
  }

  lemma JoinDrops(cfg: Config, st: Storage, stash: Account, c: Account, relayer: Option<bool>, bond: nat, hint: nat, x: Account)
    requires JoinCandidates(cfg, st, stash, c, relayer, bond, hint).Ok?
    ensures DropsOnly(st, JoinCandidates(cfg, st, stash, c, relayer, bond, hint).value, x)
  {
  }

  lemma SelfBondDrops(cfg: Config, st: Storage, stash: Account, more: nat, tier: Tier, relayer: Option<bool>, x: Account)
    ensures CandidateBondMore(st, stash, more).Ok? ==> DropsOnly(st, CandidateBondMore(st, stash, more).value, x)
    ensures ExecuteCandidateBondLess(st, stash).Ok? ==> DropsOnly(st, ExecuteCandidateBondLess(st, stash).value, x)
    ensures SetValidatorTier(cfg, st, stash, more, tier, relayer).Ok? ==>
      DropsOnly(st, SetValidatorTier(cfg, st, stash, more, tier, relayer).value, x)
  {
    hide UpdateActive, Get, MinSelfBond;
  }

  lemma SlashDrops(cfg: Config, st: Storage, c: Account, amount: nat, x: Account)
    requires Slash(cfg, st, c, amount).Ok?
    ensures DropsOnly(st, Slash(cfg, st, c, amount).value, x)
  {
  }

  lemma BondCallTickets(cfg: Config, st: Storage, call: Call, t: Ticket)
    requires BondCall(call) && (t.SelfBond? || t.CandidateExit?) && Open(Next(cfg, st, call), t)
    ensures Open(st, t)
  {
    hide Nominate, NominatorBondMore, ScheduleNominatorRequest, ExecuteRequest, CancelNominationRequest,
      ScheduleLeaveNominators, CancelLeaveNominators, ExecuteLeaveNominators, JoinCandidates, ScheduleLeaveCandidates,
      CancelLeaveCandidates, ExecuteLeaveCandidates, GoOffline, GoOnline, CandidateBondMore, ScheduleCandidateBondLess,
      ExecuteCandidateBondLess, CancelCandidateBondLess, SetValidatorTier, Slash;
    if Step(cfg, st, call).Ok? {
      match call
      case CallJoin(stash, c, relayer, bond, hint) => JoinDrops(cfg, st, stash, c, relayer, bond, hint, t.c);
      case CallSetTier(stash, more, tier, relayer) => SelfBondDrops(cfg, st, stash, more, tier, relayer, t.c);
      case CallExecuteBondLess(stash) => SelfBondDrops(cfg, st, stash, 0, FullNode, None, t.c);
      case CallCandidateBondMore(stash, more) => SelfBondDrops(cfg, st, stash, more, FullNode, None, t.c);
      case Offence(c, amount) => SlashDrops(cfg, st, c, amount, t.c);
    }
  }

  lemma LeaveCallTickets(cfg: Config, st: Storage, c: Account, hint: nat, t: Ticket)
    requires (t.SelfBond? || t.CandidateExit?) && Open(Next(cfg, st, CallScheduleLeaveCandidates(c, hint)), t)
    ensures Open(st, t) || Schedules(cfg, st, CallScheduleLeaveCandidates(c, hint), t)
  {
  }

  lemma BondLessCallTickets(cfg: Config, st: Storage, c: Account, less: nat, t: Ticket)
    requires (t.SelfBond? || t.CandidateExit?) && Open(Next(cfg, st, CallScheduleBondLess(c, less)), t)
    ensures Open(st, t) || Schedules(cfg, st, CallScheduleBondLess(c, less), t)
  {
  }

  lemma StatusCallTickets(cfg: Config, st: Storage, call: Call, t: Ticket)
    requires StatusCall(call) && (t.SelfBond? || t.CandidateExit?) && Open(Next(cfg, st, call), t)
    ensures Open(st, t) || Schedules(cfg, st, call, t)
  {
    hide Schedules, Step;
    match call
    case CallScheduleLeaveCandidates(c, hint) => LeaveCallTickets(cfg, st, c, hint, t);
    case CallScheduleBondLess(c, less) => BondLessCallTickets(cfg, st, c, less, t);
    case _ => OtherCallTickets(cfg, st, call, t);
  }

  lemma OtherCallTickets(cfg: Config, st: Storage, call: Call, t: Ticket)
    requires StatusCall(call) && !call.CallScheduleLeaveCandidates? && !call.CallScheduleBondLess?
    requires (t.SelfBond? || t.CandidateExit?) && Open(Next(cfg, st, call), t)
    ensures Open(st, t)
  {
    hide Get, Nominate, NominatorBondMore, ScheduleNominatorRequest, ExecuteRequest, CancelNominationRequest, ScheduleLeaveNominators,
      CancelLeaveNominators, ExecuteLeaveNominators, JoinCandidates, ExecuteLeaveCandidates, CandidateBondMore, ExecuteCandidateBondLess,
      SetValidatorTier, Slash;
    match call
    case CallCancelLeaveCandidates(_, _) =>
    case CallGoOnline(_) =>
    case CallGoOffline(_) =>
    case CallCancelBondLess(_) =>
    case _ =>
  }

  /** A ticket of a candidate that is open after a step was open before or was scheduled by the step. */
  lemma CandidateTickets(cfg: Config, st: Storage, call: Call, t: Ticket)
    requires (t.SelfBond? || t.CandidateExit?) && Open(Next(cfg, st, call), t)
    ensures Open(st, t) || Schedules(cfg, st, call, t)
  {
    hide Step, Schedules;
    if BondCall(call) {
      BondCallTickets(cfg, st, call, t);
    } else if StatusCall(call) {
      StatusCallTickets(cfg, st, call, t);
    } else if Step(cfg, st, call).Ok? {
      if call.CallExecuteLeaveCandidates? {
        LeaveSelves(cfg, st, call);
      } else if call.CallNominate? || call.CallNominatorBondMore? || call.CallExecuteRequest? || call.CallExecuteLeaveNominators? {
        NominatorCallsSelves(cfg, st, call);
      } else {
        RequestCallsQuiet(cfg, st, call);
      }
    }
  }

  lemma LeaveSelves(cfg: Config, st: Storage, call: Call)
    requires call.CallExecuteLeaveCandidates? && Step(cfg, st, call).Ok?
    ensures SelvesKept(st, Next(cfg, st, call))
  {
    hide ExecuteLeaveCandidates;
    LeaveTickets(st, call.stash, call.hint);
  }

  lemma RequestCallsQuiet(cfg: Config, st: Storage, call: Call)
    requires call.CallScheduleRevoke? || call.CallScheduleDecrease? || call.CallCancelRequest?
      || call.CallScheduleLeaveNominators? || call.CallCancelLeaveNominators?
    ensures Next(cfg, st, call).candidates == st.candidates
  {
    hide ScheduleRevoke, ScheduleDecrease, CancelRequest;
  }

  // ----- whole runs

  /** The storage before call number `i` of a run. */
  ghost function At(cfg: Config, st: Storage, calls: seq<Call>, i: nat): Storage
    requires i <= |calls|
  {
    Run(cfg, st, calls[..i])
  }

  lemma {:induction false} RunSnoc(cfg: Config, st: Storage, calls: seq<Call>, call: Call)
    ensures Run(cfg, st, calls + [call]) == Next(cfg, Run(cfg, st, calls), call)
    decreases calls
  {
    hide Next;
    if calls == [] {
      assert [call][1..] == [];
      assert calls + [call] == [call];
      assert Run(cfg, st, [call]) == Run(cfg, Next(cfg, st, call), [call][1..]);
    } else {
      assert (calls + [call])[1..] == calls[1..] + [call];
      RunSnoc(cfg, Next(cfg, st, calls[0]), calls[1..], call);
    }
  }

  lemma AtNext(cfg: Config, st: Storage, calls: seq<Call>, i: nat)
    requires i < |calls|
    ensures At(cfg, st, calls, i + 1) == Next(cfg, At(cfg, st, calls, i), calls[i])
  {
    hide Next;
    assert calls[..i + 1] == calls[..i] + [calls[i]];
    RunSnoc(cfg, st, calls[..i], calls[i]);
  }

  /** Call `j` scheduled `t`, which has been open in every storage since, up to the one before call `i`. */
  ghost predicate OpenSince(cfg: Config, st: Storage, calls: seq<Call>, j: nat, i: nat, t: Ticket)
    requires j < i <= |calls|
  {
    && Schedules(cfg, At(cfg, st, calls, j), calls[j], t)
    && forall k :: j < k <= i ==> Open(At(cfg, st, calls, k), t)
  }

  lemma {:induction false} OpenedOnce(cfg: Config, free: map<Account, nat>, calls: seq<Call>, i: nat, t: Ticket) returns (j: nat)
    requires i <= |calls| && Open(At(cfg, Genesis(free), calls, i), t)
    ensures j < i && OpenSince(cfg, Genesis(free), calls, j, i, t)
  {
    hide Schedules, Next, Run;
    var st := Genesis(free);
    j := 0;
    if i == 0 {
      GenesisClosed(cfg, free, calls, t);
      assert false;
    } else {
      AtNext(cfg, st, calls, i - 1);
      var before := At(cfg, st, calls, i - 1);
      if t.Nomination? || t.NominatorExit? {
        NominatorTickets(cfg, before, calls[i - 1], t);
      } else {
        CandidateTickets(cfg, before, calls[i - 1], t);
      }
      if Open(before, t) {
        j := OpenedOnce(cfg, free, calls, i - 1, t);
      } else {
        j := i - 1;
      }
    }
  }

  lemma GenesisClosed(cfg: Config, free: map<Account, nat>, calls: seq<Call>, t: Ticket)
    ensures !Open(At(cfg, Genesis(free), calls, 0), t)
  {
    assert calls[..0] == [];
  }

  /** An accepted execution happens no earlier than the ticket is due. */
  lemma ExecutedWhenDue(cfg: Config, st: Storage, call: Call, t: Ticket)
    requires Executes(cfg, st, call, t)
    ensures t.Due() <= st.round
  {
    hide LeaveEach, ReturnStakes, ExecuteRevoke, ExecuteDecrease, Nominate, NominatorBondMore, ScheduleNominatorRequest,
      CancelNominationRequest, ScheduleLeaveNominators, CancelLeaveNominators, JoinCandidates, CandidateBondMore, SetValidatorTier,
      Slash, ScheduleLeaveCandidates, CancelLeaveCandidates, GoOffline, GoOnline, ScheduleCandidateBondLess,
      CancelCandidateBondLess, Unreserve, UpdateActive;
  }

  /** The timelock, for every run from an empty storage: whatever is executed at a round was scheduled
      by an accepted call at least its delay of rounds before, and has been open ever since. */
  lemma TimelockHolds(cfg: Config, free: map<Account, nat>, calls: seq<Call>, i: nat, t: Ticket) returns (j: nat)
    requires i < |calls| && Executes(cfg, At(cfg, Genesis(free), calls, i), calls[i], t)
    ensures j < i && OpenSince(cfg, Genesis(free), calls, j, i, t)
    ensures At(cfg, Genesis(free), calls, j).round + Delay(cfg, t) <= At(cfg, Genesis(free), calls, i).round
  {
    ExecutedWhenDue(cfg, At(cfg, Genesis(free), calls, i), calls[i], t);
    j := OpenedOnce(cfg, free, calls, i, t);
  }

  /** An execution closes its ticket. */
  lemma ExecutionCloses(cfg: Config, st: Storage, call: Call, t: Ticket)
    requires Executes(cfg, st, call, t)
    ensures !Open(Next(cfg, st, call), t)
  {
    hide LeaveEach, ReturnStakes, ExecuteRequest, OnlyCloses, Thins;
    match t
    case Nomination(n, c, _) => ExecuteTickets(cfg, st, n, c);
    case SelfBond(_, _) =>
    case CandidateExit(_, _) => LeaveTickets(st, call.stash, call.hint);
    case NominatorExit(n, _) => ExitTickets(cfg, st, n, call.hint);
  }

  lemma NotBoth(cfg: Config, st: Storage, call: Call, t: Ticket)
    requires Executes(cfg, st, call, t)
    ensures !Schedules(cfg, st, call, t)
  {
    hide Step;
  }

  /** One schedule is executed at most once: two executions of equal tickets in a run have two different
      schedules, the later of which lies between the executions, and each waited out its delay. */
  lemma EachScheduleOnce(cfg: Config, free: map<Account, nat>, calls: seq<Call>, i: nat, i': nat, t: Ticket) returns (j: nat, j': nat)
    requires i < i' < |calls|
    requires Executes(cfg, At(cfg, Genesis(free), calls, i), calls[i], t)
    requires Executes(cfg, At(cfg, Genesis(free), calls, i'), calls[i'], t)
    ensures j < i < j' < i'
    ensures OpenSince(cfg, Genesis(free), calls, j, i, t) && OpenSince(cfg, Genesis(free), calls, j', i', t)
    ensures At(cfg, Genesis(free), calls, j').round + Delay(cfg, t) <= At(cfg, Genesis(free), calls, i').round
  {
    hide Executes, Schedules, Open, Next, Run;
    var st := Genesis(free);
    j := TimelockHolds(cfg, free, calls, i, t);
    j' := TimelockHolds(cfg, free, calls, i', t);
    ExecutionCloses(cfg, At(cfg, st, calls, i), calls[i], t);
    NotBoth(cfg, At(cfg, st, calls, i), calls[i], t);
    AtNext(cfg, st, calls, i);
    assert !Open(At(cfg, st, calls, i + 1), t);
  }
}
