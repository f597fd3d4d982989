/** What every call promises, without lists in storage, caches or two ledgers to keep in step: why it is
    refused, and what is recorded, requested and bonded after it is accepted. */
module Reference {
  import opened Wrappers
  import opened Bonds
  import opened Candidates
  import opened Nominators
  import opened Staking
  import opened StakingLaws

  // ----- what can be observed

  /** The candidate itself, without its nominations. */
  datatype Self = Self(stash: Account, bond: nat, request: Option<BondLessRequest>, status: Status, tier: Tier)

  ghost function SelfOf(st: Storage, c: Account): Option<Self> {
    if c !in st.candidates then None
    else
      var cand := st.candidates[c];
      Some(Self(cand.stash, cand.bond, cand.request, cand.status, cand.tier))
  }

  ghost function RequestOf(st: Storage, n: Account, c: Account): Option<Request> {
    if n in st.nominators && c in st.nominators[n].requests then Some(st.nominators[n].requests[c]) else None
  }

  ghost function ExitOf(st: Storage, n: Account): Option<NominatorStatus> {
    if n in st.nominators then Some(st.nominators[n].status) else None
  }

  // ----- why a call is refused: the first of its conditions that holds

  function MinimumOf(cfg: Config, tier: Tier): nat {
    match tier case FullNode => cfg.minFullCandidateStk case BasicNode => cfg.minBasicCandidateStk
  }

  /** Both lists are full and `amount` does not beat the least nomination. */
  ghost predicate Outbid(cfg: Config, cand: Candidate, amount: nat) {
    var t, b := cand.top.nominations, cand.bottom.nominations;
    |t| == cfg.maxTop && |b| == cfg.maxBottom && b != [] && amount <= b[|b| - 1].amount
  }

  ghost function NominateRefusal(cfg: Config, st: Storage, n: Account, c: Account, amount: nat, candidateHint: nat, hint: nat): Option<Error> {
    if Get(st.free, n) < amount then Some(InsufficientBalance)
    else if n in st.nominators && st.nominators[n].status.Exiting? then Some(CannotNominateIfLeaving)
    else if n in st.nominators && amount < cfg.minNomination then Some(NominationBelowMin)
    else if n in st.nominators && hint < |st.nominators[n].nominations| then Some(TooLowNominationCount)
    else if n in st.nominators && |st.nominators[n].nominations| >= cfg.maxNominations then Some(ExceedMaxNominationsPerNominator)
    else if Records(st, n, c).Some? then Some(AlreadyNominatedCandidate)
    else if n !in st.nominators && amount < cfg.minNominatorStk then Some(NominatorBondBelowMin)
    else if n !in st.nominators && n in st.candidates then Some(CandidateExists)
    else if c !in st.candidates then Some(CandidateDNE)
    else if candidateHint < |st.candidates[c].top.nominations| + |st.candidates[c].bottom.nominations|
    then Some(TooLowCandidateNominationCount)
    else if Outbid(cfg, st.candidates[c], amount) then Some(CannotNominateLessThanLowestBottomWhenBottomIsFull)
    else None
  }

  ghost function BondMoreRefusal(st: Storage, n: Account, c: Account, more: nat): Option<Error> {
    if n !in st.nominators then Some(NominatorDNE)
    else if Records(st, n, c).None? then Some(NominationDNE)
    else if Get(st.free, n) < more then Some(InsufficientBalance)
    else None
  }

  /** What a decrease may take at most: what the net total exceeds the minimum stake by, or, if it is below
      the minimum, that difference modulo 2^128. */
  function MostLess(cfg: Config, s: Nominator): int {
    s.total - s.lessTotal - cfg.minNominatorStk + if s.total - s.lessTotal < cfg.minNominatorStk then BALANCES else 0
  }

  ghost function ScheduleRefusal(cfg: Config, st: Storage, n: Account, c: Account, less: Option<nat>): Option<Error> {
    if n !in st.nominators then Some(NominatorDNE)
    else if st.nominators[n].status.Exiting? then Some(NominatorAlreadyLeaving)
    else if Records(st, n, c).None? then Some(NominationDNE)
    else if less.Some? && Records(st, n, c).value <= less.value then Some(NominatorBondBelowMin)
    else if less.Some? && Records(st, n, c).value < less.value + cfg.minNomination then Some(NominationBelowMin)
    else if less.Some? && less.value > MostLess(cfg, st.nominators[n]) then Some(NominatorBondBelowMin)
    else if RequestOf(st, n, c).Some? then Some(PendingNominationRequestAlreadyExists)
    else None
  }

  /** The revocation is for less than the nomination has become and below all of a full top list that
      holds the nomination. */
  ghost predicate Missed(cfg: Config, st: Storage, n: Account, c: Account, amount: nat) {
    && c in st.candidates && Records(st, n, c).Some?
    && var t := st.candidates[c].top.nominations;
    |t| == cfg.maxTop && t != [] && amount < t[|t| - 1].amount && Bond(n, Records(st, n, c).value) in t
  }

  ghost function ExecuteRefusal(cfg: Config, st: Storage, n: Account, c: Account): Option<Error> {
    if n !in st.nominators then Some(NominatorDNE)
    else if RequestOf(st, n, c).None? then Some(PendingNominationRequestDNE)
    else
      var s, r := st.nominators[n], RequestOf(st, n, c).value;
      if r.when > st.round then Some(PendingNominationRequestNotDueYet)
      else if r.action.Revoke? then
        if |s.nominations| != 1 && s.total >= cfg.minNominatorStk && s.total - r.amount < cfg.minNominatorStk
        then Some(NominatorBondBelowMin)
        else if Missed(cfg, st, n, c, r.amount) then Some(NominationDNE)
        else None
      else if s.total - r.amount < cfg.minNomination then Some(NominationBelowMin)
      else if s.total - r.amount < cfg.minNominatorStk then Some(NominatorBondBelowMin)
      else None
  }

  ghost function ExitRefusal(st: Storage, n: Account, hint: nat): Option<Error> {
    if n !in st.nominators then Some(NominatorDNE)
    else if hint < |st.nominators[n].nominations| then Some(TooLowNominationCount)
    else if st.nominators[n].status.Staying? then Some(NominatorNotLeaving)
    else if st.nominators[n].status.when > st.round then Some(NominatorCannotLeaveYet)
    else None
  }

  ghost function JoinRefusal(cfg: Config, st: Storage, stash: Account, c: Account, relayer: Option<bool>, bond: nat, hint: nat): Option<Error> {
    if stash in st.bondedStash then Some(AlreadyBonded)
    else if c in st.candidates then Some(AlreadyPaired)
    else if c in st.nominators then Some(NominatorExists)
    else if hint < |st.pool| then Some(TooLowCandidateCount)
    else if Get(st.free, stash) < bond then Some(InsufficientBalance)
    else if bond < MinimumOf(cfg, if relayer.Some? then FullNode else BasicNode) then Some(CandidateBondBelowMin)
    else if relayer == Some(false) then Some(RelayManagerRefused)
    else if |st.pool| >= cfg.maxCandidates then Some(TooManyCandidates)
    else None
  }

  /** Calls of a candidate by its own account. */
  ghost function SelfRefusal(cfg: Config, st: Storage, call: Call): Option<Error>
    requires call.CallScheduleLeaveCandidates? || call.CallCancelLeaveCandidates? || call.CallGoOffline? || call.CallGoOnline?
      || call.CallScheduleBondLess? || call.CallCancelBondLess?
  {
    if SelfOf(st, call.c).None? then Some(CandidateDNE)
    else
      var self := SelfOf(st, call.c).value;
      match call
      case CallScheduleLeaveCandidates(c, hint) =>
        if hint < |st.pool| then Some(TooLowCandidateCount)
        else if !self.status.Active? then Some(CannotLeaveIfOffline)
        else if self.request.Some? then Some(PendingCandidateRequestAlreadyExists)
        else None
      case CallCancelLeaveCandidates(c, hint) =>
        if !self.status.Leaving? then Some(CandidateNotLeaving)
        else if hint < |st.pool| then Some(TooLowCandidateCount)
        else if |st.pool| >= cfg.maxCandidates then Some(TooManyCandidates)
        else None
      case CallGoOffline(c) => if self.status.Active? then None else Some(AlreadyOffline)
      case CallGoOnline(c) =>
        if self.status.Active? then Some(AlreadyActive)
        else if self.status.Leaving? then Some(CannotGoOnlineIfLeaving)
        else if |st.pool| >= cfg.maxCandidates then Some(TooManyCandidates)
        else None
      case CallScheduleBondLess(c, less) =>
        if self.status.Leaving? then Some(CandidateAlreadyLeaving)
        else if self.request.Some? then Some(PendingCandidateRequestAlreadyExists)
        else if self.bond <= less || self.bond < less + MinimumOf(cfg, self.tier) then Some(CandidateBondBelowMin)
        else None
      case CallCancelBondLess(c) => if self.request.None? then Some(PendingCandidateRequestsDNE) else None
  }

  /** Calls of a candidate by its stash. */
  ghost function StashRefusal(cfg: Config, st: Storage, call: Call): Option<Error>
    requires call.CallExecuteLeaveCandidates? || call.CallCandidateBondMore? || call.CallExecuteBondLess? || call.CallSetTier?
  {
    if call.stash !in st.bondedStash || SelfOf(st, st.bondedStash[call.stash]).None? then Some(StashDNE)
    else
      var c := st.bondedStash[call.stash];
      var self := SelfOf(st, c).value;
      match call
      case CallExecuteLeaveCandidates(_, hint) =>
        if hint < |st.candidates[c].top.nominations| + |st.candidates[c].bottom.nominations| then Some(TooLowCandidateNominationCount)
        else if !self.status.Leaving? then Some(CandidateNotLeaving)
        else if self.status.when > st.round then Some(CandidateCannotLeaveYet)
        else None
      case CallCandidateBondMore(stash, more) => if Get(st.free, stash) < more then Some(InsufficientBalance) else None
      case CallExecuteBondLess(_) =>
        if self.request.None? then Some(PendingCandidateRequestsDNE)
        else if self.request.value.when > st.round then Some(PendingCandidateRequestNotDueYet)
        else None
      case CallSetTier(stash, more, tier, relayer) =>
        if self.tier == tier then Some(NoWritingSameValue)
        else if relayer.Some? != (tier == FullNode) then Some(InvalidTierType)
        else if self.bond + more < MinimumOf(cfg, tier) then Some(CandidateBondBelowMin)
        else if Get(st.free, stash) < more then Some(InsufficientBalance)
        else if relayer == Some(false) then Some(RelayManagerRefused)
        else None
  }

  ghost function Refusal(cfg: Config, st: Storage, call: Call): Option<Error> {
    match call
    case CallNominate(n, c, amount, candidateHint, hint) => NominateRefusal(cfg, st, n, c, amount, candidateHint, hint)
    case CallNominatorBondMore(n, c, more) => BondMoreRefusal(st, n, c, more)
    case CallScheduleRevoke(n, c) => ScheduleRefusal(cfg, st, n, c, None)
    case CallScheduleDecrease(n, c, less) => ScheduleRefusal(cfg, st, n, c, Some(less))
    case CallExecuteRequest(n, c) => ExecuteRefusal(cfg, st, n, c)
    case CallCancelRequest(n, c) =>
      if n !in st.nominators then Some(NominatorDNE)
      else if RequestOf(st, n, c).None? then Some(PendingNominationRequestDNE)
      else None
    case CallScheduleLeaveNominators(n) =>
      if n !in st.nominators then Some(NominatorDNE)
      else if st.nominators[n].status.Exiting? then Some(NominatorAlreadyLeaving)
      else if exists c :: RequestOf(st, n, c).Some? then Some(PendingNominationRequestAlreadyExists)
      else None
    case CallCancelLeaveNominators(n) => if n in st.nominators && st.nominators[n].status.Exiting? then None else Some(NominatorDNE)
    case CallExecuteLeaveNominators(n, hint) => ExitRefusal(st, n, hint)
    case CallJoin(stash, c, relayer, bond, hint) => JoinRefusal(cfg, st, stash, c, relayer, bond, hint)
    case Offence(c, amount) =>
      if c in st.candidates && !st.candidates[c].status.KickedOut? && amount <= st.candidates[c].bond then None else Some(NotAnOffender)
    case Deposit(_, _) => None
    case NewRound => None
    case CallExecuteLeaveCandidates(_, _) => StashRefusal(cfg, st, call)
    case CallCandidateBondMore(_, _) => StashRefusal(cfg, st, call)
    case CallExecuteBondLess(_) => StashRefusal(cfg, st, call)
    case CallSetTier(_, _, _, _) => StashRefusal(cfg, st, call)
    case _ => SelfRefusal(cfg, st, call)
  }

  // ----- what an accepted call leaves behind

  /** `n` is the owner of the last bond of a full bottom list, which the next nomination evicts. */
  ghost predicate Evicts(cfg: Config, st: Storage, c: Account, n: Account) {
    && c in st.candidates
    && var t, b := st.candidates[c].top.nominations, st.candidates[c].bottom.nominations;
    |t| == cfg.maxTop && |b| == cfg.maxBottom && b != [] && b[|b| - 1].owner == n
  }

  ghost predicate BondedTo(st: Storage, stash: Account, c: Account) {
    stash in st.bondedStash && st.bondedStash[stash] == c
  }

  /** What `n` records for `c` after the call. */
  ghost function RecordAfter(cfg: Config, st: Storage, call: Call, n: Account, c: Account): Option<nat> {
    match call
    case CallNominate(m, d, amount, _, _) =>
      if n == m && c == d then Some(amount) else if c == d && Evicts(cfg, st, d, n) then None else Records(st, n, c)
    case CallNominatorBondMore(m, d, more) =>
      if n == m && c == d && Records(st, n, c).Some? then Some(Records(st, n, c).value + more) else Records(st, n, c)
    case CallExecuteRequest(m, d) =>
      if n != m || c != d || RequestOf(st, n, c).None? || Records(st, n, c).None? then Records(st, n, c)
      else if RequestOf(st, n, c).value.action.Revoke? || Records(st, n, c).value < RequestOf(st, n, c).value.amount then None
      else Some(Records(st, n, c).value - RequestOf(st, n, c).value.amount)
    case CallExecuteLeaveNominators(m, _) => if n == m then None else Records(st, n, c)
    case CallExecuteLeaveCandidates(stash, _) => if BondedTo(st, stash, c) then None else Records(st, n, c)
    case _ => Records(st, n, c)
  }

  /** What `n` has requested at `c` after the call. */
  ghost function RequestAfter(cfg: Config, st: Storage, call: Call, n: Account, c: Account): Option<Request> {
    match call
    case CallNominate(_, d, _, _, _) => if c == d && Evicts(cfg, st, d, n) then None else RequestOf(st, n, c)
    case CallScheduleRevoke(m, d) =>
      if n == m && c == d && Records(st, n, c).Some? then Some(Request(Records(st, n, c).value, st.round + cfg.revokeNominationDelay, Revoke))
      else RequestOf(st, n, c)
    case CallScheduleDecrease(m, d, less) =>
      if n == m && c == d then Some(Request(less, st.round + cfg.nominationBondLessDelay, Decrease)) else RequestOf(st, n, c)
    case CallExecuteRequest(m, d) => if n == m && c == d then None else RequestOf(st, n, c)
    case CallCancelRequest(m, d) => if n == m && c == d then None else RequestOf(st, n, c)
    case CallExecuteLeaveNominators(m, _) => if n == m then None else RequestOf(st, n, c)
    case CallExecuteLeaveCandidates(stash, _) => if BondedTo(st, stash, c) then None else RequestOf(st, n, c)
    case _ => RequestOf(st, n, c)
  }

  /** The status after the call of a nominator that is still one. */
  ghost function ExitAfter(cfg: Config, st: Storage, call: Call, n: Account): Option<NominatorStatus> {
    match call
    case CallNominate(m, _, _, _, _) => if n == m then Some(Staying) else ExitOf(st, n)
    case CallScheduleLeaveNominators(m) => if n == m then Some(Exiting(st.round + cfg.leaveNominatorsDelay)) else ExitOf(st, n)
    case CallCancelLeaveNominators(m) => if n == m then Some(Staying) else ExitOf(st, n)
    case _ => ExitOf(st, n)
  }

  /** The candidate itself after the call. */
  ghost function SelfAfter(cfg: Config, st: Storage, call: Call, c: Account): Option<Self> {
    if call.CallJoin? && call.c == c then
      Some(Self(call.stash, call.bond, None, Active, if call.relayer.Some? then FullNode else BasicNode))
    else if SelfOf(st, c).None? then None
    else
      var self := SelfOf(st, c).value;
      match call
      case CallScheduleLeaveCandidates(d, _) => Some(if c == d then self.(status := Leaving(st.round + cfg.leaveCandidatesDelay)) else self)
      case CallCancelLeaveCandidates(d, _) => Some(if c == d then self.(status := Active) else self)
      case CallGoOffline(d) => Some(if c == d then self.(status := Idle) else self)
      case CallGoOnline(d) => Some(if c == d then self.(status := Active) else self)
      case CallScheduleBondLess(d, less) =>
        Some(if c == d then self.(request := Some(BondLessRequest(less, st.round + cfg.candidateBondLessDelay))) else self)
      case CallCancelBondLess(d) => Some(if c == d then self.(request := None) else self)
      case CallExecuteLeaveCandidates(stash, _) => if BondedTo(st, stash, c) then None else Some(self)
      case CallCandidateBondMore(stash, more) => Some(if BondedTo(st, stash, c) then self.(bond := self.bond + more) else self)
      case CallExecuteBondLess(stash) =>
        Some(if BondedTo(st, stash, c) && self.request.Some? && self.request.value.amount <= self.bond
             then self.(bond := self.bond - self.request.value.amount, request := None) else self)
      case CallSetTier(stash, more, tier, _) => Some(if BondedTo(st, stash, c) then self.(bond := self.bond + more, tier := tier) else self)
      case Offence(d, amount) => Some(if c == d && amount <= self.bond then Slashed(cfg, self, amount) else self)
      case _ => Some(self)
  }

  /** Kicked out with less of a bond; a bond-less request that no longer leaves the minimum is dropped. */
  function Slashed(cfg: Config, self: Self, amount: nat): Self
    requires amount <= self.bond
  {
    var bond := self.bond - amount;
    var kept := self.request.Some? && bond > self.request.value.amount && bond >= self.request.value.amount + MinimumOf(cfg, self.tier);
    self.(bond := bond, status := KickedOut, request := if kept then self.request else None)
  }

  /** The storage after an accepted call is what the call promises, for every nominator and every candidate. */
  ghost predicate AsPromised(cfg: Config, st: Storage, call: Call, st': Storage) {
    && (forall n, c :: Records(st', n, c) == RecordAfter(cfg, st, call, n, c))
    && (forall n, c :: RequestOf(st', n, c) == RequestAfter(cfg, st, call, n, c))
    && (forall n :: n in st'.nominators ==> ExitOf(st', n) == ExitAfter(cfg, st, call, n))
    && (forall c :: SelfOf(st', c) == SelfAfter(cfg, st, call, c))
    && st'.round == st.round + if call.NewRound? then 1 else 0
  }
}
