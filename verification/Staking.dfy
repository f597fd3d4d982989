/** The pallet's storage and its calls. A call that returns an error leaves the storage as it was. */
module Staking {
  import opened Wrappers
  import opened Bonds
  import opened Candidates
  import opened Nominators

  /** `candidates` joins the maps `CandidateInfo`, `TopNominations` and `BottomNominations`, whose
      entries are created together and removed together. `free` and `reserved` are the currency. */
  datatype Storage = Storage(
    candidates: map<Account, Candidate>, nominators: map<Account, Nominator>,
    bondedStash: map<Account, Account>, pool: map<Account, nat>,
    free: map<Account, nat>, reserved: map<Account, nat>,
    total: nat, round: nat)

  function Get(m: map<Account, nat>, a: Account): nat {
    if a in m then m[a] else 0
  }

  // ----- the currency

  function Reserve(st: Storage, a: Account, v: nat): Result<Storage> {
    if Get(st.free, a) < v then Err(InsufficientBalance)
    else Ok(st.(free := st.free[a := Get(st.free, a) - v], reserved := st.reserved[a := Get(st.reserved, a) + v]))
  }

  /** Gives back `v`, or all there is if less is reserved. */
  function Unreserve(st: Storage, a: Account, v: nat): Storage {
    var back := if v <= Get(st.reserved, a) then v else Get(st.reserved, a);
    st.(free := st.free[a := Get(st.free, a) + back], reserved := st.reserved[a := Get(st.reserved, a) - back])
  }

  // ----- shared pieces

  function UpdateActive(pool: map<Account, nat>, c: Account, power: nat): map<Account, nat> {
    if c in pool then pool[c := power] else pool
  }

  /** Stores the candidate after a nomination operation; `reset_top_data` writes the pool entry only
      if the voting power changed. */
  function PutNominated(st: Storage, c: Account, cand: Candidate): Storage
    requires c in st.candidates
  {
    var pool := if cand.votingPower != st.candidates[c].votingPower then UpdateActive(st.pool, c, cand.votingPower) else st.pool;
    st.(candidates := st.candidates[c := cand], pool := pool)
  }

  /** Stores the candidate after a change of its self-bond, and its pool entry. */
  function PutBonded(st: Storage, c: Account, cand: Candidate): Storage {
    st.(candidates := st.candidates[c := cand], pool := UpdateActive(st.pool, c, cand.votingPower))
  }

  function PutCandidate(st: Storage, c: Account, cand: Candidate): Storage {
    st.(candidates := st.candidates[c := cand])
  }

  function PutNominator(st: Storage, n: Account, s: Nominator): Storage {
    st.(nominators := st.nominators[n := s])
  }

  /** The evicted nominator gets its money back and loses the entry and its request. */
  function Kick(st: Storage, c: Account, kicked: Option<Bond>): Result<Storage> {
    match kicked
    case None => Ok(st)
    case Some(k) =>
      if k.owner !in st.nominators then Err(NominatorDNE)
      else
        var st1 := Unreserve(st, k.owner, k.amount);
        var s := st.nominators[k.owner];
        var s' := RemoveRequest(RmEntry(s, c), c);
        Ok(if |s.nominations| == 1 then st1.(nominators := st1.nominators - {k.owner})
           else PutNominator(st1, k.owner, s'))
  }

  function NominatorLeavesCandidate(cfg: Config, st: Storage, c: Account, n: Account, amount: nat): Result<Storage> {
    if c !in st.candidates then Err(CandidateDNE)
    else
      match RmIfExists(cfg, st.candidates[c], n, amount)
      case Err(e) => Err(e)
      case Ok((cand, _)) =>
        var st1 := Unreserve(PutNominated(st, c, cand), n, amount);
        Ok(st1.(total := SatSub(st1.total, amount)))
  }

  // ----- nominators

  function NominatorFor(cfg: Config, st: Storage, n: Account, c: Account, amount: nat, hint: nat): Result<Nominator> {
    if n in st.nominators then
      var s := st.nominators[n];
      if s.status.Exiting? then Err(CannotNominateIfLeaving)
      else if amount < cfg.minNomination then Err(NominationBelowMin)
      else if hint < |s.nominations| then Err(TooLowNominationCount)
      else if |s.nominations| >= cfg.maxNominations then Err(ExceedMaxNominationsPerNominator)
      else AddEntry(s, c, amount)
    else if amount < cfg.minNominatorStk then Err(NominatorBondBelowMin)
    else if n in st.candidates then Err(CandidateExists)
    else Ok(NewNominator(c, amount))
  }

  function Nominate(cfg: Config, st: Storage, n: Account, c: Account, amount: nat, candidateHint: nat, hint: nat): Result<Storage> {
    if Get(st.free, n) < amount then Err(InsufficientBalance)
    else
      match NominatorFor(cfg, st, n, c, amount, hint)
      case Err(e) => Err(e)
      case Ok(s) =>
        if c !in st.candidates then Err(CandidateDNE)
        else if candidateHint < st.candidates[c].count then Err(TooLowCandidateNominationCount)
        else
          match AddNomination(cfg, st.candidates[c], Bond(n, amount))
          case Err(e) => Err(e)
          case Ok(added) =>
            match Kick(PutNominated(st, c, added.candidate), c, added.kicked)
            case Err(e) => Err(e)
            case Ok(st1) =>
              match Reserve(st1, n, amount)
              case Err(e) => Err(e)
              case Ok(st2) =>
                var increase := match added.less case None => amount case Some(less) => WrapSub(amount, less);
                Ok(PutNominator(st2.(total := st2.total + increase), n, s))
  }

  function NominatorBondMore(cfg: Config, st: Storage, n: Account, c: Account, more: nat): Result<Storage> {
    if n !in st.nominators then Err(NominatorDNE)
    else
      var s := st.nominators[n];
      if c !in s.nominations then Err(NominationDNE)
      else if c !in st.candidates then Err(CandidateDNE)
      else
        match Reserve(st, n, more)
        case Err(e) => Err(e)
        case Ok(st1) =>
          match Increase(cfg, st.candidates[c], n, s.nominations[c], more)
          case Err(e) => Err(e)
          case Ok((cand, _)) =>
            var st2 := PutNominated(st1, c, cand);
            var st3 := PutBonded(st2, c, cand);
            var s' := s.(nominations := s.nominations[c := s.nominations[c] + more], total := s.total + more);
            Ok(PutNominator(st3.(total := st3.total + more), n, s'))
  }

  function ExecuteRevoke(cfg: Config, st: Storage, n: Account, c: Account): Result<Storage>
    requires n in st.nominators && c in st.nominators[n].requests
  {
    var s := st.nominators[n];
    var amount := s.requests[c].amount;
    var leaving := |s.nominations| == 1;
    if !leaving && WrapSub(s.total, cfg.minNominatorStk) < amount then Err(NominatorBondBelowMin)
    else
      var s1 := s.(requests := s.requests - {c}, lessTotal := SatSub(s.lessTotal, amount), revocations := SatSub(s.revocations, 1));
      match NominatorLeavesCandidate(cfg, st, c, n, amount)
      case Err(e) => Err(e)
      case Ok(st1) =>
        Ok(if leaving then st1.(nominators := st1.nominators - {n}) else PutNominator(st1, n, RmEntry(s1, c)))
  }

  function ExecuteDecrease(cfg: Config, st: Storage, n: Account, c: Account): Result<Storage>
    requires n in st.nominators && c in st.nominators[n].requests
  {
    var s := st.nominators[n];
    var amount := s.requests[c].amount;
    var s1 := s.(requests := s.requests - {c}, lessTotal := SatSub(s.lessTotal, amount));
    if c !in s.nominations then Err(NominationDNE)
    else if s.nominations[c] <= amount then Err(NominationBelowMin)
    else
      var before := s.nominations[c];
      var s2 := s1.(nominations := s.nominations[c := before - amount], total := SatSub(s.total, amount));
      if s2.total < cfg.minNomination then Err(NominationBelowMin)
      else if s2.total < cfg.minNominatorStk then Err(NominatorBondBelowMin)
      else if c !in st.candidates then Err(CandidateDNE)
      else
        match Candidates.Decrease(cfg, st.candidates[c], n, before, amount)
        case Err(e) => Err(e)
        case Ok((cand, _)) =>
          var st1 := PutNominated(Unreserve(st, n, amount), c, cand);
          Ok(PutNominator(st1.(total := SatSub(st1.total, amount)), n, s2))
  }

  function ExecuteRequest(cfg: Config, st: Storage, n: Account, c: Account): Result<Storage> {
    if n !in st.nominators then Err(NominatorDNE)
    else if c !in st.nominators[n].requests then Err(PendingNominationRequestDNE)
    else if st.nominators[n].requests[c].when > st.round then Err(PendingNominationRequestNotDueYet)
    else if st.nominators[n].requests[c].action.Revoke? then ExecuteRevoke(cfg, st, n, c)
    else ExecuteDecrease(cfg, st, n, c)
  }

  function ScheduleNominatorRequest(st: Storage, n: Account, scheduled: Nominator -> Result<Nominator>): Result<Storage> {
    if n !in st.nominators then Err(NominatorDNE)
    else if st.nominators[n].status.Exiting? then Err(NominatorAlreadyLeaving)
    else
      match scheduled(st.nominators[n])
      case Err(e) => Err(e)
      case Ok(s) => Ok(PutNominator(st, n, s))
  }

  function CancelNominationRequest(st: Storage, n: Account, c: Account): Result<Storage> {
    if n !in st.nominators then Err(NominatorDNE)
    else
      match CancelRequest(st.nominators[n], c)
      case Err(e) => Err(e)
      case Ok(s) => Ok(PutNominator(st, n, s))
  }

  function ScheduleLeaveNominators(cfg: Config, st: Storage, n: Account): Result<Storage> {
    if n !in st.nominators then Err(NominatorDNE)
    else
      var s := st.nominators[n];
      if s.status.Exiting? then Err(NominatorAlreadyLeaving)
      else if s.requests != map[] then Err(PendingNominationRequestAlreadyExists)
      else Ok(PutNominator(st, n, s.(status := Exiting(st.round + cfg.leaveNominatorsDelay))))
  }

  function CancelLeaveNominators(st: Storage, n: Account): Result<Storage> {
    if n !in st.nominators then Err(NominatorDNE)
    else if !st.nominators[n].status.Exiting? then Err(NominatorDNE)
    else Ok(PutNominator(st, n, st.nominators[n].(status := Staying)))
  }

  lemma LeastExists(s: set<Account>)
    requires s != {}
    ensures exists k :: k in s && forall j :: j in s ==> k <= j
  {
    var x :| x in s;
    if s - {x} == {} {
      assert s == {x};
    } else {
      LeastExists(s - {x});
      var y :| y in s - {x} && forall j :: j in s - {x} ==> y <= j;
      var z := if x <= y then x else y;
      forall j | j in s ensures z <= j {
        if j != x {
          assert j in s - {x};
        }
      }
      assert z in s && forall j :: j in s ==> z <= j;
    }
  }

  /** The first key of an ordered map. */
  ghost function Least(s: set<Account>): (k: Account)
    requires s != {}
    ensures k in s
  {
    LeastExists(s);
    var k :| k in s && forall j :: j in s ==> k <= j;
    k
  }

  /** Leaves every candidate in key order; a failure is only logged. */
  ghost function LeaveEach(cfg: Config, st: Storage, n: Account, todo: map<Account, nat>): Storage
    decreases |todo|
  {
    if todo == map[] then st
    else
      var c := Least(todo.Keys);
      var st1 := match NominatorLeavesCandidate(cfg, st, c, n, todo[c]) case Ok(s) => s case Err(_) => st;
      LeaveEach(cfg, st1, n, todo - {c})
  }

  ghost function ExecuteLeaveNominators(cfg: Config, st: Storage, n: Account, hint: nat): Result<Storage> {
    if n !in st.nominators then Err(NominatorDNE)
    else
      var s := st.nominators[n];
      if hint < |s.nominations| then Err(TooLowNominationCount)
      else
        match s.status
        case Staying => Err(NominatorNotLeaving)
        case Exiting(when) =>
          if st.round < when then Err(NominatorCannotLeaveYet)
          else
            var st1 := LeaveEach(cfg, st, n, s.nominations);
            Ok(st1.(nominators := st1.nominators - {n}))
  }

  // ----- candidates

  /** `relayer` is `None` for a basic node; for a full node it says whether the relay manager let the
      relayer join. */
  function JoinCandidates(cfg: Config, st: Storage, stash: Account, c: Account, relayer: Option<bool>, bond: nat, hint: nat): Result<Storage> {
    var tier := if relayer.Some? then FullNode else BasicNode;
    if stash in st.bondedStash then Err(AlreadyBonded)
    else if c in st.candidates then Err(AlreadyPaired)
    else if c in st.nominators then Err(NominatorExists)
    else if hint < |st.pool| then Err(TooLowCandidateCount)
    else if Get(st.free, stash) < bond then Err(InsufficientBalance)
    else if bond < MinSelfBond(cfg, tier) then Err(CandidateBondBelowMin)
    else if relayer == Some(false) then Err(RelayManagerRefused)
    else
      match Reserve(st, stash, bond)
      case Err(e) => Err(e)
      case Ok(st1) =>
        if c !in st.pool && |st.pool| >= cfg.maxCandidates then Err(TooManyCandidates)
        else
          Ok(st1.(candidates := st1.candidates[c := NewCandidate(stash, bond, tier)],
                  bondedStash := st1.bondedStash[stash := c],
                  pool := st1.pool[c := bond],
                  total := st1.total + bond))
  }

  function ScheduleLeaveCandidates(cfg: Config, st: Storage, c: Account, hint: nat): Result<Storage> {
    if c !in st.candidates then Err(CandidateDNE)
    else if hint < |st.pool| then Err(TooLowCandidateCount)
    else if c !in st.pool then Err(CannotLeaveIfOffline)
    else
      var cand := st.candidates[c];
      if cand.status.Leaving? then Err(CandidateAlreadyLeaving)
      else if cand.request.Some? then Err(PendingCandidateRequestAlreadyExists)
      else
        Ok(PutCandidate(st, c, cand.(status := Leaving(st.round + cfg.leaveCandidatesDelay))).(pool := st.pool - {c}))
  }

  function BackToPool(cfg: Config, st: Storage, c: Account): Result<Storage>
    requires c in st.candidates
  {
    if c !in st.pool && |st.pool| >= cfg.maxCandidates then Err(TooManyCandidates)
    else
      var cand := st.candidates[c].(status := Active);
      Ok(PutCandidate(st, c, cand).(pool := st.pool[c := cand.votingPower]))
  }

  function CancelLeaveCandidates(cfg: Config, st: Storage, c: Account, hint: nat): Result<Storage> {
    if c !in st.candidates then Err(CandidateDNE)
    else if !st.candidates[c].status.Leaving? then Err(CandidateNotLeaving)
    else if hint < |st.pool| then Err(TooLowCandidateCount)
    else BackToPool(cfg, st, c)
  }

  function GoOnline(cfg: Config, st: Storage, c: Account): Result<Storage> {
    if c !in st.candidates then Err(CandidateDNE)
    else if st.candidates[c].status.Active? then Err(AlreadyActive)
    else if st.candidates[c].status.Leaving? then Err(CannotGoOnlineIfLeaving)
    else BackToPool(cfg, st, c)
  }

  function GoOffline(st: Storage, c: Account): Result<Storage> {
    if c !in st.candidates then Err(CandidateDNE)
    else if !st.candidates[c].status.Active? then Err(AlreadyOffline)
    else if c !in st.pool then Err(AlreadyOffline)
    else Ok(PutCandidate(st, c, st.candidates[c].(status := Idle)).(pool := st.pool - {c}))
  }

  /** Returns one nominator's stake when its candidate leaves. */
  function ReturnStake(st: Storage, c: Account, b: Bond): Result<Storage> {
    if b.owner !in st.nominators then Err(NominatorDNE)
    else
      var st1 := Unreserve(st, b.owner, b.amount);
      var s := st.nominators[b.owner];
      if c !in s.nominations then Ok(st1)
      else
        var s1 := RmEntry(s, c);
        if s1.total == 0 then Ok(st1.(nominators := st1.nominators - {b.owner}))
        else Ok(PutNominator(st1, b.owner, RemoveRequest(s1, c)))
  }

  function ReturnStakes(st: Storage, c: Account, bonds: seq<Bond>): Result<Storage>
    decreases bonds
  {
    if bonds == [] then Ok(st)
    else
      match ReturnStake(st, c, bonds[0])
      case Err(e) => Err(e)
      case Ok(st1) => ReturnStakes(st1, c, bonds[1..])
  }

  function CanLeave(st: Storage, cand: Candidate): Result<()> {
    match cand.status
    case Leaving(when) => if st.round >= when then Ok(()) else Err(CandidateCannotLeaveYet)
    case _ => Err(CandidateNotLeaving)
  }

  function ExecuteLeaveCandidates(st: Storage, stash: Account, hint: nat): Result<Storage> {
    if stash !in st.bondedStash then Err(StashDNE)
    else
      var c := st.bondedStash[stash];
      if c !in st.candidates then Err(CandidateDNE)
      else
        var cand := st.candidates[c];
        if hint < cand.count then Err(TooLowCandidateNominationCount)
        else if CanLeave(st, cand).Err? then Err(CanLeave(st, cand).error)
        else
          match ReturnStakes(st, c, cand.top.nominations)
          case Err(e) => Err(e)
          case Ok(st1) =>
            match ReturnStakes(st1, c, cand.bottom.nominations)
            case Err(e) => Err(e)
            case Ok(st2) =>
              var backing := cand.bond + cand.top.total + cand.bottom.total;
              var st3 := Unreserve(st2, stash, cand.bond);
              Ok(st3.(candidates := st3.candidates - {c}, bondedStash := st3.bondedStash - {stash},
                      total := SatSub(st3.total, backing)))
  }

  function CandidateBondMore(st: Storage, stash: Account, more: nat): Result<Storage> {
    if stash !in st.bondedStash then Err(StashDNE)
    else
      var c := st.bondedStash[stash];
      if c !in st.candidates then Err(CandidateDNE)
      else
        match Reserve(st, stash, more)
        case Err(e) => Err(e)
        case Ok(st1) => Ok(PutBonded(st1.(total := st1.total + more), c, BondMore(st.candidates[c], more)))
  }

  function ScheduleCandidateBondLess(cfg: Config, st: Storage, c: Account, less: nat): Result<Storage> {
    if c !in st.candidates then Err(CandidateDNE)
    else if st.candidates[c].status.Leaving? then Err(CandidateAlreadyLeaving)
    else
      match ScheduleBondLess(cfg, st.candidates[c], st.round, less)
      case Err(e) => Err(e)
      case Ok(cand) => Ok(PutCandidate(st, c, cand))
  }

  function ExecuteCandidateBondLess(st: Storage, stash: Account): Result<Storage> {
    if stash !in st.bondedStash then Err(StashDNE)
    else
      var c := st.bondedStash[stash];
      if c !in st.candidates then Err(CandidateDNE)
      else
        match ExecuteBondLess(st.candidates[c], st.round)
        case Err(e) => Err(e)
        case Ok(cand) =>
          var amount := st.candidates[c].request.value.amount;
          var st1 := Unreserve(st, stash, amount);
          Ok(PutBonded(st1.(total := SatSub(st1.total, amount)), c, cand))
  }

  function CancelCandidateBondLess(st: Storage, c: Account): Result<Storage> {
    if c !in st.candidates then Err(CandidateDNE)
    else if st.candidates[c].request.None? then Err(PendingCandidateRequestsDNE)
    else Ok(PutCandidate(st, c, st.candidates[c].(request := None)))
  }

  function SetValidatorTier(cfg: Config, st: Storage, stash: Account, more: nat, tier: Tier, relayer: Option<bool>): Result<Storage> {
    if stash !in st.bondedStash then Err(StashDNE)
    else
      var c := st.bondedStash[stash];
      if c !in st.candidates then Err(CandidateDNE)
      else
        var cand := st.candidates[c];
        if cand.tier == tier then Err(NoWritingSameValue)
        else if relayer.Some? != (tier == FullNode) then Err(InvalidTierType)
        else if cand.bond + more < MinSelfBond(cfg, tier) then Err(CandidateBondBelowMin)
        else
          match Reserve(st, stash, more)
          case Err(e) => Err(e)
          case Ok(st1) =>
            if relayer == Some(false) then Err(RelayManagerRefused)
            else Ok(PutBonded(st1.(total := st1.total + more), c, BondMore(cand, more).(tier := tier)))
  }

  /** An offence that gets the validator kicked out and its self-bond slashed by `amount`, a fraction
      of the bond. */
  function Slash(cfg: Config, st: Storage, c: Account, amount: nat): Result<Storage> {
    if c !in st.candidates || st.candidates[c].status.KickedOut? || amount > st.candidates[c].bond then Err(NotAnOffender)
    else
      var cand := st.candidates[c];
      var taken := if amount <= Get(st.reserved, cand.stash) then amount else Get(st.reserved, cand.stash);
      Ok(PutCandidate(st, c, SlashBond(cfg, cand, amount).(status := KickedOut))
         .(pool := st.pool - {c},
           reserved := st.reserved[cand.stash := Get(st.reserved, cand.stash) - taken],
           total := SatSub(st.total, amount)))
  }

  // ----- one step

  datatype Call =
    | CallNominate(n: Account, c: Account, amount: nat, candidateHint: nat, hint: nat)
    | CallNominatorBondMore(n: Account, c: Account, more: nat)
    | CallScheduleRevoke(n: Account, c: Account)
    | CallScheduleDecrease(n: Account, c: Account, less: nat)
    | CallExecuteRequest(n: Account, c: Account)
    | CallCancelRequest(n: Account, c: Account)
    | CallScheduleLeaveNominators(n: Account)
    | CallCancelLeaveNominators(n: Account)
    | CallExecuteLeaveNominators(n: Account, hint: nat)
    | CallJoin(stash: Account, c: Account, relayer: Option<bool>, bond: nat, hint: nat)
    | CallScheduleLeaveCandidates(c: Account, hint: nat)
    | CallCancelLeaveCandidates(c: Account, hint: nat)
    | CallExecuteLeaveCandidates(stash: Account, hint: nat)
    | CallGoOffline(c: Account)
    | CallGoOnline(c: Account)
    | CallCandidateBondMore(stash: Account, more: nat)
    | CallScheduleBondLess(c: Account, less: nat)
    | CallExecuteBondLess(stash: Account)
    | CallCancelBondLess(c: Account)
    | CallSetTier(stash: Account, more: nat, tier: Tier, relayer: Option<bool>)
    | Offence(c: Account, amount: nat)
    | Deposit(who: Account, amount: nat)  // rewards and transfers
    | NewRound

  ghost function Step(cfg: Config, st: Storage, call: Call): Result<Storage> {
    match call
    case CallNominate(n, c, amount, candidateHint, hint) => Nominate(cfg, st, n, c, amount, candidateHint, hint)
    case CallNominatorBondMore(n, c, more) => NominatorBondMore(cfg, st, n, c, more)
    case CallScheduleRevoke(n, c) => ScheduleNominatorRequest(st, n, s => ScheduleRevoke(cfg, s, st.round, c))
    case CallScheduleDecrease(n, c, less) => ScheduleNominatorRequest(st, n, s => ScheduleDecrease(cfg, s, st.round, c, less))
    case CallExecuteRequest(n, c) => ExecuteRequest(cfg, st, n, c)
    case CallCancelRequest(n, c) => CancelNominationRequest(st, n, c)
    case CallScheduleLeaveNominators(n) => ScheduleLeaveNominators(cfg, st, n)
    case CallCancelLeaveNominators(n) => CancelLeaveNominators(st, n)
    case CallExecuteLeaveNominators(n, hint) => ExecuteLeaveNominators(cfg, st, n, hint)
    case CallJoin(stash, c, relayer, bond, hint) => JoinCandidates(cfg, st, stash, c, relayer, bond, hint)
    case CallScheduleLeaveCandidates(c, hint) => ScheduleLeaveCandidates(cfg, st, c, hint)
    case CallCancelLeaveCandidates(c, hint) => CancelLeaveCandidates(cfg, st, c, hint)
    case CallExecuteLeaveCandidates(stash, hint) => ExecuteLeaveCandidates(st, stash, hint)
    case CallGoOffline(c) => GoOffline(st, c)
    case CallGoOnline(c) => GoOnline(cfg, st, c)
    case CallCandidateBondMore(stash, more) => CandidateBondMore(st, stash, more)
    case CallScheduleBondLess(c, less) => ScheduleCandidateBondLess(cfg, st, c, less)
    case CallExecuteBondLess(stash) => ExecuteCandidateBondLess(st, stash)
    case CallCancelBondLess(c) => CancelCandidateBondLess(st, c)
    case CallSetTier(stash, more, tier, relayer) => SetValidatorTier(cfg, st, stash, more, tier, relayer)
    case Offence(c, amount) => Slash(cfg, st, c, amount)
    case Deposit(who, amount) => Ok(st.(free := st.free[who := Get(st.free, who) + amount]))
    case NewRound => Ok(st.(round := st.round + 1))
  }

  /** The storage after a call: unchanged if the call failed. */
  ghost function Next(cfg: Config, st: Storage, call: Call): Storage {
    match Step(cfg, st, call) case Ok(st') => st' case Err(_) => st
  }
}
