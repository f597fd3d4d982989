/** One validator candidate: its metadata, its top and bottom nominations, and every operation of
    the pallet that edits them, as functions on values.

    `Candidate` joins the candidate's entries of the storage maps `CandidateInfo`, `TopNominations`
    and `BottomNominations`. */
module Candidates {
  import opened Wrappers
  import opened Bonds

  datatype Error =
    | NominatorDNE | CandidateDNE | StashDNE | NominationDNE | TopNominationDNE | BottomNominationDNE
    | NominatorExists | CandidateExists | CandidateBondBelowMin | InsufficientBalance
    | NominatorBondBelowMin | NominationBelowMin | AlreadyOffline | AlreadyActive | AlreadyBonded
    | AlreadyPaired | NominatorAlreadyLeaving | NominatorNotLeaving | NominatorCannotLeaveYet
    | CannotNominateIfLeaving | CandidateAlreadyLeaving | CandidateNotLeaving
    | CandidateCannotLeaveYet | CannotGoOnlineIfLeaving | CannotLeaveIfOffline
    | ExceedMaxNominationsPerNominator | AlreadyNominatedCandidate | InvalidTierType
    | NoWritingSameValue | TooManyCandidates | RelayManagerRefused
    | TooLowCandidateCount | TooLowNominationCount | TooLowCandidateNominationCount
    | PendingCandidateRequestsDNE | PendingCandidateRequestAlreadyExists
    | PendingCandidateRequestNotDueYet | PendingNominationRequestDNE
    | PendingNominationRequestAlreadyExists | PendingNominationRequestNotDueYet
    | CannotNominateLessThanLowestBottomWhenBottomIsFull
    | NotAnOffender
    | Trap  // the runtime panics: an index into an empty list

  type Result<+T> = Outcome<T, Error>

  /** The pallet's constants. */
  datatype Config = Config(
    maxTop: nat, maxBottom: nat, maxNominations: nat, maxCandidates: nat,
    minFullCandidateStk: nat, minBasicCandidateStk: nat, minNomination: nat, minNominatorStk: nat,
    leaveCandidatesDelay: nat, candidateBondLessDelay: nat, leaveNominatorsDelay: nat,
    revokeNominationDelay: nat, nominationBondLessDelay: nat)
  {
    predicate Valid() {
      maxTop >= 1 && maxBottom >= 1 && minNomination >= 1 && minNominatorStk >= 1
    }
  }

  datatype Capacity = Full | Empty | Partial
  datatype Tier = FullNode | BasicNode
  datatype Status = Active | Idle | KickedOut | Leaving(when: nat)
  datatype BondLessRequest = BondLessRequest(amount: nat, when: nat)
  datatype Nominations = Nominations(nominations: seq<Bond>, total: nat)

  datatype Candidate = Candidate(
    stash: Account, bond: nat, count: nat, votingPower: nat,
    lowestTop: nat, highestBottom: nat, lowestBottom: nat,
    topCapacity: Capacity, bottomCapacity: Capacity,
    request: Option<BondLessRequest>, status: Status, tier: Tier,
    top: Nominations, bottom: Nominations)

  function Lowest(l: Nominations): nat {
    if l.nominations == [] then 0 else l.nominations[|l.nominations| - 1].amount
  }

  function Highest(l: Nominations): nat {
    if l.nominations == [] then 0 else l.nominations[0].amount
  }

  function CapacityOf(l: Nominations, max: nat): Capacity {
    if |l.nominations| >= max then Full else if l.nominations == [] then Empty else Partial
  }

  function InsertInto(l: Nominations, b: Bond): Nominations {
    Nominations(Insert(l.nominations, b), l.total + b.amount)
  }

  /** The list without its last bond. */
  function Pop(l: Nominations): Nominations
    requires l.nominations != []
  {
    var k := |l.nominations| - 1;
    Nominations(l.nominations[..k], SatSub(l.total, l.nominations[k].amount))
  }

  /** The list without its first bond. */
  function PopFirst(l: Nominations): Nominations
    requires l.nominations != []
  {
    Nominations(l.nominations[1..], SatSub(l.total, l.nominations[0].amount))
  }

  const NoNominations := Nominations([], 0)

  function NewCandidate(stash: Account, bond: nat, tier: Tier): Candidate {
    Candidate(stash, bond, 0, bond, 0, 0, 0, Empty, Empty, None, Active, tier, NoNominations, NoNominations)
  }

  function ResetTop(cfg: Config, c: Candidate, top: Nominations): Candidate {
    c.(top := top, lowestTop := Lowest(top), topCapacity := CapacityOf(top, cfg.maxTop),
       votingPower := c.bond + top.total)
  }

  function ResetBottom(cfg: Config, c: Candidate, bottom: Nominations): Candidate {
    c.(bottom := bottom, lowestBottom := Lowest(bottom), highestBottom := Highest(bottom),
       bottomCapacity := CapacityOf(bottom, cfg.maxBottom))
  }

  // ----- adding

  datatype Added = Added(candidate: Candidate, toTop: bool, less: Option<nat>, kicked: Option<Bond>)

  function AddBottom(cfg: Config, c: Candidate, bumped: bool, b: Bond): (r: Result<(Candidate, Option<Bond>)>) {
    var l := c.bottom.nominations;
    if |l| == cfg.maxBottom then
      if l == [] then Err(BottomNominationDNE)
      else Ok((ResetBottom(cfg, c, InsertInto(Pop(c.bottom), b)), Some(l[|l| - 1])))
    else
      var c1 := if bumped then c else c.(count := c.count + 1);
      Ok((ResetBottom(cfg, c1, InsertInto(c.bottom, b)), None))
  }

  function AddTop(cfg: Config, c: Candidate, b: Bond): (r: Result<Added>) {
    var l := c.top.nominations;
    if |l| == cfg.maxTop then
      if l == [] then Err(TopNominationDNE)
      else
        var less := if c.bottomCapacity.Full? then Some(c.lowestBottom) else None;
        match AddBottom(cfg, c, true, l[|l| - 1])
        case Err(e) => Err(e)
        case Ok((c1, kicked)) =>
          var c2 := ResetTop(cfg, c1, InsertInto(Pop(c.top), b));
          Ok(Added(if less.None? then c2.(count := c2.count + 1) else c2, true, less, kicked))
    else
      var c2 := ResetTop(cfg, c, InsertInto(c.top, b));
      Ok(Added(c2.(count := c2.count + 1), true, None, None))
  }

  function AddNomination(cfg: Config, c: Candidate, b: Bond): (r: Result<Added>) {
    if c.topCapacity.Full? && c.lowestTop >= b.amount then
      if c.bottomCapacity.Full? && b.amount <= c.lowestBottom then
        Err(CannotNominateLessThanLowestBottomWhenBottomIsFull)
      else
        var less := if c.bottomCapacity.Full? then Some(c.lowestBottom) else None;
        match AddBottom(cfg, c, false, b)
        case Err(e) => Err(e)
        case Ok((c1, kicked)) => Ok(Added(c1, false, less, kicked))
    else AddTop(cfg, c, b)
  }

  // ----- removing

  function RmTop(cfg: Config, c: Candidate, n: Account): (r: Result<(Candidate, bool)>) {
    match Held(c.top.nominations, n)
    case None => Err(NominationDNE)
    case Some(a) =>
      var top := Nominations(Without(c.top.nominations, n), SatSub(c.top.total, a));
      if c.bottomCapacity.Empty? then
        var c1 := ResetTop(cfg, c, top);
        Ok((c1.(count := SatSub(c1.count, 1)), c.votingPower == c1.votingPower))
      else if c.bottom.nominations == [] then Err(Trap)
      else
        var c1 := ResetBottom(cfg, c, PopFirst(c.bottom));
        var c2 := ResetTop(cfg, c1, InsertInto(top, c.bottom.nominations[0]));
        Ok((c2.(count := SatSub(c2.count, 1)), c.votingPower == c2.votingPower))
  }

  function RmBottom(cfg: Config, c: Candidate, n: Account): (r: Result<(Candidate, bool)>) {
    match Held(c.bottom.nominations, n)
    case None => Err(NominationDNE)
    case Some(a) =>
      var bottom := Nominations(Without(c.bottom.nominations, n), SatSub(c.bottom.total, a));
      var c1 := ResetBottom(cfg, c, bottom);
      Ok((c1.(count := SatSub(c1.count, 1)), false))
  }

  function RmIfExists(cfg: Config, c: Candidate, n: Account, amount: nat): (r: Result<(Candidate, bool)>) {
    var geqLowestTop := amount >= c.lowestTop;
    var tie := c.lowestTop == c.highestBottom;
    if !c.topCapacity.Full? || (geqLowestTop && !tie) then RmTop(cfg, c, n)
    else if geqLowestTop && tie then
      var r := RmTop(cfg, c, n);
      if r == Err(NominationDNE) then RmBottom(cfg, c, n) else r
    else RmBottom(cfg, c, n)
  }

  // ----- increasing

  function IncreaseTop(cfg: Config, c: Candidate, n: Account, more: nat): (r: Result<(Candidate, bool)>) {
    if Held(c.top.nominations, n).None? then Err(NominationDNE)
    else Ok((ResetTop(cfg, c, Nominations(StableSort(Shift(c.top.nominations, n, more)), c.top.total + more)), true))
  }

  function IncreaseBottom(cfg: Config, c: Candidate, n: Account, bond: nat, more: nat): (r: Result<(Candidate, bool)>) {
    match Held(c.bottom.nominations, n)
    case None => Err(NominationDNE)
    case Some(a) =>
      if bond + more > c.lowestTop then
        var bottom := Nominations(Without(c.bottom.nominations, n), SatSub(c.bottom.total, bond));
        var l := c.top.nominations;
        if CapacityOf(c.top, cfg.maxTop).Full? then
          if l == [] then Err(TopNominationDNE)
          else
            var c1 := ResetTop(cfg, c, InsertInto(Pop(c.top), Bond(n, a + more)));
            Ok((ResetBottom(cfg, c1, InsertInto(bottom, l[|l| - 1])), true))
        else
          var c1 := ResetTop(cfg, c, InsertInto(c.top, Bond(n, a + more)));
          Ok((ResetBottom(cfg, c1, bottom), true))
      else
        var bottom := Nominations(StableSort(Shift(c.bottom.nominations, n, more)), c.bottom.total + more);
        Ok((ResetBottom(cfg, c, bottom), false))
  }

  function Increase(cfg: Config, c: Candidate, n: Account, bond: nat, more: nat): (r: Result<(Candidate, bool)>) {
    var tie := c.lowestTop == c.highestBottom;
    if bond >= c.lowestTop && !tie then IncreaseTop(cfg, c, n, more)
    else if bond >= c.lowestTop && tie then
      var r := IncreaseTop(cfg, c, n, more);
      if r == Err(NominationDNE) then IncreaseBottom(cfg, c, n, bond, more) else r
    else IncreaseBottom(cfg, c, n, bond, more)
  }

  // ----- decreasing

  function DecreaseTop(cfg: Config, c: Candidate, n: Account, bond: nat, less: nat): (r: Result<(Candidate, bool)>) {
    match Held(c.top.nominations, n)
    case None => Err(NominationDNE)
    case Some(a) =>
      if SatSub(bond, less) < c.highestBottom && c.topCapacity.Full? && !c.bottomCapacity.Empty? then
        if c.bottom.nominations == [] then Err(Trap)
        else
          var top := Nominations(Without(c.top.nominations, n), SatSub(c.top.total, a));
          var c1 := ResetBottom(cfg, c, InsertInto(PopFirst(c.bottom), Bond(n, SatSub(a, less))));
          Ok((ResetTop(cfg, c1, InsertInto(top, c.bottom.nominations[0])), false))
      else
        var top := Nominations(StableSort(Shift(c.top.nominations, n, -(less as int))), SatSub(c.top.total, less));
        Ok((ResetTop(cfg, c, top), true))
  }

  /** The total of the bottom list is left as it was. */
  function DecreaseBottom(cfg: Config, c: Candidate, n: Account, less: nat): (r: Result<(Candidate, bool)>) {
    if Held(c.bottom.nominations, n).None? then Err(NominationDNE)
    else
      var bottom := Nominations(StableSort(Shift(c.bottom.nominations, n, -(less as int))), c.bottom.total);
      Ok((ResetBottom(cfg, c, bottom), false))
  }

  function Decrease(cfg: Config, c: Candidate, n: Account, bond: nat, less: nat): (r: Result<(Candidate, bool)>) {
    var tie := c.lowestTop == c.highestBottom;
    if bond >= c.lowestTop && !tie then DecreaseTop(cfg, c, n, bond, less)
    else if bond >= c.lowestTop && tie then
      var r := DecreaseTop(cfg, c, n, bond, less);
      if r == Err(NominationDNE) then DecreaseBottom(cfg, c, n, less) else r
    else DecreaseBottom(cfg, c, n, less)
  }

  // ----- the self-bond

  function MinSelfBond(cfg: Config, tier: Tier): nat {
    if tier == FullNode then cfg.minFullCandidateStk else cfg.minBasicCandidateStk
  }

  function BondMore(c: Candidate, more: nat): Candidate {
    c.(bond := c.bond + more, votingPower := c.votingPower + more)
  }

  function ScheduleBondLess(cfg: Config, c: Candidate, round: nat, less: nat): Result<Candidate> {
    if c.request.Some? then Err(PendingCandidateRequestAlreadyExists)
    else if c.bond <= less || c.bond - less < MinSelfBond(cfg, c.tier) then Err(CandidateBondBelowMin)
    else Ok(c.(request := Some(BondLessRequest(less, round + cfg.candidateBondLessDelay))))
  }

  function ExecuteBondLess(c: Candidate, round: nat): Result<Candidate> {
    match c.request
    case None => Err(PendingCandidateRequestsDNE)
    case Some(r) =>
      if r.when > round then Err(PendingCandidateRequestNotDueYet)
      else Ok(c.(bond := SatSub(c.bond, r.amount), votingPower := SatSub(c.votingPower, r.amount), request := None))
  }

  /** A slash of the self-bond, which also drops a bond-less request it makes unaffordable. */
  function SlashBond(cfg: Config, c: Candidate, amount: nat): Candidate {
    var bond := SatSub(c.bond, amount);
    var drop := c.request.Some?
      && (bond <= c.request.value.amount || SatSub(bond, c.request.value.amount) < MinSelfBond(cfg, c.tier));
    c.(bond := bond, votingPower := SatSub(c.votingPower, amount), request := if drop then None else c.request)
  }
}
