/** Conservation of money: every account keeps what it owns, all of it adds up to the issuance,
    the two ledgers hold the same sums, and so every amount in the storage but one is bounded by the issuance. */
module Issuance {
  import opened Wrappers
  import opened Bonds
  import opened Candidates
  import opened CandidateLaws
  import opened Nominators
  import opened MapSums
  import opened Staking
  import opened StakingLaws
  import opened Runs

  ghost function Reserved(st: Storage): nat {
    SumBy(st.reserved, Itself)
  }

  /** All the money there is. */
  ghost function Issued(st: Storage): nat {
    SumBy(st.free, Itself) + Reserved(st)
  }

  // ----- whose money it is

  /** What account `a` owns, free or reserved. */
  ghost function Wealth(st: Storage, a: Account): nat {
    Get(st.free, a) + Get(st.reserved, a)
  }

  ghost predicate SameWealth(st: Storage, st': Storage) {
    forall a: Account :: Wealth(st', a) == Wealth(st, a)
  }

  lemma WealthOn(st: Storage, mid: Storage, st': Storage)
    requires SameWealth(st, mid) && SameWealth(mid, st')
    ensures SameWealth(st, st')
  {
    forall a: Account ensures Wealth(st', a) == Wealth(st, a) {
      assert Wealth(mid, a) == Wealth(st, a);
    }
  }

  lemma ReserveKeepsWealth(st: Storage, a: Account, v: nat)
    requires Reserve(st, a, v).Ok?
    ensures SameWealth(st, Reserve(st, a, v).value)
  {
  }

  lemma UnreserveKeepsWealth(st: Storage, a: Account, v: nat)
    ensures SameWealth(st, Unreserve(st, a, v))
  {
  }

  /** Neither balance of any account changes. */
  ghost predicate SameMoney(st: Storage, st': Storage) {
    st'.free == st.free && st'.reserved == st.reserved
  }

  lemma SameMoneyKeeps(st: Storage, st': Storage)
    requires SameMoney(st, st')
    ensures SameWealth(st, st')
  {
  }

  /** Wealth depends on the balances only. */
  lemma WealthLike(st: Storage, mid: Storage, st': Storage)
    requires SameWealth(st, mid) && SameMoney(mid, st')
    ensures SameWealth(st, st')
  {
    forall a: Account ensures Wealth(st', a) == Wealth(st, a) {
      assert Wealth(mid, a) == Wealth(st, a);
    }
  }

  lemma KickWealth(st: Storage, c: Account, kicked: Option<Bond>)
    requires Kick(st, c, kicked).Ok?
    ensures SameWealth(st, Kick(st, c, kicked).value)
  {
    hide Unreserve, RemoveRequest, RmEntry, SameWealth;
    if kicked.None? {
      SameMoneyKeeps(st, st);
    } else {
      UnreserveKeepsWealth(st, kicked.value.owner, kicked.value.amount);
      WealthLike(st, Unreserve(st, kicked.value.owner, kicked.value.amount), Kick(st, c, kicked).value);
    }
  }

  lemma NominateWealth(cfg: Config, st: Storage, n: Account, c: Account, amount: nat, h: nat, hint: nat)
    requires Nominate(cfg, st, n, c, amount, h, hint).Ok?
    ensures SameWealth(st, Nominate(cfg, st, n, c, amount, h, hint).value)
  {
    hide AddNomination, NominatorFor, Kick, Reserve, SameWealth;
    var r := AddNomination(cfg, st.candidates[c], Bond(n, amount)).value;
    var st0 := PutNominated(st, c, r.candidate);
    var st1 := Kick(st0, c, r.kicked).value;
    var st2 := Reserve(st1, n, amount).value;
    SameMoneyKeeps(st, st0);
    KickWealth(st0, c, r.kicked);
    WealthOn(st, st0, st1);
    ReserveKeepsWealth(st1, n, amount);
    WealthOn(st, st1, st2);
    WealthLike(st, st2, Nominate(cfg, st, n, c, amount, h, hint).value);
  }

  lemma LeavesWealth(cfg: Config, st: Storage, c: Account, n: Account, amount: nat)
    requires NominatorLeavesCandidate(cfg, st, c, n, amount).Ok?
    ensures SameWealth(st, NominatorLeavesCandidate(cfg, st, c, n, amount).value)
  {
    hide RmIfExists, Unreserve, SameWealth;
    var st0 := PutNominated(st, c, RmIfExists(cfg, st.candidates[c], n, amount).value.0);
    SameMoneyKeeps(st, st0);
    UnreserveKeepsWealth(st0, n, amount);
    WealthOn(st, st0, Unreserve(st0, n, amount));
    WealthLike(st, Unreserve(st0, n, amount), NominatorLeavesCandidate(cfg, st, c, n, amount).value);
  }

  lemma {:induction false} LeaveEachWealth(cfg: Config, st: Storage, n: Account, todo: map<Account, nat>)
    ensures SameWealth(st, LeaveEach(cfg, st, n, todo))
    decreases |todo|
  {
    hide NominatorLeavesCandidate, SameWealth;
    SameMoneyKeeps(st, st);
    if todo != map[] {
      var c := Least(todo.Keys);
      var r := NominatorLeavesCandidate(cfg, st, c, n, todo[c]);
      if r.Ok? {
        LeavesWealth(cfg, st, c, n, todo[c]);
      }
      var mid := match r case Ok(s) => s case Err(_) => st;
      LeaveEachWealth(cfg, mid, n, todo - {c});
      WealthOn(st, mid, LeaveEach(cfg, mid, n, todo - {c}));
    }
  }

  lemma ReturnStakeWealth(st: Storage, c: Account, b: Bond)
    requires ReturnStake(st, c, b).Ok?
    ensures SameWealth(st, ReturnStake(st, c, b).value)
  {
    hide Unreserve, RemoveRequest, RmEntry, SameWealth;
    UnreserveKeepsWealth(st, b.owner, b.amount);
    WealthLike(st, Unreserve(st, b.owner, b.amount), ReturnStake(st, c, b).value);
  }

  lemma {:induction false} ReturnStakesWealth(st: Storage, c: Account, bonds: seq<Bond>)
    requires ReturnStakes(st, c, bonds).Ok?
    ensures SameWealth(st, ReturnStakes(st, c, bonds).value)
    decreases bonds
  {
    hide ReturnStake, SameWealth;
    SameMoneyKeeps(st, st);
    if bonds != [] {
      var mid := ReturnStake(st, c, bonds[0]).value;
      ReturnStakeWealth(st, c, bonds[0]);
      ReturnStakesWealth(mid, c, bonds[1..]);
      WealthOn(st, mid, ReturnStakes(mid, c, bonds[1..]).value);
    }
  }

  lemma LeaveWealth(st: Storage, stash: Account, hint: nat)
    requires ExecuteLeaveCandidates(st, stash, hint).Ok?
    ensures SameWealth(st, ExecuteLeaveCandidates(st, stash, hint).value)
  {
    hide ReturnStakes, Unreserve, SameWealth;
    var c := st.bondedStash[stash];
    var st1 := ReturnStakes(st, c, st.candidates[c].top.nominations).value;
    var st2 := ReturnStakes(st1, c, st.candidates[c].bottom.nominations).value;
    var st3 := Unreserve(st2, stash, st.candidates[c].bond);
    ReturnStakesWealth(st, c, st.candidates[c].top.nominations);
    ReturnStakesWealth(st1, c, st.candidates[c].bottom.nominations);
    WealthOn(st, st1, st2);
    UnreserveKeepsWealth(st2, stash, st.candidates[c].bond);
    WealthOn(st, st2, st3);
    WealthLike(st, st3, ExecuteLeaveCandidates(st, stash, hint).value);
  }

  lemma BondMoreWealth(cfg: Config, st: Storage, n: Account, c: Account, more: nat)
    requires NominatorBondMore(cfg, st, n, c, more).Ok?
    ensures SameWealth(st, NominatorBondMore(cfg, st, n, c, more).value)
  {
    hide Increase, Reserve, SameWealth;
    ReserveKeepsWealth(st, n, more);
    WealthLike(st, Reserve(st, n, more).value, NominatorBondMore(cfg, st, n, c, more).value);
  }

  lemma ExecuteWealth(cfg: Config, st: Storage, n: Account, c: Account)
    requires ExecuteRequest(cfg, st, n, c).Ok?
    ensures SameWealth(st, ExecuteRequest(cfg, st, n, c).value)
  {
    hide NominatorLeavesCandidate, Candidates.Decrease, Unreserve, SameWealth;
    var amount := st.nominators[n].requests[c].amount;
    var st' := ExecuteRequest(cfg, st, n, c).value;
    if st.nominators[n].requests[c].action.Revoke? {
      LeavesWealth(cfg, st, c, n, amount);
      WealthLike(st, NominatorLeavesCandidate(cfg, st, c, n, amount).value, st');
    } else {
      UnreserveKeepsWealth(st, n, amount);
      WealthLike(st, Unreserve(st, n, amount), st');
    }
  }

  lemma SelfBondWealth(cfg: Config, st: Storage, stash: Account, more: nat, tier: Tier, relayer: Option<bool>)
    ensures CandidateBondMore(st, stash, more).Ok? ==> SameWealth(st, CandidateBondMore(st, stash, more).value)
    ensures SetValidatorTier(cfg, st, stash, more, tier, relayer).Ok? ==>
      SameWealth(st, SetValidatorTier(cfg, st, stash, more, tier, relayer).value)
    ensures ExecuteCandidateBondLess(st, stash).Ok? ==> SameWealth(st, ExecuteCandidateBondLess(st, stash).value)
  {
    hide Reserve, Unreserve, UpdateActive, MinSelfBond, SameWealth;
    if CandidateBondMore(st, stash, more).Ok? {
      ReserveKeepsWealth(st, stash, more);
      WealthLike(st, Reserve(st, stash, more).value, CandidateBondMore(st, stash, more).value);
    }
    if SetValidatorTier(cfg, st, stash, more, tier, relayer).Ok? {
      ReserveKeepsWealth(st, stash, more);
      WealthLike(st, Reserve(st, stash, more).value, SetValidatorTier(cfg, st, stash, more, tier, relayer).value);
    }
    if ExecuteCandidateBondLess(st, stash).Ok? {
      var amount := st.candidates[st.bondedStash[stash]].request.value.amount;
      UnreserveKeepsWealth(st, stash, amount);
      WealthLike(st, Unreserve(st, stash, amount), ExecuteCandidateBondLess(st, stash).value);
    }
  }

  lemma JoinWealth(cfg: Config, st: Storage, stash: Account, c: Account, relayer: Option<bool>, bond: nat, hint: nat)
    requires JoinCandidates(cfg, st, stash, c, relayer, bond, hint).Ok?
    ensures SameWealth(st, JoinCandidates(cfg, st, stash, c, relayer, bond, hint).value)
  {
    hide Reserve, MinSelfBond, NewCandidate, SameWealth;
    ReserveKeepsWealth(st, stash, bond);
    WealthLike(st, Reserve(st, stash, bond).value, JoinCandidates(cfg, st, stash, c, relayer, bond, hint).value);
  }

  lemma SlashWealth(cfg: Config, st: Storage, c: Account, amount: nat)
    requires Valid(cfg, st) && Slash(cfg, st, c, amount).Ok?
    ensures forall a: Account :: Wealth(Slash(cfg, st, c, amount).value, a) == Wealth(st, a) - if a == st.candidates[c].stash then amount else 0
  {
    hide Valid, SlashBond;
    StashFacts(cfg, st, c);
  }

  lemma QuietMoney(cfg: Config, st: Storage, call: Call)
    requires Step(cfg, st, call).Ok?
    requires call.CallScheduleLeaveCandidates? || call.CallCancelLeaveCandidates? || call.CallGoOffline? || call.CallGoOnline?
      || call.CallScheduleBondLess? || call.CallCancelBondLess? || call.NewRound?
    ensures SameMoney(st, Step(cfg, st, call).value)
  {
    hide ScheduleBondLess, Get, Nominate, NominatorBondMore, ScheduleNominatorRequest, ExecuteRequest, CancelNominationRequest,
      ScheduleLeaveNominators, CancelLeaveNominators, ExecuteLeaveNominators, JoinCandidates, ExecuteLeaveCandidates,
      CandidateBondMore, ExecuteCandidateBondLess, SetValidatorTier, Slash;
  }

  lemma RequestMoney(cfg: Config, st: Storage, call: Call)
    requires Step(cfg, st, call).Ok?
    requires call.CallScheduleRevoke? || call.CallScheduleDecrease? || call.CallCancelRequest?
      || call.CallScheduleLeaveNominators? || call.CallCancelLeaveNominators?
    ensures SameMoney(st, Step(cfg, st, call).value)
  {
    hide ScheduleRevoke, ScheduleDecrease, CancelRequest, Nominate, NominatorBondMore, ExecuteRequest, ExecuteLeaveNominators,
      JoinCandidates, ExecuteLeaveCandidates, CandidateBondMore, ExecuteCandidateBondLess, SetValidatorTier, Slash,
      ScheduleLeaveCandidates, CancelLeaveCandidates, GoOffline, GoOnline, ScheduleCandidateBondLess, CancelCandidateBondLess;
  }

  function Minted(call: Call): nat {
    if call.Deposit? then call.amount else 0
  }

  function Burnt(call: Call): nat {
    if call.Offence? then call.amount else 0
  }

  /** What a call brings account `a`: only a deposit to it, or the slash of the candidate whose stash it is. */
  function Gain(st: Storage, call: Call, a: Account): int {
    match call
    case Deposit(who, amount) => if a == who then amount else 0
    case Offence(c, amount) => if c in st.candidates && a == st.candidates[c].stash then -(amount as int) else 0
    case _ => 0
  }

  /** Every accepted call leaves every account what it owns, free or reserved, except for a deposit to it and
      for the slash of its own candidate: whatever is unreserved goes to whose it is. */
  lemma WealthStep(cfg: Config, st: Storage, call: Call, a: Account)
    requires Valid(cfg, st) && Step(cfg, st, call).Ok?
    ensures Wealth(Next(cfg, st, call), a) == Wealth(st, a) + Gain(st, call, a)
  {
    hide Valid, Wealth, Nominate, NominatorBondMore, ExecuteRequest, JoinCandidates,
      ExecuteLeaveCandidates, CandidateBondMore, ExecuteCandidateBondLess, SetValidatorTier, Slash, ScheduleLeaveCandidates,
      CancelLeaveCandidates, GoOffline, GoOnline, ScheduleCandidateBondLess, CancelCandidateBondLess, ScheduleNominatorRequest,
      CancelNominationRequest, ScheduleLeaveNominators, CancelLeaveNominators, ExecuteLeaveNominators;
    match call
    case CallNominate(n, c, amount, h, hint) => NominateWealth(cfg, st, n, c, amount, h, hint);
    case CallNominatorBondMore(n, c, more) => BondMoreWealth(cfg, st, n, c, more);
    case CallExecuteRequest(n, c) => ExecuteWealth(cfg, st, n, c);
    case CallExecuteLeaveNominators(n, hint) => ExitWealth(cfg, st, n, hint);
    case CallJoin(stash, c, relayer, bond, hint) => JoinWealth(cfg, st, stash, c, relayer, bond, hint);
    case CallExecuteLeaveCandidates(stash, hint) => LeaveWealth(st, stash, hint);
    case CallCandidateBondMore(stash, more) => SelfBondWealth(cfg, st, stash, more, FullNode, None);
    case CallExecuteBondLess(stash) => SelfBondWealth(cfg, st, stash, 0, FullNode, None);
    case CallSetTier(stash, more, tier, relayer) => SelfBondWealth(cfg, st, stash, more, tier, relayer);
    case Offence(c, amount) =>
      SlashWealth(cfg, st, c, amount);
      SlashedIsCandidate(cfg, st, c, amount);
    case Deposit(who, amount) => DepositWealth(st, who, amount);
    case _ =>
      if call.CallScheduleRevoke? || call.CallScheduleDecrease? || call.CallCancelRequest? || call.CallScheduleLeaveNominators?
         || call.CallCancelLeaveNominators? {
        RequestMoney(cfg, st, call);
      } else {
        QuietMoney(cfg, st, call);
      }
      SameMoneyKeeps(st, Next(cfg, st, call));
  }

  lemma SlashedIsCandidate(cfg: Config, st: Storage, c: Account, amount: nat)
    requires Slash(cfg, st, c, amount).Ok?
    ensures c in st.candidates
  {
  }

  lemma DepositWealth(st: Storage, who: Account, amount: nat)
    ensures forall a: Account ::
      Wealth(st.(free := st.free[who := Get(st.free, who) + amount]), a) == Wealth(st, a) + if a == who then amount else 0
  {
  }

  lemma ExitWealth(cfg: Config, st: Storage, n: Account, hint: nat)
    requires ExecuteLeaveNominators(cfg, st, n, hint).Ok?
    ensures SameWealth(st, ExecuteLeaveNominators(cfg, st, n, hint).value)
  {
    hide LeaveEach, SameWealth;
    LeaveEachWealth(cfg, st, n, st.nominators[n].nominations);
    WealthLike(st, LeaveEach(cfg, st, n, st.nominators[n].nominations), ExecuteLeaveNominators(cfg, st, n, hint).value);
  }

  ghost function AllGains(cfg: Config, st: Storage, calls: seq<Call>, a: Account): int
    decreases calls
  {
    if calls == [] then 0
    else (if Step(cfg, st, calls[0]).Ok? then Gain(st, calls[0], a) else 0) + AllGains(cfg, Next(cfg, st, calls[0]), calls[1..], a)
  }

  /** Over any run an account owns what it owned, plus what was deposited to it, less what its own candidates
      were slashed by. */
  lemma {:induction false} WealthRun(cfg: Config, st: Storage, calls: seq<Call>, a: Account)
    requires cfg.Valid() && Valid(cfg, st)
    ensures Wealth(Run(cfg, st, calls), a) == Wealth(st, a) + AllGains(cfg, st, calls, a)
    decreases calls
  {
    hide Valid, Wealth, Step, Moves, FlowOf, Gain;
    if calls != [] {
      StepKeeps(cfg, st, calls[0]);
      if Step(cfg, st, calls[0]).Ok? {
        WealthStep(cfg, st, calls[0], a);
      }
      WealthRun(cfg, Next(cfg, st, calls[0]), calls[1..], a);
    }
  }

  // ----- the issuance changes by deposits and slashes only

  ghost function Wealths(st: Storage): map<Account, nat> {
    map a | a in st.free.Keys + st.reserved.Keys :: Wealth(st, a)
  }

  lemma IssuedIsWealth(st: Storage)
    ensures Issued(st) == SumBy(Wealths(st), Itself)
  {
    hide SumBy;
    SumsAddUp(st.free, Itself, st.reserved, Itself, Wealths(st), Itself);
  }

  lemma WealthAt(st: Storage, a: Account)
    ensures ValueAt(Wealths(st), Itself, a) == Wealth(st, a)
  {
  }

  lemma SumOfOne(a: Account, v: nat)
    ensures SumBy<Account, nat>(map[a := v], Itself) == v
  {
    var one: map<Account, nat> := map[a := v];
    SumByOut(one, Itself, a);
    assert one - {a} == map[];
    NoBonds();
  }

  lemma SumsShift(st: Storage, st': Storage, a: Account, v: nat)
    requires forall x: Account :: Wealth(st', x) == Wealth(st, x) + if x == a then v else 0
    ensures Issued(st') == Issued(st) + v
  {
    hide SumBy, Wealth, Wealths, Issued;
    var one: map<Account, nat> := map[a := v];
    IssuedIsWealth(st);
    IssuedIsWealth(st');
    SumOfOne(a, v);
    forall x: Account ensures ValueAt(Wealths(st), Itself, x) + ValueAt(one, Itself, x) == ValueAt(Wealths(st'), Itself, x) {
      WealthAt(st, x);
      WealthAt(st', x);
    }
    SumsAddUp(Wealths(st), Itself, one, Itself, Wealths(st'), Itself);
  }

  /** Money is neither made nor lost by any call: an accepted call changes the issuance by what is deposited
      and by what is slashed. */
  lemma IssuedStep(cfg: Config, st: Storage, call: Call)
    requires Valid(cfg, st) && Step(cfg, st, call).Ok?
    ensures Issued(Next(cfg, st, call)) + Burnt(call) == Issued(st) + Minted(call)
  {
    hide Valid, Wealth, Issued, Step, Next;
    var st' := Next(cfg, st, call);
    forall a: Account ensures Wealth(st', a) == Wealth(st, a) + Gain(st, call, a) {
      WealthStep(cfg, st, call, a);
    }
    if call.Offence? {
      OffenderIsCandidate(cfg, st, call);
      SumsShift(st', st, st.candidates[call.c].stash, call.amount);
    } else {
      SumsShift(st, st', if call.Deposit? then call.who else 0, Minted(call));
    }
  }

  lemma OffenderIsCandidate(cfg: Config, st: Storage, call: Call)
    requires call.Offence? && Step(cfg, st, call).Ok?
    ensures call.c in st.candidates
  {
  }

  ghost function AllMinted(cfg: Config, st: Storage, calls: seq<Call>): nat
    decreases calls
  {
    if calls == [] then 0
    else (if Step(cfg, st, calls[0]).Ok? then Minted(calls[0]) else 0) + AllMinted(cfg, Next(cfg, st, calls[0]), calls[1..])
  }

  ghost function AllBurnt(cfg: Config, st: Storage, calls: seq<Call>): nat
    decreases calls
  {
    if calls == [] then 0
    else (if Step(cfg, st, calls[0]).Ok? then Burnt(calls[0]) else 0) + AllBurnt(cfg, Next(cfg, st, calls[0]), calls[1..])
  }

  lemma {:induction false} IssuedRun(cfg: Config, st: Storage, calls: seq<Call>)
    requires cfg.Valid() && Valid(cfg, st)
    ensures Issued(Run(cfg, st, calls)) + AllBurnt(cfg, st, calls) == Issued(st) + AllMinted(cfg, st, calls)
    decreases calls
  {
    hide Valid, Issued, Step, Moves, FlowOf, Minted, Burnt;
    if calls != [] {
      StepKeeps(cfg, st, calls[0]);
      if Step(cfg, st, calls[0]).Ok? {
        IssuedStep(cfg, st, calls[0]);
      }
      IssuedRun(cfg, Next(cfg, st, calls[0]), calls[1..]);
    }
  }

  // ----- the two ledgers hold the same sums

  function TotalOf(s: Nominator): nat { s.total }

  function BondOf(cand: Candidate): nat { cand.bond }

  ghost function NominatedOf(cand: Candidate): nat {
    Sum(cand.top.nominations) + Sum(cand.bottom.nominations)
  }

  lemma TotalsMove(st: Storage, st': Storage, n: Account, c: Account, to: Option<nat>)
    requires NominatorsOk(st) && RecordSide(st, st', n, c, to)
    ensures SumBy(st'.nominators, TotalOf) - SumBy(st.nominators, TotalOf) == Amount(to) - Amount(Records(st, n, c))
  {
    hide LedgerOk, SumBy;
    OwedMoves(st, st', n, c, to);
    SumByOut(st.nominators, TotalOf, n);
    SumByOut(st'.nominators, TotalOf, n);
  }

  lemma {:induction false} ReturnedTotals(st: Storage, c: Account, bonds: seq<Bond>)
    requires NominatorsOk(st) && AgreeWith(st, c, bonds) && Solvent(st) && OneEach(multiset(bonds))
    ensures ReturnStakes(st, c, bonds).Ok?
    ensures SumBy(ReturnStakes(st, c, bonds).value.nominators, TotalOf) + Sum(bonds) == SumBy(st.nominators, TotalOf)
    decreases bonds
  {
    hide NominatorsOk, SumBy, ReturnStake, OneEach, Records, RecordSide, Lists, Sum;
    if bonds == [] {
      NoSum();
    } else {
      ReturnedOne(st, c, bonds);
      var st1 := ReturnStake(st, c, bonds[0]).value;
      ReturnedTotals(st1, c, bonds[1..]);
      SumFirst(bonds);
    }
  }

  lemma NoSum()
    ensures Sum([]) == 0
  {
  }

  lemma SumFirst(bonds: seq<Bond>)
    requires bonds != []
    ensures Sum(bonds) == bonds[0].amount + Sum(bonds[1..])
  {
  }

  /** Returning the first of the stakes keeps everything the rest needs. */
  lemma ReturnedOne(st: Storage, c: Account, bonds: seq<Bond>)
    requires bonds != [] && NominatorsOk(st) && AgreeWith(st, c, bonds) && Solvent(st) && OneEach(multiset(bonds))
    ensures ReturnStake(st, c, bonds[0]).Ok?
    ensures var st1 := ReturnStake(st, c, bonds[0]).value;
      && NominatorsOk(st1) && AgreeWith(st1, c, bonds[1..]) && Solvent(st1) && OneEach(multiset(bonds[1..]))
      && SumBy(st1.nominators, TotalOf) + bonds[0].amount == SumBy(st.nominators, TotalOf)
  {
    hide NominatorsOk, SumBy, ReturnStake, OneEach, Records, RecordSide, Lists;
    var b := bonds[0];
    assert Bond(b.owner, b.amount) in bonds;
    assert Records(st, b.owner, c) == Some(b.amount);
    ReturnStakeForm(st, c, b);
    var st1 := ReturnStake(st, c, b).value;
    EntryNominators(st, st1, b.owner, c, None);
    OwedMoves(st, st1, b.owner, c, None);
    TotalsMove(st, st1, b.owner, c, None);
    forall a: Account ensures Excess(st1, a) == Excess(st, a) {}
    ReturnedAgrees(st, st1, c, bonds);
    OneEachRest(bonds);
  }

  /** The storage without candidate `c` and without its nominations in the nominators' ledgers. */
  lemma WithoutCandidate(cfg: Config, st: Storage, c: Account) returns (st': Storage)
    requires CandidatesOk(cfg, st) && NominatorsOk(st) && Agree(st) && Solvent(st) && c in st.candidates
    ensures st'.candidates == st.candidates - {c}
    ensures CandidatesOk(cfg, st') && NominatorsOk(st') && Agree(st') && Solvent(st')
    ensures SumBy(st'.nominators, TotalOf) + NominatedOf(st.candidates[c]) == SumBy(st.nominators, TotalOf)
  {
    hide Inv, LedgerOk, SumBy, ReturnStakes, OneEach, Lists, Records, All, Sum;
    var cand := st.candidates[c];
    var bonds := cand.top.nominations + cand.bottom.nominations;
    HeldByAll(cfg, st, c);
    ReturnStakesKeeps(st, c, bonds);
    ReturnedTotals(st, c, bonds);
    SumConcat(cand.top.nominations, cand.bottom.nominations);
    var st2 := ReturnStakes(st, c, bonds).value;
    st' := st2.(candidates := st.candidates - {c});
    WithoutAgrees(st2, st', c);
    forall a: Account ensures Excess(st', a) >= 0 {
      assert Excess(st2, a) == Excess(st, a) && Excess(st, a) >= 0;
      assert NominatorOwed(st', a) == NominatorOwed(st2, a);
    }
  }

  lemma HeldByAll(cfg: Config, st: Storage, c: Account)
    requires CandidatesOk(cfg, st) && Agree(st) && c in st.candidates
    ensures var bonds := st.candidates[c].top.nominations + st.candidates[c].bottom.nominations;
      AgreeWith(st, c, bonds) && OneEach(multiset(bonds))
  {
    hide Inv, OneEach, Records;
    var cand := st.candidates[c];
    var bonds := cand.top.nominations + cand.bottom.nominations;
    assert multiset(bonds) == All(cand);
    AllOneEach(cfg, cand);
    forall n, c0, a: nat
      ensures (if c0 == c then Bond(n, a) in bonds else Lists(st, n, c0, a)) <==> Records(st, n, c0) == Some(a)
    {
      assert Lists(st, n, c0, a) <==> Records(st, n, c0) == Some(a);
      assert Bond(n, a) in bonds <==> Bond(n, a) in multiset(bonds);
    }
  }

  lemma WithoutAgrees(st: Storage, st': Storage, c: Account)
    requires AgreeWith(st, c, []) && st' == st.(candidates := st.candidates - {c})
    ensures Agree(st')
  {
    hide All;
    forall n, c0, a: nat ensures Lists(st', n, c0, a) <==> Records(st', n, c0) == Some(a) {
      assert (if c0 == c then Bond(n, a) in [] else Lists(st, n, c0, a)) <==> Records(st, n, c0) == Some(a);
      assert Records(st', n, c0) == Records(st, n, c0);
    }
  }

  lemma NobodyLeft(st: Storage)
    requires NominatorsOk(st) && Agree(st) && st.candidates == map[]
    ensures st.nominators == map[]
  {
    hide LedgerOk;
    forall n ensures n !in st.nominators {
      if n in st.nominators {
        NominatesNone(st, n);
      }
    }
  }

  lemma NominatesNone(st: Storage, n: Account)
    requires Agree(st) && st.candidates == map[] && n in st.nominators
    ensures st.nominators[n].nominations == map[]
  {
    forall c ensures c !in st.nominators[n].nominations {
      forall a: nat ensures Records(st, n, c) != Some(a) {
        assert Lists(st, n, c, a) <==> Records(st, n, c) == Some(a);
      }
    }
  }

  /** The nominators' totals add up to all the nominations in the candidates' lists. */
  lemma {:induction false} LedgersBalance(cfg: Config, st: Storage)
    requires CandidatesOk(cfg, st) && NominatorsOk(st) && Agree(st) && Solvent(st)
    ensures SumBy(st.nominators, TotalOf) == SumBy(st.candidates, NominatedOf)
    decreases |st.candidates|
  {
    hide CandidatesOk, NominatorsOk, Agree, Solvent, NominatedOf;
    if st.candidates == map[] {
      NobodyLeft(st);
    } else {
      var c :| c in st.candidates;
      var st' := WithoutCandidate(cfg, st, c);
      SumByTake(st.candidates, NominatedOf, c);
      LedgersBalance(cfg, st');
    }
  }

  ghost function StashBonds(st: Storage): map<Account, nat> {
    map s | s in st.bondedStash :: StashOwed(st, s)
  }

  lemma {:induction false} StashesBalance(st: Storage)
    requires StashOk(st)
    ensures SumBy(StashBonds(st), Itself) == SumBy(st.candidates, BondOf)
    decreases |st.candidates|
  {
    hide SumBy, StashOk, StashBonds;
    if st.candidates == map[] {
      NoStash(st);
      NoBonds();
    } else {
      var c :| c in st.candidates;
      var s := st.candidates[c].stash;
      var st' := st.(candidates := st.candidates - {c}, bondedStash := st.bondedStash - {s});
      StashGone(st, st', c);
      SumByTake(st.candidates, BondOf, c);
      SumByTake(StashBonds(st), Itself, s);
      StashesBalance(st');
    }
  }

  lemma NoStash(st: Storage)
    requires StashOk(st) && st.candidates == map[]
    ensures StashBonds(st) == map[]
  {
  }

  lemma StashGone(st: Storage, st': Storage, c: Account)
    requires StashOk(st) && c in st.candidates
    requires st' == st.(candidates := st.candidates - {c}, bondedStash := st.bondedStash - {st.candidates[c].stash})
    ensures StashOk(st') && StashBonds(st') == StashBonds(st) - {st.candidates[c].stash}
    ensures st.candidates[c].stash in StashBonds(st) && StashBonds(st)[st.candidates[c].stash] == st.candidates[c].bond
  {
  }

  lemma NoBonds()
    ensures SumBy<Account, Candidate>(map[], BondOf) == 0 && SumBy<Account, nat>(map[], Itself) == 0
  {
  }

  /** Everything at stake, counted in the candidates' lists, is everything at stake, counted in the
      nominators' totals and the self-bonds. */
  lemma BackingIsOwed(cfg: Config, st: Storage)
    requires Valid(cfg, st)
    ensures Backing(st) == SumBy(st.nominators, TotalOf) + SumBy(st.candidates, BondOf)
  {
    hide CandidatesOk, NominatorsOk, Agree, Solvent, StashOk, PoolOk, SumBy, Sum;
    LedgersBalance(cfg, st);
    SumsAddUp(st.candidates, NominatedOf, st.candidates, BondOf, st.candidates, BackingOf);
  }

  // ----- reserves

  /** What account `a` has reserved beyond its stake. */
  ghost function ExcessOf(st: Storage, a: Account): nat {
    if Excess(st, a) >= 0 then Excess(st, a) else 0
  }

  ghost function Excesses(st: Storage): map<Account, nat> {
    map a | a in st.reserved :: ExcessOf(st, a)
  }

  /** All that is reserved beyond what is at stake. */
  ghost function Surplus(st: Storage): nat {
    SumBy(Excesses(st), Itself)
  }

  ghost function Owed(st: Storage): map<Account, nat> {
    map a | a in st.nominators.Keys + st.bondedStash.Keys :: NominatorOwed(st, a) + StashOwed(st, a)
  }

  /** All that is reserved is what is at stake and the surplus. */
  lemma ReservesAddUp(cfg: Config, st: Storage)
    requires Valid(cfg, st)
    ensures Reserved(st) == Backing(st) + Surplus(st)
  {
    hide CandidatesOk, NominatorsOk, Agree, StashOk, PoolOk, SumBy, BackingOf;
    BackingIsOwed(cfg, st);
    StashesBalance(st);
    SumsAddUp(st.nominators, TotalOf, StashBonds(st), Itself, Owed(st), Itself);
    forall a: Account ensures ValueAt(Owed(st), Itself, a) + ValueAt(Excesses(st), Itself, a) == ValueAt(st.reserved, Itself, a) {
      assert Excess(st, a) >= 0;
    }
    SumsAddUp(Owed(st), Itself, Excesses(st), Itself, st.reserved, Itself);
  }

  lemma SurplusMoves(cfg: Config, st: Storage, st': Storage, f: Flow)
    requires Valid(cfg, st) && Valid(cfg, st') && Moves(st, st', f)
    ensures Surplus(st') == Surplus(st) + f.stale
  {
    hide CandidatesOk, NominatorsOk, Agree, StashOk, PoolOk, SumBy, Backing, NominatorOwed, StashOwed;
    var one: map<Account, nat> := map[f.payer := f.stale];
    forall a: Account ensures ValueAt(Excesses(st), Itself, a) + ValueAt(one, Itself, a) == ValueAt(Excesses(st'), Itself, a) {
      assert Excess(st, a) >= 0 && Excess(st', a) >= 0;
    }
    SumsAddUp(Excesses(st), Itself, one, Itself, Excesses(st'), Itself);
    SumByOut(one, Itself, f.payer);
    assert one - {f.payer} == map[];
    NoBonds();
  }

  /** Over any run, all that is reserved differs from all that is at stake by what the stale revocations
      left behind, and `Total` never exceeds what is reserved. */
  lemma {:induction false} ReservedRun(cfg: Config, st: Storage, calls: seq<Call>)
    requires cfg.Valid() && Valid(cfg, st) && st.total <= Reserved(st)
    ensures var st' := Run(cfg, st, calls);
      && Reserved(st') - Backing(st') == Reserved(st) - Backing(st) + AllStale(cfg, st, calls)
      && st'.total <= Reserved(st')
    decreases calls
  {
    hide Valid, Excess, Backing, Next, Booked, Reserved, Surplus;
    if calls != [] {
      var st1 := Next(cfg, st, calls[0]);
      BookedMoves(cfg, st, calls[0]);
      SurplusMoves(cfg, st, st1, Booked(cfg, st, calls[0]));
      ReservesAddUp(cfg, st);
      ReservesAddUp(cfg, st1);
      ReservedRun(cfg, st1, calls[1..]);
    }
  }

  /** In every reachable storage `Total` and everything at stake are within what is reserved, that is within
      the issuance, and the issuance is what there was at the start and was deposited since, less slashes. */
  lemma WithinIssuance(cfg: Config, free: map<Account, nat>, calls: seq<Call>)
    requires cfg.Valid()
    ensures var st := Run(cfg, Genesis(free), calls);
      && Backing(st) <= Reserved(st) <= Issued(st) && st.total <= Reserved(st)
      && Issued(st) + AllBurnt(cfg, Genesis(free), calls) == SumBy(free, Itself) + AllMinted(cfg, Genesis(free), calls)
  {
    hide Valid, Run, Backing, AllStale, AllBurnt, AllMinted, Exact;
    GenesisValid(cfg, free);
    GenesisMoney(free);
    RunKeeps(cfg, Genesis(free), calls);
    ReservedRun(cfg, Genesis(free), calls);
    IssuedRun(cfg, Genesis(free), calls);
    ReservesAddUp(cfg, Run(cfg, Genesis(free), calls));
  }

  lemma GenesisMoney(free: map<Account, nat>)
    ensures Reserved(Genesis(free)) == 0 && Issued(Genesis(free)) == SumBy(free, Itself) && Genesis(free).total == 0
  {
    NoBonds();
  }

  /** So every single amount is: a candidate's self-bond, its top total, its voting power and its whole
      backing, a nominator's total, each nomination and everything pending. */
  lemma AmountsWithinIssuance(cfg: Config, free: map<Account, nat>, calls: seq<Call>, n: Account, c: Account)
    requires cfg.Valid()
    ensures var st := Run(cfg, Genesis(free), calls);
      && (c in st.candidates ==>
            && st.candidates[c].bond + st.candidates[c].top.total == st.candidates[c].votingPower <= BackingOf(st.candidates[c])
            && BackingOf(st.candidates[c]) <= Issued(st))
      && (n in st.nominators ==> st.nominators[n].lessTotal <= st.nominators[n].total <= Issued(st))
      && (n in st.nominators && c in st.nominators[n].nominations ==> st.nominators[n].nominations[c] <= st.nominators[n].total)
  {
    hide Run, SumBy, Issued, Reserved;
    var st := Run(cfg, Genesis(free), calls);
    GenesisValid(cfg, free);
    RunKeeps(cfg, Genesis(free), calls);
    WithinIssuance(cfg, free, calls);
    if c in st.candidates {
      PowerWithinBacking(cfg, st, c);
    }
    if n in st.nominators {
      TotalWithinBacking(cfg, st, n);
      if c in st.nominators[n].nominations {
        EntryWithinTotal(st.nominators[n], c);
      }
    }
  }

  lemma PowerWithinBacking(cfg: Config, st: Storage, c: Account)
    requires Valid(cfg, st) && c in st.candidates
    ensures var cand := st.candidates[c]; cand.bond + cand.top.total == cand.votingPower <= BackingOf(cand) <= Backing(st)
  {
    hide Shape, NominatorsOk, Agree, PoolOk, StashOk, Solvent, SumBy, Sum;
    BackingAtLeast(st, c);
  }

  lemma TotalWithinBacking(cfg: Config, st: Storage, n: Account)
    requires Valid(cfg, st) && n in st.nominators
    ensures st.nominators[n].lessTotal <= st.nominators[n].total <= Backing(st)
  {
    hide CandidatesOk, Agree, PoolOk, StashOk, Solvent, SumBy;
    PendingWithinTotal(st.nominators[n]);
    BackingIsOwed(cfg, st);
    SumByTake(st.nominators, TotalOf, n);
  }
}
