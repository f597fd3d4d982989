/** Concrete runs on which a promise of the pallet fails. */
module Witnesses {
  import opened Wrappers
  import opened Bonds
  import opened Candidates
  import opened CandidateLaws
  import opened Nominators
  import opened MapSums
  import opened Staking
  import opened StakingLaws
  import opened Runs
  import opened Timelock
  import opened Minimums

  lemma RunCons(cfg: Config, st: Storage, call: Call, calls: seq<Call>)
    ensures Run(cfg, st, [call] + calls) == Run(cfg, Next(cfg, st, call), calls)
  {
    assert ([call] + calls)[1..] == calls;
  }

  lemma {:induction false} RunConcat(cfg: Config, st: Storage, calls: seq<Call>, more: seq<Call>)
    ensures Run(cfg, st, calls + more) == Run(cfg, Run(cfg, st, calls), more)
    decreases calls
  {
    hide Next;
    if calls == [] {
      assert calls + more == more;
    } else {
      assert calls + more == [calls[0]] + (calls[1..] + more);
      RunConcat(cfg, Next(cfg, st, calls[0]), calls[1..], more);
    }
  }

  lemma RunFrom(cfg: Config, st: Storage, d: seq<Call>, k: nat)
    requires k < |d|
    ensures Run(cfg, st, d[k..]) == Run(cfg, Next(cfg, st, d[k]), d[k + 1..])
  {
    hide Next;
    assert [d[k]] + d[k + 1..] == d[k..];
    RunCons(cfg, st, d[k], d[k + 1..]);
  }

  lemma RunNone(cfg: Config, st: Storage)
    ensures Run(cfg, st, []) == st
  {
  }

  /** No waiting, minima of one. */
  function Small(maxTop: nat): Config {
    Config(maxTop, 1, 10, 10, 1, 1, 1, 1, 0, 0, 0, 0, 0)
  }

  // ----- steps that most runs share

  lemma JoinsAsBasic(cfg: Config, st: Storage, stash: Account, c: Account, bond: nat, hint: nat)
    requires stash !in st.bondedStash && c !in st.candidates && c !in st.nominators && |st.pool| <= hint
    requires MinSelfBond(cfg, BasicNode) <= bond <= Get(st.free, stash) && |st.pool| < cfg.maxCandidates
    ensures Next(cfg, st, CallJoin(stash, c, None, bond, hint))
      == Storage(st.candidates[c := NewCandidate(stash, bond, BasicNode)], st.nominators, st.bondedStash[stash := c],
                 st.pool[c := bond], st.free[stash := Get(st.free, stash) - bond],
                 st.reserved[stash := Get(st.reserved, stash) + bond], st.total + bond, st.round)
  {
    hide Nominate, NominatorBondMore, ScheduleNominatorRequest, ExecuteRequest, CancelNominationRequest,
      ScheduleLeaveNominators, CancelLeaveNominators, ExecuteLeaveNominators, ScheduleLeaveCandidates, CancelLeaveCandidates,
      ExecuteLeaveCandidates, GoOffline, GoOnline, CandidateBondMore, ScheduleCandidateBondLess, ExecuteCandidateBondLess,
      CancelCandidateBondLess, SetValidatorTier, Slash, NewCandidate, Get, MinSelfBond;
  }

  /** A candidate's scheduled leaving, field by field. */
  lemma SchedulesLeave(cfg: Config, st: Storage, c: Account, hint: nat)
    requires c in st.candidates && c in st.pool && |st.pool| <= hint
    requires !st.candidates[c].status.Leaving? && st.candidates[c].request.None?
    ensures Next(cfg, st, CallScheduleLeaveCandidates(c, hint))
      == st.(candidates := st.candidates[c := st.candidates[c].(status := Leaving(st.round + cfg.leaveCandidatesDelay))],
             pool := st.pool - {c})
  {
    hide Nominate, NominatorBondMore, ScheduleNominatorRequest, ExecuteRequest, CancelNominationRequest,
      ScheduleLeaveNominators, CancelLeaveNominators, ExecuteLeaveNominators, JoinCandidates, CancelLeaveCandidates,
      ExecuteLeaveCandidates, GoOffline, GoOnline, CandidateBondMore, ScheduleCandidateBondLess, ExecuteCandidateBondLess,
      CancelCandidateBondLess, SetValidatorTier, Slash;
  }

  lemma SchedulesRevoke(cfg: Config, st: Storage, n: Account, c: Account)
    requires n in st.nominators && st.nominators[n].status.Staying? && c in st.nominators[n].nominations && c !in st.nominators[n].requests
    ensures var s := st.nominators[n];
      Next(cfg, st, CallScheduleRevoke(n, c))
      == PutNominator(st, n, s.(requests := s.requests[c := Request(s.nominations[c], st.round + cfg.revokeNominationDelay, Revoke)],
                                revocations := s.revocations + 1, lessTotal := s.lessTotal + s.nominations[c]))
  {
    hide Nominate, NominatorBondMore, ExecuteRequest, CancelNominationRequest, ScheduleLeaveNominators, CancelLeaveNominators,
      ExecuteLeaveNominators, JoinCandidates, ScheduleLeaveCandidates, CancelLeaveCandidates, ExecuteLeaveCandidates,
      GoOffline, GoOnline, CandidateBondMore, ScheduleCandidateBondLess, ExecuteCandidateBondLess, CancelCandidateBondLess,
      SetValidatorTier, Slash;
  }

  /** A decrease that all checks accept, scheduled and executed. */
  lemma SchedulesDecrease(cfg: Config, st: Storage, n: Account, c: Account, less: nat)
    requires n in st.nominators && st.nominators[n].status.Staying? && ScheduleDecrease(cfg, st.nominators[n], st.round, c, less).Ok?
    ensures Next(cfg, st, CallScheduleDecrease(n, c, less))
      == PutNominator(st, n, ScheduleDecrease(cfg, st.nominators[n], st.round, c, less).value)
  {
    hide Nominate, NominatorBondMore, ExecuteRequest, CancelNominationRequest, ScheduleLeaveNominators, CancelLeaveNominators,
      ExecuteLeaveNominators, JoinCandidates, ScheduleLeaveCandidates, CancelLeaveCandidates, ExecuteLeaveCandidates,
      GoOffline, GoOnline, CandidateBondMore, ScheduleCandidateBondLess, ExecuteCandidateBondLess, CancelCandidateBondLess,
      SetValidatorTier, Slash, ScheduleDecrease;
  }

  lemma ExecutesDecrease(cfg: Config, st: Storage, n: Account, c: Account, cand: Candidate, s': Nominator)
    requires n in st.nominators && c in st.nominators[n].requests && c in st.nominators[n].nominations && c in st.candidates
    requires var s := st.nominators[n]; var r := s.requests[c];
      && r.action.Decrease? && r.when <= st.round && r.amount < s.nominations[c]
      && Candidates.Decrease(cfg, st.candidates[c], n, s.nominations[c], r.amount) == Ok((cand, false))
      && s' == s.(requests := s.requests - {c}, lessTotal := SatSub(s.lessTotal, r.amount),
                  nominations := s.nominations[c := s.nominations[c] - r.amount], total := SatSub(s.total, r.amount))
      && s'.total >= cfg.minNomination && s'.total >= cfg.minNominatorStk && r.amount <= Get(st.reserved, n)
    ensures var r := st.nominators[n].requests[c];
      Next(cfg, st, CallExecuteRequest(n, c))
      == Storage(st.candidates[c := cand], st.nominators[n := s'], st.bondedStash, PutNominated(st, c, cand).pool,
                 st.free[n := Get(st.free, n) + r.amount], st.reserved[n := Get(st.reserved, n) - r.amount],
                 SatSub(st.total, r.amount), st.round)
  {
    hide Nominate, NominatorBondMore, ScheduleNominatorRequest, CancelNominationRequest, ScheduleLeaveNominators,
      CancelLeaveNominators, ExecuteLeaveNominators, JoinCandidates, ScheduleLeaveCandidates, CancelLeaveCandidates,
      ExecuteLeaveCandidates, GoOffline, GoOnline, CandidateBondMore, ScheduleCandidateBondLess, ExecuteCandidateBondLess,
      CancelCandidateBondLess, SetValidatorTier, Slash, Candidates.Decrease, ExecuteRevoke, Get, SatSub;
  }

  /** An increase, field by field. */
  lemma BondMoreIs(cfg: Config, st: Storage, n: Account, c: Account, more: nat, cand: Candidate, b: bool)
    requires n in st.nominators && c in st.nominators[n].nominations && c in st.candidates && more <= Get(st.free, n)
    requires Increase(cfg, st.candidates[c], n, st.nominators[n].nominations[c], more) == Ok((cand, b))
    ensures var s := st.nominators[n];
      Next(cfg, st, CallNominatorBondMore(n, c, more))
      == Storage(st.candidates[c := cand],
                 st.nominators[n := s.(nominations := s.nominations[c := s.nominations[c] + more], total := s.total + more)],
                 st.bondedStash, PutBonded(PutNominated(st, c, cand), c, cand).pool,
                 st.free[n := Get(st.free, n) - more], st.reserved[n := Get(st.reserved, n) + more], st.total + more, st.round)
  {
    hide Nominate, ScheduleNominatorRequest, ExecuteRequest, CancelNominationRequest, ScheduleLeaveNominators,
      CancelLeaveNominators, ExecuteLeaveNominators, JoinCandidates, ScheduleLeaveCandidates, CancelLeaveCandidates,
      ExecuteLeaveCandidates, GoOffline, GoOnline, CandidateBondMore, ScheduleCandidateBondLess, ExecuteCandidateBondLess,
      CancelCandidateBondLess, SetValidatorTier, Slash, Increase, Get;
    assert st.candidates[c := cand][c := cand] == st.candidates[c := cand];
  }

  /** A nomination that evicts nobody, field by field. */
  lemma PlainNomination(cfg: Config, st: Storage, n: Account, c: Account, amount: nat, h: nat, hint: nat, cand: Candidate, b: bool, s: Nominator)
    requires c in st.candidates && amount <= Get(st.free, n) && st.candidates[c].count <= h
    requires NominatorFor(cfg, st, n, c, amount, hint) == Ok(s)
    requires AddNomination(cfg, st.candidates[c], Bond(n, amount)) == Ok(Added(cand, b, None, None))
    ensures Next(cfg, st, CallNominate(n, c, amount, h, hint))
      == Storage(st.candidates[c := cand], st.nominators[n := s], st.bondedStash, PutNominated(st, c, cand).pool,
                 st.free[n := Get(st.free, n) - amount], st.reserved[n := Get(st.reserved, n) + amount], st.total + amount, st.round)
  {
    hide NominatorBondMore, ScheduleNominatorRequest, ExecuteRequest, CancelNominationRequest, ScheduleLeaveNominators,
      CancelLeaveNominators, ExecuteLeaveNominators, JoinCandidates, ScheduleLeaveCandidates, CancelLeaveCandidates,
      ExecuteLeaveCandidates, GoOffline, GoOnline, CandidateBondMore, ScheduleCandidateBondLess, ExecuteCandidateBondLess,
      CancelCandidateBondLess, SetValidatorTier, Slash, AddNomination, Get, NominatorFor;
  }

  /** A basic node with one nomination, which fills its top list. */
  function Single(stash: Account, bond: nat, n: Account, a: nat): Candidate {
    Candidate(stash, bond, 1, bond + a, a, 0, 0, Full, Empty, None, Active, BasicNode, Nominations([Bond(n, a)], a), NoNominations)
  }

  lemma AddedSingle(cfg: Config, stash: Account, bond: nat, n: Account, a: nat)
    requires cfg.maxTop == 1
    ensures AddNomination(cfg, NewCandidate(stash, bond, BasicNode), Bond(n, a)) == Ok(Added(Single(stash, bond, n, a), true, None, None))
  {
    assert Insert([], Bond(n, a)) == [Bond(n, a)];
  }

  // ----- a revocation overtaken by an increase

  const BALANCED := map[1 := 5, 2 := 10]

  function Alone(maxTop: nat, a: nat): Candidate {
    Candidate(1, 5, 1, 5 + a, a, 0, 0, if maxTop == 1 then Full else Partial, Empty, None, Active, BasicNode,
              Nominations([Bond(2, a)], a), NoNominations)
  }

  const JOINED := Storage(map[3 := NewCandidate(1, 5, BasicNode)], map[], map[1 := 3], map[3 := 5], map[1 := 0, 2 := 10], map[1 := 5], 5, 1)

  function Nominated(maxTop: nat, requests: map<Account, Request>, a: nat): Storage
    requires a <= 10
  {
    var k := |requests|;
    Storage(map[3 := Alone(maxTop, a)], map[2 := Nominator(map[3 := a], a, requests, k, 7 * k, Staying)], map[1 := 3],
            map[3 := 5 + a], map[1 := 0, 2 := 10 - a], map[1 := 5, 2 := a], 5 + a, 1)
  }

  const REVOKING := map[3 := Request(7, 1, Revoke)]

  lemma ReachJoined(maxTop: nat)
    ensures Next(Small(maxTop), Genesis(BALANCED), CallJoin(1, 3, None, 5, 0)) == JOINED
  {
    hide Next;
    JoinsAsBasic(Small(maxTop), Genesis(BALANCED), 1, 3, 5, 0);
  }

  lemma ReachNominated(maxTop: nat)
    requires maxTop >= 1
    ensures Next(Small(maxTop), JOINED, CallNominate(2, 3, 7, 0, 0)) == Nominated(maxTop, map[], 7)
  {
    hide Next, AddNomination;
    AddedAlone(maxTop);
    PlainNomination(Small(maxTop), JOINED, 2, 3, 7, 0, 0, Alone(maxTop, 7), true, NewNominator(3, 7));
  }

  lemma AddedAlone(maxTop: nat)
    requires maxTop >= 1
    ensures AddNomination(Small(maxTop), NewCandidate(1, 5, BasicNode), Bond(2, 7)) == Ok(Added(Alone(maxTop, 7), true, None, None))
  {
    assert Insert([], Bond(2, 7)) == [Bond(2, 7)];
  }

  lemma ReachRevoking(maxTop: nat)
    ensures Next(Small(maxTop), Nominated(maxTop, map[], 7), CallScheduleRevoke(2, 3)) == Nominated(maxTop, REVOKING, 7)
  {
    hide Next, Alone;
    SchedulesRevoke(Small(maxTop), Nominated(maxTop, map[], 7), 2, 3);
  }

  lemma IncreasedAlone(maxTop: nat)
    requires maxTop >= 1
    ensures Increase(Small(maxTop), Alone(maxTop, 7), 2, 7, 3) == Ok((Alone(maxTop, 10), true))
  {
    assert Held([Bond(2, 7)], 2) == Some(7);
    assert Shift([Bond(2, 7)], 2, 3) == [Bond(2, 10)];
    assert StableSort([Bond(2, 10)]) == [Bond(2, 10)] by {
      assert [Bond(2, 10)][..0] == [];
      assert Insert([], Bond(2, 10)) == [Bond(2, 10)];
    }
  }

  lemma ReachIncreased(maxTop: nat)
    requires maxTop >= 1
    ensures Next(Small(maxTop), Nominated(maxTop, REVOKING, 7), CallNominatorBondMore(2, 3, 3)) == Nominated(maxTop, REVOKING, 10)
  {
    hide Increase, Next;
    IncreasedAlone(maxTop);
    var st, goal := Nominated(maxTop, REVOKING, 7), Nominated(maxTop, REVOKING, 10);
    var st' := Next(Small(maxTop), st, CallNominatorBondMore(2, 3, 3));
    assert st.nominators[2].nominations[3] == 7 && Get(st.free, 2) == 3;
    BondMoreIs(Small(maxTop), st, 2, 3, 3, Alone(maxTop, 10), true);
    assert st'.candidates == goal.candidates;
    assert st'.nominators[2] == goal.nominators[2];
    assert st'.nominators == goal.nominators;
    assert st'.pool == goal.pool && st'.free == goal.free && st'.reserved == goal.reserved;
  }

  lemma RemovedAlone()
    ensures RmIfExists(Small(2), Alone(2, 10), 2, 7) == Ok((NewCandidate(1, 5, BasicNode), false))
    ensures RmIfExists(Small(1), Alone(1, 10), 2, 7) == Err(NominationDNE)
  {
    assert Held([Bond(2, 10)], 2) == Some(10);
    assert Without([Bond(2, 10)], 2) == [];
  }

  const OVERTAKEN := [CallJoin(1, 3, None, 5, 0), CallNominate(2, 3, 7, 0, 0), CallScheduleRevoke(2, 3), CallNominatorBondMore(2, 3, 3)]

  lemma ReachOvertaken(maxTop: nat)
    requires maxTop >= 1
    ensures Run(Small(maxTop), Genesis(BALANCED), OVERTAKEN) == Nominated(maxTop, REVOKING, 10)
  {
    hide Next, Run;
    var cfg, d := Small(maxTop), OVERTAKEN;
    ReachJoined(maxTop);
    ReachNominated(maxTop);
    ReachRevoking(maxTop);
    ReachIncreased(maxTop);
    RunFrom(cfg, Genesis(BALANCED), d, 0);
    RunFrom(cfg, JOINED, d, 1);
    RunFrom(cfg, Nominated(maxTop, map[], 7), d, 2);
    RunFrom(cfg, Nominated(maxTop, REVOKING, 7), d, 3);
    RunNone(cfg, Nominated(maxTop, REVOKING, 10));
    assert d[4..] == [] && d[0..] == d;
  }

  lemma RevokedRest()
    ensures var st := Next(Small(2), Nominated(2, REVOKING, 10), CallExecuteRequest(2, 3));
      && st.candidates == map[3 := NewCandidate(1, 5, BasicNode)] && st.nominators == map[] && st.bondedStash == map[1 := 3]
      && Get(st.reserved, 2) == 3 && st.total == 8
  {
    hide RmIfExists;
    RemovedAlone();
  }

  lemma SoloBacking(st: Storage)
    requires st.candidates == map[3 := NewCandidate(1, 5, BasicNode)]
    ensures Backing(st) == 5
  {
    hide BackingOf;
    EmptyBacking(1, 5, BasicNode);
    SumByTake(st.candidates, BackingOf, 3);
    assert st.candidates - {3} == map[];
  }

  /** With room in the top list the revocation goes through: the nominator is gone, the three units of
      the increase stay reserved, and `Total` still counts them. */
  lemma RevokeAfterIncrease()
    ensures var st := Next(Small(2), Run(Small(2), Genesis(BALANCED), OVERTAKEN), CallExecuteRequest(2, 3));
      2 !in st.nominators && Excess(st, 2) == 3 && st.total == Backing(st) + 3 && !Exact(st)
  {
    hide Next, Run, Backing;
    ReachOvertaken(2);
    var st := Next(Small(2), Nominated(2, REVOKING, 10), CallExecuteRequest(2, 3));
    RevokedRest();
    SoloBacking(st);
    assert Excess(st, 2) == 3;
  }

  /** With the top list full the revocation looks in the wrong list and is refused, although the
      nomination exists. */
  lemma RevokeRefused()
    ensures var st := Run(Small(1), Genesis(BALANCED), OVERTAKEN);
      Records(st, 2, 3) == Some(10) && Step(Small(1), st, CallExecuteRequest(2, 3)) == Err(NominationDNE)
  {
    hide RmIfExists, Run, Next;
    ReachOvertaken(1);
    RemovedAlone();
    assert Nominated(1, REVOKING, 10).nominators[2].requests == REVOKING;
  }

  // ----- a bottom decrease followed by the candidate's leaving

  const FUNDED := map[1 := 5, 2 := 9, 5 := 5, 6 := 4]
  const OTHER := NewCandidate(5, 5, BasicNode)

  /** Candidate 3 with nine in the top list and `a` in the bottom list, whose total says `t`. */
  function Drifting(a: nat, t: nat, status: Status): Candidate {
    Candidate(1, 5, 2, 14, 9, a, a, Full, Full, None, status, BasicNode,
              Nominations([Bond(2, 9)], 9), Nominations([Bond(6, a)], t))
  }

  function Books(c3: Candidate, nominators: map<Account, Nominator>, pool: map<Account, nat>, used2: nat, used6: nat, total: nat): Storage
    requires used2 <= 9 && used6 <= 4
  {
    Storage(map[3 := c3, 4 := OTHER], nominators, map[1 := 3, 5 := 4], pool,
            map[1 := 0, 2 := 9 - used2, 5 := 0, 6 := 4 - used6],
            if used2 == 0 then map[1 := 5, 5 := 5] else if used6 == 0 then map[1 := 5, 5 := 5, 2 := used2]
            else map[1 := 5, 5 := 5, 2 := used2, 6 := used6],
            total, 1)
  }

  const PAIRED := Books(NewCandidate(1, 5, BasicNode), map[], map[3 := 5, 4 := 5], 0, 0, 10)
  const TOPPED := Books(Single(1, 5, 2, 9), map[2 := NewNominator(3, 9)], map[3 := 14, 4 := 5], 9, 0, 19)
  const PARTING := Books(Drifting(2, 4, Leaving(1)), map[2 := NewNominator(3, 9), 6 := NewNominator(3, 2)], map[4 := 5], 9, 2, 21)

  /** Both lists full, the bottom total at `t`; then with a decrease pending; then with it executed. */
  function Filled(t: nat): Storage {
    Books(Drifting(4, t, Active), map[2 := NewNominator(3, 9), 6 := NewNominator(3, 4)], map[3 := 14, 4 := 5], 9, 4, 23)
  }

  function Asked(t: nat): Storage {
    Books(Drifting(4, t, Active),
          map[2 := NewNominator(3, 9), 6 := Nominator(map[3 := 4], 4, map[3 := Request(2, 1, Decrease)], 0, 2, Staying)],
          map[3 := 14, 4 := 5], 9, 4, 23)
  }

  function Lowered(t: nat): Storage {
    Books(Drifting(2, t, Active), map[2 := NewNominator(3, 9), 6 := NewNominator(3, 2)], map[3 := 14, 4 := 5], 9, 2, 21)
  }

  const SOLO := Storage(map[3 := NewCandidate(1, 5, BasicNode)], map[], map[1 := 3], map[3 := 5],
                        map[1 := 0, 2 := 9, 5 := 5, 6 := 4], map[1 := 5], 5, 1)

  lemma ReachSolo()
    ensures Next(Small(1), Genesis(FUNDED), CallJoin(1, 3, None, 5, 0)) == SOLO
  {
    hide Next;
    JoinsAsBasic(Small(1), Genesis(FUNDED), 1, 3, 5, 0);
  }

  lemma ReachPaired()
    ensures Next(Small(1), SOLO, CallJoin(5, 4, None, 5, 1)) == PAIRED
  {
    hide Next;
    assert |SOLO.pool| == 1;
    JoinsAsBasic(Small(1), SOLO, 5, 4, 5, 1);
    var st := Next(Small(1), SOLO, CallJoin(5, 4, None, 5, 1));
    assert st.candidates == PAIRED.candidates && st.bondedStash == PAIRED.bondedStash && st.pool == PAIRED.pool;
    assert st.free == PAIRED.free && st.reserved == PAIRED.reserved;
  }

  lemma ReachTopped()
    ensures Next(Small(1), PAIRED, CallNominate(2, 3, 9, 0, 0)) == TOPPED
  {
    hide AddNomination, Next;
    AddedSingle(Small(1), 1, 5, 2, 9);
    PlainNomination(Small(1), PAIRED, 2, 3, 9, 0, 0, Single(1, 5, 2, 9), true, NewNominator(3, 9));
    var st := Next(Small(1), PAIRED, CallNominate(2, 3, 9, 0, 0));
    ToppedMoney();
    assert st.pool == TOPPED.pool && st.candidates == TOPPED.candidates;
  }

  lemma ToppedMoney()
    ensures PAIRED.free[2 := 0] == TOPPED.free && PAIRED.reserved[2 := 9] == TOPPED.reserved
    ensures Get(PAIRED.free, 2) == 9 && Get(PAIRED.reserved, 2) == 0
  {
    hide NewCandidate, Single, NewNominator;
    assert PAIRED.free == map[1 := 0, 2 := 9, 5 := 0, 6 := 4];
    assert PAIRED.reserved == map[1 := 5, 5 := 5];
  }

  lemma AddedBottom()
    ensures AddNomination(Small(1), Single(1, 5, 2, 9), Bond(6, 4)) == Ok(Added(Drifting(4, 4, Active), false, None, None))
  {
    assert Insert([], Bond(6, 4)) == [Bond(6, 4)];
  }

  lemma ReachFilled()
    ensures Next(Small(1), TOPPED, CallNominate(6, 3, 4, 1, 0)) == Filled(4)
  {
    hide AddNomination, Next;
    AddedBottom();
    PlainNomination(Small(1), TOPPED, 6, 3, 4, 1, 0, Drifting(4, 4, Active), false, NewNominator(3, 4));
    var st := Next(Small(1), TOPPED, CallNominate(6, 3, 4, 1, 0));
    assert st.pool == Filled(4).pool && st.candidates == Filled(4).candidates && st.nominators == Filled(4).nominators;
  }

  lemma ReachAsked(t: nat)
    ensures Next(Small(1), Filled(t), CallScheduleDecrease(6, 3, 2)) == Asked(t)
  {
    hide Drifting, Next;
    SchedulesDecrease(Small(1), Filled(t), 6, 3, 2);
  }

  lemma LoweredBottom(t: nat)
    ensures Candidates.Decrease(Small(1), Drifting(4, t, Active), 6, 4, 2) == Ok((Drifting(2, t, Active), false))
  {
    assert Held([Bond(6, 4)], 6) == Some(4);
    assert Shift([Bond(6, 4)], 6, -2) == [Bond(6, 2)];
    assert StableSort([Bond(6, 2)]) == [Bond(6, 2)] by {
      assert [Bond(6, 2)][..0] == [];
      assert Insert([], Bond(6, 2)) == [Bond(6, 2)];
    }
  }

  lemma ReachLowered(t: nat)
    ensures Next(Small(1), Asked(t), CallExecuteRequest(6, 3)) == Lowered(t)
  {
    hide Candidates.Decrease, Next;
    LoweredBottom(t);
    assert map[3 := 4][3 := 2] == map[3 := 2] && map[3 := Request(2, 1, Decrease)] - {3} == map[];
    ExecutesDecrease(Small(1), Asked(t), 6, 3, Drifting(2, t, Active), NewNominator(3, 2));
    var st := Next(Small(1), Asked(t), CallExecuteRequest(6, 3));
    assert st.nominators == Lowered(t).nominators && st.candidates == Lowered(t).candidates;
    assert st.free == Lowered(t).free && st.reserved == Lowered(t).reserved && st.pool == Lowered(t).pool;
  }

  lemma ReachParting()
    ensures Next(Small(1), Lowered(4), CallScheduleLeaveCandidates(3, 2)) == PARTING
  {
    hide Next;
    assert Lowered(4).pool.Keys == {3, 4};
    assert |Lowered(4).pool| == 2;
    SchedulesLeave(Small(1), Lowered(4), 3, 2);
    assert Lowered(4).pool - {3} == PARTING.pool;
  }

  const DRIFTED := [CallJoin(1, 3, None, 5, 0), CallJoin(5, 4, None, 5, 1), CallNominate(2, 3, 9, 0, 0), CallNominate(6, 3, 4, 1, 0),
                    CallScheduleDecrease(6, 3, 2), CallExecuteRequest(6, 3), CallScheduleLeaveCandidates(3, 2)]

  lemma ReachDrifted()
    ensures Run(Small(1), Genesis(FUNDED), DRIFTED) == PARTING
  {
    hide Next, Run;
    var d := DRIFTED;
    ReachSolo();
    ReachPaired();
    ReachTopped();
    ReachFilled();
    ReachAsked(4);
    ReachLowered(4);
    ReachParting();
    RunFrom(Small(1), Genesis(FUNDED), d, 0);
    RunFrom(Small(1), SOLO, d, 1);
    RunFrom(Small(1), PAIRED, d, 2);
    RunFrom(Small(1), TOPPED, d, 3);
    RunFrom(Small(1), Filled(4), d, 4);
    RunFrom(Small(1), Asked(4), d, 5);
    RunFrom(Small(1), Lowered(4), d, 6);
    RunNone(Small(1), PARTING);
    assert d[7..] == [] && d[0..] == d;
  }

  lemma SumOne(b: Bond)
    ensures Sum([b]) == b.amount
  {
    assert [b][1..] == [];
  }

  lemma StakesOf(cand: Candidate, x: Bond, y: Bond)
    requires cand.top.nominations == [x] && cand.bottom.nominations == [y]
    ensures BackingOf(cand) == cand.bond + x.amount + y.amount && Drift(cand) == cand.bottom.total - y.amount
  {
    hide Sum;
    SumOne(x);
    SumOne(y);
  }

  lemma PartingStakes()
    ensures Drift(Drifting(2, 4, Leaving(1))) == 2 && BackingOf(Drifting(2, 4, Leaving(1))) == 16 && BackingOf(OTHER) == 5
  {
    hide Sum, BackingOf, Drift;
    StakesOf(Drifting(2, 4, Leaving(1)), Bond(2, 9), Bond(6, 2));
    EmptyBacking(5, 5, BasicNode);
  }

  lemma PartingBacking()
    ensures Backing(PARTING) == 21
  {
    hide BackingOf;
    PartingStakes();
    SumByTake(PARTING.candidates, BackingOf, 3);
    assert PARTING.candidates - {3} == map[4 := OTHER];
    SumByTake(map[4 := OTHER], BackingOf, 4);
    assert map[4 := OTHER] - {4} == map[];
  }

  /** A bottom nomination is lowered by two and its candidate leaves: the books were exact until then,
      and afterwards `Total` is three where the other candidate has five at stake. A slash of all of that
      then saturates `Total`. */
  lemma LeaveAfterBottomDecrease()
    ensures var st := Run(Small(1), Genesis(FUNDED), DRIFTED);
      var st' := Next(Small(1), st, CallExecuteLeaveCandidates(1, 2));
      && Exact(st) && Step(Small(1), st, CallExecuteLeaveCandidates(1, 2)).Ok? && !Exact(st')
      && st'.total == 3 && Backing(st') == 5
      && Step(Small(1), st', Offence(4, 5)).Ok? && Saturates(Small(1), st', Offence(4, 5))
  {
    hide Next, Run, Step, Backing, Valid, Excess, Drift, BackingOf, FlowOf;
    var call := CallExecuteLeaveCandidates(1, 2);
    ReachDrifted();
    PartingStakes();
    PartingBacking();
    PartingExact();
    PartingLeaves();
    StepKeeps(Small(1), PARTING, call);
    LeaveFlowIs(Small(1), PARTING, 1, 2);
    SlashAfter(Next(Small(1), PARTING, call));
  }

  lemma SlashAfter(st: Storage)
    requires st.candidates == map[4 := OTHER] && st.total < 5
    ensures Step(Small(1), st, Offence(4, 5)).Ok? && Saturates(Small(1), st, Offence(4, 5))
  {
  }

  lemma PartingExact()
    ensures forall a: Account :: Excess(PARTING, a) == 0
  {
    forall a: Account ensures Excess(PARTING, a) == 0 {}
  }

  lemma PartingLeaves()
    ensures Valid(Small(1), PARTING) && Step(Small(1), PARTING, CallExecuteLeaveCandidates(1, 2)).Ok?
    ensures Next(Small(1), PARTING, CallExecuteLeaveCandidates(1, 2)).candidates == map[4 := OTHER]
  {
    hide Valid, Run, Exact, ExecuteLeaveCandidates, OnlyCloses, Thins;
    GenesisValid(Small(1), FUNDED);
    RunKeeps(Small(1), Genesis(FUNDED), DRIFTED);
    ReachDrifted();
    LeaveAcceptedIff(Small(1), PARTING, 1, 2);
    LeaveTickets(PARTING, 1, 2);
    assert PARTING.candidates - {3} == map[4 := OTHER];
  }

  // ----- the last candidate leaves with a gap

  const EMPTYING := PARTING.(candidates := map[3 := Drifting(2, 4, Leaving(1)), 4 := OTHER.(status := Leaving(1))], pool := map[])
  const ALONE := EMPTYING.(candidates := map[3 := Drifting(2, 4, Leaving(1))], bondedStash := map[1 := 3],
                           free := EMPTYING.free[5 := 5], reserved := EMPTYING.reserved[5 := 0], total := 16)

  lemma ReachEmptying()
    ensures Next(Small(1), PARTING, CallScheduleLeaveCandidates(4, 1)) == EMPTYING
  {
    hide Drifting, Next;
    assert |PARTING.pool| == 1;
    SchedulesLeave(Small(1), PARTING, 4, 1);
    var st := Next(Small(1), PARTING, CallScheduleLeaveCandidates(4, 1));
    assert st.candidates == EMPTYING.candidates && st.pool == EMPTYING.pool;
  }

  lemma NothingToReturn(st: Storage, c: Account)
    ensures ReturnStakes(st, c, []) == Ok(st)
  {
  }

  /** The leaving of a candidate without nominations, field by field. */
  lemma LeavesEmpty(cfg: Config, st: Storage, stash: Account, hint: nat)
    requires stash in st.bondedStash && st.bondedStash[stash] in st.candidates
    requires var cand := st.candidates[st.bondedStash[stash]];
      && cand.count <= hint && cand.status.Leaving? && cand.status.when <= st.round && cand.bond <= Get(st.reserved, stash)
      && cand.top == NoNominations && cand.bottom == NoNominations
    ensures var c := st.bondedStash[stash]; var bond := st.candidates[c].bond;
      Next(cfg, st, CallExecuteLeaveCandidates(stash, hint))
      == Storage(st.candidates - {c}, st.nominators, st.bondedStash - {stash}, st.pool, st.free[stash := Get(st.free, stash) + bond],
                 st.reserved[stash := Get(st.reserved, stash) - bond], SatSub(st.total, bond), st.round)
  {
    hide Nominate, NominatorBondMore, ScheduleNominatorRequest, ExecuteRequest, CancelNominationRequest,
      ScheduleLeaveNominators, CancelLeaveNominators, ExecuteLeaveNominators, JoinCandidates, ScheduleLeaveCandidates,
      CancelLeaveCandidates, GoOffline, GoOnline, CandidateBondMore, ScheduleCandidateBondLess, ExecuteCandidateBondLess,
      CancelCandidateBondLess, SetValidatorTier, Slash, ReturnStakes, Get, SatSub;
    NothingToReturn(st, st.bondedStash[stash]);
  }

  lemma ReachAlone()
    ensures Next(Small(1), EMPTYING, CallExecuteLeaveCandidates(5, 0)) == ALONE
  {
    hide Drifting, Next;
    LeavesEmpty(Small(1), EMPTYING, 5, 0);
    assert EMPTYING.candidates - {4} == ALONE.candidates && EMPTYING.bondedStash - {5} == ALONE.bondedStash;
  }

  const EMPTIED := [CallScheduleLeaveCandidates(4, 1), CallExecuteLeaveCandidates(5, 0)]

  lemma AloneStakes()
    ensures (forall a: Account :: Excess(ALONE, a) == 0) && Backing(ALONE) == 16
  {
    hide BackingOf, SumBy;
    PartingStakes();
    SumByTake(ALONE.candidates, BackingOf, 3);
    assert ALONE.candidates - {3} == map[];
    NoBackings();
    forall a: Account ensures Excess(ALONE, a) == 0 {}
  }

  lemma NoBackings()
    ensures SumBy<Account, Candidate>(map[], BackingOf) == 0
  {
  }

  /** The other candidate leaves first: with exact books, the last candidate's leaving takes eighteen out
      of a `Total` of sixteen. */
  lemma SoleLeaveSaturates()
    ensures var st := Run(Small(1), Genesis(FUNDED), DRIFTED + EMPTIED);
      && Exact(st) && st.total == 16
      && Step(Small(1), st, CallExecuteLeaveCandidates(1, 2)).Ok? && Saturates(Small(1), st, CallExecuteLeaveCandidates(1, 2))
  {
    hide Next, Run, Valid, Excess, Backing, ExecuteLeaveCandidates, BackingOf, Drift;
    ReachDrifted();
    RunConcat(Small(1), Genesis(FUNDED), DRIFTED, EMPTIED);
    ReachEmptying();
    ReachAlone();
    RunFrom(Small(1), PARTING, EMPTIED, 0);
    RunFrom(Small(1), EMPTYING, EMPTIED, 1);
    RunNone(Small(1), ALONE);
    assert EMPTIED[2..] == [] && EMPTIED[0..] == EMPTIED;
    AloneStakes();
    GenesisValid(Small(1), FUNDED);
    RunKeeps(Small(1), Genesis(FUNDED), DRIFTED + EMPTIED);
    LeaveAcceptedIff(Small(1), ALONE, 1, 2);
  }

  // ----- the recorded bottom total has no bound

  lemma RaisedBottom(t: nat)
    ensures Increase(Small(1), Drifting(2, t, Active), 6, 2, 2) == Ok((Drifting(4, t + 2, Active), false))
  {
    assert Held([Bond(6, 2)], 6) == Some(2);
    assert Shift([Bond(6, 2)], 6, 2) == [Bond(6, 4)];
    assert StableSort([Bond(6, 4)]) == [Bond(6, 4)] by {
      assert [Bond(6, 4)][..0] == [];
      assert Insert([], Bond(6, 4)) == [Bond(6, 4)];
    }
  }

  lemma ReachRaised(t: nat)
    ensures Next(Small(1), Lowered(t), CallNominatorBondMore(6, 3, 2)) == Filled(t + 2)
  {
    hide Increase, Next;
    RaisedBottom(t);
    BondMoreIs(Small(1), Lowered(t), 6, 3, 2, Drifting(4, t + 2, Active), false);
    var st := Next(Small(1), Lowered(t), CallNominatorBondMore(6, 3, 2));
    assert st.nominators[6] == NewNominator(3, 4);
    assert st.nominators == Filled(t + 2).nominators && st.candidates == Filled(t + 2).candidates;
    assert st.free == Filled(t + 2).free && st.reserved == Filled(t + 2).reserved && st.pool == Filled(t + 2).pool;
  }

  const CYCLE := [CallScheduleDecrease(6, 3, 2), CallExecuteRequest(6, 3), CallNominatorBondMore(6, 3, 2)]

  function Cycles(k: nat): seq<Call> {
    if k == 0 then [] else CYCLE + Cycles(k - 1)
  }

  lemma OneCycle(t: nat)
    ensures Run(Small(1), Filled(t), CYCLE) == Filled(t + 2)
  {
    hide Next, Run;
    ReachAsked(t);
    ReachLowered(t);
    ReachRaised(t);
    RunFrom(Small(1), Filled(t), CYCLE, 0);
    RunFrom(Small(1), Asked(t), CYCLE, 1);
    RunFrom(Small(1), Lowered(t), CYCLE, 2);
    RunNone(Small(1), Filled(t + 2));
    assert CYCLE[3..] == [] && CYCLE[0..] == CYCLE;
  }

  lemma {:induction false} ManyCycles(t: nat, k: nat)
    ensures Run(Small(1), Filled(t), Cycles(k)) == Filled(t + 2 * k)
    decreases k
  {
    hide Next, Run, Filled;
    if k == 0 {
      RunNone(Small(1), Filled(t));
    } else {
      RunConcat(Small(1), Filled(t), CYCLE, Cycles(k - 1));
      OneCycle(t);
      ManyCycles(t + 2, k - 1);
    }
  }

  lemma ReachFilledBooks()
    ensures Run(Small(1), Genesis(FUNDED), DRIFTED[..4]) == Filled(4)
  {
    hide Next, Run, Filled;
    var d := DRIFTED[..4];
    ReachSolo();
    ReachPaired();
    ReachTopped();
    ReachFilled();
    RunFrom(Small(1), Genesis(FUNDED), d, 0);
    RunFrom(Small(1), SOLO, d, 1);
    RunFrom(Small(1), PAIRED, d, 2);
    RunFrom(Small(1), TOPPED, d, 3);
    RunNone(Small(1), Filled(4));
    assert d[4..] == [] && d[0..] == d;
  }

  /** Lowering and raising the same bottom nomination over and over, with the same balances and the same
      nominations each time, drives the recorded bottom total beyond any bound. */
  lemma BottomTotalUnbounded(k: nat)
    ensures var st := Run(Small(1), Genesis(FUNDED), DRIFTED[..4] + Cycles(k));
      && st.free == Filled(4).free && st.reserved == Filled(4).reserved && st.nominators == Filled(4).nominators
      && 3 in st.candidates && All(st.candidates[3]) == All(Filled(4).candidates[3])
      && st.candidates[3].bottom.total == 4 + 2 * k
  {
    hide Next, Run;
    ReachFilledBooks();
    RunConcat(Small(1), Genesis(FUNDED), DRIFTED[..4], Cycles(k));
    ManyCycles(4, k);
  }

  // ----- a change of tier over a pending bond-less request

  /** Full nodes need eight, basic nodes one. */
  const TIERED := Config(1, 1, 10, 10, 8, 1, 1, 1, 0, 0, 0, 0, 0)

  function Keeper(bond: nat, request: Option<BondLessRequest>, tier: Tier): Storage
    requires bond <= 10
  {
    Storage(map[3 := NewCandidate(1, bond, tier).(request := request)], map[], map[1 := 3], map[3 := bond], map[1 := 10 - bond],
            map[1 := bond], bond, 1)
  }

  const NINE := Some(BondLessRequest(9, 1))

  lemma ReachKeeper()
    ensures Next(TIERED, Genesis(map[1 := 10]), CallJoin(1, 3, None, 10, 0)) == Keeper(10, None, BasicNode)
  {
    hide Next;
    JoinsAsBasic(TIERED, Genesis(map[1 := 10]), 1, 3, 10, 0);
  }

  lemma ReachAsking()
    ensures Next(TIERED, Keeper(10, None, BasicNode), CallScheduleBondLess(3, 9)) == Keeper(10, NINE, BasicNode)
  {
  }

  lemma ReachFull()
    ensures Next(TIERED, Keeper(10, NINE, BasicNode), CallSetTier(1, 0, FullNode, Some(true))) == Keeper(10, NINE, FullNode)
  {
  }

  lemma ReachBare()
    ensures Next(TIERED, Keeper(10, NINE, FullNode), CallExecuteBondLess(1)) == Keeper(1, None, FullNode)
  {
  }

  /** A basic node asks to withdraw nine of ten, becomes a full node, and withdraws: it is left with a
      self-bond of one where a full node needs eight. */
  lemma TierChangeBreaksFloor()
    ensures var st := Run(TIERED, Genesis(map[1 := 10]),
                          [CallJoin(1, 3, None, 10, 0), CallScheduleBondLess(3, 9), CallSetTier(1, 0, FullNode, Some(true)), CallExecuteBondLess(1)]);
      3 in st.candidates && st.candidates[3].tier == FullNode && st.candidates[3].bond < MinSelfBond(TIERED, FullNode)
  {
    hide Next, Run;
    var d := [CallJoin(1, 3, None, 10, 0), CallScheduleBondLess(3, 9), CallSetTier(1, 0, FullNode, Some(true)), CallExecuteBondLess(1)];
    ReachKeeper();
    ReachAsking();
    ReachFull();
    ReachBare();
    RunFrom(TIERED, Genesis(map[1 := 10]), d, 0);
    RunFrom(TIERED, Keeper(10, None, BasicNode), d, 1);
    RunFrom(TIERED, Keeper(10, NINE, BasicNode), d, 2);
    RunFrom(TIERED, Keeper(10, NINE, FullNode), d, 3);
    RunNone(TIERED, Keeper(1, None, FullNode));
    assert d[4..] == [] && d[0..] == d;
  }

  // ----- the checks of the minimum stake

  /** A nominator needs five, a nomination one. */
  const SPLIT := Config(1, 1, 10, 10, 1, 1, 1, 5, 0, 0, 0, 0, 0)
  const PURSES := map[11 := 1, 12 := 1, 13 := 1, 2 := 9]

  /** Candidates 3, 4 and 5 of the stashes 11, 12 and 13; nominator 2 has `used` reserved. */
  function Three(c3: Candidate, c4: Candidate, c5: Candidate, s: map<Account, Nominator>, used: nat): Storage
    requires used <= 9
  {
    Storage(map[3 := c3, 4 := c4, 5 := c5], s, map[11 := 3, 12 := 4, 13 := 5],
            map[3 := c3.votingPower, 4 := c4.votingPower, 5 := c5.votingPower],
            map[11 := 0, 12 := 0, 13 := 0, 2 := 9 - used],
            if used == 0 then map[11 := 1, 12 := 1, 13 := 1] else map[11 := 1, 12 := 1, 13 := 1, 2 := used], 3 + used, 1)
  }

  function Novice(stash: Account): Candidate { NewCandidate(stash, 1, BasicNode) }

  function Holder(nominations: map<Account, nat>, total: nat): Nominator {
    Nominator(nominations, total, map[], 0, 0, Staying)
  }

  const THREE := Three(Novice(11), Novice(12), Novice(13), map[], 0)
  const FIVE := Three(Single(11, 1, 2, 5), Novice(12), Novice(13), map[2 := Holder(map[3 := 5], 5)], 5)
  const EIGHT := Three(Single(11, 1, 2, 5), Single(12, 1, 2, 3), Novice(13), map[2 := Holder(map[3 := 5, 4 := 3], 8)], 8)
  const NINES := Three(Single(11, 1, 2, 5), Single(12, 1, 2, 3), Single(13, 1, 2, 1), map[2 := Holder(map[3 := 5, 4 := 3, 5 := 1], 9)], 9)

  const ONE := Storage(map[3 := Novice(11)], map[], map[11 := 3], map[3 := 1], map[11 := 0, 12 := 1, 13 := 1, 2 := 9], map[11 := 1], 1, 1)
  const TWO := Storage(map[3 := Novice(11), 4 := Novice(12)], map[], map[11 := 3, 12 := 4], map[3 := 1, 4 := 1],
                       map[11 := 0, 12 := 0, 13 := 1, 2 := 9], map[11 := 1, 12 := 1], 2, 1)

  lemma ReachOne()
    ensures Next(SPLIT, Genesis(PURSES), CallJoin(11, 3, None, 1, 0)) == ONE
  {
    hide Next, NewCandidate;
    JoinsAsBasic(SPLIT, Genesis(PURSES), 11, 3, 1, 0);
    assert PURSES[11 := 0] == ONE.free;
  }

  lemma ReachTwo()
    ensures Next(SPLIT, ONE, CallJoin(12, 4, None, 1, 1)) == TWO
  {
    hide Next, NewCandidate;
    assert |ONE.pool| == 1;
    JoinsAsBasic(SPLIT, ONE, 12, 4, 1, 1);
    assert ONE.free[12 := 0] == TWO.free;
  }

  lemma ReachThree()
    ensures Next(SPLIT, TWO, CallJoin(13, 5, None, 1, 2)) == THREE
  {
    hide Next;
    assert TWO.pool.Keys == {3, 4};
    assert |TWO.pool| == 2;
    JoinsAsBasic(SPLIT, TWO, 13, 5, 1, 2);
    assert TWO.free[13 := 0] == THREE.free;
    assert TWO.reserved[13 := 1] == THREE.reserved;
  }

  lemma ReachFive()
    ensures Next(SPLIT, THREE, CallNominate(2, 3, 5, 0, 0)) == FIVE
  {
    hide AddNomination, Next;
    AddedSingle(SPLIT, 11, 1, 2, 5);
    PlainNomination(SPLIT, THREE, 2, 3, 5, 0, 0, Single(11, 1, 2, 5), true, Holder(map[3 := 5], 5));
    var st := Next(SPLIT, THREE, CallNominate(2, 3, 5, 0, 0));
    assert st.pool == FIVE.pool && st.candidates == FIVE.candidates;
    assert st.free == FIVE.free && st.reserved == FIVE.reserved;
  }

  lemma ReachEight()
    ensures Next(SPLIT, FIVE, CallNominate(2, 4, 3, 0, 1)) == EIGHT
  {
    hide AddNomination, Next;
    AddedSingle(SPLIT, 12, 1, 2, 3);
    assert map[3 := 5][4 := 3] == map[3 := 5, 4 := 3];
    PlainNomination(SPLIT, FIVE, 2, 4, 3, 0, 1, Single(12, 1, 2, 3), true, Holder(map[3 := 5, 4 := 3], 8));
    var st := Next(SPLIT, FIVE, CallNominate(2, 4, 3, 0, 1));
    assert st.pool == EIGHT.pool && st.candidates == EIGHT.candidates && st.nominators == EIGHT.nominators;
    assert st.free == EIGHT.free && st.reserved == EIGHT.reserved;
  }

  lemma ReachNines()
    ensures Next(SPLIT, EIGHT, CallNominate(2, 5, 1, 0, 2)) == NINES
  {
    hide AddNomination, Next;
    AddedSingle(SPLIT, 13, 1, 2, 1);
    assert map[3 := 5, 4 := 3][5 := 1] == map[3 := 5, 4 := 3, 5 := 1];
    assert |map[3 := 5, 4 := 3]| == 2;
    PlainNomination(SPLIT, EIGHT, 2, 5, 1, 0, 2, Single(13, 1, 2, 1), true, Holder(map[3 := 5, 4 := 3, 5 := 1], 9));
    var st := Next(SPLIT, EIGHT, CallNominate(2, 5, 1, 0, 2));
    assert st.pool == NINES.pool && st.candidates == NINES.candidates && st.nominators == NINES.nominators;
    assert st.free == NINES.free && st.reserved == NINES.reserved;
  }

  const GOING := NINES.(candidates := NINES.candidates[3 := Single(11, 1, 2, 5).(status := Leaving(1))], pool := NINES.pool - {3})

  lemma ReachGoing()
    ensures Next(SPLIT, NINES, CallScheduleLeaveCandidates(3, 3)) == GOING
  {
    hide Next;
    assert NINES.pool.Keys == {3, 4, 5};
    assert |NINES.pool| == 3;
    SchedulesLeave(SPLIT, NINES, 3, 3);
  }

  /** Nominator 2 is left with three at candidate 4 and one at candidate 5. */
  ghost predicate LeftWithFour(st: Storage) {
    && st.round == 1 && 2 in st.nominators && st.nominators[2] == Holder(map[4 := 3, 5 := 1], 4)
    && 5 in st.candidates && st.candidates[5] == Single(13, 1, 2, 1)
  }

  lemma ReturnsOne(st: Storage, c: Account, b: Bond)
    ensures ReturnStakes(st, c, [b]) == ReturnStake(st, c, b)
  {
    hide ReturnStake;
    assert [b][1..] == [];
  }

  lemma ReturnedFive()
    ensures ReturnStake(GOING, 3, Bond(2, 5)).Ok?
    ensures var st := ReturnStake(GOING, 3, Bond(2, 5)).value;
      && st.candidates == GOING.candidates && st.round == 1
      && 2 in st.nominators && st.nominators[2] == Holder(map[4 := 3, 5 := 1], 4)
  {
    hide Unreserve, Single;
    UnreserveKeeps(GOING, 2, 5);
    UnreserveRound(GOING, 2, 5);
    assert map[3 := 5, 4 := 3, 5 := 1] - {3} == map[4 := 3, 5 := 1];
    assert RmEntry(GOING.nominators[2], 3) == Holder(map[4 := 3, 5 := 1], 4);
  }

  lemma UnreserveRound(st: Storage, a: Account, v: nat)
    ensures Unreserve(st, a, v).round == st.round
  {
  }

  lemma ReachLeft()
    ensures LeftWithFour(Next(SPLIT, GOING, CallExecuteLeaveCandidates(11, 1)))
  {
    hide ReturnStakes, ReturnStake, Unreserve, Holder;
    ReturnedFive();
    ReturnsOne(GOING, 3, Bond(2, 5));
    var st1 := ReturnStake(GOING, 3, Bond(2, 5)).value;
    NothingToReturn(st1, 3);
    UnreserveKeeps(st1, 11, 1);
    UnreserveRound(st1, 11, 1);
    assert GOING.candidates[3].count == 1 && GOING.candidates[3].bond == 1;
  }

  const SPLIT_START := [CallJoin(11, 3, None, 1, 0), CallJoin(12, 4, None, 1, 1), CallJoin(13, 5, None, 1, 2),
                        CallNominate(2, 3, 5, 0, 0)]
  const SPLIT_END := [CallNominate(2, 4, 3, 0, 1), CallNominate(2, 5, 1, 0, 2), CallScheduleLeaveCandidates(3, 3),
                      CallExecuteLeaveCandidates(11, 1)]
  const SPLIT_RUN := SPLIT_START + SPLIT_END

  lemma ReachStart()
    ensures Run(SPLIT, Genesis(PURSES), SPLIT_START) == FIVE
  {
    hide Next, Run;
    var d := SPLIT_START;
    ReachOne();
    ReachTwo();
    ReachThree();
    ReachFive();
    RunFrom(SPLIT, Genesis(PURSES), d, 0);
    RunFrom(SPLIT, ONE, d, 1);
    RunFrom(SPLIT, TWO, d, 2);
    RunFrom(SPLIT, THREE, d, 3);
    RunNone(SPLIT, FIVE);
    assert d[4..] == [] && d[0..] == d;
  }

  lemma ReachEnd()
    ensures LeftWithFour(Run(SPLIT, FIVE, SPLIT_END))
  {
    hide Next, Run, LeftWithFour;
    var d := SPLIT_END;
    ReachEight();
    ReachNines();
    ReachGoing();
    ReachLeft();
    RunFrom(SPLIT, FIVE, d, 0);
    RunFrom(SPLIT, EIGHT, d, 1);
    RunFrom(SPLIT, NINES, d, 2);
    RunFrom(SPLIT, GOING, d, 3);
    RunNone(SPLIT, Next(SPLIT, GOING, d[3]));
    assert d[4..] == [] && d[0..] == d;
  }

  lemma ReachSplit()
    ensures LeftWithFour(Run(SPLIT, Genesis(PURSES), SPLIT_RUN)) && Valid(SPLIT, Run(SPLIT, Genesis(PURSES), SPLIT_RUN))
  {
    hide Run, Valid, LeftWithFour, Exact;
    ReachStart();
    ReachEnd();
    RunConcat(SPLIT, Genesis(PURSES), SPLIT_START, SPLIT_END);
    GenesisValid(SPLIT, PURSES);
    RunKeeps(SPLIT, Genesis(PURSES), SPLIT_RUN);
  }

  lemma DecreaseWraps(st: Storage)
    requires LeftWithFour(st)
    ensures Step(SPLIT, st, CallScheduleDecrease(2, 4, 2)).Ok?
  {
    hide Single;
    WrapIs(4, 5);
  }

  lemma RevokeScheduled(st: Storage)
    requires LeftWithFour(st)
    ensures var st' := Next(SPLIT, st, CallScheduleRevoke(2, 5));
      && st'.candidates == st.candidates && st'.round == 1
      && 2 in st'.nominators && st'.nominators[2] == Nominator(map[4 := 3, 5 := 1], 4, map[5 := Request(1, 1, Revoke)], 1, 1, Staying)
  {
    hide Single, Next;
    SchedulesRevoke(SPLIT, st, 2, 5);
  }

  lemma RevokeWraps(st: Storage)
    requires LeftWithFour(st) && Valid(SPLIT, st)
    ensures Step(SPLIT, Next(SPLIT, st, CallScheduleRevoke(2, 5)), CallExecuteRequest(2, 5)).Ok?
  {
    hide Next, Valid, ExecuteRevoke, ExecuteDecrease;
    var st' := Next(SPLIT, st, CallScheduleRevoke(2, 5));
    RevokeScheduled(st);
    StepKeeps(SPLIT, st, CallScheduleRevoke(2, 5));
    RevokeAcceptedIff(SPLIT, st', 2, 5);
  }

  /** With a smaller minimum for nominations than for nominators, a candidate's leaving can bring a nominator
      below the minimum stake. From then on both checks wrap: a decrease to one and a revocation are
      accepted although neither leaves the minimum. */
  lemma StakeChecksWrap()
    ensures var st := Run(SPLIT, Genesis(PURSES), SPLIT_RUN);
      && 2 in st.nominators && st.nominators[2].total == 4 < SPLIT.minNominatorStk
      && Step(SPLIT, st, CallScheduleDecrease(2, 4, 2)).Ok?
      && Step(SPLIT, Next(SPLIT, st, CallScheduleRevoke(2, 5)), CallExecuteRequest(2, 5)).Ok?
  {
    hide Next, Run, Valid, Step;
    ReachSplit();
    DecreaseWraps(Run(SPLIT, Genesis(PURSES), SPLIT_RUN));
    RevokeWraps(Run(SPLIT, Genesis(PURSES), SPLIT_RUN));
  }
}
