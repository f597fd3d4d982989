/** What no run exceeds: who may be what, how many nominations and how many active candidates. */
module Limits {
  import opened Bonds
  import opened Candidates
  import opened Nominators
  import opened Staking
  import opened StakingLaws
  import opened Runs
  import opened Reference
  import opened Refinement

  /** Nobody is a nominator and a candidate. */
  ghost predicate RolesApart(st: Storage) {
    st.nominators.Keys !! st.candidates.Keys
  }

  /** The first nomination is not counted against the limit; every other one is. */
  ghost predicate FewNominations(cfg: Config, st: Storage) {
    forall n :: n in st.nominators ==>
      |st.nominators[n].nominations| <= cfg.maxNominations || |st.nominators[n].nominations| == 1
  }

  ghost predicate WithinLimits(cfg: Config, st: Storage) {
    RolesApart(st) && FewNominations(cfg, st) && |st.pool| <= cfg.maxCandidates
  }

  /** A nominator of a storage that satisfies the invariant has a nomination. */
  lemma HasRecord(cfg: Config, st: Storage, n: Account) returns (c: Account)
    requires Valid(cfg, st) && n in st.nominators
    ensures Records(st, n, c).Some?
  {
    hide CandidatesOk, LedgerOk, Agree, PoolOk, StashOk, Solvent;
    c :| c in st.nominators[n].nominations;
  }

  /** Only an accepted nomination makes a nominator. */
  lemma NewNominatorNominates(cfg: Config, st: Storage, call: Call, n: Account)
    requires cfg.Valid() && Valid(cfg, st) && Step(cfg, st, call).Ok? && n in Next(cfg, st, call).nominators
    ensures n in st.nominators || (call.CallNominate? && call.n == n)
  {
    hide Valid, Step, Next, Moves, RequestAfter, ExitAfter, SelfAfter, SelfOf, RequestOf, ExitOf;
    StepKeeps(cfg, st, call);
    CallEffect(cfg, st, call);
    var c := HasRecord(cfg, Next(cfg, st, call), n);
    assert Records(Next(cfg, st, call), n, c) == RecordAfter(cfg, st, call, n, c);
  }

  /** Only an accepted joining makes a candidate. */
  lemma NewCandidateJoins(cfg: Config, st: Storage, call: Call, c: Account)
    requires cfg.Valid() && Valid(cfg, st) && Step(cfg, st, call).Ok? && c in Next(cfg, st, call).candidates
    ensures c in st.candidates || (call.CallJoin? && call.c == c)
  {
    hide Valid, Step, Next, RecordAfter, RequestAfter, ExitAfter, Records, RequestOf, ExitOf;
    CallEffect(cfg, st, call);
    assert SelfOf(Next(cfg, st, call), c) == SelfAfter(cfg, st, call, c);
  }

  lemma RolesStep(cfg: Config, st: Storage, call: Call)
    requires cfg.Valid() && Valid(cfg, st) && cfg.minNominatorStk < BALANCES && Step(cfg, st, call).Ok? && RolesApart(st)
    ensures RolesApart(Next(cfg, st, call))
  {
    hide Valid, Step, Next;
    CallVerdict(cfg, st, call);
    var st' := Next(cfg, st, call);
    forall x | x in st'.nominators && x in st'.candidates ensures false {
      NewNominatorNominates(cfg, st, call, x);
      NewCandidateJoins(cfg, st, call, x);
    }
  }

  lemma FewerKeys(m: map<Account, nat>, m': map<Account, nat>)
    requires m'.Keys <= m.Keys
    ensures |m'| <= |m|
  {
    Fewer(m'.Keys, m.Keys);
  }

  lemma {:induction false} Fewer(a: set<Account>, b: set<Account>)
    requires a <= b
    ensures |a| <= |b|
    decreases a
  {
    if a != {} {
      var x :| x in a;
      Fewer(a - {x}, b - {x});
    }
  }

  /** How the nominations of one nominator change. */
  lemma NominationsStep(cfg: Config, st: Storage, call: Call, n: Account)
    requires cfg.Valid() && Valid(cfg, st) && Step(cfg, st, call).Ok? && n in Next(cfg, st, call).nominators
    ensures var m, m' := NominationsOf(st, n), Next(cfg, st, call).nominators[n].nominations;
      m'.Keys <= m.Keys + if call.CallNominate? && call.n == n then {call.c} else {}
  {
    hide Valid, Step, Next, RequestAfter, ExitAfter, SelfAfter, SelfOf, RequestOf, ExitOf;
    CallEffect(cfg, st, call);
    var st' := Next(cfg, st, call);
    forall c | c in st'.nominators[n].nominations
      ensures c in NominationsOf(st, n) || (call.CallNominate? && call.n == n && call.c == c)
    {
      assert Records(st', n, c) == RecordAfter(cfg, st, call, n, c);
    }
  }

  lemma FewStep(cfg: Config, st: Storage, call: Call)
    requires cfg.Valid() && Valid(cfg, st) && cfg.minNominatorStk < BALANCES && Step(cfg, st, call).Ok? && FewNominations(cfg, st)
    ensures FewNominations(cfg, Next(cfg, st, call))
  {
    hide Valid, Step, Next, Refusal;
    var st' := Next(cfg, st, call);
    forall n | n in st'.nominators
      ensures |st'.nominators[n].nominations| <= cfg.maxNominations || |st'.nominators[n].nominations| == 1
    {
      NominationsStep(cfg, st, call, n);
      NewNominatorNominates(cfg, st, call, n);
      var m, m' := NominationsOf(st, n), st'.nominators[n].nominations;
      if call.CallNominate? && call.n == n {
        NominationAllowed(cfg, st, call);
        Fewer(m'.Keys, m.Keys + {call.c});
        NotEmpty(cfg, st', n);
      } else {
        FewerKeys(m, m');
        NotEmpty(cfg, st', n);
      }
    }
  }

  lemma NotEmpty(cfg: Config, st: Storage, n: Account)
    requires n in st.nominators
    ensures st.nominators[n].nominations != map[] ==> |st.nominators[n].nominations| >= 1
  {
  }

  lemma NominationAllowed(cfg: Config, st: Storage, call: Call)
    requires cfg.Valid() && Valid(cfg, st) && cfg.minNominatorStk < BALANCES && Step(cfg, st, call).Ok? && call.CallNominate?
    ensures call.n in st.nominators ==> |st.nominators[call.n].nominations| < cfg.maxNominations
  {
    hide Valid, Step, Outbid;
    CallVerdict(cfg, st, call);
  }

  ghost predicate Activates(call: Call, c: Account) {
    (call.CallJoin? || call.CallCancelLeaveCandidates? || call.CallGoOnline?) && call.c == c
  }

  lemma ActivatedBy(cfg: Config, st: Storage, call: Call, c: Account)
    requires var self := SelfAfter(cfg, st, call, c); self.Some? && self.value.status.Active?
    requires SelfOf(st, c).Some? ==> !SelfOf(st, c).value.status.Active?
    ensures Activates(call, c)
  {
  }

  lemma RoomToActivate(cfg: Config, st: Storage, call: Call, c: Account)
    requires Activates(call, c) && Refusal(cfg, st, call).None?
    ensures |st.pool| < cfg.maxCandidates
  {
    hide NominateRefusal, BondMoreRefusal, ScheduleRefusal, ExecuteRefusal, ExitRefusal, StashRefusal;
  }

  lemma PoolIsActive(st: Storage, c: Account)
    requires PoolOk(st)
    ensures c in st.pool <==> SelfOf(st, c).Some? && SelfOf(st, c).value.status.Active?
  {
  }

  /** Only these calls make a candidate active, and only while there is room. */
  lemma PoolGrows(cfg: Config, st: Storage, call: Call, c: Account)
    requires cfg.Valid() && Valid(cfg, st) && cfg.minNominatorStk < BALANCES && Step(cfg, st, call).Ok?
    requires c in Next(cfg, st, call).pool && c !in st.pool
    ensures Activates(call, c) && |st.pool| < cfg.maxCandidates
  {
    hide Valid, Step, Next, Moves, RecordAfter, RequestAfter, ExitAfter, SelfAfter, Records, RequestOf, ExitOf, SelfOf, Refusal,
      PoolOk, Activates;
    StepKeeps(cfg, st, call);
    CallEffect(cfg, st, call);
    CallVerdict(cfg, st, call);
    NominatorsOf(cfg, st);
    NominatorsOf(cfg, Next(cfg, st, call));
    PoolIsActive(st, c);
    PoolIsActive(Next(cfg, st, call), c);
    assert SelfOf(Next(cfg, st, call), c) == SelfAfter(cfg, st, call, c);
    ActivatedBy(cfg, st, call, c);
    RoomToActivate(cfg, st, call, c);
  }

  lemma PoolStep(cfg: Config, st: Storage, call: Call)
    requires cfg.Valid() && Valid(cfg, st) && cfg.minNominatorStk < BALANCES && Step(cfg, st, call).Ok? && |st.pool| <= cfg.maxCandidates
    ensures |Next(cfg, st, call).pool| <= cfg.maxCandidates
  {
    hide Valid, Step, Next;
    var p, p' := st.pool.Keys, Next(cfg, st, call).pool.Keys;
    if p' <= p {
      Fewer(p', p);
    } else {
      var c :| c in p' && c !in p;
      PoolGrows(cfg, st, call, c);
      forall d | d in p' ensures d in p + {c} {
        if d !in p {
          PoolGrows(cfg, st, call, d);
        }
      }
      Fewer(p', p + {c});
    }
  }

  /** No run exceeds the limits: nobody is nominator and candidate at once, nobody has more nominations than
      allowed, and there are no more active candidates than allowed. */
  lemma {:induction false} LimitsRun(cfg: Config, st: Storage, calls: seq<Call>)
    requires cfg.Valid() && Valid(cfg, st) && cfg.minNominatorStk < BALANCES && WithinLimits(cfg, st)
    ensures WithinLimits(cfg, Run(cfg, st, calls))
    decreases calls
  {
    hide Valid, Step, Moves, RolesApart, FewNominations, FlowOf;
    if calls != [] {
      StepKeeps(cfg, st, calls[0]);
      if Step(cfg, st, calls[0]).Ok? {
        RolesStep(cfg, st, calls[0]);
        FewStep(cfg, st, calls[0]);
        PoolStep(cfg, st, calls[0]);
      }
      LimitsRun(cfg, Next(cfg, st, calls[0]), calls[1..]);
    }
  }

  lemma ReachableLimits(cfg: Config, free: map<Account, nat>, calls: seq<Call>)
    requires cfg.Valid() && cfg.minNominatorStk < BALANCES
    ensures WithinLimits(cfg, Run(cfg, Genesis(free), calls))
  {
    hide Valid, Run, Exact;
    GenesisValid(cfg, free);
    LimitsRun(cfg, Genesis(free), calls);
  }

  /** A candidate joins with at least the minimum of the tier it gets. */
  lemma JoinsWithMinimum(cfg: Config, st: Storage, call: Call)
    requires cfg.Valid() && Valid(cfg, st) && cfg.minNominatorStk < BALANCES && call.CallJoin? && Step(cfg, st, call).Ok?
    ensures var st' := Next(cfg, st, call);
      && call.c in st'.candidates && call.c !in st.candidates
      && st'.candidates[call.c].bond == call.bond && st'.candidates[call.c].tier == (if call.relayer.Some? then FullNode else BasicNode)
      && call.bond >= if call.relayer.Some? then cfg.minFullCandidateStk else cfg.minBasicCandidateStk
  {
    hide Valid, Step, Next, RecordAfter, RequestAfter, ExitAfter, Records, RequestOf, ExitOf, Slashed;
    CallEffect(cfg, st, call);
    CallVerdict(cfg, st, call);
    assert SelfOf(Next(cfg, st, call), call.c) == SelfAfter(cfg, st, call, call.c);
  }
}
