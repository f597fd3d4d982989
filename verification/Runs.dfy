/** Whole runs of the pallet: what every reachable storage satisfies, and exactly which calls let the
    reserves or `Total` drift away from what is at stake. */
module Runs {
  import opened Wrappers
  import opened Bonds
  import opened Candidates
  import opened CandidateLaws
  import opened Nominators
  import opened MapSums
  import opened Staking
  import opened StakingLaws

  /** The storage before any call; every account has its balance free. */
  function Genesis(free: map<Account, nat>): Storage {
    Storage(map[], map[], map[], map[], free, map[], 0, 1)
  }

  ghost function Run(cfg: Config, st: Storage, calls: seq<Call>): Storage
    decreases calls
  {
    if calls == [] then st else Run(cfg, Next(cfg, st, calls[0]), calls[1..])
  }

  lemma GenesisValid(cfg: Config, free: map<Account, nat>)
    ensures Valid(cfg, Genesis(free)) && Exact(Genesis(free))
  {
    forall a: Account ensures Excess(Genesis(free), a) == 0 {}
  }

  /** Every storage a run reaches satisfies the invariant: both ledgers agree, every candidate's lists
      and caches are right, every nominator's total, requests and counters are right, the pool holds
      the voting power of the active candidates, and everything at stake is reserved. */
  lemma {:induction false} RunKeeps(cfg: Config, st: Storage, calls: seq<Call>)
    requires cfg.Valid() && Valid(cfg, st)
    ensures Valid(cfg, Run(cfg, st, calls))
    decreases calls
  {
    hide Valid, Moves, Next;
    if calls != [] {
      StepKeeps(cfg, st, calls[0]);
      RunKeeps(cfg, Next(cfg, st, calls[0]), calls[1..]);
    }
  }

  // ----- one call

  /** What an accepted leaving of `stash` does to the books. */
  lemma LeaveFlowIs(cfg: Config, st: Storage, stash: Account, hint: nat)
    requires Valid(cfg, st) && stash in st.bondedStash
    ensures st.bondedStash[stash] in st.candidates
    ensures var cand := st.candidates[st.bondedStash[stash]];
      && Drift(cand) >= 0 && Backing(st) >= BackingOf(cand)
      && FlowOf(cfg, st, CallExecuteLeaveCandidates(stash, hint)) == Flow(0, BackingOf(cand) + Drift(cand), 0, 0, Drift(cand))
  {
    hide Shape, Cached, NominatorsOk, Agree, PoolOk, Solvent, SumBy, Sum;
    BackingAtLeast(st, st.bondedStash[stash]);
  }

  /** A candidate's leaving is accepted whatever its nominators have done in the meantime: only the hint,
      the status and the round count. */
  lemma LeaveAcceptedIff(cfg: Config, st: Storage, stash: Account, hint: nat)
    requires Valid(cfg, st)
    ensures ExecuteLeaveCandidates(st, stash, hint).Ok? <==>
      && stash in st.bondedStash && st.bondedStash[stash] in st.candidates
      && var cand := st.candidates[st.bondedStash[stash]];
         cand.count <= hint && cand.status.Leaving? && cand.status.when <= st.round
  {
    hide Valid, ReturnStakes, NominatorsOk, AgreeWith, Excess, Unreserve;
    if stash in st.bondedStash && st.bondedStash[stash] in st.candidates {
      LeaveReady(cfg, st, st.bondedStash[stash]);
    }
  }

  /** Only a leaving takes from `Total` what was not at stake. */
  lemma LostByLeaving(cfg: Config, st: Storage, call: Call)
    requires FlowOf(cfg, st, call).lost > 0
    ensures call.CallExecuteLeaveCandidates? && call.stash in st.bondedStash
  {
    hide Takeout, Sum, Evictee;
  }

  lemma OneWay(cfg: Config, st: Storage, call: Call)
    ensures FlowOf(cfg, st, call).adds == 0 || (FlowOf(cfg, st, call).takes == 0 && FlowOf(cfg, st, call).stale == 0)
    ensures FlowOf(cfg, st, call).stale == 0 || FlowOf(cfg, st, call).lost == 0
  {
    hide Takeout, Sum, Evictee;
  }

  /** A call that, if accepted, breaks the books: it executes a revocation for less than the nomination
      has become, or it lets a candidate leave whose bottom total overstates its bottom list while others
      have something at stake. */
  ghost predicate Lossy(cfg: Config, st: Storage, call: Call) {
    || FlowOf(cfg, st, call).stale > 0
    || (call.CallExecuteLeaveCandidates? && FlowOf(cfg, st, call).lost > 0
        && call.stash in st.bondedStash && st.bondedStash[call.stash] in st.candidates
        && Backing(st) > BackingOf(st.candidates[st.bondedStash[call.stash]]))
  }

  /** The books stay exact through an accepted call if and only if the call is not lossy. */
  lemma ExactIff(cfg: Config, st: Storage, call: Call)
    requires cfg.Valid() && Valid(cfg, st) && Exact(st) && Step(cfg, st, call).Ok?
    ensures Exact(Next(cfg, st, call)) <==> !Lossy(cfg, st, call)
  {
    hide Valid, Excess, Backing, BackingOf, Step, Next, Drift, FlowOf;
    var st', f := Next(cfg, st, call), FlowOf(cfg, st, call);
    StepKeeps(cfg, st, call);
    OneWay(cfg, st, call);
    if f.lost > 0 {
      LostByLeaving(cfg, st, call);
      LeaveFlowIs(cfg, st, call.stash, call.hint);
    }
    if f.stale > 0 {
      assert Excess(st', f.payer) == Excess(st, f.payer) + f.stale;
    }
  }

  /** An accepted call that takes more out of `Total` than is in it: the subtraction stops at zero. */
  ghost predicate Saturates(cfg: Config, st: Storage, call: Call) {
    st.total < FlowOf(cfg, st, call).takes
  }

  /** `Total` follows what is at stake, up to the stale and the lost amount, if and only if the call does
      not saturate it. While `Total` covers what is at stake, that happens only when a candidate leaves
      whose gap exceeds everything `Total` counts besides that candidate. */
  lemma SaturatesIff(cfg: Config, st: Storage, call: Call)
    requires cfg.Valid() && Valid(cfg, st) && Step(cfg, st, call).Ok?
    ensures var st', f := Next(cfg, st, call), FlowOf(cfg, st, call);
      st'.total - Backing(st') == st.total - Backing(st) + f.stale - f.lost <==> !Saturates(cfg, st, call)
    ensures st.total >= Backing(st) ==> (Saturates(cfg, st, call) <==>
      && call.CallExecuteLeaveCandidates? && call.stash in st.bondedStash && st.bondedStash[call.stash] in st.candidates
      && var cand := st.candidates[st.bondedStash[call.stash]]; Drift(cand) > st.total - BackingOf(cand))
  {
    hide Valid, Excess, Backing, BackingOf, Step, Next, Drift, FlowOf;
    StepKeeps(cfg, st, call);
    OneWay(cfg, st, call);
    if call.CallExecuteLeaveCandidates? && call.stash in st.bondedStash {
      LeaveFlowIs(cfg, st, call.stash, call.hint);
    } else if FlowOf(cfg, st, call).lost > 0 {
      LostByLeaving(cfg, st, call);
    }
  }

  // ----- sums over a run

  /** What a call does to the books: nothing if it is refused. */
  ghost function Booked(cfg: Config, st: Storage, call: Call): Flow {
    if Step(cfg, st, call).Ok? then FlowOf(cfg, st, call) else Still
  }

  lemma MovesStill(st: Storage)
    ensures Moves(st, st, Still)
  {
  }

  lemma BookedMoves(cfg: Config, st: Storage, call: Call)
    requires cfg.Valid() && Valid(cfg, st)
    ensures Valid(cfg, Next(cfg, st, call)) && Moves(st, Next(cfg, st, call), Booked(cfg, st, call))
  {
    hide Valid, Moves, Step, Next, FlowOf;
    StepKeeps(cfg, st, call);
    MovesStill(st);
  }

  /** What account `a` left behind in its reserve by the revocations of a run. */
  ghost function StaleOf(cfg: Config, st: Storage, calls: seq<Call>, a: Account): nat
    decreases calls
  {
    if calls == [] then 0
    else
      var f := Booked(cfg, st, calls[0]);
      (if f.payer == a then f.stale else 0) + StaleOf(cfg, Next(cfg, st, calls[0]), calls[1..], a)
  }

  ghost function AllStale(cfg: Config, st: Storage, calls: seq<Call>): nat
    decreases calls
  {
    if calls == [] then 0
    else Booked(cfg, st, calls[0]).stale + AllStale(cfg, Next(cfg, st, calls[0]), calls[1..])
  }

  ghost function AllLost(cfg: Config, st: Storage, calls: seq<Call>): nat
    decreases calls
  {
    if calls == [] then 0
    else Booked(cfg, st, calls[0]).lost + AllLost(cfg, Next(cfg, st, calls[0]), calls[1..])
  }

  /** Over any run, what an account has reserved beyond its stake grows by exactly what its revocations
      left behind. */
  lemma {:induction false} ExcessRun(cfg: Config, st: Storage, calls: seq<Call>, a: Account)
    requires cfg.Valid() && Valid(cfg, st)
    ensures Excess(Run(cfg, st, calls), a) == Excess(st, a) + StaleOf(cfg, st, calls, a)
    decreases calls
  {
    hide Valid, Excess, Next, Booked, Backing;
    if calls != [] {
      BookedMoves(cfg, st, calls[0]);
      ExcessRun(cfg, Next(cfg, st, calls[0]), calls[1..], a);
    }
  }

  lemma {:induction false} StaleShows(cfg: Config, st: Storage, calls: seq<Call>)
    ensures AllStale(cfg, st, calls) == 0 ==> forall a: Account :: StaleOf(cfg, st, calls, a) == 0
    ensures AllStale(cfg, st, calls) > 0 ==> exists a: Account :: StaleOf(cfg, st, calls, a) > 0
    decreases calls
  {
    hide Next, Booked;
    if calls != [] {
      var f := Booked(cfg, st, calls[0]);
      StaleShows(cfg, Next(cfg, st, calls[0]), calls[1..]);
      if f.stale > 0 {
        assert StaleOf(cfg, st, calls, f.payer) > 0;
      } else if AllStale(cfg, st, calls) > 0 {
        var a :| StaleOf(cfg, Next(cfg, st, calls[0]), calls[1..], a) > 0;
        assert StaleOf(cfg, st, calls, a) > 0;
      }
    }
  }

  /** Reserves that were exact stay exact over a run if and only if no stale revocation was executed. */
  lemma ReservesExactIff(cfg: Config, st: Storage, calls: seq<Call>)
    requires cfg.Valid() && Valid(cfg, st) && forall a: Account :: Excess(st, a) == 0
    ensures (forall a: Account :: Excess(Run(cfg, st, calls), a) == 0) <==> AllStale(cfg, st, calls) == 0
  {
    hide Valid, Excess, Run, StaleOf, AllStale;
    StaleShows(cfg, st, calls);
    forall a: Account ensures Excess(Run(cfg, st, calls), a) == StaleOf(cfg, st, calls, a) {
      ExcessRun(cfg, st, calls, a);
    }
    if AllStale(cfg, st, calls) > 0 {
      var a :| StaleOf(cfg, st, calls, a) > 0;
      assert Excess(Run(cfg, st, calls), a) > 0;
    }
  }

  /** No accepted call of the run saturates `Total`. */
  ghost predicate NeverSaturates(cfg: Config, st: Storage, calls: seq<Call>)
    decreases calls
  {
    calls == []
    || (Booked(cfg, st, calls[0]).takes <= st.total && NeverSaturates(cfg, Next(cfg, st, calls[0]), calls[1..]))
  }

  /** Over a run that never saturates it, `Total` differs from what is at stake by exactly what stale
      revocations left in it, less what gaps took out of it. */
  lemma {:induction false} RunTotal(cfg: Config, st: Storage, calls: seq<Call>)
    requires cfg.Valid() && Valid(cfg, st) && NeverSaturates(cfg, st, calls)
    ensures Run(cfg, st, calls).total - Backing(Run(cfg, st, calls))
      == st.total - Backing(st) + AllStale(cfg, st, calls) - AllLost(cfg, st, calls)
    decreases calls
  {
    hide Valid, Excess, Backing, Next, Booked;
    if calls != [] {
      BookedMoves(cfg, st, calls[0]);
      RunTotal(cfg, Next(cfg, st, calls[0]), calls[1..]);
    }
  }

  /** A run in which no candidate leaves with a gap never saturates `Total`, and `Total` covers what is
      at stake throughout. */
  lemma {:induction false} NoGapNoSaturation(cfg: Config, st: Storage, calls: seq<Call>)
    requires cfg.Valid() && Valid(cfg, st) && st.total >= Backing(st) && AllLost(cfg, st, calls) == 0
    ensures NeverSaturates(cfg, st, calls) && Run(cfg, st, calls).total >= Backing(Run(cfg, st, calls))
    decreases calls
  {
    hide Valid, Excess, Backing, Next, FlowOf, Step;
    if calls != [] {
      BookedMoves(cfg, st, calls[0]);
      OneWay(cfg, st, calls[0]);
      NoGapNoSaturation(cfg, Next(cfg, st, calls[0]), calls[1..]);
    }
  }

  /** Conservation over a run that never saturates `Total`: the books are exact at its end if and only if
      no stale revocation was executed and no candidate left with a gap. */
  lemma RunExactIff(cfg: Config, st: Storage, calls: seq<Call>)
    requires cfg.Valid() && Valid(cfg, st) && Exact(st) && NeverSaturates(cfg, st, calls)
    ensures Exact(Run(cfg, st, calls)) <==> AllStale(cfg, st, calls) == 0 && AllLost(cfg, st, calls) == 0
  {
    hide Valid, Excess, Backing, Run, AllStale, AllLost, NeverSaturates;
    ReservesExactIff(cfg, st, calls);
    RunTotal(cfg, st, calls);
  }

  ghost predicate NeverLossy(cfg: Config, st: Storage, calls: seq<Call>)
    decreases calls
  {
    calls == []
    || ((Step(cfg, st, calls[0]).Ok? ==> !Lossy(cfg, st, calls[0])) && NeverLossy(cfg, Next(cfg, st, calls[0]), calls[1..]))
  }

  /** Conservation over any run: as long as no accepted call is lossy, every account has reserved exactly
      what it has at stake and `Total` is exactly what is at stake. */
  lemma {:induction false} RunExact(cfg: Config, st: Storage, calls: seq<Call>)
    requires cfg.Valid() && Valid(cfg, st) && Exact(st) && NeverLossy(cfg, st, calls)
    ensures Exact(Run(cfg, st, calls))
    decreases calls
  {
    hide Valid, Exact, Moves, Next, Lossy, Step;
    if calls != [] {
      StepKeeps(cfg, st, calls[0]);
      if Step(cfg, st, calls[0]).Ok? {
        ExactIff(cfg, st, calls[0]);
      }
      RunExact(cfg, Next(cfg, st, calls[0]), calls[1..]);
    }
  }

  // ----- saturation elsewhere

  /** In every state of a run, what an operation subtracts with saturation from anything but `Total` is
      there: an entry within the nominator's total, the reserve, the list's total and the count; a request
      within the pending total and the revocation counter; a self-bond within voting power and reserve. */
  lemma NothingElseSaturates(cfg: Config, st: Storage, n: Account, c: Account)
    requires cfg.Valid() && Valid(cfg, st)
    ensures n in st.nominators && c in st.nominators[n].nominations ==>
      var a := st.nominators[n].nominations[c];
      && a <= st.nominators[n].total && a <= Get(st.reserved, n)
      && c in st.candidates && st.candidates[c].count >= 1
      && (Bond(n, a) in st.candidates[c].top.nominations ==> a <= st.candidates[c].top.total)
      && (Bond(n, a) in st.candidates[c].bottom.nominations ==> a <= st.candidates[c].bottom.total)
    ensures n in st.nominators && c in st.nominators[n].requests ==>
      var r := st.nominators[n].requests[c];
      && r.amount <= st.nominators[n].lessTotal <= st.nominators[n].total && (r.action.Revoke? ==> st.nominators[n].revocations >= 1)
    ensures c in st.candidates ==>
      var cand := st.candidates[c];
      && cand.bond <= cand.votingPower && cand.bond <= Get(st.reserved, cand.stash)
      && (cand.request.Some? ==> cand.request.value.amount < cand.bond)
  {
    hide Agree, PoolOk, StashOk, SumBy, Sum, Shape, Cached;
    if n in st.nominators && c in st.nominators[n].nominations {
      var a := st.nominators[n].nominations[c];
      assert Records(st, n, c) == Some(a) && Excess(st, n) >= 0;
      EntryWithinTotal(st.nominators[n], c);
      Listed(st, n, c);
      EntryInLists(cfg, st.candidates[c], Bond(n, a));
    }
    if n in st.nominators && c in st.nominators[n].requests {
      RemoveRequestOk(st.nominators[n], c);
      PendingWithinTotal(st.nominators[n]);
    }
    if c in st.candidates {
      StashFacts(cfg, st, c);
    }
  }

  lemma EntryInLists(cfg: Config, cand: Candidate, x: Bond)
    requires Inv(cfg, cand) && x in All(cand)
    ensures cand.count >= 1
    ensures x in cand.top.nominations ==> x.amount <= cand.top.total
    ensures x in cand.bottom.nominations ==> x.amount <= cand.bottom.total
  {
    assert x in multiset(cand.top.nominations) || x in multiset(cand.bottom.nominations);
    if x in cand.top.nominations {
      SumAtLeast(cand.top.nominations, x);
    }
    if x in cand.bottom.nominations {
      SumAtLeast(cand.bottom.nominations, x);
    }
  }
}
