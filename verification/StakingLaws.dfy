/** What every call of the pallet keeps, and where the money is. */
module StakingLaws {
  import opened Wrappers
  import opened Bonds
  import opened Candidates
  import opened CandidateLaws
  import opened Nominators
  import opened MapSums
  import opened Staking

  // ----- the invariant

  /** A pending bond-less request leaves something of the self-bond. */
  ghost predicate RequestOk(cand: Candidate) {
    cand.request.Some? ==> cand.request.value.amount < cand.bond
  }

  ghost predicate CandidatesOk(cfg: Config, st: Storage) {
    forall c :: c in st.candidates ==> Inv(cfg, st.candidates[c]) && RequestOk(st.candidates[c])
  }

  ghost predicate NominatorsOk(st: Storage) {
    forall n :: n in st.nominators ==> LedgerOk(st.nominators[n]) && st.nominators[n].nominations != map[]
  }

  /** What nominator `n` records for candidate `c`. */
  ghost function Records(st: Storage, n: Account, c: Account): Option<nat> {
    if n in st.nominators && c in st.nominators[n].nominations then Some(st.nominators[n].nominations[c]) else None
  }

  ghost predicate Lists(st: Storage, n: Account, c: Account, a: nat) {
    c in st.candidates && Bond(n, a) in All(st.candidates[c])
  }

  /** The two ledgers agree: a nominator records an amount for a candidate exactly when the bond is in
      one of that candidate's lists. */
  ghost predicate Agree(st: Storage) {
    forall n, c, a: nat :: Lists(st, n, c, a) <==> Records(st, n, c) == Some(a)
  }

  /** The pool holds the active candidates, each with its voting power. */
  ghost predicate PoolOk(st: Storage) {
    && (forall c :: c in st.pool <==> c in st.candidates && st.candidates[c].status.Active?)
    && (forall c :: c in st.pool ==> st.pool[c] == st.candidates[c].votingPower)
  }

  ghost predicate StashOk(st: Storage) {
    && (forall s :: s in st.bondedStash ==>
         st.bondedStash[s] in st.candidates && st.candidates[st.bondedStash[s]].stash == s)
    && (forall c :: c in st.candidates ==>
         st.candidates[c].stash in st.bondedStash && st.bondedStash[st.candidates[c].stash] == c)
  }

  ghost function NominatorOwed(st: Storage, a: Account): nat {
    if a in st.nominators then st.nominators[a].total else 0
  }

  ghost function StashOwed(st: Storage, a: Account): nat {
    if a in st.bondedStash && st.bondedStash[a] in st.candidates then st.candidates[st.bondedStash[a]].bond else 0
  }

  /** What account `a` has reserved beyond its nominations and the self-bond it stands for. */
  ghost function Excess(st: Storage, a: Account): int {
    Get(st.reserved, a) - NominatorOwed(st, a) - StashOwed(st, a)
  }

  /** Everything an account has at stake is reserved. */
  ghost predicate Solvent(st: Storage) {
    forall a: Account :: Excess(st, a) >= 0
  }

  ghost predicate Valid(cfg: Config, st: Storage) {
    CandidatesOk(cfg, st) && NominatorsOk(st) && Agree(st) && PoolOk(st) && StashOk(st) && Solvent(st)
  }

  ghost function BackingOf(cand: Candidate): nat {
    cand.bond + Sum(cand.top.nominations) + Sum(cand.bottom.nominations)
  }

  /** All self-bonds and all nominations. */
  ghost function Backing(st: Storage): nat {
    SumBy(st.candidates, BackingOf)
  }

  /** The reserves cover exactly what is at stake, and `Total` counts exactly what is at stake. */
  ghost predicate Exact(st: Storage) {
    (forall a: Account :: Excess(st, a) == 0) && st.total == Backing(st)
  }

  /** What a call does to the books: `adds` goes into `Total`, `takes` comes out of it, `payer` keeps
      `stale` reserved that it no longer has at stake, and `lost` of what is taken was not at stake. */
  datatype Flow = Flow(adds: nat, takes: nat, payer: Account, stale: nat, lost: nat)

  const Still := Flow(0, 0, 0, 0, 0)

  function In(v: nat): Flow { Flow(v, 0, 0, 0, 0) }

  function Out(v: nat): Flow { Flow(0, v, 0, 0, 0) }

  /** How a step moves money, whatever `Total` was before: reserves follow what is at stake up to `stale`;
      `Total` moves by what is added and taken, and stops at zero; what is at stake moves by the same
      amounts, corrected by `stale` and `lost`. */
  ghost predicate Moves(st: Storage, st': Storage, f: Flow) {
    && (forall a: Account :: Excess(st', a) == Excess(st, a) + if a == f.payer then f.stale else 0)
    && st'.total == (if st.total + f.adds >= f.takes then st.total + f.adds - f.takes else 0)
    && Backing(st') + f.takes + f.stale == Backing(st) + f.adds + f.lost
  }

  // ----- backing

  lemma BackingIs(cand: Candidate)
    ensures BackingOf(cand) == cand.bond + Sum(cand.top.nominations + cand.bottom.nominations)
  {
    SumConcat(cand.top.nominations, cand.bottom.nominations);
  }

  /** The backing follows the collection of nominations. */
  lemma BackingMoves(cand: Candidate, cand': Candidate, out: seq<Bond>, in_: seq<Bond>)
    requires All(cand') + multiset(out) == All(cand) + multiset(in_)
    ensures BackingOf(cand') - cand'.bond + Sum(out) == BackingOf(cand) - cand.bond + Sum(in_)
  {
    var s, s' := cand.top.nominations + cand.bottom.nominations, cand'.top.nominations + cand'.bottom.nominations;
    BackingIs(cand);
    BackingIs(cand');
    SumConcat(s', out);
    SumConcat(s, in_);
    SumPerm(s' + out, s + in_);
  }

  lemma BackingAtLeast(st: Storage, c: Account)
    requires c in st.candidates
    ensures Backing(st) >= BackingOf(st.candidates[c])
  {
    SumByTake(st.candidates, BackingOf, c);
  }

  // ----- steps that leave nominations and money alone

  lemma SelfInv(cfg: Config, cand: Candidate, cand': Candidate)
    requires Inv(cfg, cand) && cand' == cand.(status := cand'.status, tier := cand'.tier, request := cand'.request)
    ensures Inv(cfg, cand') && All(cand') == All(cand) && BackingOf(cand') == BackingOf(cand)
  {
  }

  /** Only the candidate's status, tier or request changes, and the pool follows its status. */
  ghost predicate SelfChange(st: Storage, st': Storage, c: Account) {
    && c in st.candidates && c in st'.candidates
    && var cand := st.candidates[c];
      var cand' := st'.candidates[c];
      && cand' == cand.(status := cand'.status, tier := cand'.tier, request := cand'.request) && RequestOk(cand')
      && st' == st.(candidates := st.candidates[c := cand'], pool := st'.pool)
      && (if cand'.status.Active? then st'.pool == st.pool[c := cand.votingPower] else st'.pool == st.pool - {c})
  }

  lemma SelfStep(cfg: Config, st: Storage, st': Storage, c: Account)
    requires Valid(cfg, st) && SelfChange(st, st', c)
    ensures Valid(cfg, st') && Moves(st, st', Still)
  {
    hide CandidatesOk, PoolOk, StashOk, LedgerOk, SumBy, BackingOf, All, Agree;
    SelfPlaces(cfg, st, st', c);
    ListsStay(st, st', c);
    SumByPut(st.candidates, BackingOf, c, st'.candidates[c]);
    forall a: Account ensures Excess(st', a) == Excess(st, a) {}
  }

  lemma SelfPlaces(cfg: Config, st: Storage, st': Storage, c: Account)
    requires CandidatesOk(cfg, st) && PoolOk(st) && StashOk(st) && SelfChange(st, st', c)
    ensures CandidatesOk(cfg, st') && PoolOk(st') && StashOk(st')
    ensures All(st'.candidates[c]) == All(st.candidates[c]) && BackingOf(st'.candidates[c]) == BackingOf(st.candidates[c])
  {
    hide Inv, All, BackingOf;
    SelfInv(cfg, st.candidates[c], st'.candidates[c]);
  }

  /** Only the requests or the status of one nominator change. */
  lemma RequestStep(cfg: Config, st: Storage, st': Storage, n: Account)
    requires Valid(cfg, st) && n in st.nominators && n in st'.nominators
    requires var s, s' := st.nominators[n], st'.nominators[n];
      s'.nominations == s.nominations && s'.total == s.total && LedgerOk(s') && st' == PutNominator(st, n, s')
    ensures Valid(cfg, st') && Moves(st, st', Still)
  {
    hide CandidatesOk, LedgerOk, PoolOk, StashOk, Agree, SumBy;
    RecordsStay(st, st', n);
    SamePlaces(cfg, st, st');
    forall a: Account ensures Excess(st', a) == Excess(st, a) {}
  }

  lemma RecordsStay(st: Storage, st': Storage, n: Account)
    requires Agree(st) && n in st.nominators && n in st'.nominators && st'.candidates == st.candidates
    requires st'.nominators == st.nominators[n := st'.nominators[n]] && st'.nominators[n].nominations == st.nominators[n].nominations
    ensures Agree(st')
  {
    hide All;
    forall n0, c, a: nat ensures Lists(st', n0, c, a) <==> Records(st', n0, c) == Some(a) {
      assert Lists(st', n0, c, a) == Lists(st, n0, c, a);
      assert Records(st', n0, c) == Records(st, n0, c);
    }
  }

  lemma SamePlaces(cfg: Config, st: Storage, st': Storage)
    requires CandidatesOk(cfg, st) && PoolOk(st) && StashOk(st)
    requires st'.candidates == st.candidates && st'.pool == st.pool && st'.bondedStash == st.bondedStash
    ensures CandidatesOk(cfg, st') && PoolOk(st') && StashOk(st')
  {
    hide Inv;
  }

  // ----- steps that change a self-bond

  lemma BondInv(cfg: Config, cand: Candidate, cand': Candidate)
    requires Inv(cfg, cand)
    requires cand' == cand.(bond := cand'.bond, votingPower := cand'.votingPower, status := cand'.status,
                            tier := cand'.tier, request := cand'.request)
    requires cand'.votingPower - cand.votingPower == cand'.bond - cand.bond
    ensures Inv(cfg, cand') && All(cand') == All(cand)
    ensures BackingOf(cand') - cand'.bond == BackingOf(cand) - cand.bond
  {
  }

  ghost predicate SameButBond(cand: Candidate, cand': Candidate) {
    && cand' == cand.(bond := cand'.bond, votingPower := cand'.votingPower, status := cand'.status,
                      tier := cand'.tier, request := cand'.request)
    && cand'.votingPower - cand.votingPower == cand'.bond - cand.bond
  }

  /** The self-bond of `c` changes together with the reserve of its stash. `Total` is not constrained. */
  ghost predicate BondChange(st: Storage, st': Storage, c: Account) {
    && c in st.candidates && c in st'.candidates
    && var cand, cand' := st.candidates[c], st'.candidates[c];
    && SameButBond(cand, cand') && RequestOk(cand')
    && st'.candidates == st.candidates[c := cand']
    && st'.nominators == st.nominators && st'.bondedStash == st.bondedStash
    && (if cand'.status.Active? then st'.pool == st.pool[c := cand'.votingPower] else st'.pool == st.pool - {c})
    && Get(st'.reserved, cand.stash) - Get(st.reserved, cand.stash) == cand'.bond - cand.bond
    && (forall a :: a != cand.stash ==> Get(st'.reserved, a) == Get(st.reserved, a))
  }

  lemma ListsStay(st: Storage, st': Storage, c: Account)
    requires Agree(st) && c in st.candidates && c in st'.candidates && st'.nominators == st.nominators
    requires st'.candidates == st.candidates[c := st'.candidates[c]] && All(st'.candidates[c]) == All(st.candidates[c])
    ensures Agree(st')
  {
    hide All;
    forall n, c0, a: nat ensures Lists(st', n, c0, a) <==> Records(st', n, c0) == Some(a) {
      assert Lists(st', n, c0, a) == Lists(st, n, c0, a);
      assert Records(st', n, c0) == Records(st, n, c0);
    }
  }

  lemma BondPlaces(cfg: Config, st: Storage, st': Storage, c: Account)
    requires CandidatesOk(cfg, st) && StashOk(st) && BondChange(st, st', c)
    ensures CandidatesOk(cfg, st') && StashOk(st') && All(st'.candidates[c]) == All(st.candidates[c])
  {
    hide Inv, All, BackingOf;
    BondInv(cfg, st.candidates[c], st'.candidates[c]);
  }

  lemma BondPool(st: Storage, st': Storage, c: Account)
    requires PoolOk(st) && BondChange(st, st', c)
    ensures PoolOk(st')
  {
  }

  lemma BondExcess(st: Storage, st': Storage, c: Account)
    requires StashOk(st) && BondChange(st, st', c)
    ensures forall a: Account :: Excess(st', a) == Excess(st, a)
  {
    hide PoolOk;
    forall a: Account ensures Excess(st', a) == Excess(st, a) {
      assert NominatorOwed(st', a) == NominatorOwed(st, a);
    }
  }

  lemma BondBacking(cfg: Config, st: Storage, st': Storage, c: Account)
    requires CandidatesOk(cfg, st) && BondChange(st, st', c)
    ensures Backing(st') - Backing(st) == st'.candidates[c].bond - st.candidates[c].bond
  {
    hide Inv, BackingOf, All;
    BondInv(cfg, st.candidates[c], st'.candidates[c]);
    SumByPut(st.candidates, BackingOf, c, st'.candidates[c]);
  }

  lemma BondStep(cfg: Config, st: Storage, st': Storage, c: Account, f: Flow)
    requires Valid(cfg, st) && BondChange(st, st', c) && st'.total == SatSub(st.total + f.adds, f.takes)
    requires st'.candidates[c].bond - st.candidates[c].bond == f.adds - f.takes && f.stale == f.lost == 0
    ensures Valid(cfg, st') && Moves(st, st', f)
  {
    hide CandidatesOk, LedgerOk, Agree, PoolOk, StashOk, Backing, All, Excess, SameButBond;
    BondPlaces(cfg, st, st', c);
    BondPool(st, st', c);
    BondExcess(st, st', c);
    BondBacking(cfg, st, st', c);
    ListsStay(st, st', c);
  }

  // ----- steps that change one entry of the two ledgers

  ghost function Bag(n: Account, o: Option<nat>): seq<Bond> {
    match o case None => [] case Some(a) => [Bond(n, a)]
  }

  ghost function Amount(o: Option<nat>): nat {
    match o case None => 0 case Some(a) => a
  }

  ghost function NominationsOf(st: Storage, n: Account): map<Account, nat> {
    if n in st.nominators then st.nominators[n].nominations else map[]
  }

  ghost function WithEntry(m: map<Account, nat>, c: Account, to: Option<nat>): map<Account, nat> {
    match to case None => m - {c} case Some(a) => m[c := a]
  }

  /** The candidate's side of an entry of `n` going from `from` to `to`. */
  ghost predicate ListSide(cfg: Config, cand: Candidate, cand': Candidate, n: Account, from: Option<nat>, to: Option<nat>) {
    && Inv(cfg, cand') && SameSelf(cand, cand')
    && All(cand') + multiset(Bag(n, from)) == All(cand) + multiset(Bag(n, to))
  }

  /** The nominator's side; a nominator without nominations is gone. */
  ghost predicate RecordSide(st: Storage, st': Storage, n: Account, c: Account, to: Option<nat>) {
    && st'.nominators - {n} == st.nominators - {n}
    && NominationsOf(st', n) == WithEntry(NominationsOf(st, n), c, to)
    && (n in st'.nominators ==> LedgerOk(st'.nominators[n]) && st'.nominators[n].nominations != map[])
  }

  /** The entry of `n` at `c` becomes `to`; the reserve of `n` follows, up to `stale` that stays
      behind. `Total` is not constrained. */
  ghost predicate EntryChange(cfg: Config, st: Storage, st': Storage, n: Account, c: Account, to: Option<nat>, stale: nat) {
    && c in st.candidates && c in st'.candidates
    && var from := Records(st, n, c);
    && ListSide(cfg, st.candidates[c], st'.candidates[c], n, from, to)
    && st'.candidates == st.candidates[c := st'.candidates[c]] && st'.bondedStash == st.bondedStash
    && st'.pool == UpdateActive(st.pool, c, st'.candidates[c].votingPower)
    && RecordSide(st, st', n, c, to)
    && Get(st'.reserved, n) - Get(st.reserved, n) == Amount(to) - Amount(from) + stale
    && (forall a :: a != n ==> Get(st'.reserved, a) == Get(st.reserved, a))
  }

  /** One entry per nominator: what the list holds of `n` is what `n` records. */
  lemma CountIs(cfg: Config, st: Storage, n: Account, c: Account, x: Bond)
    requires Agree(st) && c in st.candidates && Inv(cfg, st.candidates[c]) && x.owner == n
    ensures All(st.candidates[c])[x] == multiset(Bag(n, Records(st, n, c)))[x]
  {
    var all := All(st.candidates[c]);
    assert x == Bond(n, x.amount);
    assert Lists(st, n, c, x.amount) <==> Records(st, n, c) == Some(x.amount);
    if x in all {
      assert SameOwner(all, x, x);
    }
  }

  lemma Counts(a: multiset<Bond>, b: multiset<Bond>, c: multiset<Bond>, d: multiset<Bond>, x: Bond)
    requires a + b == c + d
    ensures a[x] + b[x] == c[x] + d[x]
  {
    assert (a + b)[x] == (c + d)[x];
  }

  lemma EntryAgrees(cfg: Config, st: Storage, st': Storage, n: Account, c: Account, to: Option<nat>, stale: nat)
    requires Agree(st) && c in st.candidates && Inv(cfg, st.candidates[c])
    requires EntryChange(cfg, st, st', n, c, to, stale)
    ensures Agree(st')
  {
    hide Inv, LedgerOk, SumBy, Sum, All;
    var all, all' := All(st.candidates[c]), All(st'.candidates[c]);
    var from := Records(st, n, c);
    forall n0, c0, a: nat ensures Lists(st', n0, c0, a) <==> Records(st', n0, c0) == Some(a) {
      assert Lists(st, n0, c0, a) <==> Records(st, n0, c0) == Some(a);
      var x := Bond(n0, a);
      if n0 != n {
        assert n0 in st'.nominators <==> n0 in st.nominators by {
          assert n0 in st'.nominators - {n} <==> n0 in st.nominators - {n};
        }
        assert n0 in st.nominators ==> (st'.nominators - {n})[n0] == (st.nominators - {n})[n0];
        assert Records(st', n0, c0) == Records(st, n0, c0);
        if c0 == c {
          Counts(all', multiset(Bag(n, from)), all, multiset(Bag(n, to)), x);
          assert x !in Bag(n, from) && x !in Bag(n, to);
        }
      } else {
        assert Records(st', n, c0) == if c0 in NominationsOf(st', n) then Some(NominationsOf(st', n)[c0]) else None;
        if c0 == c {
          CountIs(cfg, st, n, c, x);
          Counts(all', multiset(Bag(n, from)), all, multiset(Bag(n, to)), x);
          assert x in multiset(Bag(n, to)) <==> to == Some(a);
        }
      }
    }
  }

  lemma OwedMoves(st: Storage, st': Storage, n: Account, c: Account, to: Option<nat>)
    requires NominatorsOk(st) && RecordSide(st, st', n, c, to)
    ensures NominatorOwed(st', n) - NominatorOwed(st, n) == Amount(to) - Amount(Records(st, n, c))
    ensures forall a :: a != n ==> NominatorOwed(st', a) == NominatorOwed(st, a)
  {
    var m := NominationsOf(st, n);
    assert NominatorOwed(st, n) == SumBy(m, Itself);
    assert NominatorOwed(st', n) == SumBy(NominationsOf(st', n), Itself);
    if to.Some? {
      SumByPut(m, Itself, c, to.value);
    } else if c in m {
      SumByTake(m, Itself, c);
    } else {
      assert m - {c} == m;
    }
    forall a | a != n ensures NominatorOwed(st', a) == NominatorOwed(st, a) {
      assert a in st'.nominators - {n} <==> a in st.nominators - {n};
      assert a in st.nominators ==> (st'.nominators - {n})[a] == (st.nominators - {n})[a];
    }
  }

  lemma EntryNominators(st: Storage, st': Storage, n: Account, c: Account, to: Option<nat>)
    requires NominatorsOk(st) && RecordSide(st, st', n, c, to)
    ensures NominatorsOk(st')
  {
    hide LedgerOk;
    forall a | a in st'.nominators && a != n
      ensures LedgerOk(st'.nominators[a]) && st'.nominators[a].nominations != map[]
    {
      assert a in st'.nominators - {n};
      assert (st'.nominators - {n})[a] == (st.nominators - {n})[a];
    }
  }

  lemma EntryBacking(cfg: Config, st: Storage, st': Storage, n: Account, c: Account, to: Option<nat>, stale: nat)
    requires EntryChange(cfg, st, st', n, c, to, stale)
    ensures Backing(st') - Backing(st) == Amount(to) - Amount(Records(st, n, c))
  {
    var cand, cand' := st.candidates[c], st'.candidates[c];
    SumByPut(st.candidates, BackingOf, c, cand');
    BackingMoves(cand, cand', Bag(n, Records(st, n, c)), Bag(n, to));
  }

  lemma EntryPlaces(cfg: Config, st: Storage, st': Storage, n: Account, c: Account, to: Option<nat>, stale: nat)
    requires CandidatesOk(cfg, st) && PoolOk(st) && StashOk(st) && EntryChange(cfg, st, st', n, c, to, stale)
    ensures CandidatesOk(cfg, st') && PoolOk(st') && StashOk(st')
  {
    hide CandidatesOk, PoolOk, StashOk, ListSide, Records, RecordSide;
    EntryCandidates(cfg, st, st', n, c, to, stale);
    EntryPool(cfg, st, st', n, c, to, stale);
    EntryStash(cfg, st, st', n, c, to, stale);
  }

  lemma EntryCandidates(cfg: Config, st: Storage, st': Storage, n: Account, c: Account, to: Option<nat>, stale: nat)
    requires CandidatesOk(cfg, st) && EntryChange(cfg, st, st', n, c, to, stale)
    ensures CandidatesOk(cfg, st')
  {
    hide Inv, All, Records, RecordSide;
  }

  lemma EntryPool(cfg: Config, st: Storage, st': Storage, n: Account, c: Account, to: Option<nat>, stale: nat)
    requires PoolOk(st) && EntryChange(cfg, st, st', n, c, to, stale)
    ensures PoolOk(st')
  {
    hide Inv, All, Records, RecordSide;
  }

  lemma EntryStash(cfg: Config, st: Storage, st': Storage, n: Account, c: Account, to: Option<nat>, stale: nat)
    requires StashOk(st) && EntryChange(cfg, st, st', n, c, to, stale)
    ensures StashOk(st')
  {
    hide Inv, All, Records, RecordSide;
  }

  lemma EntryStep(cfg: Config, st: Storage, st': Storage, n: Account, c: Account, to: Option<nat>, stale: nat)
    requires Valid(cfg, st) && EntryChange(cfg, st, st', n, c, to, stale)
    ensures Valid(cfg, st')
    ensures forall a: Account :: Excess(st', a) == Excess(st, a) + if a == n then stale else 0
    ensures Backing(st') - Backing(st) == Amount(to) - Amount(Records(st, n, c))
  {
    hide Inv, LedgerOk, SumBy, Sum, All, Agree, BackingOf, Records, PoolOk, StashOk;
    EntryPlaces(cfg, st, st', n, c, to, stale);
    EntryAgrees(cfg, st, st', n, c, to, stale);
    EntryNominators(st, st', n, c, to);
    EntryBacking(cfg, st, st', n, c, to, stale);
    OwedMoves(st, st', n, c, to);
    forall a: Account ensures Excess(st', a) == Excess(st, a) + if a == n then stale else 0 {
      assert StashOwed(st', a) == StashOwed(st, a);
    }
  }

  // ----- nominating

  lemma PoolPut(cfg: Config, st: Storage, c: Account, cand: Candidate)
    requires PoolOk(st) && c in st.candidates
    ensures PutNominated(st, c, cand).pool == UpdateActive(st.pool, c, cand.votingPower)
  {
  }

  lemma NotListed(cfg: Config, st: Storage, n: Account, c: Account)
    requires Agree(st) && c in st.candidates && Records(st, n, c) == None
    ensures !Owns(All(st.candidates[c]), n)
  {
    forall a: nat ensures Bond(n, a) !in All(st.candidates[c]) {
      assert !Lists(st, n, c, a);
    }
  }

  lemma Listed(st: Storage, n: Account, c: Account)
    requires Agree(st) && Records(st, n, c).Some?
    ensures c in st.candidates && Bond(n, Records(st, n, c).value) in All(st.candidates[c])
  {
    assert Lists(st, n, c, Records(st, n, c).value);
  }

  lemma NominatorForOk(cfg: Config, st: Storage, n: Account, c: Account, amount: nat, hint: nat)
    requires cfg.Valid() && NominatorsOk(st) && NominatorFor(cfg, st, n, c, amount, hint).Ok?
    ensures Records(st, n, c) == None && amount > 0
    ensures var s := NominatorFor(cfg, st, n, c, amount, hint).value;
      LedgerOk(s) && s.nominations == NominationsOf(st, n)[c := amount] && s.nominations != map[]
  {
    if n in st.nominators {
      AddEntryOk(st.nominators[n], c, amount);
    } else {
      NewNominatorOk(c, amount);
    }
    assert c in NominationsOf(st, n)[c := amount];
  }

  lemma KickIsEntry(cfg: Config, st: Storage, c: Account, k: Bond, e: Candidate)
    requires cfg.Valid() && Valid(cfg, st) && c in st.candidates && Records(st, k.owner, c) == Some(k.amount)
    requires ListSide(cfg, st.candidates[c], e, k.owner, Some(k.amount), None)
    ensures Kick(PutNominated(st, c, e), c, Some(k)).Ok?
    ensures EntryChange(cfg, st, Kick(PutNominated(st, c, e), c, Some(k)).value, k.owner, c, None, 0)
  {
    hide Inv, SumBy, Sum, All, Agree, LedgerOk, CandidatesOk, StashOk, PoolOk, Unreserve, RemoveRequest, RmEntry, ListSide;
    PoolPut(cfg, st, c, e);
    UnreserveOnly(PutNominated(st, c, e), k.owner, k.amount);
    var o := k.owner;
    var s := st.nominators[o];
    var st' := Kick(PutNominated(st, c, e), c, Some(k)).value;
    RemovedEntryOk(s, c);
    assert Excess(st, o) >= 0;
    if |s.nominations| == 1 {
      assert st'.nominators == st.nominators - {o};
    } else {
      assert st'.nominators == st.nominators[o := RemoveRequest(RmEntry(s, c), c)];
    }
  }

  /** An entry and its request leave a nominator's ledger together. */
  lemma RemovedEntryOk(s: Nominator, c: Account)
    requires LedgerOk(s) && c in s.nominations
    ensures LedgerOk(RemoveRequest(RmEntry(s, c), c)) && RemoveRequest(RmEntry(s, c), c) == RmEntry(RemoveRequest(s, c), c)
    ensures RmEntry(RemoveRequest(s, c), c).nominations == s.nominations - {c}
    ensures s.nominations[c] <= s.total && RmEntry(RemoveRequest(s, c), c).total == s.total - s.nominations[c]
    ensures |s.nominations| == 1 <==> s.nominations - {c} == map[]
    ensures s.total == s.nominations[c] <==> s.nominations - {c} == map[]
  {
    EntryWithinTotal(s, c);
    RemoveRequestOk(s, c);
    RmEntryOk(RemoveRequest(s, c), c);
  }

  /** The evicted bond is recorded by another nominator, and the eviction followed by the addition is
      the change of two entries. */
  lemma KickedIsListed(cfg: Config, st: Storage, c: Account, b: Bond, r: Added)
    requires cfg.Valid() && Valid(cfg, st) && c in st.candidates && AddEffect(cfg, st.candidates[c], b, r)
    requires r.kicked.Some? && Records(st, b.owner, c) == None
    ensures var cand, k := st.candidates[c], r.kicked.value;
      && cand.bottom.nominations != [] && cand.count >= 1
      && Records(st, k.owner, c) == Some(k.amount) && k.owner != b.owner
      && ListSide(cfg, cand, Evicted(cfg, cand), k.owner, Some(k.amount), None)
      && ListSide(cfg, Evicted(cfg, cand), r.candidate, b.owner, None, Some(b.amount))
  {
    hide LedgerOk, NominatorsOk, PoolOk, StashOk, Solvent, Sum, Insert, Inv, All, Evicted;
    var cand, k := st.candidates[c], r.kicked.value;
    CountAtLeast(cfg, cand, k);
    EvictedInv(cfg, cand);
    assert k == Bond(k.owner, k.amount);
    assert Lists(st, k.owner, c, k.amount);
    assert multiset(Bag(k.owner, Some(k.amount))) == multiset{k};
    assert multiset(Bag(b.owner, Some(b.amount))) == multiset{b};
  }

  lemma CountAtLeast(cfg: Config, cand: Candidate, k: Bond)
    requires Inv(cfg, cand) && k in cand.bottom.nominations
    ensures cand.count >= 1 && k in All(cand)
  {
    assert k in multiset(cand.bottom.nominations);
  }

  lemma NominatePlain(cfg: Config, st: Storage, n: Account, c: Account, amount: nat, h: nat, hint: nat)
    requires cfg.Valid() && Valid(cfg, st) && Nominate(cfg, st, n, c, amount, h, hint).Ok?
    requires Records(st, n, c) == None && amount > 0
    requires AddNomination(cfg, st.candidates[c], Bond(n, amount)).Ok?
    requires var r := AddNomination(cfg, st.candidates[c], Bond(n, amount)).value;
      r.kicked.None? && AddEffect(cfg, st.candidates[c], Bond(n, amount), r)
    ensures EntryChange(cfg, st, Nominate(cfg, st, n, c, amount, h, hint).value, n, c, Some(amount), 0)
  {
    hide Inv, SumBy, Sum, Agree, LedgerOk, CandidatesOk, StashOk, Solvent, AddNomination, Nominate, NominatorFor, PoolOk;
    NominateForm(cfg, st, n, c, amount, h, hint);
    var r := AddNomination(cfg, st.candidates[c], Bond(n, amount)).value;
    NominatorForOk(cfg, st, n, c, amount, hint);
    PoolPut(cfg, st, c, r.candidate);
    var st' := Nominate(cfg, st, n, c, amount, h, hint).value;
    var s := NominatorFor(cfg, st, n, c, amount, hint).value;
    assert st'.nominators == st.nominators[n := s];
    assert st'.candidates == st.candidates[c := r.candidate];
  }

  /** The pieces of the storage after an accepted nomination. */
  lemma NominateForm(cfg: Config, st: Storage, n: Account, c: Account, amount: nat, h: nat, hint: nat)
    requires Nominate(cfg, st, n, c, amount, h, hint).Ok?
    ensures c in st.candidates && AddNomination(cfg, st.candidates[c], Bond(n, amount)).Ok?
    ensures NominatorFor(cfg, st, n, c, amount, hint).Ok?
    ensures var r := AddNomination(cfg, st.candidates[c], Bond(n, amount)).value;
      var st' := Nominate(cfg, st, n, c, amount, h, hint).value;
      var kick := Kick(PutNominated(st, c, r.candidate), c, r.kicked);
      && kick.Ok?
      && st'.candidates == st.candidates[c := r.candidate] && st'.bondedStash == st.bondedStash
      && st'.pool == PutNominated(st, c, r.candidate).pool
      && st'.nominators == kick.value.nominators[n := NominatorFor(cfg, st, n, c, amount, hint).value]
      && Get(st'.reserved, n) == Get(kick.value.reserved, n) + amount
      && (forall a :: a != n ==> Get(st'.reserved, a) == Get(kick.value.reserved, a))
      && st'.total == st.total + (match r.less case None => amount case Some(less) => WrapSub(amount, less))
  {
    hide AddNomination, NominatorFor, RemoveRequest, RmEntry;
  }

  /** An eviction reads and writes the nominators and the currency only. */
  lemma KickTouches(st: Storage, c: Account, k: Bond)
    requires Kick(st, c, Some(k)).Ok?
    ensures var st' := Kick(st, c, Some(k)).value;
      && st'.nominators - {k.owner} == st.nominators - {k.owner}
      && st'.candidates == st.candidates && st'.bondedStash == st.bondedStash && st'.pool == st.pool
  {
    hide RemoveRequest, RmEntry;
    var o := k.owner;
    var s := st.nominators[o];
    assert st.nominators - {o} - {o} == st.nominators - {o};
    assert st.nominators[o := RemoveRequest(RmEntry(s, c), c)] - {o} == st.nominators - {o};
  }

  lemma PutOnly(st: Storage, c: Account, cand: Candidate)
    requires c in st.candidates
    ensures PutNominated(st, c, cand) == st.(candidates := st.candidates[c := cand], pool := PutNominated(st, c, cand).pool)
  {
  }

  lemma UnreserveAlike(st: Storage, st': Storage, a: Account, v: nat)
    requires st.reserved == st'.reserved
    ensures Unreserve(st, a, v).reserved == Unreserve(st', a, v).reserved
  {
  }

  lemma KickForm(st: Storage, c: Account, cand: Candidate, cand': Candidate, k: Bond)
    requires c in st.candidates
    ensures var r, r' := Kick(PutNominated(st, c, cand), c, Some(k)), Kick(PutNominated(st, c, cand'), c, Some(k));
      && r.Ok? == r'.Ok?
      && (r.Ok? ==>
            && r.value.nominators == r'.value.nominators && r.value.reserved == r'.value.reserved
            && r.value.candidates == st.candidates[c := cand] && r.value.bondedStash == st.bondedStash
            && r.value.nominators - {k.owner} == st.nominators - {k.owner}
            && r.value.pool == PutNominated(st, c, cand).pool)
  {
    hide RemoveRequest, RmEntry, Unreserve, PutNominated;
    PutOnly(st, c, cand);
    PutOnly(st, c, cand');
    if k.owner in st.nominators {
      UnreserveOnly(PutNominated(st, c, cand), k.owner, k.amount);
      UnreserveOnly(PutNominated(st, c, cand'), k.owner, k.amount);
      UnreserveAlike(PutNominated(st, c, cand), PutNominated(st, c, cand'), k.owner, k.amount);
      KickTouches(PutNominated(st, c, cand), c, k);
    }
  }

  /** With an eviction, a nomination changes the evicted entry and then the new one. */
  lemma NominateKick(cfg: Config, st: Storage, n: Account, c: Account, amount: nat, h: nat, hint: nat, r: Added, e: Candidate)
    requires cfg.Valid() && Valid(cfg, st) && Nominate(cfg, st, n, c, amount, h, hint).Ok?
    requires c in st.candidates && AddNomination(cfg, st.candidates[c], Bond(n, amount)) == Ok(r)
    requires r.kicked.Some? && r.kicked.value.owner != n && ListSide(cfg, e, r.candidate, n, None, Some(amount))
    requires Kick(PutNominated(st, c, e), c, r.kicked).Ok?
    ensures var mid := Kick(PutNominated(st, c, e), c, r.kicked).value;
      && EntryChange(cfg, mid, Nominate(cfg, st, n, c, amount, h, hint).value, n, c, Some(amount), 0)
      && Records(mid, n, c) == None
  {
    hide Inv, SumBy, Sum, All, Agree, LedgerOk, CandidatesOk, StashOk, Solvent, AddNomination, ListSide, Nominate, Kick, NominatorFor,
      UpdateActive, Get, PoolOk, PutNominated, Excess;
    var mid := Kick(PutNominated(st, c, e), c, r.kicked).value;
    var st' := Nominate(cfg, st, n, c, amount, h, hint).value;
    var o := r.kicked.value.owner;
    NominateForm(cfg, st, n, c, amount, h, hint);
    NominatorForOk(cfg, st, n, c, amount, hint);
    KickForm(st, c, e, r.candidate, r.kicked.value);
    PoolPut(cfg, st, c, r.candidate);
    PoolPut(cfg, st, c, e);
    UpdateTwice(st.pool, c, e.votingPower, r.candidate.votingPower);
    SameBut(mid.nominators, st.nominators, o, n);
    assert NominationsOf(mid, n) == NominationsOf(st, n);
  }

  lemma UpdateTwice(pool: map<Account, nat>, c: Account, p: nat, q: nat)
    ensures UpdateActive(UpdateActive(pool, c, p), c, q) == UpdateActive(pool, c, q)
  {
  }

  lemma SameBut(m: map<Account, Nominator>, m': map<Account, Nominator>, o: Account, n: Account)
    requires m - {o} == m' - {o} && n != o
    ensures n in m <==> n in m'
    ensures n in m ==> m[n] == m'[n]
  {
    assert n in m - {o} <==> n in m' - {o};
    assert n in m ==> (m - {o})[n] == (m' - {o})[n];
  }

  /** The amount that a nomination accepted by `cand` evicts. */
  ghost function Evictee(cfg: Config, cand: Candidate): nat {
    if BothFull(cfg, cand) then Lowest(cand.bottom) else 0
  }

  /** A nomination keeps the invariant and moves exactly its own amount, less what it evicts. */
  lemma NominateKeeps(cfg: Config, st: Storage, n: Account, c: Account, amount: nat, h: nat, hint: nat)
    requires cfg.Valid() && Valid(cfg, st) && Nominate(cfg, st, n, c, amount, h, hint).Ok?
    ensures c in st.candidates && Evictee(cfg, st.candidates[c]) <= amount
    ensures var st' := Nominate(cfg, st, n, c, amount, h, hint).value;
      Valid(cfg, st') && Moves(st, st', In(amount - Evictee(cfg, st.candidates[c])))
  {
    hide Inv, SumBy, Sum, All, Agree, LedgerOk, StashOk, NominatorsOk, PoolOk, Solvent, AddNomination, ListSide, EntryChange,
      Evicted, Nominate, Kick, Records, NominatorFor, Becomes, BothFull;
    var b := Bond(n, amount);
    NominateForm(cfg, st, n, c, amount, h, hint);
    NominatorForOk(cfg, st, n, c, amount, hint);
    NotListed(cfg, st, n, c);
    var cand := st.candidates[c];
    AddKeeps(cfg, cand, b);
    var r := AddNomination(cfg, cand, b).value;
    var st' := Nominate(cfg, st, n, c, amount, h, hint).value;
    if r.kicked.None? {
      NominatePlain(cfg, st, n, c, amount, h, hint);
      EntryStep(cfg, st, st', n, c, Some(amount), 0);
    } else {
      KickedIsListed(cfg, st, c, b, r);
      var k, e := r.kicked.value, Evicted(cfg, cand);
      KickIsEntry(cfg, st, c, k, e);
      var mid := Kick(PutNominated(st, c, e), c, Some(k)).value;
      EntryStep(cfg, st, mid, k.owner, c, None, 0);
      NominateKick(cfg, st, n, c, amount, h, hint, r, e);
      EntryStep(cfg, mid, st', n, c, Some(amount), 0);
    }
  }

  // ----- changing, revoking and leaving

  lemma ListSideOf(cfg: Config, cand: Candidate, cand': Candidate, n: Account, a: nat, to: Option<nat>)
    requires Bond(n, a) in All(cand) && Becomes(cfg, cand, cand', All(cand) - multiset{Bond(n, a)} + multiset(Bag(n, to)))
    ensures ListSide(cfg, cand, cand', n, Some(a), to)
  {
    hide Inv;
    assert multiset(Bag(n, Some(a))) == multiset{Bond(n, a)};
  }

  lemma BondMoreForm(cfg: Config, st: Storage, n: Account, c: Account, more: nat)
    requires NominatorBondMore(cfg, st, n, c, more).Ok?
    ensures Records(st, n, c).Some? && c in st.candidates
    ensures var a := Records(st, n, c).value;
      var r := Increase(cfg, st.candidates[c], n, a, more);
      var st' := NominatorBondMore(cfg, st, n, c, more).value;
      var s := st.nominators[n];
      && r.Ok?
      && st'.candidates == st.candidates[c := r.value.0] && st'.bondedStash == st.bondedStash
      && st'.pool == UpdateActive(st.pool, c, r.value.0.votingPower)
      && st'.nominators == st.nominators[n := s.(nominations := s.nominations[c := a + more], total := s.total + more)]
      && Get(st'.reserved, n) == Get(st.reserved, n) + more
      && (forall x :: x != n ==> Get(st'.reserved, x) == Get(st.reserved, x))
      && st'.total == st.total + more
  {
    hide Increase;
  }

  lemma NominatorBondMoreKeeps(cfg: Config, st: Storage, n: Account, c: Account, more: nat)
    requires cfg.Valid() && Valid(cfg, st) && NominatorBondMore(cfg, st, n, c, more).Ok?
    ensures var st' := NominatorBondMore(cfg, st, n, c, more).value; Valid(cfg, st') && Moves(st, st', In(more))
  {
    hide Valid, Backing, Excess, EntryChange, NominatorBondMore, Increase;
    BondMoreForm(cfg, st, n, c, more);
    BondMoreIsEntry(cfg, st, n, c, more);
    EntryStep(cfg, st, NominatorBondMore(cfg, st, n, c, more).value, n, c, Some(Records(st, n, c).value + more), 0);
  }

  lemma BondMoreIsEntry(cfg: Config, st: Storage, n: Account, c: Account, more: nat)
    requires cfg.Valid() && Valid(cfg, st) && NominatorBondMore(cfg, st, n, c, more).Ok? && Records(st, n, c).Some?
    ensures EntryChange(cfg, st, NominatorBondMore(cfg, st, n, c, more).value, n, c, Some(Records(st, n, c).value + more), 0)
  {
    hide Inv, SumBy, Sum, All, Agree, LedgerOk, StashOk, PoolOk, Solvent, ListSide, NominatorBondMore, Becomes, Increase, Get;
    BondMoreForm(cfg, st, n, c, more);
    var st' := NominatorBondMore(cfg, st, n, c, more).value;
    var a, cand, cand', s := Records(st, n, c).value, st.candidates[c], st'.candidates[c], st.nominators[n];
    Listed(st, n, c);
    IncreaseRefinesLookup(cfg, cand, n, a, more);
    ListSideOf(cfg, cand, cand', n, a, Some(a + more));
    RaisedEntryOk(s, c, more);
    assert st'.nominators - {n} == st.nominators - {n};
  }

  lemma RaisedEntryOk(s: Nominator, c: Account, more: nat)
    requires LedgerOk(s) && c in s.nominations
    ensures LedgerOk(s.(nominations := s.nominations[c := s.nominations[c] + more], total := s.total + more))
    ensures s.nominations[c := s.nominations[c] + more] != map[]
  {
    ChangeEntryOk(s, c, s.nominations[c] + more);
    assert c in s.nominations[c := s.nominations[c] + more];
  }

  lemma DecreaseForm(cfg: Config, st: Storage, n: Account, c: Account)
    requires n in st.nominators && c in st.nominators[n].requests && ExecuteDecrease(cfg, st, n, c).Ok?
    ensures Records(st, n, c).Some? && c in st.candidates && st.nominators[n].requests[c].amount < Records(st, n, c).value
    ensures var a, s := Records(st, n, c).value, st.nominators[n];
      var less := s.requests[c].amount;
      var r := Candidates.Decrease(cfg, st.candidates[c], n, a, less);
      var st' := ExecuteDecrease(cfg, st, n, c).value;
      && r.Ok?
      && st'.candidates == st.candidates[c := r.value.0] && st'.bondedStash == st.bondedStash
      && st'.pool == PutNominated(st, c, r.value.0).pool
      && st'.nominators == st.nominators[n := s.(requests := s.requests - {c}, lessTotal := SatSub(s.lessTotal, less),
                                                  nominations := s.nominations[c := a - less], total := SatSub(s.total, less))]
      && st'.reserved == Unreserve(st, n, less).reserved
      && st'.total == SatSub(st.total, less)
  {
    hide Candidates.Decrease;
  }

  lemma LoweredEntryOk(s: Nominator, c: Account)
    requires LedgerOk(s) && c in s.requests && s.requests[c].action.Decrease?
    ensures c in s.nominations && s.requests[c].amount < s.nominations[c] <= s.total && s.requests[c].amount <= s.lessTotal
    ensures var less := s.requests[c].amount;
      LedgerOk(s.(requests := s.requests - {c}, lessTotal := SatSub(s.lessTotal, less),
                  nominations := s.nominations[c := s.nominations[c] - less], total := SatSub(s.total, less)))
    ensures s.nominations[c := s.nominations[c] - s.requests[c].amount] != map[]
  {
    RemoveRequestOk(s, c);
    EntryWithinTotal(s, c);
    ChangeEntryOk(RemoveRequest(s, c), c, s.nominations[c] - s.requests[c].amount);
    assert c in s.nominations[c := s.nominations[c] - s.requests[c].amount];
  }

  lemma ExecuteDecreaseKeeps(cfg: Config, st: Storage, n: Account, c: Account)
    requires cfg.Valid() && Valid(cfg, st) && n in st.nominators && c in st.nominators[n].requests
    requires st.nominators[n].requests[c].action.Decrease? && ExecuteDecrease(cfg, st, n, c).Ok?
    ensures var st' := ExecuteDecrease(cfg, st, n, c).value;
      Valid(cfg, st') && Moves(st, st', Out(st.nominators[n].requests[c].amount))
  {
    hide Valid, Backing, Excess, EntryChange, ExecuteDecrease, Candidates.Decrease;
    DecreaseForm(cfg, st, n, c);
    DecreaseIsEntry(cfg, st, n, c);
    var less := st.nominators[n].requests[c].amount;
    EntryStep(cfg, st, ExecuteDecrease(cfg, st, n, c).value, n, c, Some(Records(st, n, c).value - less), 0);
  }

  lemma DecreaseIsEntry(cfg: Config, st: Storage, n: Account, c: Account)
    requires cfg.Valid() && Valid(cfg, st) && n in st.nominators && c in st.nominators[n].requests
    requires st.nominators[n].requests[c].action.Decrease? && ExecuteDecrease(cfg, st, n, c).Ok?
    requires Records(st, n, c).Some? && st.nominators[n].requests[c].amount < Records(st, n, c).value
    ensures var to := Records(st, n, c).value - st.nominators[n].requests[c].amount;
      EntryChange(cfg, st, ExecuteDecrease(cfg, st, n, c).value, n, c, Some(to), 0)
  {
    hide Inv, SumBy, Sum, All, Agree, LedgerOk, StashOk, PoolOk, ListSide, ExecuteDecrease, Becomes, Candidates.Decrease, Unreserve;
    DecreaseForm(cfg, st, n, c);
    var st' := ExecuteDecrease(cfg, st, n, c).value;
    var a, cand, cand', s := Records(st, n, c).value, st.candidates[c], st'.candidates[c], st.nominators[n];
    var less := s.requests[c].amount;
    Listed(st, n, c);
    DecreaseRefinesLookup(cfg, cand, n, a, less);
    ListSideOf(cfg, cand, cand', n, a, Some(a - less));
    LoweredEntryOk(s, c);
    PoolPut(cfg, st, c, cand');
    UnreserveOnly(st, n, less);
    assert st'.nominators - {n} == st.nominators - {n};
    assert Excess(st, n) >= 0;
  }

  lemma BackingAtLeastEntry(cfg: Config, st: Storage, n: Account, c: Account)
    requires Agree(st) && Records(st, n, c).Some?
    ensures Backing(st) >= Records(st, n, c).value
  {
    Listed(st, n, c);
    var x, cand := Bond(n, Records(st, n, c).value), st.candidates[c];
    BackingAtLeast(st, c);
    assert x in cand.top.nominations || x in cand.bottom.nominations by {
      assert x in multiset(cand.top.nominations) || x in multiset(cand.bottom.nominations);
    }
    if x in cand.top.nominations {
      SumAtLeast(cand.top.nominations, x);
    } else {
      SumAtLeast(cand.bottom.nominations, x);
    }
  }

  /** Leaving a candidate with a claim no larger than the recorded amount. */
  lemma LeavesForm(cfg: Config, st: Storage, c: Account, n: Account, claimed: nat, a: nat)
    requires cfg.Valid() && CandidatesOk(cfg, st) && PoolOk(st)
    requires c in st.candidates && Bond(n, a) in All(st.candidates[c]) && claimed <= a <= Get(st.reserved, n)
    ensures claimed == a ==> NominatorLeavesCandidate(cfg, st, c, n, claimed).Ok?
    ensures NominatorLeavesCandidate(cfg, st, c, n, claimed).Ok? ==>
      var st' := NominatorLeavesCandidate(cfg, st, c, n, claimed).value;
      && c in st'.candidates && ListSide(cfg, st.candidates[c], st'.candidates[c], n, Some(a), None)
      && st'.candidates == st.candidates[c := st'.candidates[c]] && st'.bondedStash == st.bondedStash
      && st'.pool == UpdateActive(st.pool, c, st'.candidates[c].votingPower)
      && st'.nominators == st.nominators
      && Get(st'.reserved, n) == Get(st.reserved, n) - claimed
      && (forall x :: x != n ==> Get(st'.reserved, x) == Get(st.reserved, x))
      && st'.total == SatSub(st.total, claimed)
  {
    hide Inv, Sum, All, RmIfExists, ListSide, Becomes;
    var cand := st.candidates[c];
    RmWithStaleAmount(cfg, cand, n, a, claimed);
    RmRefinesLookup(cfg, cand, n, a);
    var cand' := RmIfExists(cfg, cand, n, a).value.0;
    assert All(cand) - multiset{Bond(n, a)} == All(cand) - multiset{Bond(n, a)} + multiset(Bag(n, None));
    ListSideOf(cfg, cand, cand', n, a, None);
    PoolPut(cfg, st, c, cand');
  }

  lemma RevokedOk(s: Nominator, c: Account)
    requires LedgerOk(s) && c in s.requests && s.requests[c].action.Revoke?
    ensures c in s.nominations && s.requests[c].amount <= s.nominations[c] <= s.total
    ensures |s.nominations| == 1 <==> s.nominations - {c} == map[]
    ensures var s1 := s.(requests := s.requests - {c}, lessTotal := SatSub(s.lessTotal, s.requests[c].amount),
                         revocations := SatSub(s.revocations, 1));
      LedgerOk(RmEntry(s1, c)) && RmEntry(s1, c).nominations == s.nominations - {c}
  {
    RemovedEntryOk(s, c);
  }

  /** Executing a revocation. If the nomination was increased after the revocation was scheduled, the
      increase stays reserved and stays in `Total`. */
  lemma ExecuteRevokeKeeps(cfg: Config, st: Storage, n: Account, c: Account)
    requires cfg.Valid() && Valid(cfg, st) && n in st.nominators && c in st.nominators[n].requests
    requires st.nominators[n].requests[c].action.Revoke? && ExecuteRevoke(cfg, st, n, c).Ok?
    ensures c in st.nominators[n].nominations && st.nominators[n].requests[c].amount <= st.nominators[n].nominations[c]
    ensures var st', less := ExecuteRevoke(cfg, st, n, c).value, st.nominators[n].requests[c].amount;
      Valid(cfg, st') && Moves(st, st', Flow(0, less, n, st.nominators[n].nominations[c] - less, 0))
  {
    hide Inv, SumBy, Sum, All, Agree, LedgerOk, StashOk, PoolOk, ListSide, NominatorLeavesCandidate, RmEntry;
    var st' := ExecuteRevoke(cfg, st, n, c).value;
    var s := st.nominators[n];
    var amount := s.requests[c].amount;
    RevokedOk(s, c);
    var a := s.nominations[c];
    assert Records(st, n, c) == Some(a) && Excess(st, n) >= 0;
    Listed(st, n, c);
    LeavesForm(cfg, st, c, n, amount, a);
    assert st'.nominators - {n} == st.nominators - {n};
    EntryStep(cfg, st, st', n, c, None, a - amount);
    BackingAtLeastEntry(cfg, st, n, c);
  }

  /** The storage as it looks half-way through a nominator's leaving: `n` holds only `todo`. */
  ghost function Halfway(st: Storage, n: Account, when: nat, todo: map<Account, nat>): Storage {
    st.(nominators := if todo == map[] then st.nominators - {n}
                      else st.nominators[n := Exiter(todo, when)])
  }

  ghost function Exiter(todo: map<Account, nat>, when: nat): Nominator {
    Nominator(todo, SumBy(todo, Itself), map[], 0, 0, Exiting(when))
  }

  lemma ExiterOk(todo: map<Account, nat>, when: nat, c: Account)
    requires LedgerOk(Exiter(todo, when)) && c in todo
    ensures todo[c] <= Exiter(todo, when).total && LedgerOk(Exiter(todo - {c}, when))
  {
    EntryWithinTotal(Exiter(todo, when), c);
    RmEntryOk(Exiter(todo, when), c);
  }

  lemma HalfwayReady(cfg: Config, st: Storage, n: Account, when: nat, todo: map<Account, nat>, c: Account)
    requires Valid(cfg, Halfway(st, n, when, todo)) && c in todo
    ensures CandidatesOk(cfg, st) && PoolOk(st) && c in st.candidates && Bond(n, todo[c]) in All(st.candidates[c])
    ensures todo[c] <= Get(st.reserved, n) && LedgerOk(Exiter(todo - {c}, when))
    ensures var v := Halfway(st, n, when, todo); Records(v, n, c) == Some(todo[c]) && Backing(v) >= todo[c]
  {
    hide Inv, SumBy, Sum, All, Agree, StashOk, LedgerOk;
    var v := Halfway(st, n, when, todo);
    assert Records(v, n, c) == Some(todo[c]) && Excess(v, n) >= 0;
    Listed(v, n, c);
    BackingAtLeastEntry(cfg, v, n, c);
    ExiterOk(todo, when, c);
  }

  lemma HalfwayEntry(cfg: Config, st: Storage, n: Account, when: nat, todo: map<Account, nat>, c: Account)
    requires cfg.Valid() && Valid(cfg, Halfway(st, n, when, todo)) && c in todo
    ensures NominatorLeavesCandidate(cfg, st, c, n, todo[c]).Ok?
    ensures var st1, v := NominatorLeavesCandidate(cfg, st, c, n, todo[c]).value, Halfway(st, n, when, todo);
      && EntryChange(cfg, v, Halfway(st1, n, when, todo - {c}), n, c, None, 0)
      && Records(v, n, c) == Some(todo[c]) && Backing(v) >= todo[c] && st1.total == SatSub(st.total, todo[c])
  {
    hide Valid, CandidatesOk, PoolOk, ListSide, NominatorLeavesCandidate, LedgerOk, Backing, All, SumBy;
    HalfwayReady(cfg, st, n, when, todo, c);
    LeavesForm(cfg, st, c, n, todo[c], todo[c]);
    var st1, v := NominatorLeavesCandidate(cfg, st, c, n, todo[c]).value, Halfway(st, n, when, todo);
    assert Halfway(st1, n, when, todo - {c}).nominators - {n} == v.nominators - {n};
  }

  lemma MovesOn(st: Storage, mid: Storage, st': Storage, v: nat, w: nat)
    requires Moves(st, mid, Out(v)) && Moves(mid, st', Out(w))
    ensures Moves(st, st', Out(v + w))
  {
    forall a: Account ensures Excess(st', a) == Excess(st, a) {
      assert Excess(mid, a) == Excess(st, a);
    }
  }

  /** Every removal of a nominator's leaving succeeds. */
  ghost predicate NoneFails(cfg: Config, st: Storage, n: Account, todo: map<Account, nat>)
    decreases |todo|
  {
    todo == map[]
    || (var c := Least(todo.Keys);
        var r := NominatorLeavesCandidate(cfg, st, c, n, todo[c]);
        r.Ok? && NoneFails(cfg, r.value, n, todo - {c}))
  }

  lemma HalfwayMoves(cfg: Config, st: Storage, n: Account, when: nat, todo: map<Account, nat>, c: Account)
    requires cfg.Valid() && Valid(cfg, Halfway(st, n, when, todo)) && c in todo
    ensures NominatorLeavesCandidate(cfg, st, c, n, todo[c]).Ok?
    ensures var v1 := Halfway(NominatorLeavesCandidate(cfg, st, c, n, todo[c]).value, n, when, todo - {c});
      Valid(cfg, v1) && Moves(Halfway(st, n, when, todo), v1, Out(todo[c]))
  {
    hide Valid, EntryChange, NominatorLeavesCandidate, Backing, Records, Excess;
    HalfwayEntry(cfg, st, n, when, todo, c);
    var v1 := Halfway(NominatorLeavesCandidate(cfg, st, c, n, todo[c]).value, n, when, todo - {c});
    EntryStep(cfg, Halfway(st, n, when, todo), v1, n, c, None, 0);
  }

  lemma {:induction false} LeaveEachKeeps(cfg: Config, st: Storage, n: Account, when: nat, todo: map<Account, nat>)
    requires cfg.Valid() && Valid(cfg, Halfway(st, n, when, todo))
    ensures var st' := Halfway(LeaveEach(cfg, st, n, todo), n, when, map[]);
      Valid(cfg, st') && Moves(Halfway(st, n, when, todo), st', Out(SumBy(todo, Itself))) && NoneFails(cfg, st, n, todo)
    decreases |todo|
  {
    hide Valid, NominatorLeavesCandidate, Moves, Halfway;
    if todo == map[] {
      MovesNot(Halfway(st, n, when, todo));
    } else {
      var c := Least(todo.Keys);
      HalfwayMoves(cfg, st, n, when, todo, c);
      var st1 := NominatorLeavesCandidate(cfg, st, c, n, todo[c]).value;
      LeaveEachKeeps(cfg, st1, n, when, todo - {c});
      MovesOn(Halfway(st, n, when, todo), Halfway(st1, n, when, todo - {c}),
              Halfway(LeaveEach(cfg, st, n, todo), n, when, map[]), todo[c], SumBy(todo - {c}, Itself));
      SumByTake(todo, Itself, c);
    }
  }

  lemma MovesNot(st: Storage)
    ensures Moves(st, st, Out(0))
  {
  }

  /** A nominator that leaves takes exactly its nominations along, and no removal fails on the way. */
  lemma ExecuteLeaveNominatorsKeeps(cfg: Config, st: Storage, n: Account, hint: nat)
    requires cfg.Valid() && Valid(cfg, st) && ExecuteLeaveNominators(cfg, st, n, hint).Ok?
    ensures n in st.nominators
    ensures var st' := ExecuteLeaveNominators(cfg, st, n, hint).value;
      Valid(cfg, st') && Moves(st, st', Out(st.nominators[n].total)) && n !in st'.nominators
    ensures NoneFails(cfg, st, n, st.nominators[n].nominations)
  {
    hide Inv, Sum, All, Agree, StashOk, PoolOk, CandidatesOk, BackingOf, LeaveEach;
    var s := st.nominators[n];
    assert s.requests == map[] && s.lessTotal == 0 && s.revocations == 0;
    assert s == Nominator(s.nominations, SumBy(s.nominations, Itself), map[], 0, 0, s.status);
    assert st.nominators[n := s] == st.nominators;
    LeaveEachKeeps(cfg, st, n, s.status.when, s.nominations);
  }

  // ----- candidates joining and leaving

  ghost predicate Joined(st: Storage, st': Storage, stash: Account, c: Account, bond: nat, tier: Tier) {
    && stash !in st.bondedStash && c !in st.candidates
    && st'.candidates == st.candidates[c := NewCandidate(stash, bond, tier)]
    && st'.bondedStash == st.bondedStash[stash := c] && st'.pool == st.pool[c := bond]
    && st'.nominators == st.nominators && st'.total == st.total + bond
    && Get(st'.reserved, stash) == Get(st.reserved, stash) + bond
    && (forall a :: a != stash ==> Get(st'.reserved, a) == Get(st.reserved, a))
  }

  lemma JoinedAgrees(cfg: Config, st: Storage, st': Storage, stash: Account, c: Account, bond: nat, tier: Tier)
    requires cfg.Valid() && Agree(st) && Joined(st, st', stash, c, bond, tier)
    ensures Agree(st')
  {
    hide Inv, All;
    NewCandidateInv(cfg, stash, bond, tier);
    forall n, c0, a: nat ensures Lists(st', n, c0, a) <==> Records(st', n, c0) == Some(a) {
      assert Lists(st, n, c0, a) <==> Records(st, n, c0) == Some(a);
      assert Records(st', n, c0) == Records(st, n, c0);
    }
  }

  lemma JoinedKeeps(cfg: Config, st: Storage, st': Storage, stash: Account, c: Account, bond: nat, tier: Tier)
    requires cfg.Valid() && Valid(cfg, st) && Joined(st, st', stash, c, bond, tier)
    ensures Valid(cfg, st') && Moves(st, st', In(bond))
  {
    hide Inv, SumBy, LedgerOk, Agree, Sum, NewCandidate, Excess, CandidatesOk, NominatorsOk, PoolOk, StashOk;
    JoinedAgrees(cfg, st, st', stash, c, bond, tier);
    JoinedParts(cfg, st, st', stash, c, bond, tier);
    JoinedExcess(st, st', stash, c, bond, tier);
    SumByPut(st.candidates, BackingOf, c, NewCandidate(stash, bond, tier));
    EmptyBacking(stash, bond, tier);
  }

  lemma JoinedExcess(st: Storage, st': Storage, stash: Account, c: Account, bond: nat, tier: Tier)
    requires Joined(st, st', stash, c, bond, tier) && StashOk(st)
    ensures forall a: Account :: Excess(st', a) == Excess(st, a)
  {
    forall a: Account ensures Excess(st', a) == Excess(st, a) {}
  }

  lemma JoinedParts(cfg: Config, st: Storage, st': Storage, stash: Account, c: Account, bond: nat, tier: Tier)
    requires cfg.Valid() && Joined(st, st', stash, c, bond, tier)
    requires CandidatesOk(cfg, st) && NominatorsOk(st) && PoolOk(st) && StashOk(st)
    ensures CandidatesOk(cfg, st') && NominatorsOk(st') && PoolOk(st') && StashOk(st')
  {
    hide CandidatesOk, PoolOk, StashOk, LedgerOk;
    JoinedCandidates(cfg, st, st', stash, c, bond, tier);
    JoinedPool(st, st', stash, c, bond, tier);
    JoinedStash(st, st', stash, c, bond, tier);
  }

  lemma JoinedCandidates(cfg: Config, st: Storage, st': Storage, stash: Account, c: Account, bond: nat, tier: Tier)
    requires cfg.Valid() && Joined(st, st', stash, c, bond, tier) && CandidatesOk(cfg, st)
    ensures CandidatesOk(cfg, st')
  {
    hide Inv, Sum;
    NewCandidateInv(cfg, stash, bond, tier);
  }

  lemma JoinedPool(st: Storage, st': Storage, stash: Account, c: Account, bond: nat, tier: Tier)
    requires Joined(st, st', stash, c, bond, tier) && PoolOk(st)
    ensures PoolOk(st')
  {
  }

  lemma JoinedStash(st: Storage, st': Storage, stash: Account, c: Account, bond: nat, tier: Tier)
    requires Joined(st, st', stash, c, bond, tier) && StashOk(st)
    ensures StashOk(st')
  {
  }

  lemma EmptyBacking(stash: Account, bond: nat, tier: Tier)
    ensures BackingOf(NewCandidate(stash, bond, tier)) == bond
  {
  }

  lemma JoinKeeps(cfg: Config, st: Storage, stash: Account, c: Account, relayer: Option<bool>, bond: nat, hint: nat)
    requires cfg.Valid() && Valid(cfg, st) && JoinCandidates(cfg, st, stash, c, relayer, bond, hint).Ok?
    ensures var st' := JoinCandidates(cfg, st, stash, c, relayer, bond, hint).value; Valid(cfg, st') && Moves(st, st', In(bond))
  {
    hide Valid, Moves;
    JoinedKeeps(cfg, st, JoinCandidates(cfg, st, stash, c, relayer, bond, hint).value, stash, c, bond,
                if relayer.Some? then FullNode else BasicNode);
  }

  /** The ledgers agree if `c` is taken to hold exactly `bonds`. */
  ghost predicate AgreeWith(st: Storage, c: Account, bonds: seq<Bond>) {
    forall n, c0, a: nat :: (if c0 == c then Bond(n, a) in bonds else Lists(st, n, c0, a)) <==> Records(st, n, c0) == Some(a)
  }

  /** Returning one nominator's stake removes its entry from its own ledger. */
  lemma ReturnStakeForm(st: Storage, c: Account, b: Bond)
    requires NominatorsOk(st) && Records(st, b.owner, c) == Some(b.amount) && Excess(st, b.owner) >= 0
    ensures ReturnStake(st, c, b).Ok?
    ensures var st' := ReturnStake(st, c, b).value;
      && RecordSide(st, st', b.owner, c, None)
      && st'.candidates == st.candidates && st'.bondedStash == st.bondedStash && st'.pool == st.pool
      && st'.total == st.total && st'.round == st.round
      && Get(st'.reserved, b.owner) == Get(st.reserved, b.owner) - b.amount
      && (forall a :: a != b.owner ==> Get(st'.reserved, a) == Get(st.reserved, a))
  {
    hide LedgerOk, SumBy, RemoveRequest, RmEntry, RecordSide;
    ReturnStakeLedger(st, c, b);
    ReturnStakeReserves(st, c, b);
  }

  lemma ReturnStakeLedger(st: Storage, c: Account, b: Bond)
    requires NominatorsOk(st) && Records(st, b.owner, c) == Some(b.amount)
    ensures ReturnStake(st, c, b).Ok? && RecordSide(st, ReturnStake(st, c, b).value, b.owner, c, None)
  {
    hide LedgerOk, SumBy, RemoveRequest, Unreserve;
    var s := st.nominators[b.owner];
    var st' := ReturnStake(st, c, b).value;
    RemovedEntryOk(s, c);
    KeepsNominations(RmEntry(s, c), c);
    UnreserveOnly(st, b.owner, b.amount);
    assert st'.nominators - {b.owner} == st.nominators - {b.owner};
  }

  lemma UnreserveOnly(st: Storage, a: Account, v: nat)
    ensures Unreserve(st, a, v) == st.(free := Unreserve(st, a, v).free, reserved := Unreserve(st, a, v).reserved)
    ensures v <= Get(st.reserved, a) ==> Get(Unreserve(st, a, v).reserved, a) == Get(st.reserved, a) - v
    ensures forall x :: x != a ==> Get(Unreserve(st, a, v).reserved, x) == Get(st.reserved, x)
  {
  }

  lemma ReturnStakeReserves(st: Storage, c: Account, b: Bond)
    requires NominatorsOk(st) && Records(st, b.owner, c) == Some(b.amount) && Excess(st, b.owner) >= 0
    ensures ReturnStake(st, c, b).Ok?
    ensures var st' := ReturnStake(st, c, b).value;
      && st'.candidates == st.candidates && st'.bondedStash == st.bondedStash && st'.pool == st.pool
      && st'.total == st.total && st'.round == st.round
      && Get(st'.reserved, b.owner) == Get(st.reserved, b.owner) - b.amount
      && (forall a :: a != b.owner ==> Get(st'.reserved, a) == Get(st.reserved, a))
  {
    hide LedgerOk, RemoveRequest, RmEntry, Unreserve, StashOwed;
    RemovedEntryOk(st.nominators[b.owner], c);
    UnreserveOnly(st, b.owner, b.amount);
  }

  lemma KeepsNominations(s: Nominator, c: Account)
    ensures RemoveRequest(s, c).nominations == s.nominations && RemoveRequest(s, c).total == s.total
  {
  }

  lemma {:induction false} ReturnStakesKeeps(st: Storage, c: Account, bonds: seq<Bond>)
    requires NominatorsOk(st) && AgreeWith(st, c, bonds) && Solvent(st) && OneEach(multiset(bonds))
    ensures ReturnStakes(st, c, bonds).Ok?
    ensures var st' := ReturnStakes(st, c, bonds).value;
      && NominatorsOk(st') && AgreeWith(st', c, []) && (forall a: Account :: Excess(st', a) == Excess(st, a))
      && st'.candidates == st.candidates && st'.bondedStash == st.bondedStash && st'.pool == st.pool
      && st'.total == st.total && st'.round == st.round
    decreases bonds
  {
    hide NominatorsOk, SumBy, ReturnStake, OneEach, Records, RecordSide, Lists;
    if bonds != [] {
      var b := bonds[0];
      assert Bond(b.owner, b.amount) in bonds;
      assert Records(st, b.owner, c) == Some(b.amount);
      ReturnStakeForm(st, c, b);
      var st1 := ReturnStake(st, c, b).value;
      EntryNominators(st, st1, b.owner, c, None);
      OwedMoves(st, st1, b.owner, c, None);
      forall a: Account ensures Excess(st1, a) == Excess(st, a) {}
      ReturnedAgrees(st, st1, c, bonds);
      OneEachRest(bonds);
      ReturnStakesKeeps(st1, c, bonds[1..]);
      forall a: Account ensures Excess(ReturnStakes(st1, c, bonds[1..]).value, a) == Excess(st, a) {
        assert Excess(st1, a) == Excess(st, a);
      }
    }
  }

  lemma OneEachRest(bonds: seq<Bond>)
    requires bonds != [] && OneEach(multiset(bonds))
    ensures OneEach(multiset(bonds[1..])) && !Owns(multiset(bonds[1..]), bonds[0].owner)
  {
    FirstOut(bonds);
    OneEachTake(multiset(bonds), bonds[0]);
    assert multiset(bonds) - multiset{bonds[0]} == multiset(bonds[1..]);
  }

  lemma ReturnedAgrees(st: Storage, st1: Storage, c: Account, bonds: seq<Bond>)
    requires bonds != [] && AgreeWith(st, c, bonds) && OneEach(multiset(bonds))
    requires RecordSide(st, st1, bonds[0].owner, c, None) && st1.candidates == st.candidates
    ensures AgreeWith(st1, c, bonds[1..])
  {
    hide LedgerOk, OneEach, All;
    var o := bonds[0].owner;
    OneEachRest(bonds);
    forall n, c0, a: nat
      ensures (if c0 == c then Bond(n, a) in bonds[1..] else Lists(st1, n, c0, a)) <==> Records(st1, n, c0) == Some(a)
    {
      assert (if c0 == c then Bond(n, a) in bonds else Lists(st, n, c0, a)) <==> Records(st, n, c0) == Some(a);
      assert Lists(st1, n, c0, a) == Lists(st, n, c0, a);
      assert bonds == [bonds[0]] + bonds[1..];
      if n != o {
        assert n in st1.nominators - {o} <==> n in st.nominators - {o};
        assert n in st.nominators ==> (st1.nominators - {o})[n] == (st.nominators - {o})[n];
        assert Records(st1, n, c0) == Records(st, n, c0);
      } else {
        assert Records(st1, o, c0) == if c0 in NominationsOf(st1, o) then Some(NominationsOf(st1, o)[c0]) else None;
        assert Bond(o, a) !in multiset(bonds[1..]);
      }
    }
  }

  lemma {:induction false} ReturnStakesConcat(st: Storage, c: Account, x: seq<Bond>, y: seq<Bond>)
    requires ReturnStakes(st, c, x + y).Ok?
    ensures ReturnStakes(st, c, x).Ok? && ReturnStakes(ReturnStakes(st, c, x).value, c, y) == ReturnStakes(st, c, x + y)
    decreases x
  {
    hide ReturnStake;
    if x == [] {
      assert x + y == y;
    } else {
      assert (x + y)[1..] == x[1..] + y;
      ReturnStakesConcat(ReturnStake(st, c, x[0]).value, c, x[1..], y);
    }
  }

  /** All stakes go back: the storage just before the candidate itself is removed. */
  lemma LeaveReady(cfg: Config, st: Storage, c: Account)
    requires Valid(cfg, st) && c in st.candidates
    ensures var cand := st.candidates[c];
      && ReturnStakes(st, c, cand.top.nominations).Ok?
      && var st1 := ReturnStakes(st, c, cand.top.nominations).value;
      && ReturnStakes(st1, c, cand.bottom.nominations).Ok?
      && var st2 := ReturnStakes(st1, c, cand.bottom.nominations).value;
      && NominatorsOk(st2) && AgreeWith(st2, c, []) && (forall a: Account :: Excess(st2, a) == Excess(st, a))
      && st2.candidates == st.candidates && st2.bondedStash == st.bondedStash && st2.pool == st.pool && st2.total == st.total
  {
    hide Shape, SumBy, LedgerOk, NominatorsOk, StashOk, PoolOk, ReturnStakes;
    var cand := st.candidates[c];
    var bonds := cand.top.nominations + cand.bottom.nominations;
    assert multiset(bonds) == All(cand);
    assert OneEach(All(cand)) by { AllOneEach(cfg, cand); }
    forall n, c0, a: nat
      ensures (if c0 == c then Bond(n, a) in bonds else Lists(st, n, c0, a)) <==> Records(st, n, c0) == Some(a)
    {
      assert Lists(st, n, c0, a) <==> Records(st, n, c0) == Some(a);
      assert Bond(n, a) in bonds <==> Bond(n, a) in multiset(bonds);
    }
    ReturnStakesKeeps(st, c, bonds);
    ReturnStakesConcat(st, c, cand.top.nominations, cand.bottom.nominations);
  }

  lemma AllOneEach(cfg: Config, cand: Candidate)
    requires Inv(cfg, cand)
    ensures OneEach(All(cand))
  {
  }

  /** What a departing candidate takes out of `Total`: its self-bond and the two recorded totals. */
  function Takeout(cand: Candidate): nat {
    cand.bond + cand.top.total + cand.bottom.total
  }

  /** The candidate, its stash binding, its reserve and its share of `Total` disappear together. */
  ghost predicate Left(st: Storage, st2: Storage, st': Storage, stash: Account, c: Account) {
    && stash in st.bondedStash && st.bondedStash[stash] == c && c in st.candidates && !st.candidates[c].status.Active?
    && NominatorsOk(st2) && AgreeWith(st2, c, []) && (forall a: Account :: Excess(st2, a) == Excess(st, a))
    && st2.candidates == st.candidates && st2.bondedStash == st.bondedStash && st2.pool == st.pool && st2.total == st.total
    && st'.candidates == st.candidates - {c} && st'.bondedStash == st.bondedStash - {stash} && st'.pool == st.pool
    && st'.nominators == st2.nominators && st'.reserved == Unreserve(st2, stash, st.candidates[c].bond).reserved
    && st'.total == SatSub(st.total, Takeout(st.candidates[c]))
  }

  lemma LeftAgrees(st: Storage, st2: Storage, st': Storage, stash: Account, c: Account)
    requires Left(st, st2, st', stash, c)
    ensures Agree(st')
  {
    hide All, NominatorsOk, Excess, Unreserve;
    forall n, c0, a: nat ensures Lists(st', n, c0, a) <==> Records(st', n, c0) == Some(a) {
      assert (if c0 == c then Bond(n, a) in [] else Lists(st2, n, c0, a)) <==> Records(st2, n, c0) == Some(a);
      assert Records(st', n, c0) == Records(st2, n, c0);
    }
  }

  lemma LeftExcess(st: Storage, st2: Storage, st': Storage, stash: Account, c: Account)
    requires StashOk(st) && Solvent(st) && Left(st, st2, st', stash, c)
    ensures forall a: Account :: Excess(st', a) == Excess(st, a)
  {
    hide Agree, AgreeWith, NominatorsOk;
    assert Excess(st2, stash) == Excess(st, stash) >= 0;
    forall a: Account ensures Excess(st', a) == Excess(st, a) {
      assert Excess(st2, a) == Excess(st, a);
      assert NominatorOwed(st', a) == NominatorOwed(st2, a);
    }
  }

  lemma LeftTotal(cfg: Config, st: Storage, st2: Storage, st': Storage, stash: Account, c: Account)
    requires CandidatesOk(cfg, st) && Left(st, st2, st', stash, c)
    ensures Drift(st.candidates[c]) >= 0 && Takeout(st.candidates[c]) == BackingOf(st.candidates[c]) + Drift(st.candidates[c])
    ensures Backing(st) == Backing(st') + BackingOf(st.candidates[c])
  {
    hide Shape, Cached, SumBy, Sum, AgreeWith, NominatorsOk, Excess, Unreserve;
    SumByTake(st.candidates, BackingOf, c);
  }

  lemma LeftPlaces(cfg: Config, st: Storage, st': Storage, stash: Account, c: Account)
    requires CandidatesOk(cfg, st) && PoolOk(st) && StashOk(st)
    requires stash in st.bondedStash && st.bondedStash[stash] == c && c in st.candidates && !st.candidates[c].status.Active?
    requires st'.candidates == st.candidates - {c} && st'.bondedStash == st.bondedStash - {stash} && st'.pool == st.pool
    ensures CandidatesOk(cfg, st') && PoolOk(st') && StashOk(st')
  {
    hide Inv;
  }

  lemma LeftKeeps(cfg: Config, st: Storage, st2: Storage, st': Storage, stash: Account, c: Account)
    requires Valid(cfg, st) && Left(st, st2, st', stash, c)
    ensures Drift(st.candidates[c]) >= 0 && Takeout(st.candidates[c]) == BackingOf(st.candidates[c]) + Drift(st.candidates[c])
    ensures Valid(cfg, st') && Moves(st, st', Flow(0, Takeout(st.candidates[c]), 0, 0, Drift(st.candidates[c])))
  {
    hide CandidatesOk, PoolOk, StashOk, LedgerOk, Agree, AgreeWith, Drift, Excess, Unreserve, Backing, BackingOf, Takeout;
    LeftPlaces(cfg, st, st', stash, c);
    LeftAgrees(st, st2, st', stash, c);
    LeftExcess(st, st2, st', stash, c);
    LeftTotal(cfg, st, st2, st', stash, c);
  }

  /** When a candidate leaves, `Total` loses what backed it and, on top, the gap of its bottom total. */
  lemma ExecuteLeaveCandidatesKeeps(cfg: Config, st: Storage, stash: Account, hint: nat)
    requires Valid(cfg, st) && ExecuteLeaveCandidates(st, stash, hint).Ok?
    ensures stash in st.bondedStash && st.bondedStash[stash] in st.candidates
    ensures var st', cand := ExecuteLeaveCandidates(st, stash, hint).value, st.candidates[st.bondedStash[stash]];
      && Drift(cand) >= 0 && Takeout(cand) == BackingOf(cand) + Drift(cand)
      && Valid(cfg, st') && Moves(st, st', Flow(0, Takeout(cand), 0, 0, Drift(cand)))
  {
    hide Valid, Moves, ReturnStakes, NominatorsOk, AgreeWith, Excess, Drift;
    var c := st.bondedStash[stash];
    LeaveReady(cfg, st, c);
    var st1 := ReturnStakes(st, c, st.candidates[c].top.nominations).value;
    var st2 := ReturnStakes(st1, c, st.candidates[c].bottom.nominations).value;
    LeftKeeps(cfg, st, st2, ExecuteLeaveCandidates(st, stash, hint).value, stash, c);
  }

  // ----- the self-bond

  lemma PoolFollows(st: Storage, c: Account, power: nat)
    requires PoolOk(st) && c in st.candidates
    ensures if st.candidates[c].status.Active? then UpdateActive(st.pool, c, power) == st.pool[c := power]
            else UpdateActive(st.pool, c, power) == st.pool - {c}
  {
  }

  /** What holds of a bonded candidate and its stash. */
  lemma StashFacts(cfg: Config, st: Storage, c: Account)
    requires Valid(cfg, st) && c in st.candidates
    ensures var cand := st.candidates[c];
      && cand.stash in st.bondedStash && st.bondedStash[cand.stash] == c
      && cand.bond <= Get(st.reserved, cand.stash) && cand.bond <= cand.votingPower && RequestOk(cand)
    ensures PoolOk(st)
  {
    hide Shape, LedgerOk, Agree, SumBy, Sum;
    var cand := st.candidates[c];
    assert Excess(st, cand.stash) >= 0;
    BackingAtLeast(st, c);
  }

  lemma StashIs(cfg: Config, st: Storage, stash: Account)
    requires Valid(cfg, st) && stash in st.bondedStash
    ensures st.bondedStash[stash] in st.candidates && st.candidates[st.bondedStash[stash]].stash == stash
  {
    hide CandidatesOk, NominatorsOk, Agree, PoolOk, Solvent;
  }

  lemma CandidateBondMoreKeeps(cfg: Config, st: Storage, stash: Account, more: nat)
    requires Valid(cfg, st) && CandidateBondMore(st, stash, more).Ok?
    ensures var st' := CandidateBondMore(st, stash, more).value; Valid(cfg, st') && Moves(st, st', In(more))
  {
    hide Valid, Moves, PoolOk, Backing;
    var c := st.bondedStash[stash];
    StashIs(cfg, st, stash);
    StashFacts(cfg, st, c);
    PoolFollows(st, c, st.candidates[c].votingPower + more);
    BondStep(cfg, st, CandidateBondMore(st, stash, more).value, c, In(more));
  }

  lemma SetValidatorTierKeeps(cfg: Config, st: Storage, stash: Account, more: nat, tier: Tier, relayer: Option<bool>)
    requires Valid(cfg, st) && SetValidatorTier(cfg, st, stash, more, tier, relayer).Ok?
    ensures var st' := SetValidatorTier(cfg, st, stash, more, tier, relayer).value; Valid(cfg, st') && Moves(st, st', In(more))
  {
    hide Valid, Moves, PoolOk, Backing;
    var c := st.bondedStash[stash];
    StashIs(cfg, st, stash);
    StashFacts(cfg, st, c);
    PoolFollows(st, c, st.candidates[c].votingPower + more);
    BondStep(cfg, st, SetValidatorTier(cfg, st, stash, more, tier, relayer).value, c, In(more));
  }

  /** Executing a bond-less request lowers the self-bond by exactly its amount and leaves something. */
  lemma ExecuteBondLessKeeps(cfg: Config, st: Storage, stash: Account)
    requires Valid(cfg, st) && ExecuteCandidateBondLess(st, stash).Ok?
    ensures stash in st.bondedStash && st.bondedStash[stash] in st.candidates
    ensures var st', cand := ExecuteCandidateBondLess(st, stash).value, st.candidates[st.bondedStash[stash]];
      && cand.request.Some? && st'.candidates[st.bondedStash[stash]].bond == cand.bond - cand.request.value.amount > 0
      && Valid(cfg, st') && Moves(st, st', Out(cand.request.value.amount))
  {
    hide Valid, Moves, PoolOk, Backing;
    var c := st.bondedStash[stash];
    StashIs(cfg, st, stash);
    StashFacts(cfg, st, c);
    var st' := ExecuteCandidateBondLess(st, stash).value;
    PoolFollows(st, c, st'.candidates[c].votingPower);
    BondStep(cfg, st, st', c, Out(st.candidates[c].request.value.amount));
  }

  lemma SlashKeeps(cfg: Config, st: Storage, c: Account, amount: nat)
    requires Valid(cfg, st) && Slash(cfg, st, c, amount).Ok?
    ensures var st' := Slash(cfg, st, c, amount).value; Valid(cfg, st') && Moves(st, st', Out(amount))
  {
    hide Valid, Moves, PoolOk, Backing;
    StashFacts(cfg, st, c);
    BondStep(cfg, st, Slash(cfg, st, c, amount).value, c, Out(amount));
  }

  // ----- every call

  /** What an accepted call does to the books, read off the storage before it. A revocation leaves behind
      what the nomination was increased by since it was scheduled; a departing candidate takes along what
      its bottom total overstates. */
  ghost function FlowOf(cfg: Config, st: Storage, call: Call): Flow {
    match call
    case CallNominate(_, c, amount, _, _) => In(if c in st.candidates then SatSub(amount, Evictee(cfg, st.candidates[c])) else amount)
    case CallNominatorBondMore(_, _, more) => In(more)
    case CallExecuteRequest(n, c) => if n in st.nominators then RequestFlow(st.nominators[n], n, c) else Still
    case CallExecuteLeaveNominators(n, _) => Out(NominatorOwed(st, n))
    case CallJoin(_, _, _, bond, _) => In(bond)
    case CallExecuteLeaveCandidates(stash, _) =>
      if stash in st.bondedStash && st.bondedStash[stash] in st.candidates then LeaveFlow(st.candidates[st.bondedStash[stash]]) else Still
    case CallCandidateBondMore(_, more) => In(more)
    case CallSetTier(_, more, _, _) => In(more)
    case CallExecuteBondLess(stash) =>
      if stash in st.bondedStash && st.bondedStash[stash] in st.candidates && st.candidates[st.bondedStash[stash]].request.Some?
      then Out(st.candidates[st.bondedStash[stash]].request.value.amount) else Still
    case Offence(_, amount) => Out(amount)
    case _ => Still
  }

  ghost function RequestFlow(s: Nominator, n: Account, c: Account): Flow {
    if c !in s.requests then Still
    else if s.requests[c].action.Decrease? then Out(s.requests[c].amount)
    else Flow(0, s.requests[c].amount, n, if c in s.nominations then SatSub(s.nominations[c], s.requests[c].amount) else 0, 0)
  }

  ghost function LeaveFlow(cand: Candidate): Flow {
    Flow(0, Takeout(cand), 0, 0, SatSub(cand.bottom.total, Sum(cand.bottom.nominations)))
  }

  lemma RequestCalls(cfg: Config, st: Storage, call: Call)
    requires Valid(cfg, st) && Step(cfg, st, call).Ok?
    requires call.CallScheduleRevoke? || call.CallScheduleDecrease? || call.CallCancelRequest?
      || call.CallScheduleLeaveNominators? || call.CallCancelLeaveNominators?
    ensures Valid(cfg, Step(cfg, st, call).value) && Moves(st, Step(cfg, st, call).value, Still)
  {
    hide Nominate, NominatorBondMore, ExecuteRequest, ExecuteLeaveNominators, JoinCandidates, ScheduleLeaveCandidates,
      CancelLeaveCandidates, ExecuteLeaveCandidates, GoOffline, GoOnline, CandidateBondMore, ScheduleCandidateBondLess,
      ExecuteCandidateBondLess, CancelCandidateBondLess, SetValidatorTier, Slash, CandidatesOk, Agree, PoolOk, StashOk,
      Solvent, Moves, SumBy, WrapSub;
    var s := st.nominators[call.n];
    if call.CallScheduleRevoke? || call.CallScheduleDecrease? {
      ScheduleKeeps(cfg, s, st.round, call.c, if call.CallScheduleDecrease? then call.less else 0);
    } else if call.CallCancelRequest? {
      RemoveRequestOk(s, call.c);
      KeepsNominations(s, call.c);
    }
    RequestStep(cfg, st, Step(cfg, st, call).value, call.n);
  }

  lemma SelfCalls(cfg: Config, st: Storage, call: Call)
    requires Valid(cfg, st) && Step(cfg, st, call).Ok?
    requires call.CallScheduleLeaveCandidates? || call.CallCancelLeaveCandidates? || call.CallGoOffline? || call.CallGoOnline?
      || call.CallScheduleBondLess? || call.CallCancelBondLess?
    ensures Valid(cfg, Step(cfg, st, call).value) && Moves(st, Step(cfg, st, call).value, Still)
  {
    hide Valid, Moves, PoolOk, SelfChange, RequestOk, ScheduleLeaveCandidates, CancelLeaveCandidates, GoOffline, GoOnline,
      ScheduleCandidateBondLess, CancelCandidateBondLess;
    if call.c in st.candidates {
      StashFacts(cfg, st, call.c);
    }
    PoolOf(cfg, st);
    match call {
      case CallScheduleLeaveCandidates(c, hint) => SelfExits(cfg, st, c, hint);
      case CallCancelLeaveCandidates(c, hint) => SelfExits(cfg, st, c, hint);
      case CallGoOnline(c) => SelfPool(cfg, st, c);
      case CallGoOffline(c) => SelfPool(cfg, st, c);
      case CallScheduleBondLess(c, less) => SelfBondLess(cfg, st, c, less);
      case CallCancelBondLess(c) => SelfBondLess(cfg, st, c, 0);
    }
    SelfStep(cfg, st, Step(cfg, st, call).value, call.c);
  }

  ghost predicate SelfOk(st: Storage, r: Result<Storage>, c: Account) {
    r.Ok? ==> SelfChange(st, r.value, c)
  }

  lemma SelfExits(cfg: Config, st: Storage, c: Account, hint: nat)
    requires c in st.candidates ==> RequestOk(st.candidates[c])
    ensures SelfOk(st, ScheduleLeaveCandidates(cfg, st, c, hint), c) && SelfOk(st, CancelLeaveCandidates(cfg, st, c, hint), c)
  {
  }

  lemma SelfPool(cfg: Config, st: Storage, c: Account)
    requires c in st.candidates ==> RequestOk(st.candidates[c])
    ensures SelfOk(st, GoOffline(st, c), c) && SelfOk(st, GoOnline(cfg, st, c), c)
  {
  }

  lemma SelfBondLess(cfg: Config, st: Storage, c: Account, less: nat)
    requires PoolOk(st) && (c in st.candidates ==> RequestOk(st.candidates[c]))
    ensures SelfOk(st, ScheduleCandidateBondLess(cfg, st, c, less), c) && SelfOk(st, CancelCandidateBondLess(st, c), c)
  {
    hide PoolOk;
    if c in st.candidates {
      PoolSame(st, c);
    }
  }

  lemma PoolOf(cfg: Config, st: Storage)
    requires Valid(cfg, st)
    ensures PoolOk(st)
  {
    hide CandidatesOk, NominatorsOk, Agree, StashOk, Solvent, PoolOk;
  }

  lemma PoolSame(st: Storage, c: Account)
    requires PoolOk(st) && c in st.candidates
    ensures if st.candidates[c].status.Active? then st.pool == st.pool[c := st.candidates[c].votingPower] else st.pool == st.pool - {c}
  {
  }

  lemma BackgroundSteps(cfg: Config, st: Storage, call: Call)
    requires Valid(cfg, st) && (call.Deposit? || call.NewRound?)
    ensures Valid(cfg, Next(cfg, st, call)) && Moves(st, Next(cfg, st, call), Still)
  {
    hide Inv, LedgerOk, All, SumBy, Nominate, NominatorBondMore, ScheduleNominatorRequest, ExecuteRequest, CancelNominationRequest,
      ScheduleLeaveNominators, CancelLeaveNominators, ExecuteLeaveNominators, JoinCandidates, ExecuteLeaveCandidates,
      CandidateBondMore, ExecuteCandidateBondLess, SetValidatorTier, Slash, ScheduleLeaveCandidates, CancelLeaveCandidates,
      GoOffline, GoOnline, ScheduleCandidateBondLess, CancelCandidateBondLess;
    var st' := Next(cfg, st, call);
    assert Agree(st') by {
      forall n, c, a: nat ensures Lists(st', n, c, a) <==> Records(st', n, c) == Some(a) {
        assert Lists(st, n, c, a) <==> Records(st, n, c) == Some(a);
      }
    }
    forall a: Account ensures Excess(st', a) == Excess(st, a) {}
  }

  /** An accepted execution of a request moves what the request says. */
  lemma ExecuteRequestKeeps(cfg: Config, st: Storage, n: Account, c: Account)
    requires cfg.Valid() && Valid(cfg, st) && ExecuteRequest(cfg, st, n, c).Ok?
    ensures n in st.nominators
    ensures var st' := ExecuteRequest(cfg, st, n, c).value; Valid(cfg, st') && Moves(st, st', RequestFlow(st.nominators[n], n, c))
  {
    hide Valid, Moves, ExecuteRevoke, ExecuteDecrease;
    if st.nominators[n].requests[c].action.Revoke? {
      ExecuteRevokeKeeps(cfg, st, n, c);
    } else {
      ExecuteDecreaseKeeps(cfg, st, n, c);
    }
  }

  /** Every accepted call keeps the invariant, and moves reserves, `Total` and what is at stake by the
      amounts of `FlowOf`; a refused call changes nothing. */
  lemma StepKeeps(cfg: Config, st: Storage, call: Call)
    requires cfg.Valid() && Valid(cfg, st)
    ensures Valid(cfg, Next(cfg, st, call))
    ensures Step(cfg, st, call).Ok? ==> Moves(st, Next(cfg, st, call), FlowOf(cfg, st, call))
    ensures Step(cfg, st, call).Err? ==> Next(cfg, st, call) == st
  {
    hide Valid, Moves, Nominate, NominatorBondMore, ExecuteLeaveNominators, JoinCandidates, ExecuteLeaveCandidates,
      CandidateBondMore, ExecuteCandidateBondLess, SetValidatorTier, Slash, ExecuteRequest, Evictee, RequestFlow, Sum;
    if Step(cfg, st, call).Ok? {
      match call
      case CallNominate(n, c, amount, h, hint) => NominateKeeps(cfg, st, n, c, amount, h, hint);
      case CallNominatorBondMore(n, c, more) => NominatorBondMoreKeeps(cfg, st, n, c, more);
      case CallExecuteRequest(n, c) => ExecuteRequestKeeps(cfg, st, n, c);
      case CallExecuteLeaveNominators(n, hint) => ExecuteLeaveNominatorsKeeps(cfg, st, n, hint);
      case CallJoin(stash, c, relayer, bond, hint) => JoinKeeps(cfg, st, stash, c, relayer, bond, hint);
      case CallExecuteLeaveCandidates(stash, hint) => ExecuteLeaveCandidatesKeeps(cfg, st, stash, hint);
      case CallCandidateBondMore(stash, more) => CandidateBondMoreKeeps(cfg, st, stash, more);
      case CallExecuteBondLess(stash) => ExecuteBondLessKeeps(cfg, st, stash);
      case CallSetTier(stash, more, tier, relayer) => SetValidatorTierKeeps(cfg, st, stash, more, tier, relayer);
      case Offence(c, amount) => SlashKeeps(cfg, st, c, amount);
      case Deposit(_, _) => BackgroundSteps(cfg, st, call);
      case NewRound => BackgroundSteps(cfg, st, call);
      case CallScheduleRevoke(_, _) => RequestCalls(cfg, st, call);
      case CallScheduleDecrease(_, _, _) => RequestCalls(cfg, st, call);
      case CallCancelRequest(_, _) => RequestCalls(cfg, st, call);
      case CallScheduleLeaveNominators(_) => RequestCalls(cfg, st, call);
      case CallCancelLeaveNominators(_) => RequestCalls(cfg, st, call);
      case _ => SelfCalls(cfg, st, call);
    }
  }
}
