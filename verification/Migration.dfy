/** The fifth storage migration: under new capacities it folds every candidate's bottom list into its
    top list. */
module Migration {
  import opened Wrappers
  import opened Bonds
  import opened Candidates
  import opened CandidateLaws
  import opened Nominators
  import opened MapSums
  import opened Staking
  import opened StakingLaws

  /** Adds the bonds to the top list one after the other; a failed addition is only logged. */
  function AddEach(cfg: Config, c: Candidate, bonds: seq<Bond>): Candidate
    decreases bonds
  {
    if bonds == [] then c
    else AddEach(cfg, match AddTop(cfg, c, bonds[0]) case Ok(r) => r.candidate case Err(_) => c, bonds[1..])
  }

  function Migrate(cfg: Config, c: Candidate): Candidate {
    if c.bottom.nominations == [] then c
    else
      var c1 := AddEach(cfg, c, c.bottom.nominations);
      ResetBottom(cfg, c1.(count := |c1.top.nominations|), NoNominations)
  }

  /** The migration of one candidate, bond by bond. */
  method MigrateCandidate(cfg: Config, c: Candidate) returns (r: Candidate)
    ensures r == Migrate(cfg, c)
  {
    r := c;
    if c.bottom.nominations != [] {
      var bonds := c.bottom.nominations;
      var i := 0;
      while i < |bonds|
        invariant 0 <= i <= |bonds|
        invariant AddEach(cfg, r, bonds[i..]) == AddEach(cfg, c, bonds)
      {
        assert bonds[i..][0] == bonds[i] && bonds[i..][1..] == bonds[i + 1..];
        match AddTop(cfg, r, bonds[i]) {
          case Ok(added) => r := added.candidate;
          case Err(_) =>
        }
        i := i + 1;
      }
      assert bonds[i..] == [];
      r := r.(count := |r.top.nominations|);
      r := ResetBottom(cfg, r, NoNominations);
    }
  }

  // ----- what the fold does to the top list

  /** One addition below the capacity, or beyond it. */
  lemma AddTopPlain(cfg: Config, c: Candidate, b: Bond)
    requires |c.top.nominations| != cfg.maxTop
    ensures AddTop(cfg, c, b).Ok?
    ensures var c' := AddTop(cfg, c, b).value.candidate;
      && c'.top == InsertInto(c.top, b) && c'.bottom == c.bottom && SameSelf(c, c')
      && c'.lowestTop == Lowest(c'.top) && c'.topCapacity == CapacityOf(c'.top, cfg.maxTop)
      && c'.votingPower == c'.bond + c'.top.total
  {
    hide Insert;
  }

  /** Inserting a bond no larger than any other appends it. */
  lemma {:induction false} InsertLast(l: seq<Bond>, b: Bond)
    requires forall x :: x in l ==> x.amount >= b.amount
    ensures Insert(l, b) == l + [b]
  {
    if l != [] {
      assert l == [l[0]] + l[1..];
      InsertLast(l[1..], b);
    }
  }

  /** The top list was reset from the nominations it holds. */
  ghost predicate TopFresh(cfg: Config, c: Candidate) {
    && c.lowestTop == Lowest(c.top) && c.topCapacity == CapacityOf(c.top, cfg.maxTop)
    && c.votingPower == c.bond + c.top.total && c.top.total == Sum(c.top.nominations)
  }

  /** With room for all, the fold appends the bonds to the top list in their order. */
  lemma {:induction false} AddEachAppends(cfg: Config, c: Candidate, bonds: seq<Bond>)
    requires |c.top.nominations| + |bonds| <= cfg.maxTop && Sorted(c.top.nominations + bonds)
    requires c.top.total == Sum(c.top.nominations)
    ensures var c' := AddEach(cfg, c, bonds);
      && c'.top.nominations == c.top.nominations + bonds && SameSelf(c, c')
      && (bonds != [] || TopFresh(cfg, c) ==> TopFresh(cfg, c'))
    decreases bonds
  {
    hide Insert, Sum;
    var t := c.top.nominations;
    if bonds == [] {
      assert t + bonds == t;
    } else {
      var b := bonds[0];
      var u: seq<Bond> := t + bonds;
      forall x | x in t ensures x.amount >= b.amount {
        var i :| 0 <= i < |t| && t[i] == x;
        assert u[i] == x && u[|t|] == b;
      }
      InsertLast(t, b);
      InsertFacts(t, b);
      AddTopPlain(cfg, c, b);
      var c1 := AddTop(cfg, c, b).value.candidate;
      assert c1.top.nominations + bonds[1..] == u;
      AddEachAppends(cfg, c1, bonds[1..]);
    }
  }

  /** How many nominations the fold leaves in the top list. */
  lemma {:induction false} AddEachSize(cfg: Config, c: Candidate, bonds: seq<Bond>)
    requires cfg.Valid()
    ensures var t := |c.top.nominations|;
      |AddEach(cfg, c, bonds).top.nominations| ==
        if t > cfg.maxTop || t + |bonds| <= cfg.maxTop then t + |bonds| else cfg.maxTop
    decreases bonds
  {
    hide Insert;
    if bonds != [] {
      AddTopSize(cfg, c, bonds[0]);
      AddEachSize(cfg, AddTop(cfg, c, bonds[0]).value.candidate, bonds[1..]);
    }
  }

  lemma AddTopSize(cfg: Config, c: Candidate, b: Bond)
    requires cfg.Valid()
    ensures AddTop(cfg, c, b).Ok?
    ensures |AddTop(cfg, c, b).value.candidate.top.nominations| ==
      |c.top.nominations| + if |c.top.nominations| == cfg.maxTop then 0 else 1
  {
    InsertFacts(c.top.nominations, b);
    if c.top.nominations != [] {
      InsertFacts(Pop(c.top).nominations, b);
    }
  }

  /** While nothing is pushed out, the fold adds exactly the bonds. */
  lemma {:induction false} AddEachCollects(cfg: Config, c: Candidate, bonds: seq<Bond>)
    requires |c.top.nominations| > cfg.maxTop || |c.top.nominations| + |bonds| <= cfg.maxTop
    ensures multiset(AddEach(cfg, c, bonds).top.nominations) == multiset(c.top.nominations) + multiset(bonds)
    decreases bonds
  {
    hide Insert;
    if bonds != [] {
      InsertFacts(c.top.nominations, bonds[0]);
      AddTopPlain(cfg, c, bonds[0]);
      AddEachCollects(cfg, AddTop(cfg, c, bonds[0]).value.candidate, bonds[1..]);
      FirstOut(bonds);
    }
  }

  // ----- one candidate

  /** The migration loses no nomination of a candidate exactly when there is nothing to fold, or all
      fit into the new top list, or the top list already exceeds its new capacity. */
  lemma MigrationLosesNothing(cfg: Config, c: Candidate)
    requires cfg.Valid()
    ensures All(Migrate(cfg, c)) == All(c) <==>
      var t, b := |c.top.nominations|, |c.bottom.nominations|;
      b == 0 || t + b <= cfg.maxTop || t > cfg.maxTop
  {
    hide AddEach;
    var t, b := c.top.nominations, c.bottom.nominations;
    var c' := Migrate(cfg, c);
    if b != [] {
      AddEachSize(cfg, c, b);
      if |t| + |b| <= cfg.maxTop || |t| > cfg.maxTop {
        AddEachCollects(cfg, c, b);
      } else {
        assert |All(c')| == |c'.top.nominations| && |All(c)| == |t| + |b|;
      }
    }
  }

  /** A candidate with a bottom list that fits comes out with the sorted union of both lists on top, an
      empty bottom list, no gap, every nomination counted in its voting power, and the invariant under
      the new capacities. */
  lemma MigratedFolded(prior: Config, cfg: Config, c: Candidate)
    requires prior.Valid() && cfg.Valid() && Inv(prior, c) && c.bottom.nominations != []
    requires |c.top.nominations| + |c.bottom.nominations| <= cfg.maxTop
    ensures var c' := Migrate(cfg, c);
      && c'.top.nominations == c.top.nominations + c.bottom.nominations
      && c'.top.nominations == StableSort(c.top.nominations + c.bottom.nominations)
      && c'.bottom == NoNominations && Drift(c') == 0 && Becomes(cfg, c, c', All(c))
      && c'.votingPower == c.bond + Sum(c.top.nominations) + Sum(c.bottom.nominations)
  {
    hide AddEach, Insert, StableSort, Sum, OneEach;
    var t, b := c.top.nominations, c.bottom.nominations;
    var u: seq<Bond> := t + b;
    forall i, j | 0 <= i < j < |u| ensures u[i].amount >= u[j].amount {
      if i < |t| <= j {
        assert Across(t, b, u[i], u[j]);
      }
    }
    AddEachAppends(cfg, c, b);
    SortSorted(u);
    SumConcat(t, b);
    NoSum();
    assert multiset(u) == All(c);
    assert multiset(u) + multiset([]) == All(c);
  }

  lemma NoSum()
    ensures Sum([]) == 0
  {
  }

  /** A candidate without a bottom list is left as it is, with the capacity status of the old limits. So
      the invariant holds under the new limits exactly when its top list fits and was full before if
      and only if it is full now. */
  lemma MigratedUntouched(prior: Config, cfg: Config, c: Candidate)
    requires prior.Valid() && cfg.Valid() && Inv(prior, c) && c.bottom.nominations == []
    ensures Migrate(cfg, c) == c
    ensures Inv(cfg, c) <==>
      |c.top.nominations| <= cfg.maxTop && (|c.top.nominations| == prior.maxTop <==> |c.top.nominations| == cfg.maxTop)
  {
  }

  /** What goes wrong otherwise: a candidate whose top list was full and now has room takes the next
      nomination that is no larger than its lowest into the bottom list, where it counts for nothing. */
  lemma MigratedStale(prior: Config, cfg: Config, c: Candidate, b: Bond)
    requires prior.Valid() && cfg.Valid() && Inv(prior, c) && c.bottom.nominations == []
    requires |c.top.nominations| == prior.maxTop < cfg.maxTop && b.amount <= c.lowestTop
    ensures AddNomination(cfg, Migrate(cfg, c), b).Ok?
    ensures var r := AddNomination(cfg, Migrate(cfg, c), b).value;
      && !r.toTop && r.candidate.votingPower == c.votingPower && b in r.candidate.bottom.nominations
      && |r.candidate.top.nominations| < cfg.maxTop && !Inv(cfg, r.candidate)
  {
    InsertFacts([], b);
    assert b in multiset(Insert([], b));
  }

  /** The candidate can be migrated without loss and ends up with the invariant. */
  predicate Migratable(prior: Config, cfg: Config, c: Candidate) {
    var t, b := |c.top.nominations|, |c.bottom.nominations|;
    t + b <= cfg.maxTop && (b == 0 ==> (t == prior.maxTop <==> t == cfg.maxTop))
  }

  /** Under the old invariant, the migration keeps all nominations and establishes the invariant under
      the new capacities if and only if the candidate is migratable. */
  lemma MigrationIff(prior: Config, cfg: Config, c: Candidate)
    requires prior.Valid() && cfg.Valid() && Inv(prior, c)
    ensures Inv(cfg, Migrate(cfg, c)) && All(Migrate(cfg, c)) == All(c) <==> Migratable(prior, cfg, c)
    ensures Migratable(prior, cfg, c) ==> SameSelf(c, Migrate(cfg, c))
  {
    hide AddEach, Shape, Cached, Sum;
    MigrationLosesNothing(cfg, c);
    if c.bottom.nominations == [] {
      MigratedUntouched(prior, cfg, c);
    } else if |c.top.nominations| + |c.bottom.nominations| <= cfg.maxTop {
      MigratedFolded(prior, cfg, c);
    } else {
      AddEachSize(cfg, c, c.bottom.nominations);
      TopWithin(cfg, Migrate(cfg, c));
    }
  }

  lemma TopWithin(cfg: Config, c: Candidate)
    ensures Inv(cfg, c) ==> |c.top.nominations| <= cfg.maxTop
  {
  }

  // ----- the whole pallet

  ghost function MigrateAll(cfg: Config, st: Storage): Storage {
    st.(candidates := map c | c in st.candidates :: Migrate(cfg, st.candidates[c]),
        pool := map c | c in st.pool :: if c in st.candidates then Migrate(cfg, st.candidates[c]).votingPower else st.pool[c])
  }

  /** If every candidate is migratable, the migration takes a storage that satisfies the invariant under
      the old capacities to one that satisfies it under the new ones, and moves no money. */
  lemma MigrateAllKeeps(prior: Config, cfg: Config, st: Storage)
    requires prior.Valid() && cfg.Valid() && Valid(prior, st)
    requires forall c :: c in st.candidates ==> Migratable(prior, cfg, st.candidates[c])
    ensures Valid(cfg, MigrateAll(cfg, st))
    ensures forall a: Account :: Excess(MigrateAll(cfg, st), a) == Excess(st, a)
    ensures Backing(MigrateAll(cfg, st)) == Backing(st)
  {
    hide Inv, NominatorsOk, Agree, PoolOk, StashOk, MigrateAll, Backing, Excess, Kept, Migratable;
    var st' := MigrateAll(cfg, st);
    EachKept(prior, cfg, st);
    MigratedPlaces(cfg, st, st');
    MigratedAgrees(cfg, st, st');
    MigratedExcess(cfg, st, st');
    MigratedBacking(cfg, st, st');
  }

  /** Every candidate keeps its nominations and itself, and satisfies the invariant; nothing else changes
      but the pool, which follows. */
  ghost predicate Kept(cfg: Config, st: Storage, st': Storage) {
    && st'.candidates.Keys == st.candidates.Keys && st'.pool.Keys == st.pool.Keys
    && st' == st.(candidates := st'.candidates, pool := st'.pool)
    && (forall c :: c in st.candidates ==>
         && Inv(cfg, st'.candidates[c]) && All(st'.candidates[c]) == All(st.candidates[c])
         && SameSelf(st.candidates[c], st'.candidates[c]))
    && (forall c :: c in st.pool && c in st'.candidates ==> st'.pool[c] == st'.candidates[c].votingPower)
  }

  lemma EachKept(prior: Config, cfg: Config, st: Storage)
    requires prior.Valid() && cfg.Valid() && CandidatesOk(prior, st)
    requires forall c :: c in st.candidates ==> Migratable(prior, cfg, st.candidates[c])
    ensures Kept(cfg, st, MigrateAll(cfg, st))
  {
    hide Inv, Migrate, All, Migratable, SameSelf;
    forall c | c in st.candidates
      ensures Inv(cfg, Migrate(cfg, st.candidates[c])) && All(Migrate(cfg, st.candidates[c])) == All(st.candidates[c])
      ensures SameSelf(st.candidates[c], Migrate(cfg, st.candidates[c]))
    {
      MigrationIff(prior, cfg, st.candidates[c]);
    }
  }

  lemma MigratedPlaces(cfg: Config, st: Storage, st': Storage)
    requires Kept(cfg, st, st') && NominatorsOk(st) && PoolOk(st) && StashOk(st)
    requires forall c :: c in st.candidates ==> RequestOk(st.candidates[c])
    ensures CandidatesOk(cfg, st') && NominatorsOk(st') && PoolOk(st') && StashOk(st')
  {
    hide Inv, All, LedgerOk;
  }

  lemma MigratedAgrees(cfg: Config, st: Storage, st': Storage)
    requires Kept(cfg, st, st') && Agree(st)
    ensures Agree(st')
  {
    hide Inv, All, SameSelf;
    forall n, c, a: nat ensures Lists(st', n, c, a) <==> Records(st', n, c) == Some(a) {
      assert Lists(st, n, c, a) <==> Records(st, n, c) == Some(a);
      assert Lists(st', n, c, a) == Lists(st, n, c, a);
    }
  }

  lemma MigratedExcess(cfg: Config, st: Storage, st': Storage)
    requires Kept(cfg, st, st')
    ensures forall a: Account :: Excess(st', a) == Excess(st, a)
  {
    hide Inv, All;
    forall a: Account ensures Excess(st', a) == Excess(st, a) {}
  }

  lemma MigratedBacking(cfg: Config, st: Storage, st': Storage)
    requires Kept(cfg, st, st')
    ensures Backing(st') == Backing(st)
  {
    hide Inv, All, Sum, SumBy;
    forall c | c in st.candidates ensures BackingOf(st'.candidates[c]) == BackingOf(st.candidates[c]) {
      BackingMoves(st.candidates[c], st'.candidates[c], [], []);
    }
    SumByBelow(st.candidates, BackingOf, st'.candidates, BackingOf);
    SumByBelow(st'.candidates, BackingOf, st.candidates, BackingOf);
  }
}
