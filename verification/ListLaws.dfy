/** The two lists after every operation on a candidate, by direct lookup and stable sorting: the fast paths
    over cached amounts and positions give exactly these lists, ties included. */
module ListLaws {
  import opened Wrappers
  import opened Bonds
  import opened Candidates
  import opened CandidateLaws

  /** A top list and a bottom list. */
  datatype TwoLists = TwoLists(top: seq<Bond>, bottom: seq<Bond>)

  ghost function ListsOf(c: Candidate): TwoLists {
    TwoLists(c.top.nominations, c.bottom.nominations)
  }

  ghost predicate SomewhereIn(l: seq<Bond>, n: Account) {
    exists a: nat :: Bond(n, a) in l
  }

  /** `l` sorted with `b` appended: among equal amounts `b` comes last. */
  function With(l: seq<Bond>, b: Bond): seq<Bond> {
    StableSort(l + [b])
  }

  /** `l` with one place free. */
  function RoomIn(l: seq<Bond>, max: nat): seq<Bond> {
    if |l| < max || l == [] then l else l[..|l| - 1]
  }

  function AfterAdd(cfg: Config, l: TwoLists, b: Bond): TwoLists {
    var k := |l.top| - 1;
    if |l.top| < cfg.maxTop || l.top == [] then TwoLists(With(l.top, b), l.bottom)
    else if b.amount > l.top[k].amount then TwoLists(With(l.top[..k], b), With(RoomIn(l.bottom, cfg.maxBottom), l.top[k]))
    else TwoLists(l.top, With(RoomIn(l.bottom, cfg.maxBottom), b))
  }

  ghost function AfterRemoval(l: TwoLists, n: Account): TwoLists {
    if !SomewhereIn(l.top, n) then TwoLists(l.top, Without(l.bottom, n))
    else if l.bottom == [] then TwoLists(Without(l.top, n), [])
    else TwoLists(With(Without(l.top, n), l.bottom[0]), l.bottom[1..])
  }

  ghost function AfterIncrease(l: TwoLists, n: Account, a: nat, more: nat): TwoLists {
    var k := |l.top| - 1;
    if SomewhereIn(l.top, n) || l.top == [] then TwoLists(StableSort(Shift(l.top, n, more)), l.bottom)
    else if a + more > l.top[k].amount then TwoLists(With(l.top[..k], Bond(n, a + more)), With(Without(l.bottom, n), l.top[k]))
    else TwoLists(l.top, StableSort(Shift(l.bottom, n, more)))
  }

  ghost function AfterDecrease(l: TwoLists, n: Account, a: nat, less: nat): TwoLists
    requires less <= a
  {
    var d := -(less as int);
    if !SomewhereIn(l.top, n) then TwoLists(l.top, StableSort(Shift(l.bottom, n, d)))
    else if l.bottom == [] || a - less >= l.bottom[0].amount then TwoLists(StableSort(Shift(l.top, n, d)), l.bottom)
    else TwoLists(With(Without(l.top, n), l.bottom[0]), With(l.bottom[1..], Bond(n, a - less)))
  }

  // ----- the operations give these lists

  lemma Appended(l: seq<Bond>, b: Bond)
    requires Sorted(l)
    ensures Insert(l, b) == With(l, b)
  {
    InsertIsStable(l, b);
    StableSortIsStable(l + [b]);
    StableSortUnique(Insert(l, b), StableSort(l + [b]));
  }

  /** What holds of both lists. */
  lemma ListFacts(cfg: Config, c: Candidate)
    requires cfg.Valid() && Inv(cfg, c)
    ensures var t, b := c.top.nominations, c.bottom.nominations;
      && Sorted(t) && Sorted(b) && |t| <= cfg.maxTop && |b| <= cfg.maxBottom && (b != [] ==> |t| == cfg.maxTop)
      && (c.topCapacity.Full? <==> |t| == cfg.maxTop) && (c.bottomCapacity.Full? <==> |b| == cfg.maxBottom)
      && (c.bottomCapacity.Empty? <==> b == [])
      && c.lowestTop == Lowest(c.top) && c.lowestBottom == Lowest(c.bottom) && c.highestBottom == Highest(c.bottom)
    ensures forall k :: 0 <= k <= |c.top.nominations| ==> Sorted(c.top.nominations[..k])
    ensures forall k :: 0 <= k <= |c.bottom.nominations| ==> Sorted(c.bottom.nominations[..k]) && Sorted(c.bottom.nominations[k..])
  {
    hide OneEach, Sum;
  }

  lemma AddedLists(cfg: Config, c: Candidate, b: Bond)
    requires cfg.Valid() && Inv(cfg, c) && AddNomination(cfg, c, b).Ok?
    ensures ListsOf(AddNomination(cfg, c, b).value.candidate) == AfterAdd(cfg, ListsOf(c), b)
  {
    hide Inv, Insert, StableSort, Sorted, With, Sum;
    ListFacts(cfg, c);
    var t, l := c.top.nominations, c.bottom.nominations;
    Appended(t, b);
    Appended(l, b);
    if t != [] {
      Appended(t[..|t| - 1], b);
      Appended(l, t[|t| - 1]);
    }
    if l != [] {
      Appended(l[..|l| - 1], b);
      if t != [] {
        Appended(l[..|l| - 1], t[|t| - 1]);
      }
    }
  }

  /** A nominator is in the list that holds its bond and in no other. */
  lemma WhereIs(cfg: Config, c: Candidate, n: Account, a: nat)
    requires cfg.Valid() && Inv(cfg, c) && Bond(n, a) in All(c)
    ensures SomewhereIn(c.top.nominations, n) <==> Bond(n, a) in c.top.nominations
    ensures c.top.nominations != []
    ensures SomewhereIn(c.top.nominations, n) ==> Held(c.top.nominations, n) == Some(a)
    ensures !SomewhereIn(c.top.nominations, n) ==> Held(c.bottom.nominations, n) == Some(a)
  {
    hide Inv, All, Held;
    CachesLocate(cfg, c, n, a);
    HeldFacts(c.top.nominations, n);
    ListFacts(cfg, c);
    if Bond(n, a) in c.top.nominations {
      TopHeldIn(cfg, c, n, a);
    } else {
      HeldIn(cfg, c, n, a);
    }
  }

  lemma WithoutSorts(l: seq<Bond>, n: Account)
    requires Sorted(l)
    ensures Sorted(Without(l, n))
  {
    WithoutSorted(l, n);
  }

  lemma RemovedLists(cfg: Config, c: Candidate, n: Account, a: nat)
    requires cfg.Valid() && Inv(cfg, c) && Bond(n, a) in All(c)
    ensures RmIfExists(cfg, c, n, a).Ok?
    ensures ListsOf(RmIfExists(cfg, c, n, a).value.0) == AfterRemoval(ListsOf(c), n)
  {
    hide Inv, Insert, StableSort, Sorted, With, Sum, All, Becomes, RmIfExists, SomewhereIn, Without, Held, Drift;
    RmRefinesLookup(cfg, c, n, a);
    ListFacts(cfg, c);
    WhereIs(cfg, c, n, a);
    WithoutSorts(c.top.nominations, n);
    if c.bottom.nominations != [] {
      Appended(Without(c.top.nominations, n), c.bottom.nominations[0]);
    }
  }

  lemma IncreasedLists(cfg: Config, c: Candidate, n: Account, a: nat, more: nat)
    requires cfg.Valid() && Inv(cfg, c) && Bond(n, a) in All(c)
    ensures Increase(cfg, c, n, a, more).Ok?
    ensures ListsOf(Increase(cfg, c, n, a, more).value.0) == AfterIncrease(ListsOf(c), n, a, more)
  {
    hide Inv, Insert, StableSort, Sorted, With, Sum, All, Becomes, Increase, SomewhereIn, Without, Held, Drift, Shift;
    IncreaseRefinesLookup(cfg, c, n, a, more);
    ListFacts(cfg, c);
    WhereIs(cfg, c, n, a);
    CachesLocate(cfg, c, n, a);
    var t := c.top.nominations;
    var k := |t| - 1;
    WithoutSorts(c.bottom.nominations, n);
    Appended(t[..k], Bond(n, a + more));
    Appended(Without(c.bottom.nominations, n), t[k]);
  }

  lemma DecreasedLists(cfg: Config, c: Candidate, n: Account, a: nat, less: nat)
    requires cfg.Valid() && Inv(cfg, c) && Bond(n, a) in All(c) && less <= a
    ensures Decrease(cfg, c, n, a, less).Ok?
    ensures ListsOf(Decrease(cfg, c, n, a, less).value.0) == AfterDecrease(ListsOf(c), n, a, less)
  {
    hide Inv, Insert, StableSort, Sorted, With, Sum, All, Becomes, Decrease, SomewhereIn, Without, Held, Drift, Shift;
    DecreaseRefinesLookup(cfg, c, n, a, less);
    ListFacts(cfg, c);
    WhereIs(cfg, c, n, a);
    var t, b := c.top.nominations, c.bottom.nominations;
    WithoutSorts(t, n);
    if b != [] {
      Appended(Without(t, n), b[0]);
      Appended(b[1..], Bond(n, a - less));
    }
  }
}
