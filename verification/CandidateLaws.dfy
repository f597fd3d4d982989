/** The candidate invariant, what every nomination operation does to the candidate's nominations
    taken as one collection, and that choosing a list from cached amounts alone is sound. */
module CandidateLaws {
  import opened Wrappers
  import opened Bonds
  import opened Candidates

  /** All nominations of the candidate, whichever list holds them. */
  ghost function All(c: Candidate): multiset<Bond> {
    multiset(c.top.nominations) + multiset(c.bottom.nominations)
  }

  ghost predicate Shape(cfg: Config, t: seq<Bond>, b: seq<Bond>) {
    && Sorted(t) && Sorted(b) && Above(t, b)
    && |t| <= cfg.maxTop && |b| <= cfg.maxBottom
    && (b != [] ==> |t| == cfg.maxTop)
    && OneEach(multiset(t) + multiset(b))
  }

  ghost predicate Cached(cfg: Config, c: Candidate) {
    && c.lowestTop == Lowest(c.top)
    && c.highestBottom == Highest(c.bottom)
    && c.lowestBottom == Lowest(c.bottom)
    && c.topCapacity == CapacityOf(c.top, cfg.maxTop)
    && c.bottomCapacity == CapacityOf(c.bottom, cfg.maxBottom)
    && c.count == |c.top.nominations| + |c.bottom.nominations|
    && c.votingPower == c.bond + Sum(c.top.nominations)
  }

  /** The candidate invariant. The recorded total of the bottom list may exceed its sum: see `Drift`. */
  ghost predicate Inv(cfg: Config, c: Candidate) {
    && Shape(cfg, c.top.nominations, c.bottom.nominations)
    && Cached(cfg, c)
    && c.top.total == Sum(c.top.nominations)
    && c.bottom.total >= Sum(c.bottom.nominations)
  }

  /** How much the recorded bottom total overstates the bottom nominations. */
  ghost function Drift(c: Candidate): int {
    c.bottom.total - Sum(c.bottom.nominations)
  }

  /** `c'` differs from `c` in its nominations and what is cached about them, and in nothing else. */
  ghost predicate SameSelf(c: Candidate, c': Candidate) {
    c'.stash == c.stash && c'.bond == c.bond && c'.request == c.request && c'.status == c.status && c'.tier == c.tier
  }

  /** An operation that turned the nominations of `c` into `all` and kept the invariant. */
  ghost predicate Becomes(cfg: Config, c: Candidate, c': Candidate, all: multiset<Bond>) {
    Inv(cfg, c') && All(c') == all && SameSelf(c, c')
  }

  lemma NewCandidateInv(cfg: Config, stash: Account, bond: nat, tier: Tier)
    requires cfg.Valid()
    ensures Inv(cfg, NewCandidate(stash, bond, tier)) && All(NewCandidate(stash, bond, tier)) == multiset{}
    ensures Drift(NewCandidate(stash, bond, tier)) == 0
  {
  }

  // ----- the two lists as sequences

  /** Two sorted lists on either side of a pivot amount, within capacity, are well shaped. */
  lemma Shaped(cfg: Config, t: seq<Bond>, b: seq<Bond>, pivot: nat, all: multiset<Bond>)
    requires Sorted(t) && Sorted(b)
    requires forall x :: x in t ==> x.amount >= pivot
    requires forall y :: y in b ==> y.amount <= pivot
    requires |t| <= cfg.maxTop && |b| <= cfg.maxBottom && (b != [] ==> |t| == cfg.maxTop)
    requires multiset(t) + multiset(b) == all && OneEach(all)
    ensures Shape(cfg, t, b)
  {
  }

  lemma InsertMembers(l: seq<Bond>, b: Bond)
    ensures forall x :: x in Insert(l, b) <==> x in l || x == b
  {
    InsertFacts(l, b);
    forall x ensures x in Insert(l, b) <==> x in l || x == b {
      assert x in multiset(Insert(l, b)) <==> x in multiset(l) || x == b;
    }
  }

  /** The lowest top amount separates the lists. */
  lemma Pivot(cfg: Config, t: seq<Bond>, b: seq<Bond>)
    requires Shape(cfg, t, b) && t != []
    ensures forall x :: x in t ==> x.amount >= t[|t| - 1].amount
    ensures forall y :: y in b ==> y.amount <= t[|t| - 1].amount
  {
    SortedEnds(t);
    forall y | y in b ensures y.amount <= t[|t| - 1].amount {
      assert Across(t, b, t[|t| - 1], y);
    }
  }

  lemma ShapeAddTop(cfg: Config, t: seq<Bond>, x: Bond)
    requires Shape(cfg, t, []) && |t| < cfg.maxTop && !Owns(multiset(t), x.owner)
    ensures Shape(cfg, Insert(t, x), [])
  {
    InsertFacts(t, x);
    OneEachAdd(multiset(t) + multiset([]), x);
    Shaped(cfg, Insert(t, x), [], 0, multiset(t) + multiset([]) + multiset{x});
  }

  lemma ShapeAddBottom(cfg: Config, t: seq<Bond>, b: seq<Bond>, x: Bond)
    requires Shape(cfg, t, b) && |t| == cfg.maxTop >= 1 && |b| < cfg.maxBottom
    requires x.amount <= t[|t| - 1].amount && !Owns(multiset(t) + multiset(b), x.owner)
    ensures Shape(cfg, t, Insert(b, x))
  {
    InsertFacts(b, x);
    InsertMembers(b, x);
    Pivot(cfg, t, b);
    OneEachAdd(multiset(t) + multiset(b), x);
    Shaped(cfg, t, Insert(b, x), t[|t| - 1].amount, multiset(t) + multiset(b) + multiset{x});
  }

  lemma PushDownFacts(t: seq<Bond>, b: seq<Bond>, x: Bond)
    requires t != []
    ensures var k := |t| - 1;
      && multiset(Insert(t[..k], x)) + multiset(Insert(b, t[k])) == multiset(t) + multiset(b) + multiset{x}
      && |Insert(t[..k], x)| == |t| && |Insert(b, t[k])| == |b| + 1
      && Sum(Insert(t[..k], x)) == Sum(t) - t[k].amount + x.amount
      && Sum(Insert(b, t[k])) == Sum(b) + t[k].amount
  {
    LastOut(t);
    InsertFacts(t[..|t| - 1], x);
    InsertFacts(b, t[|t| - 1]);
  }

  /** A larger bond enters the full top list and pushes the lowest one down. */
  lemma ShapePushDown(cfg: Config, t: seq<Bond>, b: seq<Bond>, x: Bond)
    requires Shape(cfg, t, b) && |t| == cfg.maxTop >= 1 && |b| < cfg.maxBottom
    requires x.amount > t[|t| - 1].amount && !Owns(multiset(t) + multiset(b), x.owner)
    ensures var k := |t| - 1; Shape(cfg, Insert(t[..k], x), Insert(b, t[k]))
  {
    var k := |t| - 1;
    SortedEnds(t);
    LastOut(t);
    InsertFacts(t[..k], x);
    InsertMembers(t[..k], x);
    InsertFacts(b, t[k]);
    InsertMembers(b, t[k]);
    Pivot(cfg, t, b);
    OneEachAdd(multiset(t) + multiset(b), x);
    Shaped(cfg, Insert(t[..k], x), Insert(b, t[k]), t[k].amount, multiset(t) + multiset(b) + multiset{x});
  }

  /** The lowest bottom bond leaves. */
  lemma ShapeDropLowest(cfg: Config, t: seq<Bond>, b: seq<Bond>)
    requires Shape(cfg, t, b) && b != [] && t != []
    ensures Shape(cfg, t, b[..|b| - 1])
  {
    var k := |b| - 1;
    SortedEnds(b);
    LastOut(b);
    Pivot(cfg, t, b);
    OneEachTake(multiset(t) + multiset(b), b[k]);
    Shaped(cfg, t, b[..k], t[|t| - 1].amount, multiset(t) + multiset(b) - multiset{b[k]});
  }

  lemma ShapeRmTop(cfg: Config, t: seq<Bond>, n: Account, a: nat)
    requires Shape(cfg, t, []) && Bond(n, a) in t
    ensures Shape(cfg, Without(t, n), [])
  {
    TopOnce(cfg, t, [], n, a);
    WithoutFacts(t, n, a);
    WithoutSorted(t, n);
    OneEachTake(multiset(t) + multiset([]), Bond(n, a));
    Shaped(cfg, Without(t, n), [], 0, multiset(t) + multiset([]) - multiset{Bond(n, a)});
  }

  lemma TopOnce(cfg: Config, t: seq<Bond>, b: seq<Bond>, n: Account, a: nat)
    requires Shape(cfg, t, b) && Bond(n, a) in t
    ensures Once(t, n, a) && Held(t, n) == Some(a) && Held(b, n).None?
  {
    OneEachPart(multiset(t), multiset(b));
    OnceIn(t, n, a);
    HeldIs(t, n, a);
    HeldFacts(b, n);
    if Held(b, n).Some? {
      SplitOwner(t, b, Bond(n, a), Bond(n, Held(b, n).value));
    }
  }

  lemma BottomOnce(cfg: Config, t: seq<Bond>, b: seq<Bond>, n: Account, a: nat)
    requires Shape(cfg, t, b) && Bond(n, a) in b
    ensures Once(b, n, a) && Held(b, n) == Some(a) && Held(t, n).None?
  {
    OneEachPart(multiset(t), multiset(b));
    OnceIn(b, n, a);
    HeldIs(b, n, a);
    HeldFacts(t, n);
    if Held(t, n).Some? {
      SplitOwner(t, b, Bond(n, Held(t, n).value), Bond(n, a));
    }
  }

  lemma SplitOwner(t: seq<Bond>, b: seq<Bond>, x: Bond, y: Bond)
    requires OneEach(multiset(t) + multiset(b)) && x in t && y in b
    ensures x.owner != y.owner
  {
    var m := multiset(t) + multiset(b);
    assert x in multiset(t) && y in multiset(b);
    assert x.owner == y.owner ==> SameOwner(m, x, y);
  }

  /** A top bond leaves and the highest bottom bond takes its place. */
  lemma ShapePullUp(cfg: Config, t: seq<Bond>, b: seq<Bond>, n: Account, a: nat)
    requires Shape(cfg, t, b) && Bond(n, a) in t && b != []
    ensures Shape(cfg, Insert(Without(t, n), b[0]), b[1..])
  {
    var t1 := Without(t, n);
    var t' := Insert(t1, b[0]);
    TopOnce(cfg, t, b, n, a);
    WithoutFacts(t, n, a);
    WithoutSorted(t, n);
    InsertFacts(t1, b[0]);
    InsertMembers(t1, b[0]);
    SortedEnds(b);
    FirstOut(b);
    Pivot(cfg, t, b);
    OneEachTake(multiset(t) + multiset(b), Bond(n, a));
    forall x | x in t' ensures x.amount >= b[0].amount {}
    Shaped(cfg, t', b[1..], b[0].amount, multiset(t) + multiset(b) - multiset{Bond(n, a)});
  }

  lemma ShapeRmBottom(cfg: Config, t: seq<Bond>, b: seq<Bond>, n: Account, a: nat)
    requires Shape(cfg, t, b) && Bond(n, a) in b && t != []
    ensures Shape(cfg, t, Without(b, n))
  {
    BottomOnce(cfg, t, b, n, a);
    WithoutFacts(b, n, a);
    WithoutSorted(b, n);
    Pivot(cfg, t, b);
    OneEachTake(multiset(t) + multiset(b), Bond(n, a));
    Shaped(cfg, t, Without(b, n), t[|t| - 1].amount, multiset(t) + multiset(b) - multiset{Bond(n, a)});
  }

  lemma ShiftSortFacts(l: seq<Bond>, n: Account, a: nat, d: int)
    requires Once(l, n, a) && a + d >= 0
    ensures var s := StableSort(Shift(l, n, d));
      && Sorted(s) && |s| == |l| && Sum(s) == Sum(l) + d
      && multiset(s) == multiset(l) - multiset{Bond(n, a)} + multiset{Bond(n, a + d)}
      && forall x :: x in s ==> x in l || x == Bond(n, a + d)
  {
    ShiftFacts(l, n, a, d);
    SortFacts(Shift(l, n, d));
    var s := StableSort(Shift(l, n, d));
    forall x | x in s ensures x in l || x == Bond(n, a + d) {
      assert x in multiset(s);
    }
  }

  /** Replacing one bond's amount keeps the owners distinct. */
  lemma OneEachChange(m: multiset<Bond>, n: Account, a: nat, a': nat)
    requires OneEach(m) && Bond(n, a) in m
    ensures OneEach(m - multiset{Bond(n, a)} + multiset{Bond(n, a')})
  {
    OneEachTake(m, Bond(n, a));
    OneEachAdd(m - multiset{Bond(n, a)}, Bond(n, a'));
  }

  lemma Regroup(m: multiset<Bond>, rest: multiset<Bond>, x: Bond, y: Bond)
    requires x in m
    ensures (m - multiset{x} + multiset{y}) + rest == m + rest - multiset{x} + multiset{y}
    ensures rest + (m - multiset{x} + multiset{y}) == rest + m - multiset{x} + multiset{y}
  {
  }

  lemma ReplacedSize(s: seq<Bond>, s': seq<Bond>, x: Bond, y: Bond)
    requires x in s && multiset(s') == multiset(s) - multiset{x} + multiset{y}
    ensures |s'| == |s|
    ensures forall z :: z in s' ==> z in s || z == y
  {
    assert |multiset(s')| == |multiset(s)|;
    forall z | z in s' ensures z in s || z == y {
      assert z in multiset(s');
    }
  }

  /** One top bond changes its amount and stays above the bottom list. */
  lemma ShapeReplaceTop(cfg: Config, t: seq<Bond>, b: seq<Bond>, t': seq<Bond>, n: Account, a: nat, a': nat)
    requires Shape(cfg, t, b) && Bond(n, a) in t && Sorted(t')
    requires multiset(t') == multiset(t) - multiset{Bond(n, a)} + multiset{Bond(n, a')}
    requires b != [] ==> a' >= b[0].amount
    ensures Shape(cfg, t', b)
  {
    Regroup(multiset(t), multiset(b), Bond(n, a), Bond(n, a'));
    OneEachChange(multiset(t) + multiset(b), n, a, a');
    ReplacedSize(t, t', Bond(n, a), Bond(n, a'));
    if b != [] {
      SortedEnds(b);
      Pivot(cfg, t, b);
    }
  }

  /** One bottom bond changes its amount and stays below the top list. */
  lemma ShapeReplaceBottom(cfg: Config, t: seq<Bond>, b: seq<Bond>, b': seq<Bond>, n: Account, a: nat, a': nat)
    requires Shape(cfg, t, b) && Bond(n, a) in b && Sorted(b') && t != []
    requires multiset(b') == multiset(b) - multiset{Bond(n, a)} + multiset{Bond(n, a')}
    requires a' <= t[|t| - 1].amount
    ensures Shape(cfg, t, b')
  {
    Regroup(multiset(b), multiset(t), Bond(n, a), Bond(n, a'));
    OneEachChange(multiset(t) + multiset(b), n, a, a');
    ReplacedSize(b, b', Bond(n, a), Bond(n, a'));
    Pivot(cfg, t, b);
  }

  /** The lists `t'`, `b'` are well shaped and hold `all`. */
  ghost predicate Holds(cfg: Config, t': seq<Bond>, b': seq<Bond>, all: multiset<Bond>) {
    Shape(cfg, t', b') && multiset(t') + multiset(b') == all
  }

  /** `c` with new lists and every cache recomputed from them. */
  ghost function Refreshed(cfg: Config, c: Candidate, top: Nominations, bottom: Nominations): Candidate {
    ResetBottom(cfg, ResetTop(cfg, c, top), bottom).(count := |top.nominations| + |bottom.nominations|)
  }

  lemma RefreshedBecomes(cfg: Config, c: Candidate, top: Nominations, bottom: Nominations, all: multiset<Bond>)
    requires Holds(cfg, top.nominations, bottom.nominations, all)
    requires top.total == Sum(top.nominations) && bottom.total >= Sum(bottom.nominations)
    ensures Becomes(cfg, c, Refreshed(cfg, c, top, bottom), all)
    ensures Drift(Refreshed(cfg, c, top, bottom)) == bottom.total - Sum(bottom.nominations)
  {
  }

  lemma ShiftInTop(cfg: Config, t: seq<Bond>, b: seq<Bond>, n: Account, a: nat, d: int)
    requires Shape(cfg, t, b) && Bond(n, a) in t && a + d >= 0
    requires b != [] ==> a + d >= b[0].amount
    ensures var t' := StableSort(Shift(t, n, d));
      && Holds(cfg, t', b, multiset(t) + multiset(b) - multiset{Bond(n, a)} + multiset{Bond(n, a + d)})
      && |t'| == |t| && Sum(t') == Sum(t) + d
    ensures Held(t, n) == Some(a) && Sum(t) >= a
  {
    hide Insert, Shift, StableSort, Sum, Held, Sorted, Above, OneEach, Once;
    TopOnce(cfg, t, b, n, a);
    SumAtLeast(t, Bond(n, a));
    var t' := StableSort(Shift(t, n, d));
    ShiftSortFacts(t, n, a, d);
    ShapeReplaceTop(cfg, t, b, t', n, a, a + d);
    assert Bond(n, a) in multiset(t);
    Regroup(multiset(t), multiset(b), Bond(n, a), Bond(n, a + d));
  }

  lemma ShiftInBottom(cfg: Config, t: seq<Bond>, b: seq<Bond>, n: Account, a: nat, d: int)
    requires Shape(cfg, t, b) && Bond(n, a) in b && a + d >= 0 && t != []
    requires a + d <= t[|t| - 1].amount
    ensures var b' := StableSort(Shift(b, n, d));
      && Holds(cfg, t, b', multiset(t) + multiset(b) - multiset{Bond(n, a)} + multiset{Bond(n, a + d)})
      && |b'| == |b| && Sum(b') == Sum(b) + d
    ensures Held(b, n) == Some(a) && Sum(b) >= a
  {
    hide Insert, Shift, StableSort, Sum, Held, Sorted, Above, OneEach, Once;
    BottomOnce(cfg, t, b, n, a);
    SumAtLeast(b, Bond(n, a));
    var b' := StableSort(Shift(b, n, d));
    ShiftSortFacts(b, n, a, d);
    ShapeReplaceBottom(cfg, t, b, b', n, a, a + d);
    assert Bond(n, a) in multiset(b);
    Regroup(multiset(b), multiset(t), Bond(n, a), Bond(n, a + d));
  }

  lemma TakeFromTop(cfg: Config, t: seq<Bond>, n: Account, a: nat)
    requires Shape(cfg, t, []) && Bond(n, a) in t
    ensures Holds(cfg, Without(t, n), [], multiset(t) + multiset([]) - multiset{Bond(n, a)})
    ensures |Without(t, n)| == |t| - 1 && Sum(Without(t, n)) == Sum(t) - a
    ensures Held(t, n) == Some(a)
  {
    TopOnce(cfg, t, [], n, a);
    WithoutFacts(t, n, a);
    ShapeRmTop(cfg, t, n, a);
  }

  lemma TakeFromBottom(cfg: Config, t: seq<Bond>, b: seq<Bond>, n: Account, a: nat)
    requires Shape(cfg, t, b) && Bond(n, a) in b && t != []
    ensures Holds(cfg, t, Without(b, n), multiset(t) + multiset(b) - multiset{Bond(n, a)})
    ensures |Without(b, n)| == |b| - 1 && Sum(Without(b, n)) == Sum(b) - a
    ensures Held(b, n) == Some(a)
  {
    BottomOnce(cfg, t, b, n, a);
    WithoutFacts(b, n, a);
    ShapeRmBottom(cfg, t, b, n, a);
    assert Bond(n, a) in multiset(b);
  }

  lemma PullUp(cfg: Config, t: seq<Bond>, b: seq<Bond>, n: Account, a: nat)
    requires Shape(cfg, t, b) && Bond(n, a) in t && b != []
    ensures var t' := Insert(Without(t, n), b[0]);
      && Holds(cfg, t', b[1..], multiset(t) + multiset(b) - multiset{Bond(n, a)})
      && |t'| == |t| && Sum(t') == Sum(t) - a + b[0].amount && Sum(b) == b[0].amount + Sum(b[1..])
    ensures Held(t, n) == Some(a) && Sum(t) >= a
  {
    TopOnce(cfg, t, b, n, a);
    WithoutFacts(t, n, a);
    SumAtLeast(t, Bond(n, a));
    InsertFacts(Without(t, n), b[0]);
    FirstOut(b);
    ShapePullUp(cfg, t, b, n, a);
    assert Bond(n, a) in multiset(t);
  }

  // ----- adding a nomination

  ghost predicate BothFull(cfg: Config, c: Candidate) {
    |c.top.nominations| == cfg.maxTop && |c.bottom.nominations| == cfg.maxBottom
  }

  /** What an accepted nomination does: it joins the collection; a nomination is evicted exactly when
      both lists were full, and then it is a least one, strictly below the newcomer, and the reported
      remainder is its amount. */
  ghost predicate AddEffect(cfg: Config, c: Candidate, b: Bond, r: Added) {
    && (r.kicked.Some? <==> BothFull(cfg, c))
    && r.less == (match r.kicked case None => None case Some(k) => Some(k.amount))
    && match r.kicked
       case None => Becomes(cfg, c, r.candidate, All(c) + multiset{b}) && r.candidate.count == c.count + 1
       case Some(k) =>
         && c.bottom.nominations != [] && k == c.bottom.nominations[|c.bottom.nominations| - 1]
         && k.amount < b.amount && (forall x :: x in All(c) ==> k.amount <= x.amount)
         && Becomes(cfg, c, r.candidate, All(c) - multiset{k} + multiset{b}) && r.candidate.count == c.count
  }

  lemma OwnsPart(m: multiset<Bond>, k: multiset<Bond>, o: Account)
    requires !Owns(m, o)
    ensures !Owns(m - k, o)
  {
    forall a: nat ensures Bond(o, a) !in m - k {
      assert Bond(o, a) !in m;
    }
  }

  lemma AddTopPartial(cfg: Config, c: Candidate, b: Bond)
    requires cfg.Valid() && Inv(cfg, c) && !Owns(All(c), b.owner) && |c.top.nominations| < cfg.maxTop
    ensures AddTop(cfg, c, b).Ok? && AddEffect(cfg, c, b, AddTop(cfg, c, b).value)
    ensures Drift(AddTop(cfg, c, b).value.candidate) == Drift(c)
  {
    var t := c.top.nominations;
    assert c.bottom.nominations == [];
    OwnsPart(All(c), multiset{}, b.owner);
    assert All(c) - multiset{} == multiset(t);
    ShapeAddTop(cfg, t, b);
    InsertFacts(t, b);
    assert All(AddTop(cfg, c, b).value.candidate) == All(c) + multiset{b};
  }

  lemma AddBottomRoom(cfg: Config, c: Candidate, b: Bond)
    requires cfg.Valid() && Inv(cfg, c) && !Owns(All(c), b.owner)
    requires |c.top.nominations| == cfg.maxTop && b.amount <= c.lowestTop && |c.bottom.nominations| < cfg.maxBottom
    ensures AddNomination(cfg, c, b).Ok? && AddEffect(cfg, c, b, AddNomination(cfg, c, b).value)
    ensures Drift(AddNomination(cfg, c, b).value.candidate) == Drift(c)
  {
    ShapeAddBottom(cfg, c.top.nominations, c.bottom.nominations, b);
    InsertFacts(c.bottom.nominations, b);
    assert All(AddNomination(cfg, c, b).value.candidate) == All(c) + multiset{b};
  }

  lemma AddTopRoom(cfg: Config, c: Candidate, b: Bond)
    requires cfg.Valid() && Inv(cfg, c) && !Owns(All(c), b.owner)
    requires |c.top.nominations| == cfg.maxTop && b.amount > c.lowestTop && |c.bottom.nominations| < cfg.maxBottom
    ensures AddTop(cfg, c, b).Ok? && AddEffect(cfg, c, b, AddTop(cfg, c, b).value)
    ensures Drift(AddTop(cfg, c, b).value.candidate) == Drift(c)
  {
    hide OneEach, Above, Sorted, Sum, Insert;
    var t, l := c.top.nominations, c.bottom.nominations;
    var k := |t| - 1;
    LastOut(t);
    ShapePushDown(cfg, t, l, b);
    PushDownFacts(t, l, b);
    var c' := AddTop(cfg, c, b).value.candidate;
    assert c'.top.nominations == Insert(t[..k], b) && c'.bottom.nominations == Insert(l, t[k]);
  }

  /** The last bottom bond is a least one of the whole collection. */
  lemma LeastBond(cfg: Config, c: Candidate)
    requires cfg.Valid() && Inv(cfg, c) && c.bottom.nominations != []
    ensures forall x :: x in All(c) ==> c.lowestBottom <= x.amount
    ensures c.lowestBottom <= c.lowestTop && c.bottom.total >= Sum(c.bottom.nominations) >= c.lowestBottom
  {
    hide OneEach, Above, Sorted, Sum;
    var t, l := c.top.nominations, c.bottom.nominations;
    Pivot(cfg, t, l);
    SortedEnds(l);
    LastOut(l);
    assert l[|l| - 1] in l;
    forall x | x in All(c) ensures c.lowestBottom <= x.amount {
      assert x in t || x in l;
    }
  }

  /** `c` once its least bottom bond is gone. */
  ghost function Evicted(cfg: Config, c: Candidate): Candidate
    requires c.bottom.nominations != [] && c.count >= 1
  {
    ResetBottom(cfg, c, Pop(c.bottom)).(count := c.count - 1)
  }

  lemma EvictedInv(cfg: Config, c: Candidate)
    requires cfg.Valid() && Inv(cfg, c) && c.bottom.nominations != []
    ensures var l := c.bottom.nominations;
      && Becomes(cfg, c, Evicted(cfg, c), All(c) - multiset{l[|l| - 1]}) && l[|l| - 1] in All(c)
      && Drift(Evicted(cfg, c)) == Drift(c)
  {
    hide OneEach, Sum, Above, Sorted;
    var t, l := c.top.nominations, c.bottom.nominations;
    ShapeDropLowest(cfg, t, l);
    LastOut(l);
    LeastBond(cfg, c);
    assert All(c) == multiset(t) + multiset(l[..|l| - 1]) + multiset{l[|l| - 1]};
  }

  /** With both lists full, the newcomer is added as if the least nomination had left first. */
  lemma EvictFirst(cfg: Config, c: Candidate, b: Bond)
    requires cfg.Valid() && BothFull(cfg, c) && c.count >= 1
    requires c.topCapacity.Full? && c.bottomCapacity.Full? && b.amount > c.lowestBottom
    ensures AddNomination(cfg, c, b).Ok? && AddNomination(cfg, Evicted(cfg, c), b).Ok?
    ensures AddNomination(cfg, c, b).value.candidate == AddNomination(cfg, Evicted(cfg, c), b).value.candidate
    ensures var l := c.bottom.nominations; AddNomination(cfg, c, b).value.kicked == Some(l[|l| - 1])
    ensures AddNomination(cfg, c, b).value.less == Some(c.lowestBottom)
  {
  }

  lemma AddWhenFull(cfg: Config, c: Candidate, b: Bond)
    requires cfg.Valid() && Inv(cfg, c) && !Owns(All(c), b.owner)
    requires BothFull(cfg, c) && b.amount > c.lowestBottom
    ensures AddNomination(cfg, c, b).Ok? && AddEffect(cfg, c, b, AddNomination(cfg, c, b).value)
    ensures Drift(AddNomination(cfg, c, b).value.candidate) == Drift(c)
  {
    var l := c.bottom.nominations;
    var k := l[|l| - 1];
    var e := Evicted(cfg, c);
    EvictFirst(cfg, c, b);
    assert Becomes(cfg, c, e, All(c) - multiset{k}) && Drift(e) == Drift(c) by { EvictedInv(cfg, c); }
    assert !Owns(All(e), b.owner) by { OwnsPart(All(c), multiset{k}, b.owner); }
    AddWithRoom(cfg, e, b);
    LeastBond(cfg, c);
  }

  lemma AddWithRoom(cfg: Config, c: Candidate, b: Bond)
    requires cfg.Valid() && Inv(cfg, c) && !Owns(All(c), b.owner) && !BothFull(cfg, c)
    ensures AddNomination(cfg, c, b).Ok? && AddEffect(cfg, c, b, AddNomination(cfg, c, b).value)
    ensures Drift(AddNomination(cfg, c, b).value.candidate) == Drift(c)
  {
    if |c.top.nominations| < cfg.maxTop {
      AddTopPartial(cfg, c, b);
    } else if b.amount > c.lowestTop {
      AddTopRoom(cfg, c, b);
    } else {
      AddBottomRoom(cfg, c, b);
    }
  }

  /** A nomination is refused exactly when both lists are full and it does not beat the least one;
      an accepted one has the effect above, and the gap of the bottom total does not move. */
  lemma AddKeeps(cfg: Config, c: Candidate, b: Bond)
    requires cfg.Valid() && Inv(cfg, c) && !Owns(All(c), b.owner)
    ensures var r := AddNomination(cfg, c, b);
      && (r.Err? <==> BothFull(cfg, c) && b.amount <= c.lowestBottom)
      && (r.Err? ==> r.error == CannotNominateLessThanLowestBottomWhenBottomIsFull)
      && (r.Ok? ==> AddEffect(cfg, c, b, r.value) && Drift(r.value.candidate) == Drift(c))
  {
    if !BothFull(cfg, c) {
      AddWithRoom(cfg, c, b);
    } else {
      LeastBond(cfg, c);
      if b.amount > c.lowestBottom {
        AddWhenFull(cfg, c, b);
      }
    }
  }

  lemma TopFacts(cfg: Config, c: Candidate, x: Bond)
    requires Inv(cfg, c) && x in c.top.nominations
    ensures x.amount >= c.lowestTop >= c.highestBottom
    ensures c.bottom.nominations != [] ==> |c.top.nominations| == cfg.maxTop && Sum(c.bottom.nominations) >= c.highestBottom
    ensures c.top.total >= x.amount && |c.top.nominations| <= cfg.maxTop && |c.bottom.nominations| <= cfg.maxBottom
    ensures OneEach(All(c)) && x in All(c)
  {
    Pivot(cfg, c.top.nominations, c.bottom.nominations);
    SumAtLeast(c.top.nominations, x);
    assert x in multiset(c.top.nominations);
  }

  lemma BottomFacts(cfg: Config, c: Candidate, x: Bond)
    requires cfg.Valid() && Inv(cfg, c) && x in c.bottom.nominations
    ensures c.top.nominations != [] && |c.top.nominations| == cfg.maxTop && |c.bottom.nominations| <= cfg.maxBottom
    ensures x.amount <= c.highestBottom <= c.lowestTop && c.bottom.total >= x.amount && c.top.total >= c.lowestTop
    ensures OneEach(All(c)) && x in All(c)
  {
    var t := c.top.nominations;
    Pivot(cfg, t, c.bottom.nominations);
    SortedEnds(c.bottom.nominations);
    SumAtLeast(c.bottom.nominations, x);
    SumAtLeast(t, t[|t| - 1]);
    assert x in multiset(c.bottom.nominations);
  }

  // ----- removing a nomination

  lemma RmTopKeeps(cfg: Config, c: Candidate, n: Account, a: nat)
    requires cfg.Valid() && Inv(cfg, c) && Bond(n, a) in c.top.nominations
    ensures RmTop(cfg, c, n).Ok?
    ensures var c' := RmTop(cfg, c, n).value.0;
      Becomes(cfg, c, c', All(c) - multiset{Bond(n, a)}) && Drift(c') == Drift(c) && c'.count == c.count - 1
  {
    hide Shape, Holds, Becomes, Sum, Insert, Without, Shift, StableSort, Held;
    TopFacts(cfg, c, Bond(n, a));
    var t, b := c.top.nominations, c.bottom.nominations;
    var t1 := Without(t, n);
    if b == [] {
      TakeFromTop(cfg, t, n, a);
      var top := Nominations(t1, c.top.total - a);
      assert RmTop(cfg, c, n).value.0 == Refreshed(cfg, c, top, c.bottom);
      RefreshedBecomes(cfg, c, top, c.bottom, All(c) - multiset{Bond(n, a)});
    } else {
      PullUp(cfg, t, b, n, a);
      var top := Nominations(Insert(t1, b[0]), c.top.total - a + b[0].amount);
      var bottom := Nominations(b[1..], c.bottom.total - b[0].amount);
      assert RmTop(cfg, c, n).value.0 == Refreshed(cfg, c, top, bottom);
      RefreshedBecomes(cfg, c, top, bottom, All(c) - multiset{Bond(n, a)});
    }
  }

  lemma RmBottomKeeps(cfg: Config, c: Candidate, n: Account, a: nat)
    requires cfg.Valid() && Inv(cfg, c) && Bond(n, a) in c.bottom.nominations
    ensures RmBottom(cfg, c, n).Ok?
    ensures var c' := RmBottom(cfg, c, n).value.0;
      && Becomes(cfg, c, c', All(c) - multiset{Bond(n, a)}) && Drift(c') == Drift(c) && c'.count == c.count - 1
      && c'.votingPower == c.votingPower
  {
    hide Shape, Holds, Becomes, Sum, Insert, Without, Shift, StableSort, Held;
    BottomFacts(cfg, c, Bond(n, a));
    TakeFromBottom(cfg, c.top.nominations, c.bottom.nominations, n, a);
    var bottom := Nominations(Without(c.bottom.nominations, n), c.bottom.total - a);
    assert RmBottom(cfg, c, n).value.0 == Refreshed(cfg, c, c.top, bottom);
    RefreshedBecomes(cfg, c, c.top, bottom, All(c) - multiset{Bond(n, a)});
  }

  // ----- increasing a nomination

  lemma IncreaseTopKeeps(cfg: Config, c: Candidate, n: Account, a: nat, more: nat)
    requires cfg.Valid() && Inv(cfg, c) && Bond(n, a) in c.top.nominations
    ensures IncreaseTop(cfg, c, n, more).Ok?
    ensures var c' := IncreaseTop(cfg, c, n, more).value.0;
      Becomes(cfg, c, c', All(c) - multiset{Bond(n, a)} + multiset{Bond(n, a + more)}) && Drift(c') == Drift(c)
  {
    hide Shape, Holds, Becomes, Sum, Insert, Without, Shift, StableSort, Held;
    TopFacts(cfg, c, Bond(n, a));
    var t, b := c.top.nominations, c.bottom.nominations;
    ShiftInTop(cfg, t, b, n, a, more);
    var top := Nominations(StableSort(Shift(t, n, more)), c.top.total + more);
    assert IncreaseTop(cfg, c, n, more).value.0 == Refreshed(cfg, c, top, c.bottom);
    RefreshedBecomes(cfg, c, top, c.bottom, All(c) - multiset{Bond(n, a)} + multiset{Bond(n, a + more)});
  }

  /** The nomination stays in the bottom list. */
  lemma IncreaseInBottom(cfg: Config, c: Candidate, n: Account, a: nat, more: nat)
    requires cfg.Valid() && Inv(cfg, c) && Bond(n, a) in c.bottom.nominations && a + more <= c.lowestTop
    ensures IncreaseBottom(cfg, c, n, a, more).Ok?
    ensures var c' := IncreaseBottom(cfg, c, n, a, more).value.0;
      Becomes(cfg, c, c', All(c) - multiset{Bond(n, a)} + multiset{Bond(n, a + more)}) && Drift(c') == Drift(c)
  {
    hide Shape, Holds, Becomes, Sum, Insert, Without, Shift, StableSort, Held;
    BottomFacts(cfg, c, Bond(n, a));
    ShiftInBottom(cfg, c.top.nominations, c.bottom.nominations, n, a, more);
    var bottom := Nominations(StableSort(Shift(c.bottom.nominations, n, more)), c.bottom.total + more);
    assert IncreaseBottom(cfg, c, n, a, more).value.0 == Refreshed(cfg, c, c.top, bottom);
    RefreshedBecomes(cfg, c, c.top, bottom, All(c) - multiset{Bond(n, a)} + multiset{Bond(n, a + more)});
  }

  /** The nomination rises into the top list and the lowest top one goes down. */
  lemma IncreaseOutOfBottom(cfg: Config, c: Candidate, n: Account, a: nat, more: nat)
    requires cfg.Valid() && Inv(cfg, c) && Bond(n, a) in c.bottom.nominations && a + more > c.lowestTop
    ensures IncreaseBottom(cfg, c, n, a, more).Ok?
    ensures var c' := IncreaseBottom(cfg, c, n, a, more).value.0;
      Becomes(cfg, c, c', All(c) - multiset{Bond(n, a)} + multiset{Bond(n, a + more)}) && Drift(c') == Drift(c)
  {
    hide Shape, Holds, Becomes, Sum, Insert, Without, Shift, StableSort, Held;
    BottomFacts(cfg, c, Bond(n, a));
    var t, b := c.top.nominations, c.bottom.nominations;
    var b1, x, k := Without(b, n), Bond(n, a + more), |t| - 1;
    TakeFromBottom(cfg, t, b, n, a);
    assert !Owns(multiset(t) + multiset(b1), n) by { OneEachTake(All(c), Bond(n, a)); }
    ShapePushDown(cfg, t, b1, x);
    PushDownFacts(t, b1, x);
    LastOut(t);
    var top := Nominations(Insert(t[..k], x), c.top.total - t[k].amount + x.amount);
    var bottom := Nominations(Insert(b1, t[k]), c.bottom.total - a + t[k].amount);
    assert IncreaseBottom(cfg, c, n, a, more).value.0 == Refreshed(cfg, c, top, bottom);
    RefreshedBecomes(cfg, c, top, bottom, All(c) - multiset{Bond(n, a)} + multiset{x});
  }

  // ----- decreasing a nomination

  /** The nomination stays in the top list. */
  lemma DecreaseInTop(cfg: Config, c: Candidate, n: Account, a: nat, less: nat)
    requires cfg.Valid() && Inv(cfg, c) && Bond(n, a) in c.top.nominations && less <= a
    requires a - less >= c.highestBottom
    ensures DecreaseTop(cfg, c, n, a, less).Ok?
    ensures var c' := DecreaseTop(cfg, c, n, a, less).value.0;
      Becomes(cfg, c, c', All(c) - multiset{Bond(n, a)} + multiset{Bond(n, a - less)}) && Drift(c') == Drift(c)
  {
    hide Shape, Holds, Becomes, Sum, Insert, Without, Shift, StableSort, Held;
    TopFacts(cfg, c, Bond(n, a));
    var d := -(less as int);
    ShiftInTop(cfg, c.top.nominations, c.bottom.nominations, n, a, d);
    var top := Nominations(StableSort(Shift(c.top.nominations, n, d)), c.top.total - less);
    assert DecreaseTop(cfg, c, n, a, less).value.0 == Refreshed(cfg, c, top, c.bottom);
    RefreshedBecomes(cfg, c, top, c.bottom, All(c) - multiset{Bond(n, a)} + multiset{Bond(n, a + d)});
  }

  /** The nomination falls below the highest bottom one and changes places with it. */
  lemma DecreaseOutOfTop(cfg: Config, c: Candidate, n: Account, a: nat, less: nat)
    requires cfg.Valid() && Inv(cfg, c) && Bond(n, a) in c.top.nominations && less <= a
    requires a - less < c.highestBottom
    ensures DecreaseTop(cfg, c, n, a, less).Ok?
    ensures var c' := DecreaseTop(cfg, c, n, a, less).value.0;
      Becomes(cfg, c, c', All(c) - multiset{Bond(n, a)} + multiset{Bond(n, a - less)}) && Drift(c') == Drift(c)
  {
    hide Shape, Holds, Becomes, Sum, Insert, Without, Shift, StableSort, Held;
    TopFacts(cfg, c, Bond(n, a));
    var t, b := c.top.nominations, c.bottom.nominations;
    var t', x := Insert(Without(t, n), b[0]), Bond(n, a - less);
    PullUp(cfg, t, b, n, a);
    assert !Owns(multiset(t') + multiset(b[1..]), n) by { OneEachTake(All(c), Bond(n, a)); }
    PulledUpLowest(cfg, t, b, n);
    ShapeAddBottom(cfg, t', b[1..], x);
    InsertFacts(b[1..], x);
    var top := Nominations(t', c.top.total - a + b[0].amount);
    var bottom := Nominations(Insert(b[1..], x), c.bottom.total - b[0].amount + x.amount);
    assert DecreaseTop(cfg, c, n, a, less).value.0 == Refreshed(cfg, c, top, bottom);
    RefreshedBecomes(cfg, c, top, bottom, All(c) - multiset{Bond(n, a)} + multiset{x});
  }

  lemma PulledUpLowest(cfg: Config, t: seq<Bond>, b: seq<Bond>, n: Account)
    requires Shape(cfg, t, b) && t != [] && b != []
    ensures var t' := Insert(Without(t, n), b[0]); t' != [] && t'[|t'| - 1].amount >= b[0].amount
  {
    var t' := Insert(Without(t, n), b[0]);
    InsertFacts(Without(t, n), b[0]);
    InsertMembers(Without(t, n), b[0]);
    WithoutSorted(t, n);
    Pivot(cfg, t, b);
    assert t'[|t'| - 1] in t';
  }

  /** A bottom decrease widens the gap of the bottom total by what it takes away. */
  lemma DecreaseBottomKeeps(cfg: Config, c: Candidate, n: Account, a: nat, less: nat)
    requires cfg.Valid() && Inv(cfg, c) && Bond(n, a) in c.bottom.nominations && less <= a
    ensures DecreaseBottom(cfg, c, n, less).Ok?
    ensures var c' := DecreaseBottom(cfg, c, n, less).value.0;
      Becomes(cfg, c, c', All(c) - multiset{Bond(n, a)} + multiset{Bond(n, a - less)}) && Drift(c') == Drift(c) + less
  {
    hide Shape, Holds, Becomes, Sum, Insert, Without, Shift, StableSort, Held;
    BottomFacts(cfg, c, Bond(n, a));
    var d := -(less as int);
    ShiftInBottom(cfg, c.top.nominations, c.bottom.nominations, n, a, d);
    var bottom := Nominations(StableSort(Shift(c.bottom.nominations, n, d)), c.bottom.total);
    assert DecreaseBottom(cfg, c, n, less).value.0 == Refreshed(cfg, c, c.top, bottom);
    RefreshedBecomes(cfg, c, c.top, bottom, All(c) - multiset{Bond(n, a)} + multiset{Bond(n, a + d)});
  }

  // ----- dispatch from the cached amounts

  /** What the cached amounts say about where a nomination of amount `a` is. */
  lemma CachesLocate(cfg: Config, c: Candidate, n: Account, a: nat)
    requires cfg.Valid() && Inv(cfg, c) && Bond(n, a) in All(c)
    ensures Bond(n, a) in c.top.nominations || Bond(n, a) in c.bottom.nominations
    ensures Bond(n, a) in c.top.nominations ==> a >= c.lowestTop && Held(c.bottom.nominations, n).None?
    ensures Bond(n, a) in c.bottom.nominations ==>
      c.topCapacity.Full? && a <= c.highestBottom <= c.lowestTop && Held(c.top.nominations, n).None?
  {
    var t, b := c.top.nominations, c.bottom.nominations;
    assert Bond(n, a) in multiset(t) || Bond(n, a) in multiset(b);
    if Bond(n, a) in t {
      Pivot(cfg, t, b);
      TopOnce(cfg, t, b, n, a);
    }
    if Bond(n, a) in b {
      Pivot(cfg, t, b);
      BottomOnce(cfg, t, b, n, a);
      SortedEnds(b);
    }
  }

  /** Removal picks its list from the cached amounts alone and yet acts on the list that holds the
      nomination; a nomination that exists is always found. */
  lemma RmRefinesLookup(cfg: Config, c: Candidate, n: Account, a: nat)
    requires cfg.Valid() && Inv(cfg, c) && Bond(n, a) in All(c)
    ensures RmIfExists(cfg, c, n, a) ==
      if Bond(n, a) in c.top.nominations then RmTop(cfg, c, n) else RmBottom(cfg, c, n)
    ensures RmIfExists(cfg, c, n, a).Ok?
    ensures var c' := RmIfExists(cfg, c, n, a).value.0;
      Becomes(cfg, c, c', All(c) - multiset{Bond(n, a)}) && Drift(c') == Drift(c) && c'.count == c.count - 1
  {
    hide Inv, Becomes, Held, RmTop, RmBottom, Drift;
    CachesLocate(cfg, c, n, a);
    if Bond(n, a) in c.top.nominations {
      RmTopKeeps(cfg, c, n, a);
    } else {
      RmBottomKeeps(cfg, c, n, a);
      TopMisses(cfg, c, n, a, 0);
    }
  }

  lemma IncreaseRefinesLookup(cfg: Config, c: Candidate, n: Account, a: nat, more: nat)
    requires cfg.Valid() && Inv(cfg, c) && Bond(n, a) in All(c)
    ensures Increase(cfg, c, n, a, more) ==
      if Bond(n, a) in c.top.nominations then IncreaseTop(cfg, c, n, more) else IncreaseBottom(cfg, c, n, a, more)
    ensures Increase(cfg, c, n, a, more).Ok?
    ensures var c' := Increase(cfg, c, n, a, more).value.0;
      Becomes(cfg, c, c', All(c) - multiset{Bond(n, a)} + multiset{Bond(n, a + more)}) && Drift(c') == Drift(c)
  {
    hide Inv, Becomes, Held, IncreaseTop, IncreaseBottom, Drift;
    CachesLocate(cfg, c, n, a);
    if Bond(n, a) in c.top.nominations {
      IncreaseTopKeeps(cfg, c, n, a, more);
    } else {
      TopMisses(cfg, c, n, a, more);
      if a + more > c.lowestTop {
        IncreaseOutOfBottom(cfg, c, n, a, more);
      } else {
        IncreaseInBottom(cfg, c, n, a, more);
      }
    }
  }

  lemma DecreaseRefinesLookup(cfg: Config, c: Candidate, n: Account, a: nat, less: nat)
    requires cfg.Valid() && Inv(cfg, c) && Bond(n, a) in All(c) && less <= a
    ensures Decrease(cfg, c, n, a, less) ==
      if Bond(n, a) in c.top.nominations then DecreaseTop(cfg, c, n, a, less) else DecreaseBottom(cfg, c, n, less)
    ensures Decrease(cfg, c, n, a, less).Ok?
    ensures var c' := Decrease(cfg, c, n, a, less).value.0;
      && Becomes(cfg, c, c', All(c) - multiset{Bond(n, a)} + multiset{Bond(n, a - less)})
      && Drift(c') == Drift(c) + if Bond(n, a) in c.bottom.nominations then less else 0
  {
    hide Inv, Becomes, Held, DecreaseTop, DecreaseBottom, Drift;
    CachesLocate(cfg, c, n, a);
    if Bond(n, a) in c.top.nominations {
      HeldFacts(c.bottom.nominations, n);
      if a - less < c.highestBottom {
        DecreaseOutOfTop(cfg, c, n, a, less);
      } else {
        DecreaseInTop(cfg, c, n, a, less);
      }
    } else {
      DecreaseBottomKeeps(cfg, c, n, a, less);
      TopMisses(cfg, c, n, a, less);
    }
  }

  /** An operation on the top list refuses a nominator that is not there. */
  lemma TopMisses(cfg: Config, c: Candidate, n: Account, a: nat, delta: nat)
    requires Held(c.top.nominations, n).None?
    ensures RmTop(cfg, c, n) == Err(NominationDNE)
    ensures IncreaseTop(cfg, c, n, delta) == Err(NominationDNE)
    ensures DecreaseTop(cfg, c, n, a, delta) == Err(NominationDNE)
  {
  }

  lemma NotHeld(c: Candidate, n: Account)
    requires !Owns(All(c), n)
    ensures Held(c.top.nominations, n).None? && Held(c.bottom.nominations, n).None?
  {
    HeldFacts(c.top.nominations, n);
    HeldFacts(c.bottom.nominations, n);
  }

  /** A nominator without a nomination is told so, whatever amounts it claims. */
  lemma AbsentIsDNE(cfg: Config, c: Candidate, n: Account, bond: nat, delta: nat)
    requires !Owns(All(c), n)
    ensures RmIfExists(cfg, c, n, bond) == Err(NominationDNE)
    ensures Increase(cfg, c, n, bond, delta) == Err(NominationDNE)
    ensures Decrease(cfg, c, n, bond, delta) == Err(NominationDNE)
  {
    NotHeld(c, n);
  }

  /** Removal called with an amount `claimed` below the recorded one. It fails exactly when the top
      list is full, the claim is below its lowest amount and the nomination is nevertheless there. */
  lemma RmWithStaleAmount(cfg: Config, c: Candidate, n: Account, a: nat, claimed: nat)
    requires cfg.Valid() && Inv(cfg, c) && Bond(n, a) in All(c) && claimed <= a
    ensures RmIfExists(cfg, c, n, claimed).Err? <==>
      c.topCapacity.Full? && claimed < c.lowestTop && Bond(n, a) in c.top.nominations
    ensures RmIfExists(cfg, c, n, claimed).Err? ==> RmIfExists(cfg, c, n, claimed).error == NominationDNE
    ensures RmIfExists(cfg, c, n, claimed).Ok? ==>
      RmIfExists(cfg, c, n, claimed) == RmIfExists(cfg, c, n, a)
  {
    CachesLocate(cfg, c, n, a);
    RmRefinesLookup(cfg, c, n, a);
  }

  /** The flag of a removal: documented as "voting power changed", it says the opposite for a top
      nomination; for a bottom nomination it is right. */
  lemma RmFlag(cfg: Config, c: Candidate, n: Account, a: nat)
    requires cfg.Valid() && Inv(cfg, c) && Bond(n, a) in All(c)
    ensures RmIfExists(cfg, c, n, a).Ok?
    ensures var (c', flag) := RmIfExists(cfg, c, n, a).value;
      flag == (c'.votingPower != c.votingPower) <==> Bond(n, a) in c.bottom.nominations
  {
    CachesLocate(cfg, c, n, a);
    RmRefinesLookup(cfg, c, n, a);
    HeldFacts(c.top.nominations, n);
    if Bond(n, a) in c.top.nominations {
      assert Bond(n, a) !in c.bottom.nominations by { HeldFacts(c.bottom.nominations, n); }
    } else {
      RmBottomKeeps(cfg, c, n, a);
    }
  }

  // ----- the answered flags

  lemma OnePlace(cfg: Config, c: Candidate, x: Bond)
    requires cfg.Valid() && Inv(cfg, c) && x in c.bottom.nominations
    ensures x !in c.top.nominations
  {
    hide Inv;
    assert x in All(c) by { assert x in multiset(c.bottom.nominations); }
    CachesLocate(cfg, c, x.owner, x.amount);
    HeldFacts(c.top.nominations, x.owner);
  }

  /** The flag of an addition says whether the nomination is in the top list. */
  lemma AddFlag(cfg: Config, c: Candidate, b: Bond)
    requires cfg.Valid() && Inv(cfg, c) && !Owns(All(c), b.owner) && AddNomination(cfg, c, b).Ok?
    ensures var r := AddNomination(cfg, c, b).value; r.toTop <==> b in r.candidate.top.nominations
  {
    hide Inv, Insert, All, Drift;
    AddKeeps(cfg, c, b);
    var c' := AddNomination(cfg, c, b).value.candidate;
    var t, l := c.top.nominations, c.bottom.nominations;
    InsertMembers(t, b);
    InsertMembers(l, b);
    if t != [] {
      InsertMembers(t[..|t| - 1], b);
    }
    if l != [] {
      InsertMembers(l[..|l| - 1], b);
    }
    if b in c'.bottom.nominations {
      OnePlace(cfg, c', b);
    }
  }

  lemma ShiftedIn(l: seq<Bond>, n: Account, a: nat, d: int)
    requires OneEach(multiset(l)) && Bond(n, a) in l && a + d >= 0
    ensures Bond(n, a + d) in StableSort(Shift(l, n, d))
  {
    hide OneEach, StableSort, Shift;
    OnceIn(l, n, a);
    ShiftFacts(l, n, a, d);
    SortFacts(Shift(l, n, d));
    assert Bond(n, a + d) in multiset(StableSort(Shift(l, n, d)));
  }

  lemma PartsOneEach(cfg: Config, c: Candidate)
    requires Inv(cfg, c)
    ensures OneEach(multiset(c.top.nominations)) && OneEach(multiset(c.bottom.nominations))
  {
    OneEachPart(multiset(c.top.nominations), multiset(c.bottom.nominations));
  }

  /** The flag of an increase says whether the nomination is in the top list afterwards. */
  lemma IncreaseFlag(cfg: Config, c: Candidate, n: Account, a: nat, more: nat)
    requires cfg.Valid() && Inv(cfg, c) && Bond(n, a) in All(c)
    ensures Increase(cfg, c, n, a, more).Ok?
    ensures var (c', flag) := Increase(cfg, c, n, a, more).value; flag <==> Bond(n, a + more) in c'.top.nominations
  {
    hide Inv, Becomes, Insert, StableSort, Shift, Without, OneEach, Increase, Held;
    IncreaseRefinesLookup(cfg, c, n, a, more);
    var c', x := Increase(cfg, c, n, a, more).value.0, Bond(n, a + more);
    CachesLocate(cfg, c, n, a);
    PartsOneEach(cfg, c);
    BecomesInv(cfg, c, c', All(c) - multiset{Bond(n, a)} + multiset{x});
    if Bond(n, a) in c.top.nominations {
      ShiftedIn(c.top.nominations, n, a, more);
    } else {
      HeldIn(cfg, c, n, a);
      ShiftedIn(c.bottom.nominations, n, a, more);
      InsertMembers(c.top.nominations, x);
      if c.top.nominations != [] {
        InsertMembers(c.top.nominations[..|c.top.nominations| - 1], x);
      }
      if x in c'.bottom.nominations {
        OnePlace(cfg, c', x);
      }
    }
  }

  lemma BecomesInv(cfg: Config, c: Candidate, c': Candidate, all: multiset<Bond>)
    requires Becomes(cfg, c, c', all)
    ensures Inv(cfg, c')
  {
    hide Inv;
  }

  lemma HeldIn(cfg: Config, c: Candidate, n: Account, a: nat)
    requires cfg.Valid() && Inv(cfg, c) && Bond(n, a) in c.bottom.nominations
    ensures Held(c.bottom.nominations, n) == Some(a)
  {
    BottomFacts(cfg, c, Bond(n, a));
    BottomOnce(cfg, c.top.nominations, c.bottom.nominations, n, a);
  }

  /** The flag of a decrease says whether the nomination is in the top list afterwards. */
  lemma DecreaseFlag(cfg: Config, c: Candidate, n: Account, a: nat, less: nat)
    requires cfg.Valid() && Inv(cfg, c) && Bond(n, a) in All(c) && less <= a
    ensures Decrease(cfg, c, n, a, less).Ok?
    ensures var (c', flag) := Decrease(cfg, c, n, a, less).value; flag <==> Bond(n, a - less) in c'.top.nominations
  {
    hide Inv, Becomes, Insert, StableSort, Shift, Without, OneEach, Decrease, Held;
    DecreaseRefinesLookup(cfg, c, n, a, less);
    var c', x, d := Decrease(cfg, c, n, a, less).value.0, Bond(n, a - less), -(less as int);
    CachesLocate(cfg, c, n, a);
    PartsOneEach(cfg, c);
    BecomesInv(cfg, c, c', All(c) - multiset{Bond(n, a)} + multiset{x});
    if Bond(n, a) in c.top.nominations {
      TopHeldIn(cfg, c, n, a);
      ShiftedIn(c.top.nominations, n, a, d);
      if c.bottom.nominations != [] {
        InsertMembers(c.bottom.nominations[1..], x);
      }
    } else {
      ShiftedIn(c.bottom.nominations, n, a, d);
    }
    if x in c'.bottom.nominations {
      OnePlace(cfg, c', x);
    }
  }

  lemma TopHeldIn(cfg: Config, c: Candidate, n: Account, a: nat)
    requires cfg.Valid() && Inv(cfg, c) && Bond(n, a) in c.top.nominations
    ensures Held(c.top.nominations, n) == Some(a)
  {
    TopFacts(cfg, c, Bond(n, a));
    TopOnce(cfg, c.top.nominations, c.bottom.nominations, n, a);
  }

  // ----- the self-bond

  /** A bond-less request from schedule to execution: it bars a second one, it can be executed exactly from
      its round on, and then it takes exactly its amount from self-bond and voting power, leaves the minimum
      of the tier and every nomination, and keeps the invariant. */
  lemma BondLessLifecycle(cfg: Config, c: Candidate, round: nat, less: nat, now: nat)
    requires Inv(cfg, c) && ScheduleBondLess(cfg, c, round, less).Ok?
    ensures var c1 := ScheduleBondLess(cfg, c, round, less).value;
      && Inv(cfg, c1) && (forall r: nat, l: nat :: ScheduleBondLess(cfg, c1, r, l).Err?)
      && (ExecuteBondLess(c1, now).Ok? <==> now >= round + cfg.candidateBondLessDelay)
      && (ExecuteBondLess(c1, now).Ok? ==>
            var c2 := ExecuteBondLess(c1, now).value;
            && Inv(cfg, c2) && All(c2) == All(c) && c2.request.None?
            && c2.bond == c.bond - less >= MinSelfBond(cfg, c.tier) && c2.votingPower == c.votingPower - less)
  {
    hide Shape, Sum;
  }
}
