/** The lists of a candidate depend on the amounts it holds and on nothing else that ever happened. */
module CandidateHistory {
  import opened Bonds
  import opened Candidates
  import opened CandidateLaws

  ghost function Amounts(l: seq<Bond>): seq<nat> {
    if l == [] then [] else [l[0].amount] + Amounts(l[1..])
  }

  ghost function Total(s: seq<nat>): nat {
    if s == [] then 0 else s[0] + Total(s[1..])
  }

  ghost predicate Descending(s: seq<nat>) {
    forall i, j :: 0 <= i < j < |s| ==> s[i] >= s[j]
  }

  /** The amounts a candidate holds, in either list. */
  ghost function HeldAmounts(c: Candidate): multiset<nat> {
    multiset(Amounts(c.top.nominations + c.bottom.nominations))
  }

  lemma {:induction false} AmountsAt(l: seq<Bond>)
    ensures |Amounts(l)| == |l| && Total(Amounts(l)) == Sum(l)
    ensures forall i :: 0 <= i < |l| ==> Amounts(l)[i] == l[i].amount
  {
    if l != [] {
      AmountsAt(l[1..]);
    }
  }

  lemma {:induction false} AmountsConcat(a: seq<Bond>, b: seq<Bond>)
    ensures Amounts(a + b) == Amounts(a) + Amounts(b)
  {
    if a == [] {
      assert a + b == b;
    } else {
      assert (a + b)[1..] == a[1..] + b;
      AmountsConcat(a[1..], b);
    }
  }

  /** The same bonds in any order have the same amounts. */
  lemma {:induction false} AmountsPerm(s: seq<Bond>, t: seq<Bond>)
    requires multiset(s) == multiset(t)
    ensures multiset(Amounts(s)) == multiset(Amounts(t))
  {
    if s == [] {
      assert |multiset(t)| == 0;
    } else {
      assert s[0] in multiset(t);
      var k :| 0 <= k < |t| && t[k] == s[0];
      var rest := t[..k] + t[k + 1..];
      TakeOut(t, k);
      FirstOut(s);
      assert multiset(s[1..]) == multiset(s) - multiset{s[0]};
      assert multiset(rest) == multiset(t) - multiset{s[0]};
      AmountsPerm(s[1..], rest);
      AmountsTakeOut(t, k);
    }
  }

  lemma Middle(p: seq<nat>, x: nat, q: seq<nat>)
    ensures multiset(p + ([x] + q)) == multiset(p + q) + multiset{x}
  {
    assert multiset([x] + q) == multiset{x} + multiset(q);
  }

  lemma AmountsTakeOut(t: seq<Bond>, k: nat)
    requires k < |t|
    ensures multiset(Amounts(t)) == multiset(Amounts(t[..k] + t[k + 1..])) + multiset{t[k].amount}
  {
    hide Amounts;
    var a, b := t[..k], t[k + 1..];
    assert t == a + ([t[k]] + b);
    AmountsConcat(a, b);
    AmountsConcat(a, [t[k]] + b);
    AmountsConcat([t[k]], b);
    AmountsOne(t[k]);
    Middle(Amounts(a), t[k].amount, Amounts(b));
  }

  lemma AmountsOne(x: Bond)
    ensures Amounts([x]) == [x.amount]
  {
    assert [x][1..] == [];
  }

  /** A descending sequence is determined by what it contains. */
  lemma FirstIsLargest(s: seq<nat>, x: nat)
    requires Descending(s) && x in multiset(s)
    ensures s != [] && x <= s[0] && s[0] in multiset(s)
  {
    assert x in s;
  }

  lemma TailBag(s: seq<nat>)
    requires s != []
    ensures multiset(s[1..]) == multiset(s) - multiset{s[0]}
  {
    assert s == [s[0]] + s[1..];
  }

  lemma SameLargest(s: seq<nat>, t: seq<nat>)
    requires Descending(s) && Descending(t) && multiset(s) == multiset(t) && s != []
    ensures t != [] && s[0] == t[0] && multiset(s[1..]) == multiset(t[1..])
  {
    hide Descending;
    assert s[0] in multiset(s);
    FirstIsLargest(t, s[0]);
    FirstIsLargest(s, t[0]);
    TailBag(s);
    TailBag(t);
  }

  lemma TailDescends(s: seq<nat>)
    requires Descending(s) && s != []
    ensures Descending(s[1..])
  {
  }

  lemma {:induction false} DescendingUnique(s: seq<nat>, t: seq<nat>)
    requires Descending(s) && Descending(t) && multiset(s) == multiset(t)
    ensures s == t
  {
    hide Descending;
    if s == [] {
      assert |multiset(t)| == 0;
    } else {
      SameLargest(s, t);
      TailDescends(s);
      TailDescends(t);
      DescendingUnique(s[1..], t[1..]);
      assert s == [s[0]] + s[1..] && t == [t[0]] + t[1..];
    }
  }

  lemma ListsDescend(cfg: Config, c: Candidate)
    requires Inv(cfg, c)
    ensures Descending(Amounts(c.top.nominations + c.bottom.nominations))
    ensures |c.top.nominations| == if c.count <= cfg.maxTop then c.count else cfg.maxTop
  {
    var t, b := c.top.nominations, c.bottom.nominations;
    var u: seq<Bond> := t + b;
    AmountsAt(u);
    forall i, j | 0 <= i < j < |u| ensures u[i].amount >= u[j].amount {
      if i < |t| <= j {
        assert Across(t, b, u[i], u[j]);
      }
    }
  }

  /** History independence: two candidates with the same self-bond that hold the same amounts have the
      same amounts in the same places of their lists, the same caches and the same voting power,
      whatever sequences of operations led to them. */
  lemma HistoryIndependent(cfg: Config, c: Candidate, d: Candidate)
    requires Inv(cfg, c) && Inv(cfg, d) && c.bond == d.bond && HeldAmounts(c) == HeldAmounts(d)
    ensures Amounts(c.top.nominations) == Amounts(d.top.nominations)
    ensures Amounts(c.bottom.nominations) == Amounts(d.bottom.nominations)
    ensures c.votingPower == d.votingPower && c.count == d.count
    ensures c.lowestTop == d.lowestTop && c.highestBottom == d.highestBottom && c.lowestBottom == d.lowestBottom
    ensures c.topCapacity == d.topCapacity && c.bottomCapacity == d.bottomCapacity
  {
    hide Shape, Sum, Amounts;
    ListsDescend(cfg, c);
    ListsDescend(cfg, d);
    var s, t := Amounts(c.top.nominations + c.bottom.nominations), Amounts(d.top.nominations + d.bottom.nominations);
    DescendingUnique(s, t);
    AmountsConcat(c.top.nominations, c.bottom.nominations);
    AmountsConcat(d.top.nominations, d.bottom.nominations);
    AmountsAt(c.top.nominations);
    AmountsAt(c.bottom.nominations);
    AmountsAt(d.top.nominations);
    AmountsAt(d.bottom.nominations);
    assert |s| == c.count && |t| == d.count;
    var k := |c.top.nominations|;
    assert Amounts(c.top.nominations) == s[..k] && Amounts(d.top.nominations) == t[..k];
    assert Amounts(c.bottom.nominations) == s[k..] && Amounts(d.bottom.nominations) == t[k..];
  }

  // ----- voting power from the amounts alone

  ghost predicate IsLargest(m: multiset<nat>, x: nat) {
    x in m && forall y :: y in m ==> y <= x
  }

  lemma LargerOf(m: multiset<nat>, a: nat, x: nat)
    requires a in m && IsLargest(m - multiset{a}, x)
    ensures IsLargest(m, if a <= x then x else a)
  {
    forall y | y in m ensures y <= if a <= x then x else a {
      if y != a {
        assert y in m - multiset{a};
      }
    }
  }

  lemma OnlyOne(m: multiset<nat>, a: nat)
    requires a in m && |m - multiset{a}| == 0
    ensures IsLargest(m, a)
  {
    assert m == multiset{a} + (m - multiset{a});
    assert m - multiset{a} == multiset{};
  }

  lemma {:induction false} LargestExists(m: multiset<nat>)
    requires |m| > 0
    ensures exists x :: IsLargest(m, x)
    decreases |m|
  {
    hide IsLargest;
    var a :| a in m;
    if |m - multiset{a}| == 0 {
      OnlyOne(m, a);
    } else {
      LargestExists(m - multiset{a});
      var x :| IsLargest(m - multiset{a}, x);
      LargerOf(m, a, x);
    }
  }

  ghost function Largest(m: multiset<nat>): (x: nat)
    requires |m| > 0
    ensures IsLargest(m, x)
  {
    LargestExists(m);
    var x :| IsLargest(m, x);
    x
  }

  /** The sum of the `k` largest amounts, or of all if there are fewer. */
  ghost function SumOfLargest(m: multiset<nat>, k: nat): nat {
    if k == 0 || |m| == 0 then 0 else Largest(m) + SumOfLargest(m - multiset{Largest(m)}, k - 1)
  }

  lemma LargestFront(s: seq<nat>)
    requires Descending(s) && s != []
    ensures |multiset(s)| > 0 && Largest(multiset(s)) == s[0]
    ensures multiset(s) - multiset{s[0]} == multiset(s[1..]) && Descending(s[1..])
  {
    assert s[0] in multiset(s);
    var x := Largest(multiset(s));
    assert x in s;
    assert s == [s[0]] + s[1..];
  }

  lemma {:induction false} FrontIsLargest(s: seq<nat>, k: nat)
    requires Descending(s) && k <= |s|
    ensures SumOfLargest(multiset(s), k) == Total(s[..k])
    decreases k
  {
    hide Descending, SumOfLargest, Total;
    if k == 0 {
      TotalFront(s, 0);
      NoneLargest(multiset(s));
    } else {
      LargestFirst(s, k);
      FrontIsLargest(s[1..], k - 1);
      TotalFront(s, k);
    }
  }

  lemma NoneLargest(m: multiset<nat>)
    ensures SumOfLargest(m, 0) == 0
  {
  }

  lemma LargestFirst(s: seq<nat>, k: nat)
    requires Descending(s) && 0 < k <= |s|
    ensures SumOfLargest(multiset(s), k) == s[0] + SumOfLargest(multiset(s[1..]), k - 1) && Descending(s[1..])
  {
    hide Descending, Largest;
    LargestFront(s);
  }

  lemma TotalFront(s: seq<nat>, k: nat)
    requires k <= |s|
    ensures Total(s[..k]) == if k == 0 then 0 else s[0] + Total(s[1..][..k - 1])
  {
    if k > 0 {
      assert s[..k][1..] == s[1..][..k - 1];
    }
  }

  /** Asking for more than there is gives all there is. */
  lemma {:induction false} AllAreLargest(m: multiset<nat>, k: nat)
    requires k >= |m|
    ensures SumOfLargest(m, k) == SumOfLargest(m, |m|)
    decreases k
  {
    if |m| > 0 {
      AllAreLargest(m - multiset{Largest(m)}, k - 1);
    }
  }

  /** Voting power is the self-bond plus the `maxTop` largest nominations. */
  lemma VotingPowerIs(cfg: Config, c: Candidate)
    requires Inv(cfg, c)
    ensures c.votingPower == c.bond + SumOfLargest(HeldAmounts(c), cfg.maxTop)
  {
    hide Shape, Amounts;
    var t, b := c.top.nominations, c.bottom.nominations;
    var s := Amounts(t + b);
    ListsDescend(cfg, c);
    AmountsAt(t);
    AmountsAt(t + b);
    AmountsConcat(t, b);
    FrontIsLargest(s, |t|);
    AllAreLargest(multiset(s), if cfg.maxTop >= |s| then cfg.maxTop else |s|);
    assert s[..|t|] == Amounts(t);
  }

  lemma SameAll(c: Candidate, d: Candidate)
    requires All(c) == All(d)
    ensures HeldAmounts(c) == HeldAmounts(d)
  {
    var s, t := c.top.nominations + c.bottom.nominations, d.top.nominations + d.bottom.nominations;
    assert multiset(s) == multiset(t);
    AmountsPerm(s, t);
  }

  // ----- undoing

  /** Both lists hold the same amounts in the same places and every cache is the same. */
  ghost predicate SameStanding(c: Candidate, d: Candidate) {
    && Amounts(c.top.nominations) == Amounts(d.top.nominations) && Amounts(c.bottom.nominations) == Amounts(d.bottom.nominations)
    && c.votingPower == d.votingPower && c.count == d.count
    && c.lowestTop == d.lowestTop && c.highestBottom == d.highestBottom && c.lowestBottom == d.lowestBottom
    && c.topCapacity == d.topCapacity && c.bottomCapacity == d.bottomCapacity
  }

  lemma Undone(cfg: Config, c: Candidate, mid: Candidate, d: Candidate)
    requires Inv(cfg, c) && Inv(cfg, d) && SameSelf(c, mid) && SameSelf(mid, d) && All(d) == All(c)
    ensures SameStanding(c, d)
  {
    hide Shape, Cached, Sum, Amounts;
    SameAll(c, d);
    HistoryIndependent(cfg, c, d);
  }

  /** A nomination that evicts nobody, followed by its removal, restores the candidate's standing. */
  lemma AddThenRemove(cfg: Config, c: Candidate, b: Bond)
    requires cfg.Valid() && Inv(cfg, c) && !Owns(All(c), b.owner) && !BothFull(cfg, c)
    ensures AddNomination(cfg, c, b).Ok?
    ensures var mid := AddNomination(cfg, c, b).value.candidate;
      RmIfExists(cfg, mid, b.owner, b.amount).Ok? && SameStanding(c, RmIfExists(cfg, mid, b.owner, b.amount).value.0)
  {
    hide Inv, AddNomination, RmIfExists, SameStanding, All;
    AddKeeps(cfg, c, b);
    var mid := AddNomination(cfg, c, b).value.candidate;
    assert b == Bond(b.owner, b.amount);
    RmRefinesLookup(cfg, mid, b.owner, b.amount);
    Undone(cfg, c, mid, RmIfExists(cfg, mid, b.owner, b.amount).value.0);
  }

  lemma SwapBack(m: multiset<Bond>, x: Bond, y: Bond)
    requires x in m
    ensures var m' := m - multiset{x} + multiset{y}; y in m' && m' - multiset{y} + multiset{x} == m
  {
  }

  /** An increase followed by a decrease of the same amount restores the candidate's standing; but if the
      nomination is in the bottom list in between, the recorded bottom total has grown. */
  lemma IncreaseThenDecrease(cfg: Config, c: Candidate, n: Account, a: nat, more: nat)
    requires cfg.Valid() && Inv(cfg, c) && Bond(n, a) in All(c)
    ensures Increase(cfg, c, n, a, more).Ok?
    ensures var mid := Increase(cfg, c, n, a, more).value.0;
      && Decrease(cfg, mid, n, a + more, more).Ok? && SameStanding(c, Decrease(cfg, mid, n, a + more, more).value.0)
      && Drift(Decrease(cfg, mid, n, a + more, more).value.0)
         == Drift(c) + if Bond(n, a + more) in mid.bottom.nominations then more else 0
  {
    hide Inv, Increase, Decrease, SameStanding, All, Drift;
    IncreaseRefinesLookup(cfg, c, n, a, more);
    var mid := Increase(cfg, c, n, a, more).value.0;
    SwapBack(All(c), Bond(n, a), Bond(n, a + more));
    DecreaseRefinesLookup(cfg, mid, n, a + more, more);
    Undone(cfg, c, mid, Decrease(cfg, mid, n, a + more, more).value.0);
  }
}
