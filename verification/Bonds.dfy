/** Lists of nomination bonds, kept from greatest to least amount.

    The candidate keeps two such lists. Everything the pallet does to one of them is an insertion,
    the removal of an owner, a change of one owner's amount, or a stable sort; this module defines
    those operations on sequences and gives each its meaning as a multiset of bonds. */
module Bonds {
  import opened Wrappers

  type Account = nat

  datatype Bond = Bond(owner: Account, amount: nat)

  /** `saturating_sub`. */
  function SatSub(a: nat, b: nat): nat {
    if b <= a then a - b else 0
  }

  ghost function Sum(l: seq<Bond>): nat {
    if l == [] then 0 else l[0].amount + Sum(l[1..])
  }

  ghost predicate Sorted(l: seq<Bond>) {
    forall i, j :: 0 <= i < j < |l| ==> l[i].amount >= l[j].amount
  }

  ghost predicate SameOwner(m: multiset<Bond>, x: Bond, y: Bond) {
    x in m && y in m && x.owner == y.owner
  }

  /** No two bonds share an owner. */
  ghost predicate OneEach(m: multiset<Bond>) {
    forall x, y :: SameOwner(m, x, y) ==> x == y && m[x] == 1
  }

  ghost predicate Owns(m: multiset<Bond>, o: Account) {
    exists a: nat :: Bond(o, a) in m
  }

  ghost predicate Across(hi: seq<Bond>, lo: seq<Bond>, x: Bond, y: Bond) {
    x in hi && y in lo
  }

  /** Every amount of `hi` is at least every amount of `lo`. */
  ghost predicate Above(hi: seq<Bond>, lo: seq<Bond>) {
    forall x, y :: Across(hi, lo, x, y) ==> x.amount >= y.amount
  }

  // ----- the operations

  /** Puts `b` in front of the first strictly smaller bond: an earlier bond keeps its place ahead
      of a later one of the same amount. */
  function Insert(l: seq<Bond>, b: Bond): seq<Bond> {
    if l == [] || l[0].amount < b.amount then [b] + l else [l[0]] + Insert(l[1..], b)
  }

  /** Sorts greatest to least, keeping the order of equal amounts. */
  function StableSort(l: seq<Bond>): seq<Bond> {
    if l == [] then [] else Insert(StableSort(l[..|l| - 1]), l[|l| - 1])
  }

  /** Drops the bonds of owner `o`. */
  function Without(l: seq<Bond>, o: Account): seq<Bond> {
    if l == [] then []
    else if l[0].owner == o then Without(l[1..], o)
    else [l[0]] + Without(l[1..], o)
  }

  /** The amount of the last bond of owner `o`. */
  function Held(l: seq<Bond>, o: Account): Option<nat> {
    if l == [] then None
    else if Held(l[1..], o).Some? then Held(l[1..], o)
    else if l[0].owner == o then Some(l[0].amount)
    else None
  }

  /** `b` with its amount moved by `d`, stopping at zero, if it belongs to `o`. */
  function ShiftOne(b: Bond, o: Account, d: int): Bond {
    if b.owner != o then b
    else if b.amount + d < 0 then Bond(o, 0)
    else Bond(o, b.amount + d)
  }

  function Shift(l: seq<Bond>, o: Account, d: int): seq<Bond> {
    if l == [] then [] else [ShiftOne(l[0], o, d)] + Shift(l[1..], o, d)
  }

  // ----- what they do to the bonds as a multiset, to their sum and to their order

  lemma {:induction false} InsertCollects(l: seq<Bond>, b: Bond)
    ensures multiset(Insert(l, b)) == multiset(l) + multiset{b}
    ensures |Insert(l, b)| == |l| + 1
    ensures Sum(Insert(l, b)) == Sum(l) + b.amount
  {
    if l != [] && l[0].amount >= b.amount {
      InsertCollects(l[1..], b);
      assert l == [l[0]] + l[1..];
    }
  }

  lemma {:induction false} InsertBrings(l: seq<Bond>, b: Bond, cap: nat)
    requires b.amount <= cap && forall j :: 0 <= j < |l| ==> l[j].amount <= cap
    ensures forall j :: 0 <= j < |Insert(l, b)| ==> Insert(l, b)[j].amount <= cap
  {
    if l != [] && l[0].amount >= b.amount {
      InsertBrings(l[1..], b, cap);
    }
  }

  lemma SortedFrom(h: Bond, t: seq<Bond>)
    requires Sorted(t)
    requires forall j :: 0 <= j < |t| ==> t[j].amount <= h.amount
    ensures Sorted([h] + t)
  {
  }

  lemma {:induction false} InsertSorts(l: seq<Bond>, b: Bond)
    requires Sorted(l)
    ensures Sorted(Insert(l, b))
  {
    if l == [] || l[0].amount < b.amount {
      SortedFrom(b, l);
    } else {
      InsertSorts(l[1..], b);
      InsertBrings(l[1..], b, l[0].amount);
      SortedFrom(l[0], Insert(l[1..], b));
    }
  }

  lemma InsertFacts(l: seq<Bond>, b: Bond)
    ensures multiset(Insert(l, b)) == multiset(l) + multiset{b}
    ensures |Insert(l, b)| == |l| + 1
    ensures Sum(Insert(l, b)) == Sum(l) + b.amount
    ensures Sorted(l) ==> Sorted(Insert(l, b))
  {
    hide Insert, Sorted, Sum;
    InsertCollects(l, b);
    if Sorted(l) {
      InsertSorts(l, b);
    }
  }

  lemma {:induction false} SortFacts(l: seq<Bond>)
    ensures multiset(StableSort(l)) == multiset(l)
    ensures |StableSort(l)| == |l|
    ensures Sum(StableSort(l)) == Sum(l)
    ensures Sorted(StableSort(l))
  {
    hide Insert, Sum;
    if l != [] {
      var k := |l| - 1;
      SortFacts(l[..k]);
      InsertFacts(StableSort(l[..k]), l[k]);
      LastOut(l);
    }
  }

  lemma {:induction false} SumConcat(a: seq<Bond>, b: seq<Bond>)
    ensures Sum(a + b) == Sum(a) + Sum(b)
  {
    if a == [] {
      assert a + b == b;
    } else {
      assert a + b == [a[0]] + (a[1..] + b);
      SumConcat(a[1..], b);
    }
  }

  lemma {:induction false} SumAtLeast(l: seq<Bond>, b: Bond)
    requires b in l
    ensures b.amount <= Sum(l)
  {
    assert l == [l[0]] + l[1..];
    if b != l[0] {
      SumAtLeast(l[1..], b);
    }
  }

  lemma TakeOut(t: seq<Bond>, k: nat)
    requires k < |t|
    ensures var rest := t[..k] + t[k + 1..];
      multiset(t) == multiset(rest) + multiset{t[k]} && Sum(t) == Sum(rest) + t[k].amount
  {
    var a, b := t[..k], t[k + 1..];
    assert t == a + ([t[k]] + b);
    assert multiset([t[k]] + b) == multiset{t[k]} + multiset(b);
    SumConcat(a, b);
    SumConcat(a, [t[k]] + b);
  }

  /** The sum depends only on the bonds, not on their order. */
  lemma {:induction false} SumPerm(s: seq<Bond>, t: seq<Bond>)
    requires multiset(s) == multiset(t)
    ensures Sum(s) == Sum(t)
  {
    if s == [] {
      assert |multiset(t)| == 0;
    } else {
      assert s[0] in multiset(t);
      var k :| 0 <= k < |t| && t[k] == s[0];
      TakeOut(t, k);
      var rest := t[..k] + t[k + 1..];
      FirstOut(s);
      assert multiset(s[1..]) == multiset(s) - multiset{s[0]};
      assert multiset(rest) == multiset(t) - multiset{s[0]};
      SumPerm(s[1..], rest);
    }
  }

  lemma {:induction false} HeldFacts(l: seq<Bond>, o: Account)
    ensures Held(l, o).Some? ==> Bond(o, Held(l, o).value) in l
    ensures Held(l, o).None? ==> forall b :: b in l ==> b.owner != o
  {
    if l != [] {
      assert l == [l[0]] + l[1..];
      HeldFacts(l[1..], o);
    }
  }

  /** Under distinct owners `Held` finds exactly the owner's amount. */
  lemma HeldIs(l: seq<Bond>, o: Account, a: nat)
    requires OneEach(multiset(l)) && Bond(o, a) in l
    ensures Held(l, o) == Some(a)
  {
    HeldFacts(l, o);
    assert SameOwner(multiset(l), Bond(o, a), Bond(o, Held(l, o).value));
  }

  lemma {:induction false} WithoutNone(l: seq<Bond>, o: Account)
    requires forall b :: b in l ==> b.owner != o
    ensures Without(l, o) == l
  {
    if l != [] {
      assert l == [l[0]] + l[1..];
      WithoutNone(l[1..], o);
    }
  }

  /** `o` has exactly one bond in `l`, of amount `a`. */
  ghost predicate Once(l: seq<Bond>, o: Account, a: nat) {
    Bond(o, a) in l && multiset(l)[Bond(o, a)] == 1 && forall b :: b in l && b.owner == o ==> b.amount == a
  }

  lemma OnceIn(l: seq<Bond>, o: Account, a: nat)
    requires OneEach(multiset(l)) && Bond(o, a) in l
    ensures Once(l, o, a)
  {
    assert SameOwner(multiset(l), Bond(o, a), Bond(o, a));
    forall b | b in l && b.owner == o ensures b.amount == a {
      assert SameOwner(multiset(l), b, Bond(o, a));
    }
  }

  lemma OnceTail(l: seq<Bond>, o: Account, a: nat)
    requires Once(l, o, a)
    ensures l != []
    ensures l[0].owner != o ==> Once(l[1..], o, a)
    ensures l[0].owner == o ==> l[0] == Bond(o, a) && forall b :: b in l[1..] ==> b.owner != o
    ensures multiset(l) == multiset{l[0]} + multiset(l[1..])
  {
    assert l == [l[0]] + l[1..];
    forall b | b in l[1..] ensures b in l {}
    if l[0].owner == o {
      assert Bond(o, a) !in multiset(l[1..]);
    }
  }

  lemma {:induction false} WithoutBag(l: seq<Bond>, o: Account, a: nat)
    requires Once(l, o, a)
    ensures multiset(Without(l, o)) == multiset(l) - multiset{Bond(o, a)}
  {
    OnceTail(l, o, a);
    if l[0].owner == o {
      WithoutNone(l[1..], o);
    } else {
      WithoutBag(l[1..], o, a);
      assert Bond(o, a) in multiset(l[1..]);
    }
  }

  lemma {:induction false} WithoutFacts(l: seq<Bond>, o: Account, a: nat)
    requires Once(l, o, a)
    ensures multiset(Without(l, o)) == multiset(l) - multiset{Bond(o, a)}
    ensures |Without(l, o)| == |l| - 1
    ensures Sum(Without(l, o)) == Sum(l) - a
  {
    hide Once;
    WithoutBag(l, o, a);
    OnceTail(l, o, a);
    if l[0].owner == o {
      WithoutNone(l[1..], o);
    } else {
      WithoutFacts(l[1..], o, a);
    }
  }

  lemma {:induction false} WithoutSorted(l: seq<Bond>, o: Account)
    requires Sorted(l)
    ensures Sorted(Without(l, o))
    ensures forall b :: b in Without(l, o) ==> b in l
  {
    if l != [] {
      WithoutSorted(l[1..], o);
      assert l == [l[0]] + l[1..];
      var t := Without(l[1..], o);
      forall j | 0 <= j < |t| ensures l[0].amount >= t[j].amount {
        assert t[j] in l[1..];
      }
    }
  }

  lemma {:induction false} ShiftNone(l: seq<Bond>, o: Account, d: int)
    requires forall b :: b in l ==> b.owner != o
    ensures Shift(l, o, d) == l
  {
    if l != [] {
      assert l == [l[0]] + l[1..];
      ShiftNone(l[1..], o, d);
    }
  }

  lemma {:induction false} ShiftSum(l: seq<Bond>, o: Account, a: nat, d: int)
    requires Once(l, o, a) && a + d >= 0
    ensures |Shift(l, o, d)| == |l|
    ensures Sum(Shift(l, o, d)) == Sum(l) + d
  {
    hide Once;
    OnceTail(l, o, a);
    if l[0].owner == o {
      ShiftNone(l[1..], o, d);
    } else {
      ShiftSum(l[1..], o, a, d);
    }
  }

  lemma ConsBag(x: Bond, s: seq<Bond>)
    ensures multiset([x] + s) == multiset{x} + multiset(s)
  {
  }

  /** How the three collections of `l` follow from those of its tail when the first bond is another's. */
  lemma ShiftHead(l: seq<Bond>, o: Account, d: int)
    requires l != [] && l[0].owner != o
    ensures multiset(Shift(l, o, d)) == multiset{l[0]} + multiset(Shift(l[1..], o, d))
    ensures multiset(Without(l, o)) == multiset{l[0]} + multiset(Without(l[1..], o))
  {
    ConsBag(l[0], Shift(l[1..], o, d));
    ConsBag(l[0], Without(l[1..], o));
  }

  lemma ShiftOwn(l: seq<Bond>, o: Account, a: nat, d: int)
    requires l != [] && l[0] == Bond(o, a) && a + d >= 0 && forall b :: b in l[1..] ==> b.owner != o
    ensures multiset(Shift(l, o, d)) == multiset{Bond(o, a + d)} + multiset(l[1..]) && Without(l, o) == l[1..]
  {
    ShiftNone(l[1..], o, d);
    WithoutNone(l[1..], o);
    ConsBag(Bond(o, a + d), l[1..]);
  }

  lemma {:induction false} ShiftMultiset(l: seq<Bond>, o: Account, a: nat, d: int)
    requires Once(l, o, a) && a + d >= 0
    ensures multiset(Shift(l, o, d)) == multiset(Without(l, o)) + multiset{Bond(o, a + d)}
  {
    hide Once, Shift, Without;
    OnceTail(l, o, a);
    if l[0].owner == o {
      ShiftOwn(l, o, a, d);
    } else {
      ShiftHead(l, o, d);
      ShiftMultiset(l[1..], o, a, d);
    }
  }

  lemma ShiftFacts(l: seq<Bond>, o: Account, a: nat, d: int)
    requires Once(l, o, a) && a + d >= 0
    ensures multiset(Shift(l, o, d)) == multiset(l) - multiset{Bond(o, a)} + multiset{Bond(o, a + d)}
    ensures |Shift(l, o, d)| == |l|
    ensures Sum(Shift(l, o, d)) == Sum(l) + d
  {
    ShiftMultiset(l, o, a, d);
    WithoutFacts(l, o, a);
    ShiftSum(l, o, a, d);
  }

  /** Taking one owner's bond out leaves no other bond of that owner. */
  lemma OneEachTake(m: multiset<Bond>, b: Bond)
    requires OneEach(m) && b in m
    ensures OneEach(m - multiset{b}) && !Owns(m - multiset{b}, b.owner)
  {
    var r := m - multiset{b};
    forall x, y | SameOwner(r, x, y) ensures x == y && r[x] == 1 {
      assert SameOwner(m, x, y);
    }
    forall a: nat ensures Bond(b.owner, a) !in r {
      var x := Bond(b.owner, a);
      assert x in m ==> SameOwner(m, b, x);
    }
  }

  lemma OneEachAdd(m: multiset<Bond>, b: Bond)
    requires OneEach(m) && !Owns(m, b.owner)
    ensures OneEach(m + multiset{b})
  {
    var r := m + multiset{b};
    forall x, y | SameOwner(r, x, y) ensures x == y && r[x] == 1 {
      assert x == Bond(x.owner, x.amount) && y == Bond(y.owner, y.amount);
      if x.owner != b.owner {
        assert SameOwner(m, x, y);
      }
    }
  }

  lemma OneEachPart(a: multiset<Bond>, b: multiset<Bond>)
    requires OneEach(a + b)
    ensures OneEach(a) && OneEach(b)
  {
    forall x, y | SameOwner(a, x, y) ensures x == y && a[x] == 1 {
      assert SameOwner(a + b, x, y);
    }
    forall x, y | SameOwner(b, x, y) ensures x == y && b[x] == 1 {
      assert SameOwner(a + b, x, y);
    }
  }

  // ----- the ends of a sorted list

  lemma SortedEnds(l: seq<Bond>)
    requires l != [] && Sorted(l)
    ensures forall x :: x in l ==> l[|l| - 1].amount <= x.amount <= l[0].amount
    ensures Sorted(l[1..]) && Sorted(l[..|l| - 1])
  {
  }

  lemma LastOut(l: seq<Bond>)
    requires l != []
    ensures multiset(l) == multiset(l[..|l| - 1]) + multiset{l[|l| - 1]}
    ensures Sum(l) == Sum(l[..|l| - 1]) + l[|l| - 1].amount
  {
    var k := |l| - 1;
    assert l == l[..k] + [l[k]];
    SumConcat(l[..k], [l[k]]);
  }

  lemma FirstOut(l: seq<Bond>)
    requires l != []
    ensures multiset(l) == multiset{l[0]} + multiset(l[1..])
    ensures Sum(l) == l[0].amount + Sum(l[1..])
  {
    assert l == [l[0]] + l[1..];
  }

  // ----- the sort the pallet relies on, whichever algorithm computes it

  ghost function OfAmount(l: seq<Bond>, a: nat): seq<Bond> {
    if l == [] then []
    else if l[0].amount == a then [l[0]] + OfAmount(l[1..], a)
    else OfAmount(l[1..], a)
  }

  ghost predicate SameByAmount(s: seq<Bond>, t: seq<Bond>) {
    forall a: nat :: OfAmount(s, a) == OfAmount(t, a)
  }

  /** `s` is `l` sorted greatest to least, equal amounts in their original order. */
  ghost predicate IsStableSort(l: seq<Bond>, s: seq<Bond>) {
    Sorted(s) && multiset(s) == multiset(l) && SameByAmount(s, l)
  }

  lemma {:induction false} OfAmountConcat(x: seq<Bond>, y: seq<Bond>, a: nat)
    ensures OfAmount(x + y, a) == OfAmount(x, a) + OfAmount(y, a)
  {
    if x == [] {
      assert x + y == y;
    } else {
      assert x + y == [x[0]] + (x[1..] + y);
      OfAmountConcat(x[1..], y, a);
    }
  }

  lemma {:induction false} OfAmountNone(l: seq<Bond>, a: nat)
    requires forall i :: 0 <= i < |l| ==> l[i].amount != a
    ensures OfAmount(l, a) == []
  {
    if l != [] {
      OfAmountNone(l[1..], a);
    }
  }

  lemma {:induction false} InsertOfAmount(l: seq<Bond>, b: Bond, a: nat)
    requires Sorted(l)
    ensures OfAmount(Insert(l, b), a) == OfAmount(l + [b], a)
  {
    OfAmountConcat(l, [b], a);
    if l == [] || l[0].amount < b.amount {
      if a == b.amount {
        OfAmountNone(l, a);
      }
    } else {
      InsertOfAmount(l[1..], b, a);
      OfAmountConcat(l[1..], [b], a);
    }
  }

  /** Insertion into a sorted list is exactly appending and sorting stably. */
  lemma InsertIsStable(l: seq<Bond>, b: Bond)
    requires Sorted(l)
    ensures IsStableSort(l + [b], Insert(l, b))
  {
    InsertFacts(l, b);
    forall a: nat ensures OfAmount(Insert(l, b), a) == OfAmount(l + [b], a) {
      InsertOfAmount(l, b, a);
    }
  }

  lemma {:induction false} StableSortIsStable(l: seq<Bond>)
    ensures IsStableSort(l, StableSort(l))
  {
    if l != [] {
      var k := |l| - 1;
      var s := StableSort(l[..k]);
      StableSortIsStable(l[..k]);
      InsertIsStable(s, l[k]);
      assert l == l[..k] + [l[k]];
      forall a: nat ensures OfAmount(StableSort(l), a) == OfAmount(l, a) {
        OfAmountConcat(s, [l[k]], a);
        OfAmountConcat(l[..k], [l[k]], a);
      }
    }
  }

  lemma OfAmountHead(l: seq<Bond>)
    requires l != []
    ensures OfAmount(l, l[0].amount) == [l[0]] + OfAmount(l[1..], l[0].amount)
  {
  }

  lemma SortedHeads(s: seq<Bond>, t: seq<Bond>)
    requires Sorted(s) && Sorted(t) && multiset(s) == multiset(t) && s != []
    ensures t != [] && s[0].amount == t[0].amount
  {
    assert s[0] in multiset(t);
    assert t[0] in multiset(s);
  }

  lemma SameTails(h: Bond, s: seq<Bond>, t: seq<Bond>)
    requires SameByAmount([h] + s, [h] + t)
    ensures SameByAmount(s, t)
  {
    forall a: nat ensures OfAmount(s, a) == OfAmount(t, a) {
      assert OfAmount([h] + s, a) == OfAmount([h] + t, a);
      OfAmountConcat([h], s, a);
      OfAmountConcat([h], t, a);
      var p := OfAmount([h], a);
      assert OfAmount(s, a) == (p + OfAmount(s, a))[|p|..];
      assert OfAmount(t, a) == (p + OfAmount(t, a))[|p|..];
    }
  }

  lemma SameHeads(s: seq<Bond>, t: seq<Bond>)
    requires Sorted(s) && Sorted(t) && multiset(s) == multiset(t) && SameByAmount(s, t) && s != []
    ensures t != [] && s[0] == t[0]
  {
    SortedHeads(s, t);
    OfAmountHead(s);
    OfAmountHead(t);
    assert OfAmount(s, s[0].amount)[0] == OfAmount(t, s[0].amount)[0];
  }

  lemma SortedTail(s: seq<Bond>)
    requires Sorted(s) && s != []
    ensures Sorted(s[1..])
  {
  }

  /** There is only one stable sort, so the sorting algorithm cannot matter. */
  lemma {:induction false} StableSortUnique(s: seq<Bond>, t: seq<Bond>)
    requires Sorted(s) && Sorted(t) && multiset(s) == multiset(t) && SameByAmount(s, t)
    ensures s == t
  {
    hide Sorted, OfAmount, SameByAmount;
    if s == [] {
      assert |multiset(t)| == 0;
    } else {
      SameHeads(s, t);
      SortedTail(s);
      SortedTail(t);
      var h, s', t' := s[0], s[1..], t[1..];
      assert s == [h] + s' && t == [h] + t';
      SameTails(h, s', t');
      FirstOut(s);
      FirstOut(t);
      assert multiset(s') == multiset(s) - multiset{h} == multiset(t');
      StableSortUnique(s', t');
    }
  }

  /** Sorting a sorted list changes nothing. */
  lemma SortSorted(l: seq<Bond>)
    requires Sorted(l)
    ensures StableSort(l) == l
  {
    StableSortIsStable(l);
    StableSortUnique(StableSort(l), l);
  }
}
