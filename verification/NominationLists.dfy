/** The loops the pallet runs over one list of nominations. */
module NominationLists {
  import opened Wrappers
  import opened Bonds
  import opened Candidates

  datatype Search = Found(at: nat) | Missing(at: nat)

  /** What a binary search for `amount` in a list sorted from greatest to least may answer: any index
      of that amount, or the place where it would go. */
  ghost predicate LegalSearch(l: seq<Bond>, amount: nat, r: Search) {
    match r
    case Found(i) => i < |l| && l[i].amount == amount
    case Missing(i) =>
      && i <= |l| && (forall j :: 0 <= j < i ==> l[j].amount > amount) && (forall j :: i <= j < |l| ==> l[j].amount < amount)
  }

  method BinarySearch(l: seq<Bond>, amount: nat) returns (r: Search)
    requires Sorted(l)
    ensures LegalSearch(l, amount, r)
  {
    var lo, hi := 0, |l|;
    while lo < hi
      invariant 0 <= lo <= hi <= |l|
      invariant forall j :: 0 <= j < lo ==> l[j].amount > amount
      invariant forall j :: hi <= j < |l| ==> l[j].amount < amount
    {
      var mid := lo + (hi - lo) / 2;
      if l[mid].amount == amount {
        return Found(mid);
      } else if l[mid].amount > amount {
        lo := mid + 1;
      } else {
        hi := mid;
      }
    }
    r := Missing(lo);
  }

  /** Where the pallet inserts: past every bond of the same amount. */
  method InsertionIndex(l: seq<Bond>, amount: nat, search: Search) returns (i: nat)
    requires Sorted(l) && LegalSearch(l, amount, search)
    ensures i <= |l| && (forall j :: 0 <= j < i ==> l[j].amount >= amount) && (forall j :: i <= j < |l| ==> l[j].amount < amount)
  {
    match search {
      case Missing(at) => i := at;
      case Found(at) =>
        i := at;
        while i < |l| && l[i].amount == amount
          invariant at <= i <= |l|
          invariant forall j :: at <= j < i ==> l[j].amount == amount
        {
          i := i + 1;
        }
    }
  }

  lemma {:induction false} InsertAt(l: seq<Bond>, b: Bond, i: nat)
    requires i <= |l| && (forall j :: 0 <= j < i ==> l[j].amount >= b.amount) && (i < |l| ==> l[i].amount < b.amount)
    ensures Insert(l, b) == l[..i] + [b] + l[i..]
  {
    if i == 0 {
      assert l[..0] + [b] + l[0..] == [b] + l;
    } else {
      var t := l[1..];
      InsertAt(t, b, i - 1);
      assert Insert(l, b) == [l[0]] + Insert(t, b);
      assert l[..i] == [l[0]] + t[..i - 1];
      assert l[i..] == t[i - 1..];
    }
  }

  /** Whichever index the search answered, the result is the stable sort of the list with the
      nomination appended. */
  method InsertSorted(l: Nominations, b: Bond) returns (r: Nominations)
    requires Sorted(l.nominations)
    ensures r == InsertInto(l, b)
    ensures IsStableSort(l.nominations + [b], r.nominations) && r.total == l.total + b.amount
    ensures Sorted(r.nominations)
  {
    var search := BinarySearch(l.nominations, b.amount);
    var i := InsertionIndex(l.nominations, b.amount, search);
    InsertAt(l.nominations, b, i);
    InsertIsStable(l.nominations, b);
    r := Nominations(l.nominations[..i] + [b] + l.nominations[i..], l.total + b.amount);
  }

  /** `sort_by`: any stable sort gives this result. */
  method SortGreatestToLeast(l: seq<Bond>) returns (s: seq<Bond>)
    ensures s == StableSort(l) && IsStableSort(l, s) && Sorted(s)
  {
    s := [];
    var i := 0;
    while i < |l|
      invariant 0 <= i <= |l| && s == StableSort(l[..i])
    {
      SortFacts(l[..i]);
      var r := InsertSorted(Nominations(s, 0), l[i]);
      assert l[..i + 1][..i] == l[..i];
      s := r.nominations;
      i := i + 1;
    }
    assert l[..i] == l;
    StableSortIsStable(l);
  }

  lemma {:induction false} WithoutSnoc(l: seq<Bond>, b: Bond, o: Account)
    ensures Without(l + [b], o) == Without(l, o) + if b.owner == o then [] else [b]
    ensures Held(l + [b], o) == if b.owner == o then Some(b.amount) else Held(l, o)
  {
    if l == [] {
      assert l + [b] == [b];
      assert [b][1..] == [];
    } else {
      assert (l + [b])[1..] == l[1..] + [b];
      WithoutSnoc(l[1..], b, o);
    }
  }

  lemma {:induction false} ShiftSnoc(l: seq<Bond>, b: Bond, o: Account, d: int)
    ensures Shift(l + [b], o, d) == Shift(l, o, d) + [ShiftOne(b, o, d)]
  {
    if l == [] {
      assert l + [b] == [b];
      assert [b][1..] == [];
    } else {
      assert (l + [b])[1..] == l[1..] + [b];
      ShiftSnoc(l[1..], b, o, d);
    }
  }

  /** The filter that drops an owner and remembers the amount it saw. */
  method TakeOwner(l: seq<Bond>, o: Account) returns (rest: seq<Bond>, amount: Option<nat>)
    ensures rest == Without(l, o) && amount == Held(l, o)
  {
    rest, amount := [], None;
    var i := 0;
    while i < |l|
      invariant 0 <= i <= |l| && rest == Without(l[..i], o) && amount == Held(l[..i], o)
    {
      WithoutSnoc(l[..i], l[i], o);
      assert l[..i + 1] == l[..i] + [l[i]];
      if l[i].owner != o {
        rest := rest + [l[i]];
      } else {
        amount := Some(l[i].amount);
      }
      i := i + 1;
    }
    assert l[..i] == l;
  }

  /** The map that moves an owner's amount by `d` and remembers whether it saw the owner. */
  method ShiftOwner(l: seq<Bond>, o: Account, d: int) returns (r: seq<Bond>, seen: bool)
    ensures r == Shift(l, o, d) && seen == Held(l, o).Some?
  {
    r, seen := [], false;
    var i := 0;
    while i < |l|
      invariant 0 <= i <= |l| && r == Shift(l[..i], o, d) && seen == Held(l[..i], o).Some?
    {
      WithoutSnoc(l[..i], l[i], o);
      ShiftSnoc(l[..i], l[i], o, d);
      assert l[..i + 1] == l[..i] + [l[i]];
      seen := seen || l[i].owner == o;
      r := r + [ShiftOne(l[i], o, d)];
      i := i + 1;
    }
    assert l[..i] == l;
  }

  lemma PopSorted(l: Nominations)
    requires l.nominations != [] && Sorted(l.nominations)
    ensures Sorted(Pop(l).nominations) && Sorted(PopFirst(l).nominations)
  {
  }
}
