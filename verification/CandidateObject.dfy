/** The candidate as the pallet handles it: an object whose operations update its metadata and its two
    lists in place. Each operation is proved to do what the function of the same name in `Candidates`
    says. */
module CandidateObject {
  import opened Wrappers
  import opened Bonds
  import opened Candidates
  import opened CandidateLaws
  import opened NominationLists

  /** The answer `r` and the new value `after` are what `spec` says; an error changes nothing. */
  ghost predicate Does<T(!new)>(r: Result<T>, before: Candidate, after: Candidate, spec: Result<(Candidate, T)>) {
    match spec
    case Ok((c, x)) => r == Ok(x) && after == c
    case Err(e) => r == Err(e) && after == before
  }

  class CandidateState {
    const cfg: Config
    var stash: Account
    var bond: nat
    var count: nat
    var votingPower: nat
    var lowestTop: nat
    var highestBottom: nat
    var lowestBottom: nat
    var topCapacity: Capacity
    var bottomCapacity: Capacity
    var request: Option<BondLessRequest>
    var status: Status
    var tier: Tier
    var top: Nominations
    var bottom: Nominations

    ghost function Value(): Candidate
      reads this
    {
      Candidate(stash, bond, count, votingPower, lowestTop, highestBottom, lowestBottom, topCapacity, bottomCapacity,
                request, status, tier, top, bottom)
    }

    /** Both lists are sorted, which the binary search relies on. */
    ghost predicate Ordered()
      reads this
    {
      Sorted(top.nominations) && Sorted(bottom.nominations)
    }

    constructor (cfg: Config, stash: Account, bond: nat, tier: Tier)
      ensures this.cfg == cfg && Value() == NewCandidate(stash, bond, tier) && Ordered()
    {
      this.cfg := cfg;
      this.stash, this.bond, this.tier := stash, bond, tier;
      count, votingPower := 0, bond;
      lowestTop, highestBottom, lowestBottom := 0, 0, 0;
      topCapacity, bottomCapacity := Empty, Empty;
      request, status := None, Active;
      top, bottom := NoNominations, NoNominations;
    }

    method ResetTopData(l: Nominations)
      modifies this
      ensures Value() == ResetTop(cfg, old(Value()), l)
    {
      top := l;
      lowestTop := Lowest(l);
      topCapacity := CapacityOf(l, cfg.maxTop);
      votingPower := bond + l.total;
    }

    method ResetBottomData(l: Nominations)
      modifies this
      ensures Value() == ResetBottom(cfg, old(Value()), l)
    {
      bottom := l;
      lowestBottom := Lowest(l);
      highestBottom := Highest(l);
      bottomCapacity := CapacityOf(l, cfg.maxBottom);
    }

    /** Answers the evicted bond, whose owner is to be paid back. */
    method AddBottomNomination(bumped: bool, b: Bond) returns (r: Result<Option<Bond>>)
      requires Ordered()
      modifies this
      ensures Ordered() && Does(r, old(Value()), Value(), AddBottom(cfg, old(Value()), bumped, b))
    {
      hide Insert, StableSort, Shift, Without, Held, IsStableSort, Sorted, Sum;
      var l := bottom;
      var kicked: Option<Bond> := None;
      if |l.nominations| == cfg.maxBottom {
        if l.nominations == [] {
          return Err(BottomNominationDNE);
        }
        kicked := Some(l.nominations[|l.nominations| - 1]);
        PopSorted(l);
        l := Pop(l);
      } else if !bumped {
        count := count + 1;
      }
      l := InsertSorted(l, b);
      ResetBottomData(l);
      r := Ok(kicked);
    }

    method AddTopNomination(b: Bond) returns (r: Result<(Option<nat>, Option<Bond>)>)
      requires Ordered()
      modifies this
      ensures Ordered()
      ensures match AddTop(cfg, old(Value()), b)
        case Ok(a) => r == Ok((a.less, a.kicked)) && Value() == a.candidate
        case Err(e) => r == Err(e) && Value() == old(Value())
    {
      hide Insert, StableSort, Shift, Without, Held, IsStableSort, Sorted, Sum;
      var less: Option<nat> := None;
      var kicked: Option<Bond> := None;
      var l := top;
      if |l.nominations| == cfg.maxTop {
        if l.nominations == [] {
          return Err(TopNominationDNE);
        }
        var bumped := l.nominations[|l.nominations| - 1];
        PopSorted(l);
        l := Pop(l);
        if bottomCapacity.Full? {
          less := Some(lowestBottom);
        }
        var added := AddBottomNomination(true, bumped);
        match added {
          case Err(e) => return Err(e);
          case Ok(k) => kicked := k;
        }
      }
      l := InsertSorted(l, b);
      ResetTopData(l);
      if less.None? {
        count := count + 1;
      }
      r := Ok((less, kicked));
    }

    method AddNomination(b: Bond) returns (r: Result<(bool, Option<nat>, Option<Bond>)>)
      requires Ordered()
      modifies this
      ensures Ordered()
      ensures match Candidates.AddNomination(cfg, old(Value()), b)
        case Ok(a) => r == Ok((a.toTop, a.less, a.kicked)) && Value() == a.candidate
        case Err(e) => r == Err(e) && Value() == old(Value())
    {
      if topCapacity.Full? && lowestTop >= b.amount {
        var less: Option<nat> := None;
        if bottomCapacity.Full? {
          if b.amount <= lowestBottom {
            return Err(CannotNominateLessThanLowestBottomWhenBottomIsFull);
          }
          less := Some(lowestBottom);
        }
        var added := AddBottomNomination(false, b);
        match added {
          case Err(e) => r := Err(e);
          case Ok(kicked) => r := Ok((false, less, kicked));
        }
      } else {
        var added := AddTopNomination(b);
        match added {
          case Err(e) => r := Err(e);
          case Ok(a) => r := Ok((true, a.0, a.1));
        }
      }
    }

    method RmTopNomination(n: Account) returns (r: Result<bool>)
      requires Ordered()
      modifies this
      ensures Ordered() && Does(r, old(Value()), Value(), RmTop(cfg, old(Value()), n))
    {
      hide Insert, StableSort, Shift, Without, Held, IsStableSort, Sorted, Sum;
      var before := votingPower;
      var rest, amount := TakeOwner(top.nominations, n);
      WithoutSorted(top.nominations, n);
      if amount.None? {
        return Err(NominationDNE);
      }
      var l := Nominations(rest, SatSub(top.total, amount.value));
      if !bottomCapacity.Empty? {
        if bottom.nominations == [] {
          return Err(Trap);
        }
        var highest := bottom.nominations[0];
        PopSorted(bottom);
        ResetBottomData(PopFirst(bottom));
        l := InsertSorted(l, highest);
      }
      ResetTopData(l);
      count := SatSub(count, 1);
      r := Ok(before == votingPower);
    }

    method RmBottomNomination(n: Account) returns (r: Result<bool>)
      requires Ordered()
      modifies this
      ensures Ordered() && Does(r, old(Value()), Value(), RmBottom(cfg, old(Value()), n))
    {
      hide Insert, StableSort, Shift, Without, Held, IsStableSort, Sorted, Sum;
      var rest, amount := TakeOwner(bottom.nominations, n);
      WithoutSorted(bottom.nominations, n);
      if amount.None? {
        return Err(NominationDNE);
      }
      ResetBottomData(Nominations(rest, SatSub(bottom.total, amount.value)));
      count := SatSub(count, 1);
      r := Ok(false);
    }

    /** A failed attempt on the top list has changed nothing when the bottom list is tried. */
    method RmNominationIfExists(n: Account, amount: nat) returns (r: Result<bool>)
      requires Ordered()
      modifies this
      ensures Ordered() && Does(r, old(Value()), Value(), RmIfExists(cfg, old(Value()), n, amount))
    {
      var geqLowestTop := amount >= lowestTop;
      var tie := lowestTop == highestBottom;
      if !topCapacity.Full? || (geqLowestTop && !tie) {
        r := RmTopNomination(n);
      } else if geqLowestTop && tie {
        r := RmTopNomination(n);
        if r == Err(NominationDNE) {
          r := RmBottomNomination(n);
        }
      } else {
        r := RmBottomNomination(n);
      }
    }

    method IncreaseTopNomination(n: Account, more: nat) returns (r: Result<bool>)
      requires Ordered()
      modifies this
      ensures Ordered() && Does(r, old(Value()), Value(), IncreaseTop(cfg, old(Value()), n, more))
    {
      hide Insert, StableSort, Shift, Without, Held, IsStableSort, Sorted, Sum;
      var shifted, seen := ShiftOwner(top.nominations, n, more);
      if !seen {
        return Err(NominationDNE);
      }
      var sorted := SortGreatestToLeast(shifted);
      ResetTopData(Nominations(sorted, top.total + more));
      r := Ok(true);
    }

    method IncreaseBottomNomination(n: Account, recorded: nat, more: nat) returns (r: Result<bool>)
      requires Ordered()
      modifies this
      ensures Ordered() && Does(r, old(Value()), Value(), IncreaseBottom(cfg, old(Value()), n, recorded, more))
    {
      hide Insert, StableSort, Shift, Without, Held, IsStableSort, Sorted, Sum;
      var inTop := recorded + more > lowestTop;
      if inTop {
        var rest, amount := TakeOwner(bottom.nominations, n);
        WithoutSorted(bottom.nominations, n);
        if amount.None? {
          return Err(NominationDNE);
        }
        var b := Nominations(rest, SatSub(bottom.total, recorded));
        var t := top;
        if CapacityOf(t, cfg.maxTop).Full? {
          if t.nominations == [] {
            return Err(TopNominationDNE);
          }
          var lowest := t.nominations[|t.nominations| - 1];
          PopSorted(t);
          t := Pop(t);
          b := InsertSorted(b, lowest);
        }
        t := InsertSorted(t, Bond(n, amount.value + more));
        ResetTopData(t);
        ResetBottomData(b);
      } else {
        var shifted, seen := ShiftOwner(bottom.nominations, n, more);
        if !seen {
          return Err(NominationDNE);
        }
        var sorted := SortGreatestToLeast(shifted);
        ResetBottomData(Nominations(sorted, bottom.total + more));
      }
      r := Ok(inTop);
    }

    method IncreaseNomination(n: Account, recorded: nat, more: nat) returns (r: Result<bool>)
      requires Ordered()
      modifies this
      ensures Ordered() && Does(r, old(Value()), Value(), Increase(cfg, old(Value()), n, recorded, more))
    {
      var tie := lowestTop == highestBottom;
      var geqLowestTop := recorded >= lowestTop;
      if geqLowestTop && !tie {
        r := IncreaseTopNomination(n, more);
      } else if geqLowestTop && tie {
        r := IncreaseTopNomination(n, more);
        if r == Err(NominationDNE) {
          r := IncreaseBottomNomination(n, recorded, more);
        }
      } else {
        r := IncreaseBottomNomination(n, recorded, more);
      }
    }

    method DecreaseTopNomination(n: Account, recorded: nat, less: nat) returns (r: Result<bool>)
      requires Ordered()
      modifies this
      ensures Ordered() && Does(r, old(Value()), Value(), DecreaseTop(cfg, old(Value()), n, recorded, less))
    {
      hide Insert, StableSort, Shift, Without, Held, IsStableSort, Sorted, Sum;
      if SatSub(recorded, less) < highestBottom && topCapacity.Full? && !bottomCapacity.Empty? {
        var rest, amount := TakeOwner(top.nominations, n);
        WithoutSorted(top.nominations, n);
        if amount.None? {
          return Err(NominationDNE);
        }
        if bottom.nominations == [] {
          return Err(Trap);
        }
        var highest := bottom.nominations[0];
        PopSorted(bottom);
        var b := PopFirst(bottom);
        var t := InsertSorted(Nominations(rest, SatSub(top.total, amount.value)), highest);
        b := InsertSorted(b, Bond(n, SatSub(amount.value, less)));
        ResetBottomData(b);
        ResetTopData(t);
        r := Ok(false);
      } else {
        var shifted, seen := ShiftOwner(top.nominations, n, -(less as int));
        if !seen {
          return Err(NominationDNE);
        }
        var sorted := SortGreatestToLeast(shifted);
        ResetTopData(Nominations(sorted, SatSub(top.total, less)));
        r := Ok(true);
      }
    }

    method DecreaseBottomNomination(n: Account, less: nat) returns (r: Result<bool>)
      requires Ordered()
      modifies this
      ensures Ordered() && Does(r, old(Value()), Value(), DecreaseBottom(cfg, old(Value()), n, less))
    {
      hide Insert, StableSort, Shift, Without, Held, IsStableSort, Sorted, Sum;
      var shifted, seen := ShiftOwner(bottom.nominations, n, -(less as int));
      if !seen {
        return Err(NominationDNE);
      }
      var sorted := SortGreatestToLeast(shifted);
      ResetBottomData(Nominations(sorted, bottom.total));
      r := Ok(false);
    }

    method DecreaseNomination(n: Account, recorded: nat, less: nat) returns (r: Result<bool>)
      requires Ordered()
      modifies this
      ensures Ordered() && Does(r, old(Value()), Value(), Decrease(cfg, old(Value()), n, recorded, less))
    {
      var tie := lowestTop == highestBottom;
      var geqLowestTop := recorded >= lowestTop;
      if geqLowestTop && !tie {
        r := DecreaseTopNomination(n, recorded, less);
      } else if geqLowestTop && tie {
        r := DecreaseTopNomination(n, recorded, less);
        if r == Err(NominationDNE) {
          r := DecreaseBottomNomination(n, less);
        }
      } else {
        r := DecreaseBottomNomination(n, less);
      }
    }

    method BondMore(more: nat)
      modifies this
      ensures Value() == Candidates.BondMore(old(Value()), more)
    {
      bond := bond + more;
      votingPower := votingPower + more;
    }

    method ScheduleBondLess(round: nat, less: nat) returns (r: Result<nat>)
      modifies this
      ensures r.Ok? <==> old(request).None? && less < old(bond) && MinSelfBond(cfg, tier) + less <= old(bond)
      ensures r.Err? ==>
        && Value() == old(Value())
        && r.error == if request.Some? then PendingCandidateRequestAlreadyExists else CandidateBondBelowMin
      ensures r.Ok? ==>
        && r.value == round + cfg.candidateBondLessDelay && request == Some(BondLessRequest(less, r.value))
        && Value() == old(Value()).(request := request)
      ensures old(Inv(cfg, Value())) ==> Inv(cfg, Value())
      ensures r.Ok? ==> forall now: nat :: Candidates.ExecuteBondLess(Value(), now).Ok? <==> now >= r.value
      ensures r.Ok? ==> Candidates.ExecuteBondLess(Value(), r.value).value.bond == bond - less >= MinSelfBond(cfg, tier)
    {
      if request.Some? {
        return Err(PendingCandidateRequestAlreadyExists);
      }
      if bond <= less || bond - less < MinSelfBond(cfg, tier) {
        return Err(CandidateBondBelowMin);
      }
      var when := round + cfg.candidateBondLessDelay;
      request := Some(BondLessRequest(less, when));
      r := Ok(when);
    }

    /** Answers the amount to give back to the stash. */
    method ExecuteBondLess(round: nat) returns (r: Result<nat>)
      modifies this
      ensures r.Ok? <==> old(request).Some? && old(request).value.when <= round
      ensures r.Err? ==>
        && Value() == old(Value())
        && r.error == if request.None? then PendingCandidateRequestsDNE else PendingCandidateRequestNotDueYet
      ensures r.Ok? ==>
        && r.value == old(request).value.amount
        && Value() == old(Value()).(bond := SatSub(old(bond), r.value), votingPower := SatSub(old(votingPower), r.value), request := None)
      ensures r.Ok? && old(Inv(cfg, Value())) && r.value < old(bond) ==>
        Inv(cfg, Value()) && bond == old(bond) - r.value > 0 && votingPower == bond + top.total
    {
      match request {
        case None => r := Err(PendingCandidateRequestsDNE);
        case Some(due) =>
          if due.when > round {
            return Err(PendingCandidateRequestNotDueYet);
          }
          bond := SatSub(bond, due.amount);
          votingPower := SatSub(votingPower, due.amount);
          request := None;
          r := Ok(due.amount);
      }
    }
  }
}
