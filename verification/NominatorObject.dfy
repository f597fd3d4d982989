/** The nominator as the pallet handles it: an object whose operations update its nominations, its total
    and its pending requests in place, each doing what the function of `Nominators` says. */
module NominatorObject {
  import opened Wrappers
  import opened Bonds
  import opened Candidates
  import opened Nominators

  class NominatorState {
    const cfg: Config
    var nominations: map<Account, nat>
    var total: nat
    var requests: map<Account, Request>
    var revocations: nat
    var lessTotal: nat
    var status: NominatorStatus

    ghost function Value(): Nominator
      reads this
    {
      Nominator(nominations, total, requests, revocations, lessTotal, status)
    }

    constructor (cfg: Config, c: Account, amount: nat)
      ensures this.cfg == cfg && Value() == NewNominator(c, amount) && (amount > 0 ==> LedgerOk(Value()))
    {
      this.cfg := cfg;
      nominations, total := map[c := amount], amount;
      requests, revocations, lessTotal := map[], 0, 0;
      status := Staying;
      if amount > 0 {
        NewNominatorOk(c, amount);
      }
    }

    method AddNomination(c: Account, amount: nat) returns (r: Result<()>)
      modifies this
      ensures old(LedgerOk(Value())) && amount > 0 ==> LedgerOk(Value())
      ensures match AddEntry(old(Value()), c, amount)
        case Ok(s) => r == Ok(()) && Value() == s
        case Err(e) => r == Err(e) && Value() == old(Value())
    {
      hide LedgerOk;
      if c in nominations {
        return Err(AlreadyNominatedCandidate);
      }
      if LedgerOk(Value()) && amount > 0 {
        AddEntryOk(Value(), c, amount);
      }
      nominations := nominations[c := amount];
      total := total + amount;
      r := Ok(());
    }

    /** Answers what remains, if there was such a nomination. */
    method RmNomination(c: Account) returns (r: Option<nat>)
      modifies this
      ensures r == if c in old(nominations) then Some(total) else None
      ensures Value() == old(Value()).(nominations := old(nominations) - {c}, total := total) && Value() == RmEntry(old(Value()), c)
      ensures old(LedgerOk(Value())) && c !in old(requests) ==> LedgerOk(Value())
      ensures old(LedgerOk(Value())) && c in old(nominations) ==>
        total + old(nominations)[c] == old(total) && AddEntry(Value(), c, old(nominations)[c]) == Ok(old(Value()))
    {
      ghost var s := Value();
      if LedgerOk(s) && c in nominations {
        RmThenAdd(s, c);
      }
      assert c !in nominations ==> nominations - {c} == nominations;
      if c in nominations {
        total := SatSub(total, nominations[c]);
        nominations := nominations - {c};
        return Some(total);
      }
      r := None;
    }

    method DropRequest(c: Account)
      modifies this
      ensures Value() == RemoveRequest(old(Value()), c)
      ensures old(LedgerOk(Value())) ==> LedgerOk(Value())
    {
      hide LedgerOk;
      if LedgerOk(Value()) {
        RemoveRequestOk(Value(), c);
      }
      if c in requests {
        var request := requests[c];
        requests := requests - {c};
        lessTotal := SatSub(lessTotal, request.amount);
        if request.action.Revoke? {
          revocations := SatSub(revocations, 1);
        }
      }
    }

    method ScheduleDecreaseNomination(round: nat, c: Account, less: nat) returns (r: Result<nat>)
      modifies this
      ensures old(LedgerOk(Value()) && status.Staying?) ==> LedgerOk(Value())
      ensures match ScheduleDecrease(cfg, old(Value()), round, c, less)
        case Ok(s) => Value() == s && r == Ok(round + cfg.nominationBondLessDelay)
        case Err(e) => Value() == old(Value()) && r == Err(e)
    {
      hide LedgerOk, WrapSub;
      if LedgerOk(Value()) && status.Staying? {
        ScheduleKeeps(cfg, Value(), round, c, less);
      }
      if c !in nominations {
        return Err(NominationDNE);
      }
      if nominations[c] <= less {
        return Err(NominatorBondBelowMin);
      }
      if nominations[c] - less < cfg.minNomination {
        return Err(NominationBelowMin);
      }
      var net := WrapSub(total, lessTotal);
      var most := WrapSub(net, cfg.minNominatorStk);
      if less > most {
        return Err(NominatorBondBelowMin);
      }
      if c in requests {
        return Err(PendingNominationRequestAlreadyExists);
      }
      var when := round + cfg.nominationBondLessDelay;
      requests := requests[c := Request(less, when, Decrease)];
      lessTotal := lessTotal + less;
      r := Ok(when);
    }

    method ScheduleRevokeNomination(round: nat, c: Account) returns (r: Result<nat>)
      modifies this
      ensures old(LedgerOk(Value()) && status.Staying?) ==> LedgerOk(Value())
      ensures match ScheduleRevoke(cfg, old(Value()), round, c)
        case Ok(s) => Value() == s && r == Ok(round + cfg.revokeNominationDelay)
        case Err(e) => Value() == old(Value()) && r == Err(e)
    {
      hide LedgerOk;
      if LedgerOk(Value()) && status.Staying? {
        ScheduleKeeps(cfg, Value(), round, c, 0);
      }
      if c !in nominations {
        return Err(NominationDNE);
      }
      if c in requests {
        return Err(PendingNominationRequestAlreadyExists);
      }
      var when := round + cfg.revokeNominationDelay;
      requests := requests[c := Request(nominations[c], when, Revoke)];
      revocations := revocations + 1;
      lessTotal := lessTotal + nominations[c];
      r := Ok(when);
    }

    method CancelPendingRequest(c: Account) returns (r: Result<Request>)
      modifies this
      ensures old(LedgerOk(Value())) ==> LedgerOk(Value())
      ensures match CancelRequest(old(Value()), c)
        case Ok(s) => Value() == s && r == Ok(old(requests)[c])
        case Err(e) => Value() == old(Value()) && r == Err(e)
    {
      if c !in requests {
        return Err(PendingNominationRequestDNE);
      }
      var order := requests[c];
      DropRequest(c);
      r := Ok(order);
    }
  }
}
