/** One nominator: the nominations it holds, its running total and its pending requests. */
module Nominators {
  import opened Wrappers
  import opened Bonds
  import opened Candidates
  import opened MapSums

  datatype Action = Revoke | Decrease
  datatype Request = Request(amount: nat, when: nat, action: Action)
  datatype NominatorStatus = Staying | Exiting(when: nat)

  datatype Nominator = Nominator(
    nominations: map<Account, nat>, total: nat,
    requests: map<Account, Request>, revocations: nat, lessTotal: nat,
    status: NominatorStatus)

  const BALANCES: nat := 0x1_0000_0000_0000_0000_0000_0000_0000_0000

  /** Plain `-` on 128-bit balances: the release profile has no overflow checks, so it wraps. */
  function WrapSub(a: nat, b: nat): nat {
    if b <= a then a - b else (a - b) % BALANCES
  }

  function NewNominator(c: Account, amount: nat): Nominator {
    Nominator(map[c := amount], amount, map[], 0, 0, Staying)
  }

  function AddEntry(s: Nominator, c: Account, amount: nat): Result<Nominator> {
    if c in s.nominations then Err(AlreadyNominatedCandidate)
    else Ok(s.(nominations := s.nominations[c := amount], total := s.total + amount))
  }

  function RmEntry(s: Nominator, c: Account): Nominator {
    if c in s.nominations then
      s.(nominations := s.nominations - {c}, total := SatSub(s.total, s.nominations[c]))
    else s
  }

  function RemoveRequest(s: Nominator, c: Account): Nominator {
    if c in s.requests then
      var r := s.requests[c];
      s.(requests := s.requests - {c}, lessTotal := SatSub(s.lessTotal, r.amount),
         revocations := if r.action.Revoke? then SatSub(s.revocations, 1) else s.revocations)
    else s
  }

  function ScheduleDecrease(cfg: Config, s: Nominator, round: nat, c: Account, less: nat): Result<Nominator> {
    if c !in s.nominations then Err(NominationDNE)
    else if s.nominations[c] <= less then Err(NominatorBondBelowMin)
    else if s.nominations[c] - less < cfg.minNomination then Err(NominationBelowMin)
    else if less > WrapSub(WrapSub(s.total, s.lessTotal), cfg.minNominatorStk) then Err(NominatorBondBelowMin)
    else if c in s.requests then Err(PendingNominationRequestAlreadyExists)
    else Ok(s.(requests := s.requests[c := Request(less, round + cfg.nominationBondLessDelay, Decrease)],
               lessTotal := s.lessTotal + less))
  }

  function ScheduleRevoke(cfg: Config, s: Nominator, round: nat, c: Account): Result<Nominator> {
    if c !in s.nominations then Err(NominationDNE)
    else if c in s.requests then Err(PendingNominationRequestAlreadyExists)
    else
      var amount := s.nominations[c];
      Ok(s.(requests := s.requests[c := Request(amount, round + cfg.revokeNominationDelay, Revoke)],
            revocations := s.revocations + 1, lessTotal := s.lessTotal + amount))
  }

  function CancelRequest(s: Nominator, c: Account): Result<Nominator> {
    if c !in s.requests then Err(PendingNominationRequestDNE) else Ok(RemoveRequest(s, c))
  }

  // ----- the ledger of one nominator

  function Itself(a: nat): nat { a }

  function AmountOf(r: Request): nat { r.amount }

  function RevokeCount(r: Request): nat { if r.action.Revoke? then 1 else 0 }

  /** An open request is for no more than the nomination; a decrease leaves something. */
  ghost predicate Affordable(r: Request, amount: nat) {
    r.amount <= amount && (r.action.Decrease? ==> r.amount < amount)
  }

  ghost predicate LedgerOk(s: Nominator) {
    && s.total == SumBy(s.nominations, Itself)
    && (forall c :: c in s.nominations ==> s.nominations[c] > 0)
    && s.lessTotal == SumBy(s.requests, AmountOf)
    && s.revocations == SumBy(s.requests, RevokeCount)
    && (forall c :: c in s.requests ==> c in s.nominations && Affordable(s.requests[c], s.nominations[c]))
    && (s.status.Exiting? ==> s.requests == map[])
  }

  /** Subtracting the pending amounts from the total never goes below zero. */
  lemma PendingWithinTotal(s: Nominator)
    requires LedgerOk(s)
    ensures s.lessTotal <= s.total
  {
    SumByBelow(s.requests, AmountOf, s.nominations, Itself);
  }

  lemma EntryWithinTotal(s: Nominator, c: Account)
    requires LedgerOk(s) && c in s.nominations
    ensures s.nominations[c] <= s.total
    ensures |s.nominations| == 1 <==> s.nominations - {c} == map[]
    ensures s.nominations[c] == s.total <==> s.nominations - {c} == map[]
  {
    SumByTake(s.nominations, Itself, c);
    SumByZero(s.nominations - {c}, Itself);
    assert s.nominations.Keys == (s.nominations - {c}).Keys + {c};
  }

  lemma NewNominatorOk(c: Account, amount: nat)
    requires amount > 0
    ensures LedgerOk(NewNominator(c, amount))
  {
    SumByPut(map[], Itself, c, amount);
    assert map[][c := amount] == map[c := amount];
  }

  lemma AddEntryOk(s: Nominator, c: Account, amount: nat)
    requires LedgerOk(s) && c !in s.nominations && amount > 0
    ensures AddEntry(s, c, amount).Ok? && LedgerOk(AddEntry(s, c, amount).value)
  {
    SumByPut(s.nominations, Itself, c, amount);
  }

  /** Changing the amount of one nomination, keeping its request affordable. */
  lemma ChangeEntryOk(s: Nominator, c: Account, amount: nat)
    requires LedgerOk(s) && c in s.nominations && amount > 0
    requires c in s.requests ==> Affordable(s.requests[c], amount)
    ensures s.total >= s.nominations[c]
    ensures LedgerOk(s.(nominations := s.nominations[c := amount], total := s.total - s.nominations[c] + amount))
  {
    SumByPut(s.nominations, Itself, c, amount);
    SumByTake(s.nominations, Itself, c);
  }

  /** Closing a request subtracts exactly what opening it had added; nothing saturates. */
  lemma RemoveRequestOk(s: Nominator, c: Account)
    requires LedgerOk(s)
    ensures LedgerOk(RemoveRequest(s, c)) && c !in RemoveRequest(s, c).requests
    ensures c in s.requests ==>
      && s.lessTotal >= s.requests[c].amount && RemoveRequest(s, c).lessTotal == s.lessTotal - s.requests[c].amount
      && (s.requests[c].action.Revoke? ==> s.revocations >= 1)
  {
    if c in s.requests {
      SumByTake(s.requests, AmountOf, c);
      SumByTake(s.requests, RevokeCount, c);
    }
  }

  lemma RmEntryOk(s: Nominator, c: Account)
    requires LedgerOk(s) && c in s.nominations && c !in s.requests
    ensures LedgerOk(RmEntry(s, c)) && RmEntry(s, c).total == s.total - s.nominations[c]
  {
    SumByTake(s.nominations, Itself, c);
  }

  /** Adding back what was removed gives the nominator back; without a request for it, the ledger is kept
      in between. */
  lemma RmThenAdd(s: Nominator, c: Account)
    requires LedgerOk(s) && c in s.nominations
    ensures AddEntry(RmEntry(s, c), c, s.nominations[c]) == Ok(s) && RmEntry(s, c).total + s.nominations[c] == s.total
    ensures c !in s.requests ==> LedgerOk(RmEntry(s, c))
  {
    EntryWithinTotal(s, c);
    assert (s.nominations - {c})[c := s.nominations[c]] == s.nominations;
    if c !in s.requests {
      RmEntryOk(s, c);
    }
  }

  lemma OpenRequestOk(s: Nominator, c: Account, r: Request)
    requires LedgerOk(s) && c in s.nominations && c !in s.requests && Affordable(r, s.nominations[c]) && s.status.Staying?
    ensures LedgerOk(s.(requests := s.requests[c := r], lessTotal := s.lessTotal + r.amount,
                        revocations := s.revocations + RevokeCount(r)))
  {
    SumByPut(s.requests, AmountOf, c, r);
    SumByPut(s.requests, RevokeCount, c, r);
  }

  lemma ScheduleKeeps(cfg: Config, s: Nominator, round: nat, c: Account, less: nat)
    requires LedgerOk(s) && s.status.Staying?
    ensures ScheduleDecrease(cfg, s, round, c, less).Ok? ==> LedgerOk(ScheduleDecrease(cfg, s, round, c, less).value)
    ensures ScheduleRevoke(cfg, s, round, c).Ok? ==> LedgerOk(ScheduleRevoke(cfg, s, round, c).value)
  {
    hide LedgerOk, WrapSub;
    if ScheduleDecrease(cfg, s, round, c, less).Ok? {
      OpenRequestOk(s, c, Request(less, round + cfg.nominationBondLessDelay, Decrease));
    }
    if ScheduleRevoke(cfg, s, round, c).Ok? {
      OpenRequestOk(s, c, Request(s.nominations[c], round + cfg.revokeNominationDelay, Revoke));
    }
  }

  /** Opening a request and closing it again gives the nominator back unchanged. */
  lemma ScheduleThenCancel(cfg: Config, s: Nominator, round: nat, c: Account, less: nat)
    requires LedgerOk(s)
    ensures ScheduleDecrease(cfg, s, round, c, less).Ok? ==>
      CancelRequest(ScheduleDecrease(cfg, s, round, c, less).value, c) == Ok(s)
    ensures ScheduleRevoke(cfg, s, round, c).Ok? ==>
      CancelRequest(ScheduleRevoke(cfg, s, round, c).value, c) == Ok(s)
  {
    if c !in s.requests && c in s.nominations {
      assert s.requests[c := Request(less, round + cfg.nominationBondLessDelay, Decrease)] - {c} == s.requests;
      assert s.requests[c := Request(s.nominations[c], round + cfg.revokeNominationDelay, Revoke)] - {c} == s.requests;
    }
  }

  /** Whatever else is pending, a nomination without a request is still there in full. */
  lemma NetCovers(s: Nominator, c: Account)
    requires LedgerOk(s) && c in s.nominations && c !in s.requests
    ensures s.total - s.lessTotal >= s.nominations[c]
  {
    SumByTake(s.nominations, Itself, c);
    SumByBelow(s.requests, AmountOf, s.nominations - {c}, Itself);
  }

  /** The check that a decrease leaves the nominator its minimum stake: it is exact only while the
      net total is not below the minimum; below it the subtraction wraps and the check lets
      everything through that the other checks accept. */
  lemma DecreaseFloor(cfg: Config, s: Nominator, round: nat, c: Account, less: nat)
    requires LedgerOk(s) && c in s.nominations && c !in s.requests && cfg.minNominatorStk < BALANCES
    requires less < s.nominations[c] && s.nominations[c] - less >= cfg.minNomination
    ensures ScheduleDecrease(cfg, s, round, c, less).Ok? <==>
      s.total - s.lessTotal - less >= cfg.minNominatorStk || s.total - s.lessTotal < cfg.minNominatorStk
  {
    NetCovers(s, c);
    WrapIs(s.total - s.lessTotal, cfg.minNominatorStk);
  }

  /** A plain subtraction of less than the modulus: the difference, or far more than was there. */
  lemma WrapIs(a: nat, b: nat)
    requires b < BALANCES
    ensures b <= a ==> WrapSub(a, b) == a - b
    ensures b > a ==> WrapSub(a, b) == a - b + BALANCES > a
  {
  }
}
