/** Paying EVM fees in ERC-20 tokens: the registry of accepted tokens, the conversion of a native fee,
    and the 18-decimal prices it rests on. What oracle contracts answer is an input. */
module Fees {
  import opened Wrappers

  const U256: nat := 0x1_00000000_00000000_00000000_00000000_00000000_00000000_00000000_00000000
  const U128: nat := 0x1_00000000_00000000_00000000_00000000
  const U64: nat := 0x1_00000000_00000000
  const SIGN: nat := 0x80000000_00000000_00000000_00000000_00000000_00000000_00000000_00000000

  type Word = x: nat | x < U256
  type Address = nat

  datatype Error =
    | TokenNotAccepted | TokenAlreadyAccepted | InvalidTokenConfig | TokenDisabled | NativeOracleNotSet
    | OraclePriceStale | OracleNotRegistered | OraclePriceFailed | PriceOverflow
    | CallFailed | InvalidPrice | StalePrice
    | Trap  // a power of ten beyond 256 bits

  type Result<+T> = Outcome<T, Error>

  function Pow10(n: nat): nat {
    if n == 0 then 1 else 10 * Pow10(n - 1)
  }

  // ----- the registry of accepted tokens

  datatype FeeTokenConfig = FeeTokenConfig(enabled: bool, decimals: nat, maxStaleness: nat, minBalance: Word)

  /** No accepted token has more than 18 decimals. */
  ghost predicate DecimalsOk(accepted: map<Address, FeeTokenConfig>) {
    forall t :: t in accepted ==> accepted[t].decimals <= 18
  }

  class FeeTokens {
    var accepted: map<Address, FeeTokenConfig>

    constructor ()
      ensures accepted == map[] && DecimalsOk(accepted)
    {
      accepted := map[];
    }

    method AddFeeToken(token: Address, config: FeeTokenConfig) returns (r: Result<()>)
      modifies this
      ensures old(DecimalsOk(accepted)) ==> DecimalsOk(accepted)
      ensures r.Ok? <==> token !in old(accepted) && config.decimals <= 18
      ensures accepted == if r.Ok? then old(accepted)[token := config] else old(accepted)
    {
      if token in accepted {
        return Err(TokenAlreadyAccepted);
      }
      if config.decimals > 18 {
        return Err(InvalidTokenConfig);
      }
      accepted := accepted[token := config];
      r := Ok(());
    }

    method UpdateFeeToken(token: Address, config: FeeTokenConfig) returns (r: Result<()>)
      modifies this
      ensures old(DecimalsOk(accepted)) ==> DecimalsOk(accepted)
      ensures r.Ok? <==> token in old(accepted) && config.decimals <= 18
      ensures accepted == if r.Ok? then old(accepted)[token := config] else old(accepted)
    {
      if token !in accepted {
        return Err(TokenNotAccepted);
      }
      if config.decimals > 18 {
        return Err(InvalidTokenConfig);
      }
      accepted := accepted[token := config];
      r := Ok(());
    }

    method RemoveFeeToken(token: Address) returns (r: Result<()>)
      modifies this
      ensures old(DecimalsOk(accepted)) ==> DecimalsOk(accepted)
      ensures r.Ok? <==> token in old(accepted)
      ensures accepted == old(accepted) - {token}
    {
      if token !in accepted {
        return Err(TokenNotAccepted);
      }
      accepted := accepted - {token};
      r := Ok(());
    }
  }

  // ----- prices

  datatype OracleInfo = OracleInfo(data: Word, time: nat)
  datatype RoundData = RoundData(answer: Word, updatedAt: Word)

  /** What the oracle registry and the contracts behind it answer. Oracle id zero stands for the
      aggregator contract. */
  datatype Registry = Registry(
    native: Option<Word>, assets: map<Address, Word>, infos: map<Word, OracleInfo>,
    decimals: map<Address, nat>, rounds: map<Address, RoundData>)

  function Age(now: nat, time: nat): nat {
    if time <= now then now - time else 0
  }

  /** The price is too old; `limit` zero switches the check off. */
  predicate Stale(now: nat, time: nat, limit: nat) {
    limit > 0 && (time == 0 || Age(now, time) > limit)
  }

  function OraclePrice(reg: Registry, id: Word, now: nat, limit: nat): (r: Result<Word>) {
    if id !in reg.infos then Err(CallFailed)
    else if reg.infos[id].data == 0 then Err(InvalidPrice)
    else if Stale(now, reg.infos[id].time, limit) then Err(StalePrice)
    else Ok(reg.infos[id].data)
  }

  /** The answer of an aggregator with `decimal` decimals as an 18-decimal price. */
  function Normalise(answer: Word, decimal: nat): (r: Result<Word>) {
    if decimal <= 18 then
      var p := answer * Pow10(18 - decimal);
      Ok(if p < U256 then p else U256 - 1)
    else if Pow10(decimal - 18) >= U256 then Err(Trap)
    else
      Pow10Positive(decimal - 18);
      DivLess(answer, Pow10(decimal - 18));
      Ok(answer / Pow10(decimal - 18))
  }

  function AggregatorPrice(reg: Registry, token: Address, now: nat, limit: nat): (r: Result<Word>) {
    if token !in reg.decimals || token !in reg.rounds then Err(CallFailed)
    else
      var answer := reg.rounds[token].answer;
      if answer == 0 || answer >= SIGN then Err(InvalidPrice)
      else
        match Normalise(answer, reg.decimals[token])
        case Err(e) => Err(e)
        case Ok(price) =>
          if price == 0 then Err(InvalidPrice)
          else if Stale(now, reg.rounds[token].updatedAt % U64, limit) then Err(StalePrice)
          else Ok(price)
  }

  function TokenPrice(reg: Registry, token: Address, now: nat, limit: nat): (r: Result<Word>) {
    if token !in reg.assets then Err(OracleNotRegistered)
    else if reg.assets[token] == 0 then AggregatorPrice(reg, token, now, limit)
    else OraclePrice(reg, reg.assets[token], now, limit)
  }

  // ----- the conversion

  function CheckedMul(a: nat, b: nat): Option<nat> {
    if a * b < U256 then Some(a * b) else None
  }

  function CheckedDiv(a: nat, b: nat): Option<nat> {
    if b == 0 then None else Some(a / b)
  }

  /** Ten to the token's decimals as a 128-bit power, which wraps. */
  function Scale(decimals: nat): nat {
    Pow10(decimals) % U128
  }

  function Amount(fee: nat, bfc: nat, token: nat, decimals: nat): Result<nat> {
    match CheckedMul(fee, bfc)
    case None => Err(PriceOverflow)
    case Some(x) =>
      match CheckedMul(x, Scale(decimals))
      case None => Err(PriceOverflow)
      case Some(y) =>
        match CheckedDiv(y, token)
        case None => Err(PriceOverflow)
        case Some(z) =>
          match CheckedDiv(z, Scale(18))
          case None => Err(PriceOverflow)
          case Some(w) => Ok(w)
  }

  /** The token amount for a native fee, and the two prices used. */
  function Convert(accepted: map<Address, FeeTokenConfig>, reg: Registry, now: nat, fee: Word, token: Address): Result<(nat, Word, Word)> {
    if token !in accepted then Err(TokenNotAccepted)
    else if !accepted[token].enabled then Err(TokenDisabled)
    else if reg.native.None? then Err(NativeOracleNotSet)
    else
      match OraclePrice(reg, reg.native.value, now, 0)
      case Err(_) => Err(OraclePriceFailed)
      case Ok(bfc) =>
        match TokenPrice(reg, token, now, accepted[token].maxStaleness)
        case Err(StalePrice) => Err(OraclePriceStale)
        case Err(OracleNotRegistered) => Err(OracleNotRegistered)
        case Err(Trap) => Err(Trap)
        case Err(_) => Err(OraclePriceFailed)
        case Ok(price) =>
          match Amount(fee, bfc, price, accepted[token].decimals)
          case Err(e) => Err(e)
          case Ok(amount) => Ok((amount, price, bfc))
  }

  // ----- arithmetic

  lemma MulDiff(d: int, p: int, q: int)
    ensures d * p - d * q == d * (p - q)
  {
  }

  lemma {:induction false} MulGe(d: nat, k: nat)
    requires k >= 1
    ensures d * k >= d && d * k >= 0
  {
    if k > 1 {
      MulGe(d, k - 1);
      MulDiff(d, k, k - 1);
    }
  }

  lemma DivMod(x: nat, d: nat)
    requires d > 0
    ensures x == d * (x / d) + x % d && x % d < d && x / d >= 0
  {
  }

  /** Two quotients of the same number agree. */
  lemma QuotientUnique(d: nat, q: nat, r: nat, q': nat, r': nat)
    requires d * q + r == d * q' + r' && r < d && r' < d
    ensures q == q' && r == r'
  {
    MulDiff(d, q, q');
    MulDiff(d, q', q);
    if q > q' {
      MulGe(d, q - q');
    } else if q' > q {
      MulGe(d, q' - q);
    }
  }

  lemma DivIs(x: nat, d: nat, q: nat, r: nat)
    requires x == d * q + r && r < d
    ensures x / d == q && x % d == r
  {
    DivMod(x, d);
    QuotientUnique(d, x / d, x % d, q, r);
  }

  lemma DivLess(a: nat, d: nat)
    requires d > 0
    ensures 0 <= a / d <= a
  {
    DivMod(a, d);
    MulGe(a / d, d);
    assert d * (a / d) == (a / d) * d;
  }

  lemma PosMul(a: nat, b: nat)
    requires a > 0 && b > 0
    ensures a * b > 0
  {
  }

  lemma DivDiv(x: nat, a: nat, b: nat)
    requires a > 0 && b > 0
    ensures a * b > 0 && (x / a) / b == x / (a * b)
  {
    PosMul(a, b);
    var q, s := x / a, x % a;
    var r, t := q / b, q % b;
    DivMod(x, a);
    DivMod(q, b);
    Expand(a, b, r, t);
    Below(a, t, b);
    DivIs(x, a * b, r, a * t + s);
  }

  lemma Expand(a: nat, b: nat, r: nat, t: nat)
    ensures a * (b * r + t) == (a * b) * r + a * t && a * t >= 0
  {
    Assoc(a, b, r);
  }

  lemma Below(a: nat, t: nat, b: nat)
    requires t < b
    ensures a * t <= a * b - a
  {
    MulDiff(a, b, t);
    MulGe(a, b - t);
  }

  lemma DivSum(x: nat, y: nat, d: nat)
    requires d > 0
    ensures x / d + y / d <= (x + y) / d <= x / d + y / d + 1
  {
    var p, r, q, s := x / d, x % d, y / d, y % d;
    DivMod(x, d);
    DivMod(y, d);
    Distribute(d, p, q);
    if r + s < d {
      DivIs(x + y, d, p + q, r + s);
    } else {
      Distribute(d, p + q, 1);
      DivIs(x + y, d, p + q + 1, r + s - d);
    }
  }

  lemma Distribute(d: nat, p: nat, q: nat)
    ensures d * (p + q) == d * p + d * q
  {
  }

  lemma {:induction false} Pow10Positive(n: nat)
    ensures Pow10(n) > 0
  {
    if n > 0 { Pow10Positive(n - 1); }
  }

  lemma {:induction false} Pow10Add(a: nat, b: nat)
    ensures Pow10(a + b) == Pow10(a) * Pow10(b)
  {
    if a > 0 {
      Pow10Add(a - 1, b);
      Assoc(10, Pow10(a - 1), Pow10(b));
    }
  }

  lemma {:induction false} Pow10Mono(a: nat, b: nat)
    requires a <= b
    ensures Pow10(a) <= Pow10(b)
    decreases b
  {
    if a < b { Pow10Mono(a, b - 1); Pow10Positive(b - 1); }
  }

  lemma Pow10Of18()
    ensures Pow10(18) == 1_000_000_000_000_000_000
  {
    assert Pow10(6) == 1_000_000;
    Pow10Add(6, 6);
    Pow10Add(12, 6);
  }

  /** For the decimals the registry admits, the power never wraps. */
  lemma ScaleIs(d: nat)
    requires d <= 18
    ensures Scale(d) == Pow10(d) && Scale(d) > 0
  {
    Pow10Of18();
    Pow10Mono(d, 18);
    Pow10Positive(d);
  }

  // ----- the conversion is exact

  /** Whenever the conversion succeeds, its two successive floor divisions are the one documented
      division; it succeeds exactly when the product fits and the token price is not zero. */
  lemma AmountIs(fee: nat, bfc: nat, token: nat, d: nat)
    requires d <= 18
    ensures Amount(fee, bfc, token, d).Ok? <==> fee * bfc * Pow10(d) < U256 && token > 0
    ensures Amount(fee, bfc, token, d).Ok? ==>
      token * Pow10(18) > 0 && Amount(fee, bfc, token, d) == Ok((fee * bfc * Pow10(d)) / (token * Pow10(18)))
  {
    hide Pow10, Scale;
    ScaleIs(d);
    ScaleIs(18);
    var x, y := fee * bfc, fee * bfc * Pow10(d);
    MulGe(x, Pow10(d));
    if token > 0 {
      DivDiv(y, token, Pow10(18));
    }
  }

  lemma ProductSplits(a: nat, b: nat, bfc: nat, p: nat)
    ensures (a + b) * bfc * p == a * bfc * p + b * bfc * p
    ensures a * bfc * p >= 0 && b * bfc * p >= 0
  {
    assert (a + b) * bfc == a * bfc + b * bfc;
    assert (a * bfc + b * bfc) * p == a * bfc * p + b * bfc * p;
  }

  /** The amount for a sum of fees is the sum of the amounts, or one unit more; in particular a larger
      fee never costs less. */
  lemma AmountOfSum(a: nat, b: nat, bfc: nat, token: nat, d: nat)
    requires d <= 18 && Amount(a + b, bfc, token, d).Ok?
    ensures Amount(a, bfc, token, d).Ok? && Amount(b, bfc, token, d).Ok?
    ensures var x, y, z := Amount(a, bfc, token, d).value, Amount(b, bfc, token, d).value, Amount(a + b, bfc, token, d).value;
      x + y <= z <= x + y + 1
  {
    var p := Pow10(d);
    ProductSplits(a, b, bfc, p);
    AmountIs(a + b, bfc, token, d);
    AmountIs(a, bfc, token, d);
    AmountIs(b, bfc, token, d);
    DivSum(a * bfc * p, b * bfc * p, token * Pow10(18));
  }

  // ----- the scale of an aggregator's answer does not matter

  lemma MulCancels(a: nat, p: nat, q: nat)
    requires p > 0 && q > 0
    ensures (a * p) / p == a && p * q > 0 && (a * p) / (q * p) == a / q
  {
    assert a * p == p * a + 0;
    DivIs(a * p, p, a, 0);
    PosMul(p, q);
    DivDiv(a * p, p, q);
    assert p * q == q * p;
  }

  /** The same price quoted with `k` more decimals normalises to the same 18-decimal price, whatever
      the number of decimals, as long as the longer answer fits and its power of ten does. */
  lemma NormaliseScales(answer: Word, d: nat, k: nat)
    requires answer * Pow10(k) < U256
    requires d + k > 18 ==> Pow10(d + k - 18) < U256
    ensures Normalise(answer * Pow10(k), d + k) == Normalise(answer, d)
  {
    if d + k <= 18 {
      NormaliseUp(answer, d, k);
    } else if d <= 18 {
      NormaliseAcross(answer, d, k);
    } else {
      NormaliseDown(answer, d, k);
    }
  }

  lemma Assoc(a: nat, p: nat, q: nat)
    ensures (a * p) * q == a * (p * q)
  {
  }

  lemma NormaliseUp(answer: Word, d: nat, k: nat)
    requires answer * Pow10(k) < U256 && d + k <= 18
    ensures Normalise(answer * Pow10(k), d + k) == Normalise(answer, d)
  {
    hide Pow10;
    Pow10Add(k, 18 - d - k);
    Assoc(answer, Pow10(k), Pow10(18 - d - k));
  }

  lemma NormaliseAcross(answer: Word, d: nat, k: nat)
    requires answer * Pow10(k) < U256 && d <= 18 < d + k && Pow10(d + k - 18) < U256
    ensures Normalise(answer * Pow10(k), d + k) == Normalise(answer, d)
  {
    hide Pow10;
    var p, q := Pow10(18 - d), Pow10(d + k - 18);
    Pow10Positive(d + k - 18);
    Pow10Add(18 - d, d + k - 18);
    Assoc(answer, p, q);
    MulCancels(answer * p, q, 1);
    MulGe(answer * p, q);
  }

  lemma NormaliseDown(answer: Word, d: nat, k: nat)
    requires answer * Pow10(k) < U256 && d > 18 && Pow10(d + k - 18) < U256
    ensures Normalise(answer * Pow10(k), d + k) == Normalise(answer, d)
  {
    hide Pow10;
    Pow10Positive(k);
    Pow10Positive(d - 18);
    Pow10Add(d - 18, k);
    Pow10Mono(d - 18, d + k - 18);
    MulCancels(answer, Pow10(k), Pow10(d - 18));
  }

  /** With more than 18 decimals, normalising loses less than one unit. */
  lemma NormaliseTruncates(answer: Word, d: nat)
    requires d > 18 && Pow10(d - 18) < U256
    ensures var p := Normalise(answer, d).value; p * Pow10(d - 18) <= answer < (p + 1) * Pow10(d - 18)
  {
    var m := Pow10(d - 18);
    Pow10Positive(d - 18);
    var q := answer / m;
    assert answer == m * q + answer % m;
    assert (q + 1) * m == q * m + m;
  }

  function Floor(x: nat, d: nat): nat
    requires d > 0
  {
    DivLess(x, d);
    x / d
  }

  /** The price that `answer` with `d` decimals stands for, with 18 decimals, rounded down and capped at the
      largest word. */
  function QuotedPrice(answer: Word, d: nat): Word {
    Pow10Positive(d);
    var p := Floor(answer * Pow10(18), Pow10(d));
    if p < U256 then p else U256 - 1
  }

  /** Normalising answers the quoted price; where its power of ten is out of range, that price is zero. */
  lemma NormaliseIs(answer: Word, d: nat)
    ensures Normalise(answer, d).Ok? ==> Normalise(answer, d).value == QuotedPrice(answer, d)
    ensures Normalise(answer, d).Err? ==> QuotedPrice(answer, d) == 0
  {
    hide Pow10;
    Pow10Positive(d);
    Pow10Positive(18);
    if d <= 18 {
      var x, y := Pow10(18 - d), Pow10(d);
      Pow10Add(18 - d, d);
      Assoc(answer, x, y);
      MulCancels(answer * x, y, 1);
    } else {
      var q := Pow10(d - 18);
      Pow10Positive(d - 18);
      Pow10Add(d - 18, 18);
      MulCancels(answer, Pow10(18), q);
      DivLess(answer, q);
      if q >= U256 {
        DivIs(answer, q, 0, answer);
      }
    }
  }

  /** A price of time `t` may be used at `now`: no limit is set, or the time is known and at most the limit ago. */
  predicate Fresh(t: nat, now: nat, limit: nat) {
    limit == 0 || (t != 0 && now <= t + limit)
  }

  /** When an oracle's price is accepted, which error it is refused with otherwise, and what it is. */
  lemma OracleAccepts(reg: Registry, id: Word, now: nat, limit: nat)
    ensures id !in reg.infos ==> OraclePrice(reg, id, now, limit) == Err(CallFailed)
    ensures id in reg.infos && reg.infos[id].data == 0 ==> OraclePrice(reg, id, now, limit) == Err(InvalidPrice)
    ensures id in reg.infos && reg.infos[id].data > 0 ==>
      OraclePrice(reg, id, now, limit) == if Fresh(reg.infos[id].time, now, limit) then Ok(reg.infos[id].data) else Err(StalePrice)
  {
  }

  /** An aggregator price is accepted exactly if the answer is a positive int256, the price it stands for is
      positive and fresh; and it is that price. A price that is not positive is invalid, unless its power of
      ten is beyond 256 bits; one that is positive but not fresh is stale. */
  lemma AggregatorAccepts(reg: Registry, token: Address, now: nat, limit: nat)
    ensures token !in reg.decimals || token !in reg.rounds ==> AggregatorPrice(reg, token, now, limit) == Err(CallFailed)
    ensures token in reg.decimals && token in reg.rounds ==>
      var answer, d, r := reg.rounds[token].answer, reg.decimals[token], AggregatorPrice(reg, token, now, limit);
      if answer == 0 || answer >= SIGN then r == Err(InvalidPrice)
      else if QuotedPrice(answer, d) == 0 then r == Err(if d > 18 && Pow10(d - 18) >= U256 then Trap else InvalidPrice)
      else if Fresh(reg.rounds[token].updatedAt % U64, now, limit) then r == Ok(QuotedPrice(answer, d))
      else r == Err(StalePrice)
  {
    hide QuotedPrice;
    if token in reg.decimals && token in reg.rounds {
      NormaliseIs(reg.rounds[token].answer, reg.decimals[token]);
    }
  }

  /** The price of the native token, zero if there is none. */
  function NativeQuote(reg: Registry): Word {
    if reg.native.Some? && reg.native.value in reg.infos then reg.infos[reg.native.value].data else 0
  }

  /** The price of `token` from wherever the registry says it comes, zero if there is none. */
  function TokenQuote(reg: Registry, token: Address): Word {
    if token !in reg.assets then 0
    else if reg.assets[token] != 0 then if reg.assets[token] in reg.infos then reg.infos[reg.assets[token]].data else 0
    else if token in reg.decimals && token in reg.rounds && reg.rounds[token].answer < SIGN
    then QuotedPrice(reg.rounds[token].answer, reg.decimals[token])
    else 0
  }

  /** The time of that price. */
  function QuoteTime(reg: Registry, token: Address): nat {
    if token !in reg.assets then 0
    else if reg.assets[token] != 0 then if reg.assets[token] in reg.infos then reg.infos[reg.assets[token]].time else 0
    else if token in reg.rounds then reg.rounds[token].updatedAt % U64
    else 0
  }

  /** The aggregator has a positive answer with so many decimals that the pallet panics. */
  predicate TooManyDecimals(reg: Registry, token: Address) {
    && token in reg.assets && reg.assets[token] == 0 && token in reg.decimals && token in reg.rounds
    && 0 < reg.rounds[token].answer < SIGN && reg.decimals[token] > 18 && Pow10(reg.decimals[token] - 18) >= U256
  }

  lemma NothingQuoted(d: nat)
    ensures QuotedPrice(0, d) == 0
  {
    Pow10Positive(d);
    DivIs(0, Pow10(d), 0, 0);
  }

  lemma TokenAccepts(reg: Registry, token: Address, now: nat, limit: nat)
    ensures var r := TokenPrice(reg, token, now, limit);
      if token !in reg.assets then r == Err(OracleNotRegistered)
      else if TokenQuote(reg, token) == 0
      then r == Err(Trap) || r == Err(CallFailed) || r == Err(InvalidPrice)
      else r == if Fresh(QuoteTime(reg, token), now, limit) then Ok(TokenQuote(reg, token)) else Err(StalePrice)
    ensures TokenPrice(reg, token, now, limit) == Err(Trap) <==> TooManyDecimals(reg, token)
  {
    hide QuotedPrice, AggregatorPrice, OraclePrice, Fresh, Pow10;
    if token in reg.assets {
      if reg.assets[token] == 0 {
        AggregatorAccepts(reg, token, now, limit);
        if token in reg.decimals && token in reg.rounds {
          NothingQuoted(reg.decimals[token]);
          NormaliseIs(reg.rounds[token].answer, reg.decimals[token]);
        }
      } else {
        OracleAccepts(reg, reg.assets[token], now, limit);
      }
    }
  }

  /** Why a conversion is refused: the first of these conditions that holds. */
  function ConvertRefusal(accepted: map<Address, FeeTokenConfig>, reg: Registry, now: nat, fee: Word, token: Address): Option<Error> {
    if token !in accepted then Some(TokenNotAccepted)
    else if !accepted[token].enabled then Some(TokenDisabled)
    else if reg.native.None? then Some(NativeOracleNotSet)
    else if NativeQuote(reg) == 0 then Some(OraclePriceFailed)
    else if token !in reg.assets then Some(OracleNotRegistered)
    else if TooManyDecimals(reg, token) then Some(Trap)
    else if TokenQuote(reg, token) == 0 then Some(OraclePriceFailed)
    else if !Fresh(QuoteTime(reg, token), now, accepted[token].maxStaleness) then Some(OraclePriceStale)
    else if fee * NativeQuote(reg) * Pow10(accepted[token].decimals) >= U256 then Some(PriceOverflow)
    else None
  }

  /** For every state of the registries a fee is converted or refused exactly as documented, and the amount
      is the documented quotient of the native price and the token's price, in that order. */
  lemma ConvertIs(accepted: map<Address, FeeTokenConfig>, reg: Registry, now: nat, fee: Word, token: Address)
    requires DecimalsOk(accepted)
    ensures var r := Convert(accepted, reg, now, fee, token);
      match ConvertRefusal(accepted, reg, now, fee, token)
      case Some(e) => r == Err(e)
      case None =>
        var bfc, price := NativeQuote(reg), TokenQuote(reg, token);
        price * Pow10(18) > 0 && r == Ok(((fee * bfc * Pow10(accepted[token].decimals)) / (price * Pow10(18)), price, bfc))
  {
    hide Amount, Pow10, TokenPrice, OraclePrice, TokenQuote, QuoteTime, Fresh, TooManyDecimals;
    if token in accepted && reg.native.Some? {
      FreshNow(now, reg);
      OracleAccepts(reg, reg.native.value, now, 0);
      TokenAccepts(reg, token, now, accepted[token].maxStaleness);
      AmountIs(fee, NativeQuote(reg), TokenQuote(reg, token), accepted[token].decimals);
      AmountFails(fee, NativeQuote(reg), TokenQuote(reg, token), accepted[token].decimals);
      if TooManyDecimals(reg, token) {
        TooManyQuoteNothing(reg, token);
      }
    }
  }

  /** The native price is used whatever its age. */
  lemma FreshNow(now: nat, reg: Registry)
    ensures forall t: nat :: Fresh(t, now, 0)
  {
  }

  lemma TooManyQuoteNothing(reg: Registry, token: Address)
    requires TooManyDecimals(reg, token)
    ensures TokenQuote(reg, token) == 0
  {
    hide QuotedPrice, Pow10;
    NormaliseIs(reg.rounds[token].answer, reg.decimals[token]);
  }

  lemma AmountFails(fee: nat, bfc: nat, token: nat, d: nat)
    ensures Amount(fee, bfc, token, d).Err? ==> Amount(fee, bfc, token, d) == Err(PriceOverflow)
  {
    hide Scale;
  }

  /** So a fee converts to the same amount whichever way the aggregator quotes the same price. */
  lemma ConvertIgnoresScale(accepted: map<Address, FeeTokenConfig>, reg: Registry, reg': Registry, now: nat, fee: Word, token: Address, k: nat)
    requires token in reg.decimals && token in reg.rounds && token in reg.assets && reg.assets[token] == 0
    requires var a, d := reg.rounds[token].answer, reg.decimals[token];
      && a * Pow10(k) < SIGN && (d + k > 18 ==> Pow10(d + k - 18) < U256)
      && reg' == reg.(decimals := reg.decimals[token := d + k],
                      rounds := reg.rounds[token := reg.rounds[token].(answer := a * Pow10(k))])
    ensures Convert(accepted, reg', now, fee, token) == Convert(accepted, reg, now, fee, token)
  {
    hide Normalise, Amount, Stale, Pow10;
    var a, d := reg.rounds[token].answer, reg.decimals[token];
    NormaliseScales(a, d, k);
    Pow10Positive(k);
    MulGe(a, Pow10(k));
    assert a == 0 ==> a * Pow10(k) == 0;
    forall limit ensures AggregatorPrice(reg', token, now, limit) == AggregatorPrice(reg, token, now, limit) {}
  }
}
