/** The funding-policy closures of `newServer` (`oblnd/server.go`), with Go's unsigned arithmetic: how many
    confirmations and how long a delay to require, and how a channel's capacity is split into reserve and flow. */
module FundingPolicy {
  const TWO_16 := 0x1_0000
  const TWO_64 := 0x1_0000_0000_0000_0000

  type UInt64 = x: int | 0 <= x < TWO_64

  /** Amounts that survive the conversion to the signed `btcutil.Amount`. */
  type Amount = x: int | 0 <= x < TWO_64 / 2

  function U16(x: int): int {
    x % TWO_16
  }

  function U64(x: int): UInt64 {
    x % TWO_64
  }

  datatype Chain = Bitcoin | Litecoin

  /** `MaxFundingAmount` in satoshis: 2^24 - 1, and sixty times that on Litecoin. */
  function MaxFundingAmount(chain: Chain): int {
    if chain.Bitcoin? then 0xFF_FFFF else 60 * 0xFF_FFFF
  }

  function MinRemoteDelay(chain: Chain): int {
    if chain.Bitcoin? then 144 else 576
  }

  function MaxRemoteDelay(chain: Chain): int {
    if chain.Bitcoin? then 2016 else 8064
  }

  function Clamp(x: int, low: int, high: int): int {
    var y := if x < low then low else x;
    if y > high then high else y
  }

  function NewMSatFromSatoshis(sat: Amount): UInt64 {
    U64(sat * 1000)
  }

  // ---- confirmations

  /** `configured` is `DefaultNumChanConfs`; it overrides the scale unless it is zero as a uint16. */
  function NumRequiredConfs(chain: Chain, configured: int, chanAmt: Amount, pushAmt: UInt64): int {
    if U16(configured) != 0 then U16(configured)
    else if chanAmt > MaxFundingAmount(chain) then 6
    else
      var stake := U64(NewMSatFromSatoshis(chanAmt) + pushAmt);
      U16(Clamp(U64(6 * stake) / NewMSatFromSatoshis(MaxFundingAmount(chain)), 3, 6))
  }

  /** Without an override three to six confirmations are required, whatever the amounts. */
  lemma ConfsInRange(chain: Chain, configured: int, chanAmt: Amount, pushAmt: UInt64)
    requires U16(configured) == 0
    ensures 3 <= NumRequiredConfs(chain, configured, chanAmt, pushAmt) <= 6
  {
    if chanAmt <= MaxFundingAmount(chain) {
      NoWrap(1000 * MaxFundingAmount(chain));
      var stake: int := U64(NewMSatFromSatoshis(chanAmt) + pushAmt);
      SmallClamp(U64(6 * stake) / NewMSatFromSatoshis(MaxFundingAmount(chain)));
    }
  }

  /** How often the product wraps around for a stake of `sat` satoshis plus the pushed amount. */
  function Wraps(sat: int, pushAmt: UInt64): int {
    6 * (1000 * sat + pushAmt) / TWO_64
  }

  /** Larger channels of at most the maximum size never require fewer confirmations. */
  ghost predicate ConfsMonotone(chain: Chain, pushAmt: UInt64) {
    forall a: Amount, b: Amount :: a <= b ==>
      NumRequiredConfs(chain, 0, a, pushAmt) <= NumRequiredConfs(chain, 0, b, pushAmt)
  }

  /** The scaled value before clamping. */
  function Scaled(chain: Chain, sat: int, pushAmt: UInt64): int {
    var product := 6 * (1000 * sat + pushAmt) - TWO_64 * Wraps(sat, pushAmt);
    if chain.Bitcoin? then product / 16_777_215_000 else product / 1_006_632_900_000
  }

  lemma NoWrap(x: int)
    requires 0 <= x < TWO_64
    ensures U64(x) == x && x / TWO_64 == 0
  {
  }

  lemma SixfoldModulo(x: int)
    requires 0 <= x < 2 * TWO_64
    ensures U64(6 * (if x >= TWO_64 then x - TWO_64 else x)) == 6 * x - TWO_64 * (6 * x / TWO_64)
  {
  }

  lemma StakeModulo(sat: Amount, pushAmt: UInt64)
    requires sat <= 60 * 0xFF_FFFF
    ensures U64(6 * U64(NewMSatFromSatoshis(sat) + pushAmt))
         == 6 * (1000 * sat + pushAmt) - TWO_64 * Wraps(sat, pushAmt)
  {
    var exact := 1000 * sat + pushAmt;
    assert U64(exact) == if exact >= TWO_64 then exact - TWO_64 else exact;
    assert NewMSatFromSatoshis(sat) == 1000 * sat;
    SixfoldModulo(exact);
  }

  lemma ConfsAreScaled(chain: Chain, sat: Amount, pushAmt: UInt64)
    requires sat <= MaxFundingAmount(chain)
    ensures NumRequiredConfs(chain, 0, sat, pushAmt) == Clamp(Scaled(chain, sat, pushAmt), 3, 6)
  {
    ScaledExactly(chain, sat, pushAmt);
    SmallClamp(Scaled(chain, sat, pushAmt));
  }

  lemma ScaledExactly(chain: Chain, sat: Amount, pushAmt: UInt64)
    requires sat <= MaxFundingAmount(chain)
    ensures U64(6 * U64(NewMSatFromSatoshis(sat) + pushAmt)) / NewMSatFromSatoshis(MaxFundingAmount(chain))
         == Scaled(chain, sat, pushAmt)
  {
    StakeModulo(sat, pushAmt);
    NoWrap(1000 * MaxFundingAmount(chain));
  }

  lemma SmallClamp(x: int)
    ensures U16(Clamp(x, 3, 6)) == Clamp(x, 3, 6)
  {
  }

  lemma WrapsGrow(a: int, b: int, pushAmt: UInt64)
    requires a <= b
    ensures Wraps(a, pushAmt) <= Wraps(b, pushAmt)
  {
  }

  lemma ScaledGrows(chain: Chain, a: int, b: int, pushAmt: UInt64)
    requires 0 <= a <= b && Wraps(a, pushAmt) == Wraps(b, pushAmt)
    ensures Scaled(chain, a, pushAmt) <= Scaled(chain, b, pushAmt)
  {
  }

  lemma ConfsGrow(chain: Chain, a: Amount, b: Amount, pushAmt: UInt64)
    requires a <= b && Wraps(0, pushAmt) == Wraps(MaxFundingAmount(chain), pushAmt)
    ensures NumRequiredConfs(chain, 0, a, pushAmt) <= NumRequiredConfs(chain, 0, b, pushAmt)
  {
    if b <= MaxFundingAmount(chain) {
      WrapsGrow(0, a, pushAmt);
      WrapsGrow(a, b, pushAmt);
      WrapsGrow(b, MaxFundingAmount(chain), pushAmt);
      ScaledGrows(chain, a, b, pushAmt);
      ConfsAreScaled(chain, a, pushAmt);
      ConfsAreScaled(chain, b, pushAmt);
    } else {
      ConfsInRange(chain, 0, a, pushAmt);
    }
  }

  /** The scale is monotone in the channel size, up to and across the wumbo boundary, exactly when the product
      `6 * stake` wraps around as often for the smallest channel as for the largest. */
  lemma ConfsMonotoneExactlyWhen(chain: Chain, pushAmt: UInt64)
    ensures ConfsMonotone(chain, pushAmt) <==> Wraps(0, pushAmt) == Wraps(MaxFundingAmount(chain), pushAmt)
  {
    if Wraps(0, pushAmt) == Wraps(MaxFundingAmount(chain), pushAmt) {
      forall a: Amount, b: Amount | a <= b
        ensures NumRequiredConfs(chain, 0, a, pushAmt) <= NumRequiredConfs(chain, 0, b, pushAmt)
      {
        ConfsGrow(chain, a, b, pushAmt);
      }
    } else {
      var b := ConfsDropAtWrap(chain, pushAmt);
    }
  }

  /** Where nothing wraps, at least `c` confirmations are required from `c` sixths of the largest channel on. */
  lemma ConfsBySixths(chain: Chain, chanAmt: Amount, pushAmt: UInt64, c: int)
    requires chanAmt <= MaxFundingAmount(chain) && 6 * (1000 * chanAmt + pushAmt) < TWO_64 && 4 <= c <= 6
    ensures NumRequiredConfs(chain, 0, chanAmt, pushAmt) >= c <==>
            6 * (1000 * chanAmt + pushAmt) >= c * (1000 * MaxFundingAmount(chain))
  {
    ConfsAreScaled(chain, chanAmt, pushAmt);
    NoWrap(6 * (1000 * chanAmt + pushAmt));
  }

  /** A channel beyond the largest size always requires six. */
  lemma WumboConfs(chain: Chain, chanAmt: Amount, pushAmt: UInt64)
    requires chanAmt > if chain.Bitcoin? then 16_777_215 else 1_006_632_900
    ensures NumRequiredConfs(chain, 0, chanAmt, pushAmt) == 6
  {
  }

  /** The smallest channel size that takes the product past the next multiple of 2^64. */
  lemma FirstWrap(pushAmt: UInt64, max: int) returns (b: int)
    requires max >= 0 && Wraps(0, pushAmt) != Wraps(max, pushAmt)
    ensures 0 < b <= max
    ensures Wraps(b - 1, pushAmt) == Wraps(0, pushAmt) && Wraps(b, pushAmt) == Wraps(0, pushAmt) + 1
    ensures 6 * (1000 * b + pushAmt) - TWO_64 * Wraps(b, pushAmt) < 6000
  {
    WrapsGrow(0, max, pushAmt);
    var bound := TWO_64 * (Wraps(0, pushAmt) + 1);
    b := (bound - 6 * pushAmt + 5999) / 6000;
  }

  /** Where the product wraps, the requirement falls from six confirmations to three. */
  lemma ConfsDropAtWrap(chain: Chain, pushAmt: UInt64) returns (b: Amount)
    requires Wraps(0, pushAmt) != Wraps(MaxFundingAmount(chain), pushAmt)
    ensures 0 < b <= MaxFundingAmount(chain)
    ensures NumRequiredConfs(chain, 0, b - 1, pushAmt) == 6 && NumRequiredConfs(chain, 0, b, pushAmt) == 3
  {
    b := FirstWrap(pushAmt, MaxFundingAmount(chain));
    ConfsAreScaled(chain, b - 1, pushAmt);
    ConfsAreScaled(chain, b, pushAmt);
  }

  /** The test a reservation makes on the funder's balance, as an int64, before the confirmations are chosen. */
  predicate BalanceNotNegative(chanAmt: Amount, fee: int, pushAmt: UInt64) {
    U64(1000 * chanAmt - fee - pushAmt) < TWO_64 / 2
  }

  /** Concretely, for two channel sizes above the minimum of 20000 satoshis and a pushed amount that passes the
      balance test: one satoshi more takes the requirement from six confirmations to three. */
  lemma ConfsDropConcretely(fee: int) returns (pushAmt: UInt64)
    requires 0 <= fee <= 20_001_000
    ensures BalanceNotNegative(20_001, fee, pushAmt) && BalanceNotNegative(20_002, fee, pushAmt)
    ensures NumRequiredConfs(Bitcoin, 0, 20_001, pushAmt) == 6 && NumRequiredConfs(Bitcoin, 0, 20_002, pushAmt) == 3
  {
    pushAmt := 12_297_829_382_453_032_411;
    ConfsAreScaled(Bitcoin, 20_001, pushAmt);
    ConfsAreScaled(Bitcoin, 20_002, pushAmt);
  }

  /** In particular it is monotone whenever no more than the largest capacity is pushed. */
  lemma ConfsMonotoneForHonestPush(chain: Chain, pushAmt: UInt64)
    requires pushAmt <= 1000 * MaxFundingAmount(chain)
    ensures ConfsMonotone(chain, pushAmt)
  {
    ConfsMonotoneExactlyWhen(chain, pushAmt);
    assert Wraps(MaxFundingAmount(chain), pushAmt) == 0 by {
      NoWrap(6 * (1000 * MaxFundingAmount(chain) + pushAmt));
    }
    WrapsGrow(0, MaxFundingAmount(chain), pushAmt);
  }

  /** So it is for every push below 2^63 that passes the balance test. */
  lemma ConfsMonotoneBelowHalf(chain: Chain, chanAmt: Amount, fee: int, pushAmt: UInt64)
    requires chanAmt <= MaxFundingAmount(chain) && 0 <= fee <= 1000 * chanAmt && pushAmt < TWO_64 / 2
    requires BalanceNotNegative(chanAmt, fee, pushAmt)
    ensures ConfsMonotone(chain, pushAmt)
  {
    var balance: int := 1000 * chanAmt - fee - pushAmt;
    assert U64(balance) == if balance < 0 then balance + TWO_64 else balance;
    ConfsMonotoneForHonestPush(chain, pushAmt);
  }

  // ---- remote delay

  /** The largest size on the scale: `MaxFundingAmount`, or 5000 whole units of an asset. */
  function MaxScaled(chain: Chain, assetId: nat): int {
    if assetId == 0 then MaxFundingAmount(chain) else 500_000_000_000
  }

  /** `test` is set on testnet and regtest, where assets may use a delay of nine blocks. */
  function MinDelay(chain: Chain, assetId: nat, test: bool): int {
    if assetId != 0 && test then 9 else MinRemoteDelay(chain)
  }

  /** The amount times `maxRemoteDelay`. */
  function TimesMaxDelay(chain: Chain, amt: int): int {
    if chain.Bitcoin? then 2016 * amt else 8064 * amt
  }

  /** A product divided by the largest size on the scale. */
  function PerScale(chain: Chain, assetId: nat, product: int): int {
    if assetId != 0 then product / 500_000_000_000
    else if chain.Bitcoin? then product / 16_777_215
    else product / 1_006_632_900
  }

  function RequiredRemoteDelay(chain: Chain, configured: int, assetId: nat, test: bool, chanAmt: UInt64): int {
    if U16(configured) > 0 then U16(configured)
    else if chanAmt > MaxScaled(chain, assetId) then MaxRemoteDelay(chain)
    else
      Clamp(U16(PerScale(chain, assetId, U64(TimesMaxDelay(chain, chanAmt)))),
            MinDelay(chain, assetId, test), MaxRemoteDelay(chain))
  }

  /** The delay before clamping, computed without loss. */
  function DelayScale(chain: Chain, assetId: nat, amt: int): int {
    PerScale(chain, assetId, TimesMaxDelay(chain, amt))
  }

  lemma DelayScaleBounded(chain: Chain, assetId: nat, amt: UInt64)
    requires amt <= MaxScaled(chain, assetId)
    ensures 0 <= DelayScale(chain, assetId, amt) <= MaxRemoteDelay(chain)
  {
  }

  lemma DelayScaleGrows(chain: Chain, assetId: nat, a: UInt64, b: UInt64)
    requires a <= b
    ensures DelayScale(chain, assetId, a) <= DelayScale(chain, assetId, b)
  {
  }

  /** Below the wumbo boundary neither the product nor the conversion to uint16 loses anything. */
  lemma DelayIsExact(chain: Chain, assetId: nat, test: bool, chanAmt: UInt64)
    requires chanAmt <= MaxScaled(chain, assetId)
    ensures RequiredRemoteDelay(chain, 0, assetId, test, chanAmt)
         == Clamp(DelayScale(chain, assetId, chanAmt), MinDelay(chain, assetId, test), MaxRemoteDelay(chain))
  {
    DelayScaleBounded(chain, assetId, chanAmt);
    NoWrap(TimesMaxDelay(chain, chanAmt));
    ShortDelay(DelayScale(chain, assetId, chanAmt));
  }

  lemma ShortDelay(x: int)
    requires 0 <= x < TWO_16
    ensures U16(x) == x
  {
  }

  /** Without an override the delay lies between its minimum and maximum and grows with the channel, for every asset
      and across the wumbo boundary. */
  lemma DelayInRangeAndMonotone(chain: Chain, assetId: nat, test: bool, a: UInt64, b: UInt64)
    requires a <= b
    ensures MinDelay(chain, assetId, test) <= RequiredRemoteDelay(chain, 0, assetId, test, a)
            <= RequiredRemoteDelay(chain, 0, assetId, test, b) <= MaxRemoteDelay(chain)
  {
    if b <= MaxScaled(chain, assetId) {
      DelayIsExact(chain, assetId, test, a);
      DelayIsExact(chain, assetId, test, b);
      DelayScaleBounded(chain, assetId, b);
      DelayScaleGrows(chain, assetId, a, b);
    } else if a <= MaxScaled(chain, assetId) {
      DelayIsExact(chain, assetId, test, a);
    }
  }

  /** A positive setting of at most 16 bits replaces both scales, whatever the amounts. */
  lemma OverridesAreReturned(chain: Chain, configured: int, chanAmt: Amount, pushAmt: UInt64, assetId: nat, test: bool)
    requires 0 < configured < TWO_16
    ensures NumRequiredConfs(chain, configured, chanAmt, pushAmt) == configured
    ensures RequiredRemoteDelay(chain, configured, assetId, test, chanAmt) == configured
  {
    ShortDelay(configured);
  }

  /** The delay of the smallest channel, and of all from the largest size on. */
  lemma DelayEndpoints(chain: Chain, assetId: nat, test: bool, chanAmt: UInt64)
    requires chanAmt >= if assetId != 0 then 500_000_000_000 else if chain.Bitcoin? then 16_777_215 else 1_006_632_900
    ensures RequiredRemoteDelay(chain, 0, assetId, test, 0)
         == if assetId != 0 && test then 9 else if chain.Bitcoin? then 144 else 576
    ensures RequiredRemoteDelay(chain, 0, assetId, test, chanAmt) == if chain.Bitcoin? then 2016 else 8064
  {
    DelayIsExact(chain, assetId, test, 0);
    if chanAmt == MaxScaled(chain, assetId) {
      DelayIsExact(chain, assetId, test, chanAmt);
    }
  }

  /** Between the endpoints the delay is the linear one, rounded down. */
  lemma DelayIsLinear(chain: Chain, assetId: nat, test: bool, chanAmt: UInt64)
    requires chanAmt <= MaxScaled(chain, assetId)
    ensures var d := RequiredRemoteDelay(chain, 0, assetId, test, chanAmt);
            var linear := MaxRemoteDelay(chain) * chanAmt;
            && linear < (d + 1) * MaxScaled(chain, assetId)
            && (d > MinDelay(chain, assetId, test) ==> d * MaxScaled(chain, assetId) <= linear)
  {
    DelayIsExact(chain, assetId, test, chanAmt);
    DelayScaleBounded(chain, assetId, chanAmt);
    RoundedDown(chain, assetId, chanAmt);
    var scale := DelayScale(chain, assetId, chanAmt);
    var d := RequiredRemoteDelay(chain, 0, assetId, test, chanAmt);
    assert (scale + 1) * MaxScaled(chain, assetId) <= (d + 1) * MaxScaled(chain, assetId);
  }

  lemma RoundedDown(chain: Chain, assetId: nat, amt: UInt64)
    ensures var q := DelayScale(chain, assetId, amt);
            q * MaxScaled(chain, assetId) <= MaxRemoteDelay(chain) * amt < (q + 1) * MaxScaled(chain, assetId)
  {
  }

  // ---- reserve and flow

  function RequiredRemoteChanReserve(assetId: nat, chanAmt: Amount, dustLimit: Amount): Amount {
    var reserve := chanAmt / 100;
    if assetId == 0 && reserve < dustLimit then dustLimit else reserve
  }

  /** In millisatoshis for bitcoin, in the asset's own units otherwise. */
  function RequiredRemoteMaxValue(assetId: nat, chanAmt: Amount): UInt64 {
    if assetId == 0 then U64(NewMSatFromSatoshis(chanAmt) - NewMSatFromSatoshis(chanAmt / 100))
    else chanAmt - chanAmt / 100
  }

  /** The reserve of a bitcoin channel is one percent or the dust limit, whichever is larger; an asset channel has no
      dust floor. */
  lemma ReserveMeetsDust(assetId: nat, chanAmt: Amount, dustLimit: Amount)
    ensures var reserve := RequiredRemoteChanReserve(assetId, chanAmt, dustLimit);
            && chanAmt < 100 * (reserve + 1)
            && (assetId == 0 ==> reserve >= dustLimit)
            && (100 * reserve <= chanAmt || (assetId == 0 && reserve == dustLimit))
  {
  }

  /** Reserve and flow of an asset channel always make up its capacity. */
  lemma AssetCapacitySplits(assetId: nat, chanAmt: Amount, dustLimit: Amount)
    requires assetId != 0
    ensures RequiredRemoteChanReserve(assetId, chanAmt, dustLimit) + RequiredRemoteMaxValue(assetId, chanAmt) == chanAmt
  {
  }

  /** For bitcoin they cover the capacity, with equality unless the dust floor applies, exactly as long as the
      99 percent fit into a uint64 of millisatoshis. */
  lemma BitcoinCapacitySplitsExactlyWhen(chanAmt: Amount, dustLimit: Amount)
    ensures var reserve := RequiredRemoteChanReserve(0, chanAmt, dustLimit);
            var flow := RequiredRemoteMaxValue(0, chanAmt);
            1000 * (chanAmt - chanAmt / 100) < TWO_64 <==>
            && 1000 * (chanAmt / 100) + flow == 1000 * chanAmt
            && 1000 * reserve + flow >= 1000 * chanAmt
            && (1000 * reserve + flow == 1000 * chanAmt <==> dustLimit <= chanAmt / 100)
  {
    var exact := 1000 * (chanAmt - chanAmt / 100);
    WrappedDifference(1000 * chanAmt, 1000 * (chanAmt / 100));
    assert RequiredRemoteMaxValue(0, chanAmt) == U64(exact);
  }

  lemma WrappedDifference(x: int, y: int)
    ensures U64(U64(x) - U64(y)) == U64(x - y)
  {
    var p, q := x / TWO_64, y / TWO_64;
    assert U64(x) - U64(y) == (x - y) - TWO_64 * (p - q);
    WrapShift(x - y, q - p);
  }

  lemma WrapShift(x: int, k: int)
    ensures U64(x + TWO_64 * k) == U64(x)
  {
    var q := (x + TWO_64 * k) / TWO_64;
    assert x == TWO_64 * (q - k) + U64(x + TWO_64 * k);
  }
}
