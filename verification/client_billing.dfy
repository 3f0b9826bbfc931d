/** The client's billing round: what a cheque is worth, when it is posted, when a top-up is asked for. */
module ClientBilling {
  import opened Jobs
  import opened Machine

  /** The offering's prices. */
  datatype Offer = Offer(setup: nat, unitPrice: nat, interval: nat)

  /** What the columns hold: bigint prices, and an interval that a constraint keeps positive. */
  predicate StoredOffer(o: Offer) {
    o.setup < I64 && o.unitPrice < I64 && 1 <= o.interval < I64
  }

  /** The lag test divides by the unit price. */
  predicate ValidOffer(o: Offer) {
    StoredOffer(o) && o.unitPrice >= 1
  }

  /** The client's row of a channel: bigint columns. */
  datatype ClientRow = ClientRow(receipt: nat, deposit: nat)

  predicate ValidRow(c: ClientRow) {
    c.receipt < I64 && c.deposit < I64
  }

  /** What one round does with a channel; it panics when it divides by a zero unit price. */
  datatype Outcome = Outcome(terminate: bool, topUp: bool, post: Option<nat>, panics: bool)

  /** The price without wrap-around. */
  function ExactPrice(o: Offer, units: nat): nat {
    units * o.unitPrice + o.setup
  }

  function ComputePrice(o: Offer, units: nat): nat {
    Wrap64(units * o.unitPrice + o.setup)
  }

  /** Units consumed beyond those the recorded receipt pays for, in int64 arithmetic. */
  function Lag(o: Offer, consumed: nat, receipt: nat): int
    requires ValidOffer(o)
  {
    WrapI64(WrapI64(consumed) - TruncDiv(receipt - o.setup, o.unitPrice))
  }

  predicate MaxDepositReached(c: ClientRow) {
    c.receipt != 0 && c.deposit != 0 && c.receipt == c.deposit
  }

  predicate Lags(o: Offer, consumed: nat, receipt: nat)
    requires ValidOffer(o)
  {
    TruncDiv(Lag(o, consumed, receipt), o.interval) >= 1
  }

  /** `inactive` is the inactivity test; `increaseAfter` the automatic top-up threshold, if the setting is on. */
  function Bill(o: Offer, c: ClientRow, consumed: nat, inactive: bool, increaseAfter: Option<nat>): Outcome
    requires StoredOffer(o)
  {
    var price := ComputePrice(o, consumed);
    if MaxDepositReached(c) || inactive then Outcome(true, false, None, false)
    else if price > c.deposit then Outcome(false, false, Some(c.deposit), false)
    else
      var topUp := increaseAfter.Some? && price >= increaseAfter.value;
      if o.unitPrice == 0 then Outcome(false, topUp, None, true)
      else Outcome(false, topUp, if Lags(o, consumed, c.receipt) then Some(price) else None, false)
  }

  /** The deposit after a top-up fits its column; the sum itself is a uint64. */
  predicate Storable(deposit: nat, added: nat) {
    FitsI64(Wrap64(deposit + added))
  }

  /** The client's record of one channel, the cheques handed to posting goroutines, its top-up jobs. */
  class ClientChannel {
    var receipt: nat
    var deposit: nat
    var outbox: seq<nat>
    var topUps: seq<TopUpJob>

    constructor (deposit: nat)
      ensures Row() == ClientRow(0, deposit) && outbox == [] && topUps == []
    {
      receipt, this.deposit, outbox, topUps := 0, deposit, [], [];
    }

    function Row(): ClientRow
      reads this`receipt, this`deposit
    {
      ClientRow(receipt, deposit)
    }

    /** One channel of a billing round. */
    method ProcessChannel(o: Offer, consumed: nat, inactive: bool, increaseAfter: Option<nat>)
      returns (terminate: bool, panics: bool)
      requires StoredOffer(o)
      modifies this`outbox, this`topUps
      ensures var out := Bill(o, Row(), consumed, inactive, increaseAfter);
              && terminate == out.terminate && panics == out.panics
              && outbox == old(outbox) + (if out.post.Some? then [out.post.value] else [])
              && topUps == TopUpNext(old(topUps), MonitorRound(out.topUp))
    {
      if (receipt != 0 && deposit != 0 && receipt == deposit) || inactive {
        return true, false;
      }
      terminate, panics := false, false;
      var amount := ComputePrice(o, consumed);
      if amount > deposit {
        outbox := outbox + [deposit];
        return;
      }
      if increaseAfter.Some? && amount >= increaseAfter.value {
        CreateAutoIncreaseJob();
      }
      if o.unitPrice == 0 {
        return false, true;
      }
      var lag := Lag(o, consumed, receipt);
      if TruncDiv(lag, o.interval) >= 1 {
        outbox := outbox + [amount];
      }
    }

    method CreateAutoIncreaseJob()
      modifies this`topUps
      ensures topUps == TopUpNext(old(topUps), MonitorRound(true))
    {
      if TopUpOutstanding(topUps) {
        return;
      }
      if ActivePre(topUps) {
        return;
      }
      topUps := topUps + [TopUpJob(PreTopUp, Active)];
    }

    /** The after-top-up handler: the deposit is saved first, then a balance update of the account is added,
        which the queue refuses while one is active. The handler fails although the deposit is saved. */
    method AfterChannelTopUp(added: nat, balanceJobActive: bool) returns (ok: bool)
      modifies this`deposit
      ensures deposit == if Storable(old(deposit), added) then Wrap64(old(deposit) + added) else old(deposit)
      ensures ok <==> Storable(old(deposit), added) && !balanceJobActive
    {
      var total := Wrap64(deposit + added);
      if !FitsI64(total) {
        return false;
      }
      deposit := total;
      return !balanceJobActive;
    }

    /** The agent accepted a cheque: the conditional UPDATE of the receipt. */
    method ChequeAccepted(amount: nat)
      modifies this`receipt
      ensures Row() == Acked(old(Row()), amount)
    {
      if receipt < amount {
        receipt := amount;
      }
    }
  }

  /** The client's row after an acknowledgement: receipts only grow. */
  function Acked(c: ClientRow, amount: nat): (c': ClientRow)
    ensures c'.receipt >= c.receipt && c'.receipt >= amount && c'.deposit == c.deposit
    ensures c'.receipt == c.receipt || c'.receipt == amount
  {
    if c.receipt < amount then c.(receipt := amount) else c
  }

  // ---- what the decision means ----

  /** The decision, written out on the channel, the prices and the consumption. */
  lemma BillOutcome(o: Offer, c: ClientRow, consumed: nat, inactive: bool, increaseAfter: Option<nat>)
    requires StoredOffer(o)
    ensures var out := Bill(o, c, consumed, inactive, increaseAfter);
            var price := (consumed * o.unitPrice + o.setup) % 0x1_0000_0000_0000_0000;
            && (out.terminate <==> inactive || (c.receipt > 0 && c.receipt == c.deposit))
            && (!out.terminate && price > c.deposit ==> out.post == Some(c.deposit) && !out.topUp)
            && (out.post.Some? && price <= c.deposit ==> out.post == Some(price))
            && (out.topUp <==> !out.terminate && price <= c.deposit && increaseAfter.Some?
                               && price >= increaseAfter.value)
            && (out.terminate ==> out.post.None?)
            && (out.panics <==> !out.terminate && price <= c.deposit && o.unitPrice == 0)
  {
  }

  /** Within the deposit a cheque is posted exactly when the consumption is one or more intervals ahead of the
      receipt, while consumption and setup price stay below 2^63. */
  lemma PostsWhenBehind(o: Offer, c: ClientRow, consumed: nat)
    requires ValidOffer(o) && ValidRow(c) && c.receipt != c.deposit && ComputePrice(o, consumed) <= c.deposit
    requires consumed + o.setup < 0x8000_0000_0000_0000
    ensures Bill(o, c, consumed, false, None).post.Some? <==>
            consumed - TruncDiv(c.receipt - o.setup, o.unitPrice) >= o.interval
  {
    LagsExactly(o, consumed, c.receipt);
    TruncSmaller(c.receipt - o.setup, o.unitPrice);
  }

  /** Units consumed beyond those a receipt pays for, without wrap-around. */
  function ExactLag(o: Offer, consumed: nat, receipt: nat): int
    requires ValidOffer(o)
  {
    consumed - TruncDiv(receipt - o.setup, o.unitPrice)
  }

  /** Truncated division read backwards. */
  lemma TruncDivAtLeast(a: int, b: int, k: int)
    requires b > 0 && k >= 1
    ensures TruncDiv(a, b) >= k <==> a >= k * b
  {
    var q := TruncDiv(a, b);
    if a >= k * b {
      MulOrder(k, q + 1, b);
    } else {
      MulOrder(q, k, b);
    }
  }

  lemma MulSign(x: int, b: int)
    requires b > 0
    ensures x > 0 ==> x * b >= b
    ensures x <= 0 ==> x * b <= 0
    ensures x >= 0 ==> x * b >= x
    ensures x <= 0 ==> x * b <= x
  {
  }

  lemma MulOrder(k: int, n: int, b: int)
    requires b > 0
    ensures k * b < n * b <==> k < n
  {
    MulSign(n - k, b);
    assert n * b - k * b == (n - k) * b;
  }

  lemma TruncDivMonotone(x: int, y: int, b: int)
    requires b > 0 && x <= y
    ensures TruncDiv(x, b) <= TruncDiv(y, b)
  {
    var p, q := TruncDiv(x, b), TruncDiv(y, b);
    if p >= 1 {
      TruncDivAtLeast(x, b, p);
      TruncDivAtLeast(y, b, p);
    } else if q < p {
      MulOrder(p - 1, q, b);
    }
  }

  lemma WrapMinus(x: int, q: int)
    ensures WrapI64(WrapI64(x) - q) == WrapI64(x - q)
  {
  }

  /** The lag wraps in int64 arithmetic; it is never below the range of an int64, but may lie above it. */
  lemma LagWraps(o: Offer, consumed: nat, receipt: nat)
    requires ValidOffer(o) && FitsU64(consumed) && receipt < I64
    ensures Lag(o, consumed, receipt) == WrapI64(ExactLag(o, consumed, receipt))
    ensures -I64 < ExactLag(o, consumed, receipt) < U64 + I64
  {
    WrapMinus(consumed, TruncDiv(receipt - o.setup, o.unitPrice));
    TruncSmaller(receipt - o.setup, o.unitPrice);
  }

  lemma WrapRange(x: int)
    requires -I64 <= x < U64 + I64
    ensures WrapI64(x) == if x < I64 then x else x - U64
  {
  }

  /** When the lag test fires: for one or more intervals, as far as int64 arithmetic sees them. */
  lemma LagsExactly(o: Offer, consumed: nat, receipt: nat)
    requires ValidOffer(o) && FitsU64(consumed) && receipt < I64
    ensures var lag := ExactLag(o, consumed, receipt);
            Lags(o, consumed, receipt) <==> o.interval <= lag < I64 || U64 + o.interval <= lag
  {
    LagWraps(o, consumed, receipt);
    WrapRange(ExactLag(o, consumed, receipt));
    LagsMeaning(o, consumed, receipt);
  }

  lemma TruncSmaller(a: int, b: int)
    requires b > 0
    ensures a >= 0 ==> 0 <= TruncDiv(a, b) <= a
    ensures a <= 0 ==> a <= TruncDiv(a, b) <= 0
  {
    MulSign(TruncDiv(a, b), b);
  }

  lemma LagsMeaning(o: Offer, consumed: nat, receipt: nat)
    requires ValidOffer(o)
    ensures Lags(o, consumed, receipt) <==> Lag(o, consumed, receipt) >= o.interval
  {
    TruncDivAtLeast(Lag(o, consumed, receipt), o.interval, 1);
  }

  lemma Distribute(x: int, y: int, u: int)
    ensures (x + y) * u == x * u + y * u
  {
  }

  lemma QuotientWithin(d: int, u: int)
    requires u > 0
    ensures var qu := TruncDiv(d, u) * u; qu - u < d < qu + u
  {
    var q := TruncDiv(d, u);
    Distribute(q, 1, u);
    Distribute(q, -1, u);
  }

  /** What stays unpaid, in terms of the lag in units. */
  lemma UnpaidByLag(o: Offer, consumed: nat, receipt: nat)
    requires ValidOffer(o)
    ensures var lag := ExactLag(o, consumed, receipt);
            && (lag - 1) * o.unitPrice < ExactPrice(o, consumed) - receipt < (lag + 1) * o.unitPrice
  {
    var u := o.unitPrice;
    var q := TruncDiv(receipt - o.setup, u);
    QuotientWithin(receipt - o.setup, u);
    Distribute(consumed - q, q, u);
    Distribute(consumed - q, 1, u);
    Distribute(consumed - q, -1, u);
  }

  /** If no cheque is posted for the channel, less than one billing interval is unpaid. */
  predicate UnpaidBelowInterval(o: Offer, c: ClientRow, consumed: nat, inactive: bool, increaseAfter: Option<nat>)
    requires ValidOffer(o)
  {
    var out := Bill(o, c, consumed, inactive, increaseAfter);
    !out.terminate && out.post.None? ==> ExactPrice(o, consumed) - c.receipt < o.interval * o.unitPrice
  }

  /** The price is above every deposit, or the largest lag of a channel fits an int64. */
  predicate LagFits(o: Offer, consumed: nat)
    requires ValidOffer(o)
  {
    ComputePrice(o, consumed) >= I64 || consumed + o.setup / o.unitPrice < I64
  }

  lemma LargestLag(o: Offer, consumed: nat, receipt: nat)
    requires ValidOffer(o)
    ensures ExactLag(o, consumed, 0) == consumed + o.setup / o.unitPrice
    ensures ExactLag(o, consumed, receipt) <= consumed + o.setup / o.unitPrice
  {
    TruncDivMonotone(0 - o.setup, receipt - o.setup, o.unitPrice);
  }

  lemma UnpaidWhenLagFits(o: Offer, c: ClientRow, consumed: nat, inactive: bool, increaseAfter: Option<nat>)
    requires ValidOffer(o) && FitsU64(consumed) && ValidRow(c) && LagFits(o, consumed)
    ensures UnpaidBelowInterval(o, c, consumed, inactive, increaseAfter)
  {
    var out := Bill(o, c, consumed, inactive, increaseAfter);
    if !out.terminate && out.post.None? {
      LargestLag(o, consumed, c.receipt);
      LagsExactly(o, consumed, c.receipt);
      UnpaidByLag(o, consumed, c.receipt);
      MulOrder(o.interval, ExactLag(o, consumed, c.receipt) + 1, o.unitPrice);
    }
  }

  /** A channel whose lag wraps to a negative number. */
  function WrappingRow(o: Offer, consumed: nat): ClientRow {
    ClientRow(if consumed >= I64 && o.setup > 0 then o.setup - 1 else 0, I64 - 1)
  }

  lemma UnpaidWhenLagWraps(o: Offer, consumed: nat)
    requires ValidOffer(o) && FitsU64(consumed) && !LagFits(o, consumed)
    ensures ValidRow(WrappingRow(o, consumed))
    ensures !UnpaidBelowInterval(o, WrappingRow(o, consumed), consumed, false, None)
  {
    var c := WrappingRow(o, consumed);
    var lag := ExactLag(o, consumed, c.receipt);
    LargestLag(o, consumed, c.receipt);
    if consumed < I64 {
      TruncSmaller(0 - o.setup, o.unitPrice);
    } else {
      TruncSmaller(c.receipt - o.setup, o.unitPrice);
    }
    assert I64 <= lag <= U64;
    LagsExactly(o, consumed, c.receipt);
    UnpaidByLag(o, consumed, c.receipt);
    MulOrder(lag - 1, o.interval, o.unitPrice);
  }

  /** No cheque and a payable price leave less than one interval unpaid, for every channel, exactly if the
      largest lag fits an int64 (or the price, as computed, is above every deposit). */
  lemma UnpaidBelowIntervalIff(o: Offer, consumed: nat)
    requires ValidOffer(o) && FitsU64(consumed)
    ensures (forall c, inactive, increaseAfter :: ValidRow(c) ==>
               UnpaidBelowInterval(o, c, consumed, inactive, increaseAfter)) <==> LagFits(o, consumed)
  {
    if LagFits(o, consumed) {
      forall c, inactive, increaseAfter | ValidRow(c)
        ensures UnpaidBelowInterval(o, c, consumed, inactive, increaseAfter)
      {
        UnpaidWhenLagFits(o, c, consumed, inactive, increaseAfter);
      }
    } else {
      UnpaidWhenLagWraps(o, consumed);
    }
  }

  /** A posted cheque is never above the deposit. */
  lemma PostWithinDeposit(o: Offer, c: ClientRow, consumed: nat, inactive: bool, increaseAfter: Option<nat>)
    requires StoredOffer(o)
    requires Bill(o, c, consumed, inactive, increaseAfter).post.Some?
    ensures Bill(o, c, consumed, inactive, increaseAfter).post.value <= c.deposit
  {
  }

  /** The rows a cheque may be posted for: a paid-up receipt is below its deposit. */
  predicate Billable(c: ClientRow) {
    ValidRow(c) && 0 < c.deposit && c.receipt <= c.deposit
  }

  predicate PostExceedsReceipt(o: Offer, c: ClientRow, consumed: nat, inactive: bool, increaseAfter: Option<nat>)
    requires ValidOffer(o)
  {
    var post := Bill(o, c, consumed, inactive, increaseAfter).post;
    post.Some? ==> post.value > c.receipt
  }

  /** The price, as computed, is below some deposit, and at some receipt from there on the lag test fires: at
      the price itself, or where the lag crosses the top of an int64. */
  predicate PostsBelowReceipt(o: Offer, consumed: nat)
    requires ValidOffer(o)
  {
    var price := ComputePrice(o, consumed);
    price < I64 - 1 &&
    (Lags(o, consumed, price) || ExactLag(o, consumed, I64 - 2) < I64 <= ExactLag(o, consumed, price))
  }

  lemma LagAntitone(o: Offer, consumed: nat, r: nat, r': nat)
    requires ValidOffer(o) && r <= r'
    ensures ExactLag(o, consumed, r') <= ExactLag(o, consumed, r)
  {
    TruncDivMonotone(r - o.setup, r' - o.setup, o.unitPrice);
  }

  lemma PostExceedsUnlessBelow(o: Offer, c: ClientRow, consumed: nat, inactive: bool, increaseAfter: Option<nat>)
    requires ValidOffer(o) && FitsU64(consumed) && Billable(c)
    ensures PostsBelowReceipt(o, consumed) || PostExceedsReceipt(o, c, consumed, inactive, increaseAfter)
  {
    var price := ComputePrice(o, consumed);
    if !PostsBelowReceipt(o, consumed) && !MaxDepositReached(c)
       && price <= c.receipt < c.deposit && Lags(o, consumed, c.receipt) {
      LagsExactly(o, consumed, price);
      LagsExactly(o, consumed, c.receipt);
      LagAntitone(o, consumed, price, c.receipt);
      LagAntitone(o, consumed, c.receipt, I64 - 2);
    }
  }

  /** The receipt at which the lag is the largest int64. */
  function CrossingReceipt(o: Offer, consumed: nat): int {
    var r := o.setup + (consumed - (I64 - 1)) * o.unitPrice;
    if r < I64 - 1 then r else I64 - 2
  }

  lemma LagAtCrossing(o: Offer, consumed: nat, low: nat)
    requires ValidOffer(o) && low <= I64 - 2
    requires ExactLag(o, consumed, I64 - 2) < I64 <= ExactLag(o, consumed, low)
    ensures low <= CrossingReceipt(o, consumed) <= I64 - 2
    ensures ExactLag(o, consumed, CrossingReceipt(o, consumed)) == I64 - 1
  {
    var k, u := consumed - (I64 - 1), o.unitPrice;
    var r := o.setup + k * u;
    ExactQuotient(k, u);
    if r <= low {
      TruncDivMonotone(r - o.setup, low - o.setup, u);
    }
    if r > I64 - 2 {
      TruncDivMonotone(I64 - 2 - o.setup, r - o.setup, u);
    }
  }

  /** A posted cheque exceeds the recorded receipt, for every billable channel, exactly if the wrapped price is
      not below a receipt at which the lag test fires. */
  lemma PostExceedsReceiptIff(o: Offer, consumed: nat)
    requires ValidOffer(o) && FitsU64(consumed)
    ensures (forall c, inactive, increaseAfter :: Billable(c) ==>
               PostExceedsReceipt(o, c, consumed, inactive, increaseAfter)) <==> !PostsBelowReceipt(o, consumed)
  {
    if PostsBelowReceipt(o, consumed) {
      var r := ComputePrice(o, consumed);
      if !Lags(o, consumed, r) {
        LagAtCrossing(o, consumed, r);
        r := CrossingReceipt(o, consumed);
        LagsExactly(o, consumed, r);
      }
      var c := ClientRow(r, r + 1);
      assert Billable(c) && !PostExceedsReceipt(o, c, consumed, false, None);
    } else {
      forall c, inactive, increaseAfter | Billable(c)
        ensures PostExceedsReceipt(o, c, consumed, inactive, increaseAfter)
      {
        PostExceedsUnlessBelow(o, c, consumed, inactive, increaseAfter);
      }
    }
  }

  /** A price that does not wrap is never posted below a receipt. */
  lemma ExactPriceExceeds(o: Offer, consumed: nat)
    requires ValidOffer(o) && FitsU64(consumed) && ExactPrice(o, consumed) < U64
    ensures !PostsBelowReceipt(o, consumed)
  {
    var price := ComputePrice(o, consumed);
    if price < I64 {
      assert price - o.setup == consumed * o.unitPrice;
      ExactQuotient(consumed, o.unitPrice);
      LagsExactly(o, consumed, price);
    }
  }

  /** The wrap is real: four units at 2^62 each cost nothing, and a cheque over zero is posted. */
  lemma WrappedPriceExample()
    ensures var o := Offer(0, 0x4000_0000_0000_0000, 1);
            && ValidOffer(o) && PostsBelowReceipt(o, 4)
            && Bill(o, ClientRow(0, 1), 4, false, None).post == Some(0)
  {
  }

  /** The units a cheque pays for once it is the receipt, as the lag test counts them. */
  function CreditedUnits(o: Offer, paidUnits: nat): int
    requires ValidOffer(o)
  {
    TruncDiv(ComputePrice(o, paidUnits) - o.setup, o.unitPrice)
  }

  /** After an acknowledged cheque over some units the lag test fires once a whole interval more was consumed,
      and not before. */
  predicate NextChequeOnTime(o: Offer, paidUnits: nat, consumed: nat)
    requires ValidOffer(o)
  {
    Lags(o, consumed, ComputePrice(o, paidUnits)) <==> consumed >= paidUnits + o.interval
  }

  /** When it does, for every cheque that fits a deposit and every consumption: in terms of the units credited,
      which are fewer than those paid when the price wraps. */
  lemma NextChequeIff(o: Offer, paidUnits: nat, consumed: nat)
    requires ValidOffer(o) && FitsU64(consumed) && ComputePrice(o, paidUnits) < I64
    ensures var lag := consumed - CreditedUnits(o, paidUnits);
            NextChequeOnTime(o, paidUnits, consumed) <==>
            if consumed >= paidUnits + o.interval then o.interval <= lag < I64 || U64 + o.interval <= lag
            else lag < o.interval || I64 <= lag < U64 + o.interval
  {
    LagsExactly(o, consumed, ComputePrice(o, paidUnits));
  }

  /** The units credited are those paid if the price does not wrap, and fewer if it does. */
  lemma CreditedUnitsValue(o: Offer, paidUnits: nat)
    requires ValidOffer(o)
    ensures ExactPrice(o, paidUnits) < U64 ==> CreditedUnits(o, paidUnits) == paidUnits
    ensures ExactPrice(o, paidUnits) >= U64 ==> CreditedUnits(o, paidUnits) < paidUnits
  {
    var u, q := o.unitPrice, CreditedUnits(o, paidUnits);
    if ExactPrice(o, paidUnits) < U64 {
      assert ComputePrice(o, paidUnits) - o.setup == paidUnits * u;
      ExactQuotient(paidUnits, u);
    } else {
      assert ComputePrice(o, paidUnits) <= ExactPrice(o, paidUnits) - U64;
      QuotientWithin(ComputePrice(o, paidUnits) - o.setup, u);
      MulOrder(q, paidUnits, u);
    }
  }

  /** A cheque whose price does not wrap: the next one is due on time exactly while the unpaid units fit an int64. */
  lemma NextChequeUnwrapped(o: Offer, paidUnits: nat, consumed: nat)
    requires ValidOffer(o) && FitsU64(consumed) && ExactPrice(o, paidUnits) < I64
    ensures NextChequeOnTime(o, paidUnits, consumed) <==> consumed < paidUnits + I64
  {
    CreditedUnitsValue(o, paidUnits);
    NextChequeIff(o, paidUnits, consumed);
  }

  /** The next cheque is due on time at every consumption from the paid units on that int64 can tell from them,
      exactly if the price did not wrap, or the units credited wrapped along with it. */
  lemma NextChequeAlwaysIff(o: Offer, paidUnits: nat)
    requires ValidOffer(o) && ComputePrice(o, paidUnits) < I64 && FitsU64(paidUnits + o.interval)
    ensures (forall consumed :: paidUnits <= consumed < paidUnits + I64 && FitsU64(consumed) ==>
               NextChequeOnTime(o, paidUnits, consumed))
       <==> ExactPrice(o, paidUnits) < U64 || CreditedUnits(o, paidUnits) == paidUnits - U64
  {
    CreditedUnitsValue(o, paidUnits);
    forall consumed | paidUnits <= consumed < paidUnits + I64 && FitsU64(consumed)
      ensures ExactPrice(o, paidUnits) < U64 || CreditedUnits(o, paidUnits) == paidUnits - U64
              ==> NextChequeOnTime(o, paidUnits, consumed)
    {
      NextChequeIff(o, paidUnits, consumed);
    }
    if ExactPrice(o, paidUnits) >= U64 && CreditedUnits(o, paidUnits) != paidUnits - U64 {
      NextChequeIff(o, paidUnits, paidUnits + o.interval - 1);
      NextChequeIff(o, paidUnits, paidUnits + o.interval);
      assert !NextChequeOnTime(o, paidUnits, paidUnits + o.interval - 1)
             || !NextChequeOnTime(o, paidUnits, paidUnits + o.interval);
    }
  }

  /** Five units at 2^62 each: an uncapped cheque over 2^62 is posted, and posted again once it is acknowledged. */
  lemma RepeatedChequeExample()
    ensures var o, deposit := Offer(0, 0x4000_0000_0000_0000, 1), 0x6000_0000_0000_0000;
            var first := Bill(o, ClientRow(0, deposit), 5, false, None).post;
            && ValidOffer(o) && first == Some(0x4000_0000_0000_0000) && !NextChequeOnTime(o, 5, 5)
            && Bill(o, Acked(ClientRow(0, deposit), first.value), 5, false, None).post == first
  {
  }

  lemma ExactQuotient(k: int, b: int)
    requires b > 0
    ensures TruncDiv(k * b, b) == k
  {
    var q := TruncDiv(k * b, b);
    Distribute(k, 1, b);
    Distribute(k, -1, b);
    Distribute(q, 1, b);
    Distribute(q, -1, b);
    MulSign(k, b);
    if k >= 0 {
      MulOrder(k, q + 1, b);
      MulOrder(q, k + 1, b);
    } else {
      MulOrder(q - 1, k, b);
      MulOrder(k - 1, q, b);
    }
  }

  // ---- automatic top-ups ----

  datatype TopUpKind = PreTopUp | AfterTopUp

  /** A top-up job of one channel; jobs are listed in order of creation. */
  datatype TopUpJob = TopUpJob(kind: TopUpKind, status: JobStatus)

  /** The position after the newest pre-top-up job: what was created later than it starts there. */
  function AfterLastPre(jobs: seq<TopUpJob>): (i: nat)
    ensures i <= |jobs|
    ensures forall j :: i <= j < |jobs| ==> jobs[j].kind.AfterTopUp?
    ensures i > 0 ==> jobs[i - 1].kind.PreTopUp?
  {
    if jobs == [] then 0
    else if jobs[|jobs| - 1].kind.PreTopUp? then |jobs|
    else AfterLastPre(jobs[..|jobs| - 1])
  }

  /** A pre-top-up job exists, and no after-top-up job, active or done, was created since the newest one. */
  predicate TopUpOutstanding(jobs: seq<TopUpJob>) {
    && AfterLastPre(jobs) > 0
    && forall j :: AfterLastPre(jobs) <= j < |jobs| ==> jobs[j].status.Failed? || jobs[j].status.Canceled?
  }

  /** `Queue.Add` refuses a second active job of the type. */
  predicate ActivePre(jobs: seq<TopUpJob>) {
    exists j :: 0 <= j < |jobs| && jobs[j].kind.PreTopUp? && jobs[j].status.Active?
  }

  datatype TopUpAction =
    | MonitorRound(wanted: bool)       // the monitor asks for a top-up
    | AfterCreated                     // the blockchain monitor saw the top-up mined
    | StatusSet(i: nat, s: JobStatus)  // any worker, cancel or reactivation

  function TopUpNext(jobs: seq<TopUpJob>, a: TopUpAction): seq<TopUpJob> {
    match a
    case MonitorRound(wanted) =>
      if !wanted || TopUpOutstanding(jobs) || ActivePre(jobs) then jobs
      else jobs + [TopUpJob(PreTopUp, Active)]
    case AfterCreated => jobs + [TopUpJob(AfterTopUp, Active)]
    case StatusSet(i, s) => if i < |jobs| then jobs[i := jobs[i].(status := s)] else jobs
  }

  /** The monitor creates a top-up it wants exactly if none is active and the last one, if there was any, was
      completed: by a later after-top-up job that is active or done. */
  lemma TopUpCreatedIff(jobs: seq<TopUpJob>)
    ensures TopUpNext(jobs, MonitorRound(true)) == jobs + [TopUpJob(PreTopUp, Active)] <==>
            && (forall j :: 0 <= j < |jobs| && jobs[j].kind == PreTopUp ==> jobs[j].status != Active)
            && ((exists j :: 0 <= j < |jobs| && jobs[j].kind == PreTopUp) ==>
                exists k :: 0 <= k < |jobs| && jobs[k].kind == AfterTopUp
                            && (jobs[k].status == Active || jobs[k].status == Done)
                            && forall j :: k < j < |jobs| ==> jobs[j].kind != PreTopUp)
  {
    var i := AfterLastPre(jobs);
    assert |TopUpNext(jobs, MonitorRound(true))| == |jobs| + if TopUpOutstanding(jobs) || ActivePre(jobs) then 0 else 1;
    if i > 0 {
      assert jobs[i - 1].kind == PreTopUp;
    }
    if k :| i <= k < |jobs| && !jobs[k].status.Failed? && !jobs[k].status.Canceled? {
      assert jobs[k].kind == AfterTopUp && (jobs[k].status == Active || jobs[k].status == Done);
    }
  }

  function TopUpRun(jobs: seq<TopUpJob>, actions: seq<TopUpAction>): seq<TopUpJob>
    decreases |actions|
  {
    if actions == [] then jobs else TopUpRun(TopUpNext(jobs, actions[0]), actions[1..])
  }

  /** Between two pre-top-up jobs there is an after-top-up job. */
  ghost predicate Alternates(jobs: seq<TopUpJob>) {
    forall i, j :: 0 <= i < j < |jobs| && jobs[i].kind.PreTopUp? && jobs[j].kind.PreTopUp? ==>
      exists k :: i < k < j && jobs[k].kind.AfterTopUp?
  }

  lemma AppendPreAlternates(jobs: seq<TopUpJob>, pre: TopUpJob)
    requires Alternates(jobs) && !TopUpOutstanding(jobs)
    ensures Alternates(jobs + [pre])
  {
    var jobs' := jobs + [pre];
    forall i, j | 0 <= i < j < |jobs'| && jobs'[i].kind.PreTopUp? && jobs'[j].kind.PreTopUp?
      ensures exists k :: i < k < j && jobs'[k].kind.AfterTopUp?
    {
      if j < |jobs| {
        var k :| i < k < j && jobs[k].kind.AfterTopUp?;
        assert jobs'[k] == jobs[k];
      } else {
        assert jobs[i].kind.PreTopUp? && AfterLastPre(jobs) > i;
        var k :| AfterLastPre(jobs) <= k < |jobs| && !jobs[k].status.Failed? && !jobs[k].status.Canceled?;
        assert jobs'[k] == jobs[k];
      }
    }
  }

  lemma TopUpStep(jobs: seq<TopUpJob>, a: TopUpAction)
    requires Alternates(jobs)
    ensures Alternates(TopUpNext(jobs, a))
  {
    var jobs' := TopUpNext(jobs, a);
    if a.MonitorRound? && jobs' != jobs {
      AppendPreAlternates(jobs, TopUpJob(PreTopUp, Active));
    } else {
      forall i, j | 0 <= i < j < |jobs'| && jobs'[i].kind.PreTopUp? && jobs'[j].kind.PreTopUp?
        ensures exists k :: i < k < j && jobs'[k].kind.AfterTopUp?
      {
        var k :| i < k < j && jobs[k].kind.AfterTopUp?;
        assert jobs'[k].kind == jobs[k].kind;
      }
    }
  }

  /** In every run where only the monitor creates top-ups they alternate with their completions. */
  lemma {:induction false} TopUpsAlternate(jobs: seq<TopUpJob>, actions: seq<TopUpAction>)
    requires Alternates(jobs)
    ensures Alternates(TopUpRun(jobs, actions))
    decreases |actions|
  {
    if actions != [] {
      TopUpStep(jobs, actions[0]);
      TopUpsAlternate(TopUpNext(jobs, actions[0]), actions[1..]);
    }
  }

  function CountKind(jobs: seq<TopUpJob>, kind: TopUpKind): nat {
    if jobs == [] then 0
    else CountKind(jobs[..|jobs| - 1], kind) + if jobs[|jobs| - 1].kind == kind then 1 else 0
  }

  /** So at most one top-up is outstanding: the requests outnumber the completions by at most one. */
  lemma {:induction false} AtMostOneOutstanding(jobs: seq<TopUpJob>)
    requires Alternates(jobs)
    ensures CountKind(jobs, PreTopUp) <= CountKind(jobs, AfterTopUp) + 1
    ensures jobs != [] && jobs[|jobs| - 1].kind.AfterTopUp? ==> CountKind(jobs, PreTopUp) <= CountKind(jobs, AfterTopUp)
  {
    if jobs != [] {
      var n := |jobs| - 1;
      assert Alternates(jobs[..n]) by {
        forall i, j | 0 <= i < j < n && jobs[..n][i].kind.PreTopUp? && jobs[..n][j].kind.PreTopUp?
          ensures exists k :: i < k < j && jobs[..n][k].kind.AfterTopUp?
        {
          var k :| i < k < j && jobs[k].kind.AfterTopUp?;
          assert jobs[..n][k] == jobs[k];
        }
      }
      AtMostOneOutstanding(jobs[..n]);
    }
  }
}
