/** The single-page older app (prototype.old/app.js): its `AppState` object
    with the tier tables, registration, the payout loop of
    `PayoutEngine.simulate`, the trigger reset, the threshold save, and the
    audit trail's filter. */
module OldApp {
  import opened Domain
  import Chain
  import Seqs
  import Store

  /** `AppState.coverage` and `AppState.premiums`, by tier. */
  const COVERAGE: map<string, int> := map["basic" := 25000, "standard" := 50000, "premium" := 100000]
  const PREMIUMS: map<string, int> := map["basic" := 800, "standard" := 1500, "premium" := 2800]

  /** What the payout loop pays a farmer: its tier's coverage, 50000 for an
      unknown tier. */
  function PayoutAmount(tier: string): (r: int)
    ensures r > 0
    ensures tier in COVERAGE ==> r == COVERAGE[tier]
    ensures tier !in COVERAGE ==> r == 50000
  {
    if tier in COVERAGE then COVERAGE[tier] else 50000
  }

  // ---------------------------------------------------------------------
  // Registration

  /** The registration form as `handleSubmit` reads it: `area` is `None`
      when `parseFloat` gives NaN; `tier` is the `<select>`'s value. */
  datatype Form = Form(name: string, wallet: string, crop: string, area: Option<real>,
                       lat: real, lon: real, planted: string, tier: string)

  /** The fields `handleSubmit` marks as errors, in the order it checks them. */
  function Errors(f: Form): (r: seq<string>)
    ensures r == [] <==> f.name != "" && |f.wallet| >= 11 && f.crop != ""
                         && f.area.Some? && f.area.value > 0.0 && f.planted != ""
    ensures "farmer-name" in r <==> f.name == ""
    ensures "farmer-wallet" in r <==> |f.wallet| < 11
    ensures "crop-type" in r <==> f.crop == ""
    ensures "land-area" in r <==> f.area.None? || f.area.value <= 0.0
    ensures "plant-date" in r <==> f.planted == ""
    ensures |r| <= 5
  {
    (if f.name == "" then ["farmer-name"] else [])
    + (if f.wallet == "" || |f.wallet| < 11 then ["farmer-wallet"] else [])
    + (if f.crop == "" then ["crop-type"] else [])
    + (if f.area.None? || f.area.value <= 0.0 then ["land-area"] else [])
    + (if f.planted == "" then ["plant-date"] else [])
  }

  /** The farmer record a valid form produces (`id: Date.now()`,
      `address: randomHex(40)`, `registeredAt: new Date()`). */
  function NewFarmer(f: Form, now: int, addr: seq<Chain.Nibble>): (r: Farmer)
    requires Errors(f) == [] && f.tier in COVERAGE
    ensures r.coverage == COVERAGE[f.tier] && r.premium == PREMIUMS[f.tier]
    ensures !r.paid && r.payoutTx.None? && r.payoutBlock.None?
    ensures r.name == f.name && r.wallet == f.wallet && r.tier == f.tier && r.area == f.area.value > 0.0
    ensures |r.address| == |addr| + 2
  {
    Farmer(now, f.name, f.wallet, f.crop, f.area.value, None, f.lat, f.lon, f.planted, f.tier,
           COVERAGE[f.tier], PREMIUMS[f.tier], Chain.RandomHex(addr), Instant(now), false, None, None)
  }

  /** The state after a valid submission: the farmer appended and counted,
      then the registration entry (carrying the address) and the premium
      entry. `regNote` and `premNote` are the entries' description texts. */
  function Submitted(s: Snapshot, f: Form, now: int, addr: seq<Chain.Nibble>, regNote: string,
                     premNote: string, d1: Chain.Draw, d2: Chain.Draw): Snapshot
    requires Errors(f) == [] && f.tier in COVERAGE
  {
    var farmer := NewFarmer(f, now, addr);
    var s1 := Store.Registered(s, farmer);
    var s2 := Chain.WithEntry(s1, "registration", f.name, regNote,
                              Chain.Extra(None, None, None, Some(farmer.address)), d1, now);
    Chain.WithEntry(s2, "premium", f.name, premNote, Chain.NO_EXTRA, d2, now)
  }

  /** A valid registration appends one unpaid farmer with the tier's
      coverage and premium, raises the pool by the premium and the total
      coverage by the coverage, keeps the pool equal to the premiums, leaves
      the payout counters alone, and puts two entries in front of the
      ledger: the premium entry newest, the registration entry behind it. */
  lemma SubmittedShape(s: Snapshot, f: Form, now: int, addr: seq<Chain.Nibble>, regNote: string,
                       premNote: string, d1: Chain.Draw, d2: Chain.Draw)
    requires Errors(f) == [] && f.tier in COVERAGE
    requires Chain.ValidDraw(d1) && Chain.ValidDraw(d2)
    ensures var r := Submitted(s, f, now, addr, regNote, premNote, d1, d2);
      && r.farmers == s.farmers + [NewFarmer(f, now, addr)]
      && r.poolBalance == s.poolBalance + PREMIUMS[f.tier]
      && r.totalCoverage == s.totalCoverage + COVERAGE[f.tier]
      && (Store.Accounted(s) ==> Store.Accounted(r))
      && r.payoutCount == s.payoutCount && r.payoutTotal == s.payoutTotal
      && |r.ledger| == |s.ledger| + 2 && r.ledger[2..] == s.ledger
      && r.ledger[0].kind == "premium" && r.ledger[1].kind == "registration"
      && r.ledger[1].address == Some(NewFarmer(f, now, addr).address)
      && r.ledger[1].block < r.ledger[0].block == r.blockNumber <= s.blockNumber + 8
  {
    var farmer := NewFarmer(f, now, addr);
    var s1 := Store.Registered(s, farmer);
    var s2 := Chain.WithEntry(s1, "registration", f.name, regNote,
                              Chain.Extra(None, None, None, Some(farmer.address)), d1, now);
    var r := Chain.WithEntry(s2, "premium", f.name, premNote, Chain.NO_EXTRA, d2, now);
    Chain.WithEntryShape(s1, "registration", f.name, regNote,
                         Chain.Extra(None, None, None, Some(farmer.address)), d1, now);
    Chain.WithEntryShape(s2, "premium", f.name, premNote, Chain.NO_EXTRA, d2, now);
    assert r.ledger[2..] == r.ledger[1..][1..];
    if Store.Accounted(s) {
      Store.RegisteredKeepsAccounts(s, farmer);
    }
  }

  // ---------------------------------------------------------------------
  // The payout loop

  const PAYOUT_ACTOR: string := "Contract 0x7B4a…3Fc2"

  /** The random inputs for paying the farmer at one position: the 64 draws
      of `payoutTx` and the draw of its ledger entry. */
  datatype PayDraw = PayDraw(tx: seq<Chain.Nibble>, entry: Chain.Draw)

  predicate ValidPayDraws(ds: seq<PayDraw>) {
    forall k :: 0 <= k < |ds| ==> |ds[k].tx| == 64 && Chain.ValidDraw(ds[k].entry)
  }

  /** A farmer once paid in block `block` with transaction `tx`. */
  function PaidIn(f: Farmer, tx: string, block: int): Farmer {
    f.(paid := true, payoutTx := Some(tx), payoutBlock := Some(block))
  }

  /** What the loop makes of the farmer `f`: paid with the draws `d` in
      block `block` when it was unpaid, left alone otherwise. */
  function Settle(f: Farmer, d: PayDraw, block: int): (r: Farmer)
    ensures r.paid
    ensures !f.paid ==> r.payoutBlock == Some(block) && r.payoutTx == Some(Chain.RandomHex(d.tx))
  {
    if f.paid then f else PaidIn(f, Chain.RandomHex(d.tx), block)
  }

  /** The payout ledger entry's `extra`: the amount and the payout block. */
  function PayoutExtra(amount: int, block: int): Chain.Extra {
    Chain.Extra(Some(block), None, Some(amount), None)
  }

  /** The fields the payout loop never writes are equal in `s` and `r`. */
  predicate Unmoved(s: Snapshot, r: Snapshot) {
    && r.totalCoverage == s.totalCoverage && r.thresholds == s.thresholds
    && r.floodSimulated == s.floodSimulated && r.weatherData == s.weatherData
  }

  /** One turn of the loop, at position `i`: an unpaid farmer is paid its
      tier amount, the pool is drawn down (not below 0), the counters move
      and a payout entry is logged; a paid farmer is skipped. */
  function PayOne(s: Snapshot, i: nat, block: int, d: PayDraw,
                  note: (Farmer, int) -> string, now: int): (r: Snapshot)
    requires i < |s.farmers|
    ensures r.farmers == s.farmers[i := Settle(s.farmers[i], d, block)]
    ensures s.farmers[i].paid ==> r == s
    ensures !s.farmers[i].paid ==>
      && r.payoutCount == s.payoutCount + 1
      && r.payoutTotal == s.payoutTotal + PayoutAmount(s.farmers[i].tier)
      && r.poolBalance == Seqs.Max(0, s.poolBalance - PayoutAmount(s.farmers[i].tier))
    ensures Chain.PayoutsPrepended(r.ledger, s.ledger, if s.farmers[i].paid then 0 else 1, PAYOUT_ACTOR, block)
    ensures !s.farmers[i].paid ==> r.ledger[0].amount == Some(PayoutAmount(s.farmers[i].tier))
    ensures Unmoved(s, r)
  {
    var f := s.farmers[i];
    if f.paid then s
    else
      var amount := PayoutAmount(f.tier);
      var s1 := s.(farmers := s.farmers[i := PaidIn(f, Chain.RandomHex(d.tx), block)],
                   poolBalance := Seqs.Max(0, s.poolBalance - amount),
                   payoutCount := s.payoutCount + 1,
                   payoutTotal := s.payoutTotal + amount);
      Chain.WithEntry(s1, "payout", PAYOUT_ACTOR, note(f, amount), PayoutExtra(amount, block), d.entry, now)
  }

  /** The loop from position `i` to the end. */
  function PayFrom(s: Snapshot, i: nat, block: int, ds: seq<PayDraw>,
                   note: (Farmer, int) -> string, now: int): Snapshot
    requires i <= |s.farmers| == |ds|
    decreases |s.farmers| - i
  {
    if i == |s.farmers| then s
    else PayFrom(PayOne(s, i, block, ds[i], note, now), i + 1, block, ds, note, now)
  }

  /** The amount the loop pays out over `fs`: the tier amounts of the unpaid. */
  function UnpaidTotal(fs: seq<Farmer>): int {
    if fs == [] then 0 else (if fs[0].paid then 0 else PayoutAmount(fs[0].tier)) + UnpaidTotal(fs[1..])
  }

  /** The fallback recount: the payout amounts of the farmers that are paid. */
  function PaidTotal(fs: seq<Farmer>): int {
    Seqs.SumOf(fs, (f: Farmer) => if f.paid then PayoutAmount(f.tier) else 0)
  }

  /** The farmers once the loop has run from position `i` to the end:
      those before `i` as they were, the others settled. */
  function SettledFrom(fs: seq<Farmer>, i: nat, block: int, ds: seq<PayDraw>): (r: seq<Farmer>)
    requires |ds| == |fs|
    ensures |r| == |fs|
    ensures forall k :: 0 <= k < i && k < |fs| ==> r[k] == fs[k]
    ensures forall k :: i <= k < |fs| ==> r[k] == Settle(fs[k], ds[k], block)
  {
    seq(|fs|, k requires 0 <= k < |fs| => if k < i then fs[k] else Settle(fs[k], ds[k], block))
  }

  /** Settled from the first position on, every farmer is paid. */
  lemma SettledFromAllPaid(fs: seq<Farmer>, block: int, ds: seq<PayDraw>)
    requires |ds| == |fs|
    ensures forall k :: 0 <= k < |fs| ==> SettledFrom(fs, 0, block, ds)[k].paid
  {
  }

  /** Settling position `i` first and then the positions after it is
      settling from `i` on. */
  lemma SettledFromStep(fs: seq<Farmer>, i: nat, block: int, ds: seq<PayDraw>)
    requires i < |fs| == |ds|
    ensures SettledFrom(fs[i := Settle(fs[i], ds[i], block)], i + 1, block, ds) == SettledFrom(fs, i, block, ds)
  {
    var a := SettledFrom(fs[i := Settle(fs[i], ds[i], block)], i + 1, block, ds);
    var b := SettledFrom(fs, i, block, ds);
    forall k | 0 <= k < |fs|
      ensures a[k] == b[k]
    {
    }
  }

  /** Over the positions from `i` on, the loop pays every unpaid farmer in
      block `block` with its own transaction, skips the paid ones, and
      leaves the positions before `i` alone. */
  lemma {:induction false} PayFromFarmers(s: Snapshot, i: nat, block: int, ds: seq<PayDraw>,
                                          note: (Farmer, int) -> string, now: int)
    requires i <= |s.farmers| == |ds|
    ensures PayFrom(s, i, block, ds, note, now).farmers == SettledFrom(s.farmers, i, block, ds)
    decreases |s.farmers| - i
  {
    if i < |s.farmers| {
      var s1 := PayOne(s, i, block, ds[i], note, now);
      PayFromFarmers(s1, i + 1, block, ds, note, now);
      SettledFromStep(s.farmers, i, block, ds);
    } else {
      assert SettledFrom(s.farmers, i, block, ds) == s.farmers;
    }
  }

  /** The loop counts one payout per unpaid farmer and adds their amounts to
      the payout total; a non-negative pool stays non-negative; with nobody
      to pay nothing changes; the fields it never writes stay as they were. */
  lemma {:induction false} PayFromCounters(s: Snapshot, i: nat, block: int, ds: seq<PayDraw>,
                                           note: (Farmer, int) -> string, now: int)
    requires i <= |s.farmers| == |ds|
    ensures var r := PayFrom(s, i, block, ds, note, now);
      && r.payoutCount == s.payoutCount + Store.CountUnpaid(s.farmers[i..])
      && r.payoutTotal == s.payoutTotal + UnpaidTotal(s.farmers[i..])
      && (s.poolBalance >= 0 ==> r.poolBalance >= 0)
      && (Store.CountUnpaid(s.farmers[i..]) == 0 ==> r == s)
      && Unmoved(s, r)
    decreases |s.farmers| - i
  {
    if i < |s.farmers| {
      var s1 := PayOne(s, i, block, ds[i], note, now);
      PayFromCounters(s1, i + 1, block, ds, note, now);
      UnpaidStep(s.farmers, i);
      assert s1.farmers[i + 1..] == s.farmers[i + 1..];
    }
  }

  /** The unpaid farmers from position `i` on: the one at `i`, then the rest. */
  lemma UnpaidStep(fs: seq<Farmer>, i: nat)
    requires i < |fs|
    ensures Store.CountUnpaid(fs[i..]) == (if fs[i].paid then 0 else 1) + Store.CountUnpaid(fs[i + 1..])
    ensures UnpaidTotal(fs[i..]) == (if fs[i].paid then 0 else PayoutAmount(fs[i].tier)) + UnpaidTotal(fs[i + 1..])
  {
    assert fs[i..][0] == fs[i] && fs[i..][1..] == fs[i + 1..];
  }

  /** The loop logs one payout entry per unpaid farmer, each with `block`
      and an amount, in front of the ledger. */
  lemma {:induction false} PayFromLedger(s: Snapshot, i: nat, block: int, ds: seq<PayDraw>,
                                         note: (Farmer, int) -> string, now: int)
    requires i <= |s.farmers| == |ds|
    ensures Chain.PayoutsPrepended(PayFrom(s, i, block, ds, note, now).ledger, s.ledger,
                                   Store.CountUnpaid(s.farmers[i..]), PAYOUT_ACTOR, block)
    decreases |s.farmers| - i
  {
    if i < |s.farmers| {
      var s1 := PayOne(s, i, block, ds[i], note, now);
      PayFromLedger(s1, i + 1, block, ds, note, now);
      UnpaidStep(s.farmers, i);
      assert s1.farmers[i + 1..] == s.farmers[i + 1..];
      Chain.PayoutsPrependedTrans(PayFrom(s1, i + 1, block, ds, note, now).ledger, s1.ledger, s.ledger,
                                  Store.CountUnpaid(s.farmers[i + 1..]), if s.farmers[i].paid then 0 else 1,
                                  PAYOUT_ACTOR, block);
    } else {
      assert s.ledger[0..] == s.ledger;
    }
  }

  /** The state `PayoutEngine.simulate` reaches before paying: the flood
      flag set, the oracle entry logged, then the payout block drawn. */
  function BeforePayout(s: Snapshot, oracleNote: string, od: Chain.Draw, step: int, now: int): (r: Snapshot)
    ensures r.farmers == s.farmers && r.poolBalance == s.poolBalance
    ensures r.payoutCount == s.payoutCount && r.payoutTotal == s.payoutTotal
    ensures r.floodSimulated && r.totalCoverage == s.totalCoverage && r.thresholds == s.thresholds
    ensures |r.ledger| == |s.ledger| + 1 && r.blockNumber == s.blockNumber + od.step + step
  {
    var s1 := Chain.WithEntry(s.(floodSimulated := true), "oracle", "Oracle Engine", oracleNote, Chain.NO_EXTRA, od, now);
    s1.(blockNumber := s1.blockNumber + step)
  }

  /** The state `PayoutEngine.simulate` leaves: the demo payout when there
      are no farmers, the loop otherwise. */
  function Simulated(s: Snapshot, oracleNote: string, od: Chain.Draw, step: int, ds: seq<PayDraw>,
                     note: (Farmer, int) -> string, now: int): Snapshot
    requires |ds| == |s.farmers|
  {
    var s2 := BeforePayout(s, oracleNote, od, step, now);
    if s2.farmers == [] then s2.(payoutCount := s2.payoutCount + 1, payoutTotal := s2.payoutTotal + 50000)
    else PayFrom(s2, 0, s2.blockNumber, ds, note, now)
  }

  /** The amount the result panel shows: `totalPaid`, or 50000 when it is 0, where
      `totalPaid` is the loop's sum, recounted over the paid farmers of the
      state after the loop when the loop paid nothing. */
  function ReportedTotal(before: seq<Farmer>, after: seq<Farmer>): int {
    var t := if before == [] then 50000 else UnpaidTotal(before);
    var t2 := if t == 0 && |after| > 0 then PaidTotal(after) else t;
    if t2 == 0 then 50000 else t2
  }

  lemma {:induction false} UnpaidTotalZero(fs: seq<Farmer>)
    ensures UnpaidTotal(fs) >= 0
    ensures UnpaidTotal(fs) == 0 <==> Store.CountUnpaid(fs) == 0
  {
    if fs != [] {
      UnpaidTotalZero(fs[1..]);
    }
  }

  /** After the loop every farmer is paid, so the recount is the sum of all
      the farmers' tier amounts. */
  lemma {:induction false} PaidTotalAllPaid(fs: seq<Farmer>)
    requires forall k :: 0 <= k < |fs| ==> fs[k].paid
    ensures PaidTotal(fs) == Seqs.SumOf(fs, (f: Farmer) => PayoutAmount(f.tier))
    ensures PaidTotal(fs) > 0 || fs == []
  {
    if fs != [] {
      PaidTotalAllPaid(fs[..|fs| - 1]);
    }
  }

  /** With no farmers, `simulate` counts one demo payout of 50000, leaves
      the pool alone and logs only the oracle entry; the panel shows 50000. */
  lemma SimulatedWithoutFarmers(s: Snapshot, oracleNote: string, od: Chain.Draw, step: int,
                                ds: seq<PayDraw>, note: (Farmer, int) -> string, now: int)
    requires s.farmers == [] && ds == []
    ensures var r := Simulated(s, oracleNote, od, step, ds, note, now);
      && r.floodSimulated && r.farmers == []
      && r.payoutCount == s.payoutCount + 1 && r.payoutTotal == s.payoutTotal + 50000
      && r.poolBalance == s.poolBalance && |r.ledger| == |s.ledger| + 1
      && ReportedTotal(s.farmers, r.farmers) == 50000
  {
  }

  /** With farmers, `simulate` leaves every farmer paid: those that were
      unpaid are paid in the payout block, each with its own transaction,
      and the others are left as they were. */
  lemma SimulatedFarmers(s: Snapshot, oracleNote: string, od: Chain.Draw, step: int,
                         ds: seq<PayDraw>, note: (Farmer, int) -> string, now: int)
    requires |ds| == |s.farmers| && s.farmers != []
    ensures var r := Simulated(s, oracleNote, od, step, ds, note, now);
      && |r.farmers| == |s.farmers|
      && (forall k :: 0 <= k < |r.farmers| ==> r.farmers[k].paid)
      && r.farmers == SettledFrom(s.farmers, 0, BeforePayout(s, oracleNote, od, step, now).blockNumber, ds)
  {
    var s2 := BeforePayout(s, oracleNote, od, step, now);
    var r := Simulated(s, oracleNote, od, step, ds, note, now);
    assert s2.farmers == s.farmers;
    PayFromFarmers(s2, 0, s2.blockNumber, ds, note, now);
    assert r.farmers == PayFrom(s2, 0, s2.blockNumber, ds, note, now).farmers;
    SettledFromAllPaid(s.farmers, s2.blockNumber, ds);
  }

  /** With farmers, `simulate` counts one payout per unpaid farmer and
      their amounts, logs the oracle entry and one payout entry per unpaid
      farmer, and keeps a non-negative pool non-negative. */
  lemma SimulatedAccounts(s: Snapshot, oracleNote: string, od: Chain.Draw, step: int,
                          ds: seq<PayDraw>, note: (Farmer, int) -> string, now: int)
    requires |ds| == |s.farmers| && s.farmers != []
    ensures var r := Simulated(s, oracleNote, od, step, ds, note, now);
      && r.floodSimulated && r.thresholds == s.thresholds && r.totalCoverage == s.totalCoverage
      && r.payoutCount == s.payoutCount + Store.CountUnpaid(s.farmers)
      && r.payoutTotal == s.payoutTotal + UnpaidTotal(s.farmers)
      && |r.ledger| == |s.ledger| + 1 + Store.CountUnpaid(s.farmers)
      && (s.poolBalance >= 0 ==> r.poolBalance >= 0)
  {
    var s2 := BeforePayout(s, oracleNote, od, step, now);
    assert Simulated(s, oracleNote, od, step, ds, note, now) == PayFrom(s2, 0, s2.blockNumber, ds, note, now);
    assert s2.farmers[0..] == s.farmers;
    PayFromCounters(s2, 0, s2.blockNumber, ds, note, now);
    PayFromLedger(s2, 0, s2.blockNumber, ds, note, now);
  }

  /** The amount the panel shows after a run with farmers: the sum paid to
      the unpaid farmers or, when every farmer was already paid, the sum of
      every farmer's amount, as if all were paid again. */
  lemma SimulatedReportedTotal(s: Snapshot, oracleNote: string, od: Chain.Draw, step: int,
                               ds: seq<PayDraw>, note: (Farmer, int) -> string, now: int)
    requires |ds| == |s.farmers| && s.farmers != []
    ensures var r := Simulated(s, oracleNote, od, step, ds, note, now);
      ReportedTotal(s.farmers, r.farmers) ==
        if Store.CountUnpaid(s.farmers) > 0 then UnpaidTotal(s.farmers)
        else Seqs.SumOf(s.farmers, (f: Farmer) => PayoutAmount(f.tier))
  {
    var r := Simulated(s, oracleNote, od, step, ds, note, now);
    SimulatedFarmers(s, oracleNote, od, step, ds, note, now);
    UnpaidTotalZero(s.farmers);
    PaidTotalAllPaid(r.farmers);
    if Store.CountUnpaid(s.farmers) == 0 {
      assert forall k :: 0 <= k < |s.farmers| ==> s.farmers[k].paid;
      assert r.farmers == s.farmers;
    }
  }

  // ---------------------------------------------------------------------
  // The trigger reset

  /** The reset's pass over the farmers: every `paid` flag cleared. */
  function ClearPaid(fs: seq<Farmer>): (r: seq<Farmer>)
    ensures |r| == |fs|
  {
    if fs == [] then [] else [fs[0].(paid := false)] + ClearPaid(fs[1..])
  }

  /** Every farmer becomes unpaid and keeps everything else, its payout
      transaction and block included. */
  lemma {:induction false} ClearPaidAt(fs: seq<Farmer>)
    ensures forall k :: 0 <= k < |fs| ==> ClearPaid(fs)[k] == fs[k].(paid := false)
  {
    if fs != [] {
      ClearPaidAt(fs[1..]);
    }
  }

  /** The reset-trigger handler. */
  function TriggerReset(s: Snapshot): Snapshot {
    s.(floodSimulated := false, farmers := ClearPaid(s.farmers))
  }

  /** The reset leaves no farmer paid and the accounts as they were, so the
      next `simulate` pays every registered farmer again and counts every
      one of them once more. */
  lemma ResetThenSimulatePaysAll(s: Snapshot, oracleNote: string, od: Chain.Draw, step: int,
                                 ds: seq<PayDraw>, note: (Farmer, int) -> string, now: int)
    requires |ds| == |s.farmers| && s.farmers != []
    ensures var t := TriggerReset(s);
      && (forall k :: 0 <= k < |t.farmers| ==> !t.farmers[k].paid)
      && t.poolBalance == s.poolBalance && t.payoutCount == s.payoutCount && t.payoutTotal == s.payoutTotal
      && Simulated(t, oracleNote, od, step, ds, note, now).payoutCount == s.payoutCount + |s.farmers|
  {
    var t := TriggerReset(s);
    ClearPaidAt(s.farmers);
    Seqs.FilterAllPass(t.farmers, Store.IsUnpaid);
    SimulatedAccounts(t, oracleNote, od, step, ds, note, now);
  }

  // ---------------------------------------------------------------------
  // The threshold save

  /** The save handler: thresholds replaced, one `nextBlock()` for the
      confirmation message, then the admin's oracle entry (a second advance). */
  function ThresholdsSaved(s: Snapshot, t: Thresholds, step: int, note: string,
                           d: Chain.Draw, now: int): Snapshot {
    Chain.WithEntry(s.(thresholds := t, blockNumber := s.blockNumber + step), "oracle", "Admin",
                    note, Chain.NO_EXTRA, d, now)
  }

  /** Saving stores exactly the three values, logs exactly one 'oracle'
      entry by 'Admin', and moves the counter twice (2 to 8 in all); the
      block in the message is one the ledger never records. */
  lemma ThresholdsSavedShape(s: Snapshot, t: Thresholds, step: int, note: string, d: Chain.Draw, now: int)
    requires 1 <= step <= 4 && Chain.ValidDraw(d)
    ensures var r := ThresholdsSaved(s, t, step, note, d, now);
      && r.thresholds == t
      && |r.ledger| == |s.ledger| + 1 && r.ledger[1..] == s.ledger
      && r.ledger[0].kind == "oracle" && r.ledger[0].actor == "Admin"
      && s.blockNumber + 2 <= r.blockNumber <= s.blockNumber + 8
      && s.blockNumber + step < r.ledger[0].block
      && r.(thresholds := s.thresholds, ledger := s.ledger, blockNumber := s.blockNumber) == s
  {
  }

  // ---------------------------------------------------------------------
  // The audit trail

  /** The search test of `AuditTrail.render`; `q` is the lower-cased search.
      The type is compared without lower-casing. */
  predicate AuditMatches(e: Entry, q: string) {
    || Seqs.Contains(Seqs.Lower(e.txHash), q)
    || Seqs.Contains(e.kind, q)
    || Seqs.Contains(Seqs.Lower(e.actor), q)
    || Seqs.Contains(Seqs.Lower(e.data), q)
  }

  /** Whether an entry is listed under `filter` and `search`. */
  predicate AuditKeeps(e: Entry, filter: string, search: string) {
    (filter == "all" || e.kind == filter) && (search == "" || AuditMatches(e, Seqs.Lower(search)))
  }

  /** The entries `AuditTrail.render` lists: the type filter, then the search. */
  function AuditFilter(ledger: seq<Entry>, filter: string, search: string): (r: seq<Entry>)
    ensures r == Seqs.Filter(ledger, (e: Entry) => AuditKeeps(e, filter, search))
    ensures filter == "all" && search == "" ==> r == ledger
  {
    var q := Seqs.Lower(search);
    var byType := if filter != "all" then Seqs.Filter(ledger, (e: Entry) => e.kind == filter) else ledger;
    var r := if search != "" then Seqs.Filter(byType, (e: Entry) => AuditMatches(e, q)) else byType;
    AuditFilterIsOneFilter(ledger, filter, search);
    r
  }

  lemma AuditFilterIsOneFilter(ledger: seq<Entry>, filter: string, search: string)
    ensures var q := Seqs.Lower(search);
      var byType := if filter != "all" then Seqs.Filter(ledger, (e: Entry) => e.kind == filter) else ledger;
      (if search != "" then Seqs.Filter(byType, (e: Entry) => AuditMatches(e, q)) else byType)
        == Seqs.Filter(ledger, (e: Entry) => AuditKeeps(e, filter, search))
  {
    var q := Seqs.Lower(search);
    var keep := (e: Entry) => AuditKeeps(e, filter, search);
    if filter != "all" && search != "" {
      Seqs.FilterFilter(ledger, (e: Entry) => e.kind == filter, (e: Entry) => AuditMatches(e, q), keep);
    } else if filter != "all" {
      Seqs.FilterFilter(ledger, (e: Entry) => e.kind == filter, (e: Entry) => true, keep);
      Seqs.FilterAllPass(Seqs.Filter(ledger, (e: Entry) => e.kind == filter), (e: Entry) => true);
    } else if search != "" {
      Seqs.FilterFilter(ledger, (e: Entry) => true, (e: Entry) => AuditMatches(e, q), keep);
      Seqs.FilterAllPass(ledger, (e: Entry) => true);
    } else {
      Seqs.FilterAllPass(ledger, keep);
    }
  }

  /** The listed entries are an order-preserving selection of the ledger;
      under a type filter all have that type; an entry is listed exactly as
      often as it occurs in the ledger when it passes, and never otherwise. */
  lemma AuditFilterSelects(ledger: seq<Entry>, filter: string, search: string, e: Entry)
    ensures Seqs.IsSubsequence(AuditFilter(ledger, filter, search), ledger)
    ensures filter != "all" ==> forall i :: 0 <= i < |AuditFilter(ledger, filter, search)| ==>
      AuditFilter(ledger, filter, search)[i].kind == filter
    ensures multiset(AuditFilter(ledger, filter, search))[e] ==
      if AuditKeeps(e, filter, search) then multiset(ledger)[e] else 0
  {
    Seqs.FilterIsSubsequence(ledger, (x: Entry) => AuditKeeps(x, filter, search));
    Seqs.FilterCounts(ledger, (x: Entry) => AuditKeeps(x, filter, search), e);
  }

  // ---------------------------------------------------------------------
  // The AppState object

  /** `AppState` of prototype.old/app.js (its domain fields; the tables are
      the constants above). */
  class AppState {
    var farmers: seq<Farmer>
    var ledger: seq<Entry>
    var blockNumber: int
    var poolBalance: int
    var totalCoverage: int
    var payoutCount: int
    var payoutTotal: int
    var thresholds: Thresholds
    var floodSimulated: bool
    var weatherData: Option<Weather>

    function State(): Snapshot
      reads this
    {
      Snapshot(farmers, ledger, blockNumber, poolBalance, totalCoverage,
               payoutCount, payoutTotal, thresholds, floodSimulated, weatherData)
    }

    constructor ()
      ensures State() == DEFAULTS
    {
      farmers, ledger := [], [];
      blockNumber := 19_400_000;
      poolBalance, totalCoverage, payoutCount, payoutTotal := 0, 0, 0, 0;
      thresholds := DEFAULT_THRESHOLDS;
      floodSimulated := false;
      weatherData := None;
    }

    /** `Blockchain.nextBlock()`. */
    method NextBlock(step: int) returns (b: int)
      requires 1 <= step <= 4
      modifies this
      ensures State() == old(State()).(blockNumber := b)
      ensures b == old(blockNumber) + step
    {
      blockNumber := blockNumber + step;
      b := blockNumber;
    }

    /** `Blockchain.addLedgerEntry(type, actor, data, extra)`. */
    method AddLedgerEntry(kind: string, actor: string, data: string, extra: Chain.Extra,
                          d: Chain.Draw, now: int) returns (e: Entry)
      requires Chain.ValidDraw(d)
      modifies this
      ensures e == Chain.NewEntry(old(State()), kind, actor, data, extra, d, now)
      ensures State() == Chain.WithEntry(old(State()), kind, actor, data, extra, d, now)
    {
      var b := NextBlock(d.step);
      e := Chain.MakeEntry(b, now, kind, actor, data, Chain.RandomHex(d.digits), extra);
      ledger := [e] + ledger;
    }

    /** `Registration.handleSubmit`: returns the fields marked as errors;
      with any, nothing changes. The tier is one of the select's options. */
    method HandleSubmit(f: Form, now: int, addr: seq<Chain.Nibble>, regNote: string, premNote: string,
                        d1: Chain.Draw, d2: Chain.Draw) returns (errors: seq<string>)
      requires f.tier in COVERAGE && |addr| == 40
      requires Chain.ValidDraw(d1) && Chain.ValidDraw(d2)
      modifies this
      ensures errors == Errors(f)
      ensures errors != [] ==> State() == old(State())
      ensures errors == [] ==> State() == Submitted(old(State()), f, now, addr, regNote, premNote, d1, d2)
    {
      errors := Errors(f);
      if errors != [] {
        return;
      }
      ghost var s0 := State();
      var farmer := NewFarmer(f, now, addr);
      farmers := farmers + [farmer];
      poolBalance := poolBalance + farmer.premium;
      totalCoverage := totalCoverage + farmer.coverage;
      ghost var s1 := State();
      assert s1 == Store.Registered(s0, farmer);
      var _ := AddLedgerEntry("registration", farmer.name, regNote,
                              Chain.Extra(None, None, None, Some(farmer.address)), d1, now);
      ghost var s2 := State();
      var _ := AddLedgerEntry("premium", farmer.name, premNote, Chain.NO_EXTRA, d2, now);
      assert State() == Chain.WithEntry(s2, "premium", f.name, premNote, Chain.NO_EXTRA, d2, now);
    }

    /** One turn of the payout loop, at position `i`; returns what it added
      to `totalPaid`. */
    method PayAt(i: nat, block: int, d: PayDraw, note: (Farmer, int) -> string, now: int) returns (paid: int)
      requires i < |farmers| && |d.tx| == 64 && Chain.ValidDraw(d.entry)
      modifies this
      ensures State() == PayOne(old(State()), i, block, d, note, now)
      ensures paid == if old(farmers)[i].paid then 0 else PayoutAmount(old(farmers)[i].tier)
    {
      ghost var s0 := State();
      var f := farmers[i];
      paid := 0;
      if !f.paid {
        var amount := PayoutAmount(f.tier);
        paid := amount;
        poolBalance := Seqs.Max(0, poolBalance - amount);
        payoutCount := payoutCount + 1;
        payoutTotal := payoutTotal + amount;
        farmers := farmers[i := PaidIn(f, Chain.RandomHex(d.tx), block)];
        ghost var s1 := State();
        assert s1 == s0.(farmers := s0.farmers[i := PaidIn(f, Chain.RandomHex(d.tx), block)],
                         poolBalance := Seqs.Max(0, s0.poolBalance - amount),
                         payoutCount := s0.payoutCount + 1,
                         payoutTotal := s0.payoutTotal + amount);
        var _ := AddLedgerEntry("payout", PAYOUT_ACTOR, note(f, amount), PayoutExtra(amount, block), d.entry, now);
        assert State() == Chain.WithEntry(s1, "payout", PAYOUT_ACTOR, note(f, amount), PayoutExtra(amount, block), d.entry, now);
      }
    }

    /** The payout loop over `AppState.farmers`, paying each unpaid farmer;
      returns `totalPaid`. */
    method PayLoop(block: int, ds: seq<PayDraw>, note: (Farmer, int) -> string, now: int) returns (totalPaid: int)
      requires |ds| == |farmers| && ValidPayDraws(ds)
      modifies this
      ensures State() == PayFrom(old(State()), 0, block, ds, note, now)
      ensures totalPaid == UnpaidTotal(old(farmers))
    {
      totalPaid := 0;
      var i := 0;
      while i < |farmers|
        invariant 0 <= i <= |farmers| == |old(farmers)| == |ds|
        invariant PayFrom(State(), i, block, ds, note, now) == PayFrom(old(State()), 0, block, ds, note, now)
        invariant forall k :: i <= k < |farmers| ==> farmers[k] == old(farmers)[k]
        invariant totalPaid + UnpaidTotal(old(farmers)[i..]) == UnpaidTotal(old(farmers))
      {
        UnpaidStep(old(farmers), i);
        var paid := PayAt(i, block, ds[i], note, now);
        totalPaid := totalPaid + paid;
        i := i + 1;
      }
      assert old(farmers)[0..] == old(farmers);
    }

    /** `PayoutEngine.simulate`, its state changes in order; returns the
      amount the result panel shows. `ds[k]` are the draws for the farmer
      at position `k`; `note` renders a payout entry's description. */
    method PayoutSimulate(oracleNote: string, od: Chain.Draw, step: int, ds: seq<PayDraw>,
                          note: (Farmer, int) -> string, now: int) returns (shown: int)
      requires Chain.ValidDraw(od) && 1 <= step <= 4
      requires |ds| == |farmers| && ValidPayDraws(ds)
      modifies this
      ensures State() == Simulated(old(State()), oracleNote, od, step, ds, note, now)
      ensures shown == ReportedTotal(old(farmers), farmers)
    {
      ghost var s0 := State();
      floodSimulated := true;
      ghost var s1 := State();
      assert s1 == s0.(floodSimulated := true);
      var _ := AddLedgerEntry("oracle", "Oracle Engine", oracleNote, Chain.NO_EXTRA, od, now);
      var block := NextBlock(step);
      ghost var s2 := State();
      assert s2 == BeforePayout(s0, oracleNote, od, step, now);
      var totalPaid := 0;
      if |farmers| == 0 {
        totalPaid := 50000;
        payoutCount := payoutCount + 1;
        payoutTotal := payoutTotal + totalPaid;
      } else {
        totalPaid := PayLoop(block, ds, note, now);
        assert State() == PayFrom(s2, 0, s2.blockNumber, ds, note, now);
      }
      if totalPaid == 0 && |farmers| > 0 {
        totalPaid := PaidTotal(farmers);
      }
      shown := if totalPaid == 0 then 50000 else totalPaid;
    }

    /** The reset-trigger handler: the flood flag cleared and, farmer by
      farmer, every `paid` flag cleared. */
    method ResetTrigger()
      modifies this
      ensures State() == TriggerReset(old(State()))
    {
      floodSimulated := false;
      ClearPaidAt(farmers);
      var i := 0;
      while i < |farmers|
        invariant 0 <= i <= |farmers| == |old(farmers)|
        invariant forall k :: 0 <= k < i ==> farmers[k] == old(farmers)[k].(paid := false)
        invariant forall k :: i <= k < |farmers| ==> farmers[k] == old(farmers)[k]
        invariant State().(farmers := old(farmers)) == old(State()).(floodSimulated := false)
      {
        farmers := farmers[i := farmers[i].(paid := false)];
        i := i + 1;
      }
      assert farmers == ClearPaid(old(farmers));
    }

    /** The threshold save handler; returns the block shown in the message. */
    method SaveThresholds(t: Thresholds, step: int, note: string, d: Chain.Draw, now: int) returns (shownBlock: int)
      requires 1 <= step <= 4 && Chain.ValidDraw(d)
      modifies this
      ensures State() == ThresholdsSaved(old(State()), t, step, note, d, now)
      ensures shownBlock == old(blockNumber) + step
    {
      ghost var s0 := State();
      thresholds := t;
      shownBlock := NextBlock(step);
      ghost var s1 := State();
      assert s1 == s0.(thresholds := t, blockNumber := s0.blockNumber + step);
      var _ := AddLedgerEntry("oracle", "Admin", note, Chain.NO_EXTRA, d, now);
    }
  }
}
