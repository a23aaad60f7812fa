/** The farmer portal (src/pages/farmer/FarmerPortal.jsx): the tier table,
    registration through the store and the ledger, the weather cards'
    status classifier and bar percentage, and the payouts list. */
module FarmerPortal {
  import opened Domain
  import Chain
  import Store
  import Seqs
  import Oracle

  /** One row of `TIERS`. */
  datatype Terms = Terms(coverage: int, premium: int)

  const TIERS: map<string, Terms> := map[
    "basic" := Terms(25000, 800),
    "standard" := Terms(50000, 1500),
    "premium" := Terms(100000, 2800)]

  /** The terms of the chosen tier, or the standard terms for an unknown one. */
  function TermsFor(tier: string): (t: Terms)
    ensures tier in TIERS ==> t == TIERS[tier]
    ensures tier !in TIERS ==> t == Terms(50000, 1500)
    ensures t in TIERS.Values
  {
    if tier in TIERS then TIERS[tier] else TIERS["standard"]
  }

  /** The registration form: every field is the text the user typed. */
  datatype Form = Form(name: string, wallet: string, crop: string, area: string, unit: string,
                       lat: string, lon: string, planted: string, tier: string)

  /** `parseFloat` of the form's area, latitude and longitude. */
  datatype Parsed = Parsed(area: real, lat: real, lon: real)

  /** Some required field (name, wallet, crop, area, planting date) is empty. */
  predicate Incomplete(f: Form) {
    f.name == "" || f.wallet == "" || f.crop == "" || f.area == "" || f.planted == ""
  }

  /** The record `handleRegister` builds. */
  function NewFarmer(f: Form, p: Parsed, now: int, addr: seq<Chain.Nibble>): (r: Farmer)
    ensures r.coverage == TermsFor(f.tier).coverage && r.premium == TermsFor(f.tier).premium
    ensures !r.paid && r.payoutTx.None? && r.payoutBlock.None?
    ensures r.id == now && r.name == f.name && r.tier == f.tier && r.unit == Some(f.unit)
    ensures r.registeredAt == Instant(now) && |r.address| == |addr| + 2
  {
    var t := TermsFor(f.tier);
    Farmer(now, f.name, f.wallet, f.crop, p.area, Some(f.unit), p.lat, p.lon, f.planted, f.tier,
           t.coverage, t.premium, Chain.RandomHex(addr), Instant(now), false, None, None)
  }

  /** The store after a complete registration: the farmer registered, then
      the registration entry, then the premium entry. */
  function Registration(s: Snapshot, f: Form, p: Parsed, now: int, addr: seq<Chain.Nibble>,
                        regNote: string, premNote: string, d1: Chain.Draw, d2: Chain.Draw): Snapshot {
    var s1 := Store.Registered(s, NewFarmer(f, p, now, addr));
    var s2 := Chain.WithEntry(s1, "registration", f.name, regNote, Chain.NO_EXTRA, d1, now);
    Chain.WithEntry(s2, "premium", f.name, premNote, Chain.NO_EXTRA, d2, now)
  }

  /** A registration appends one unpaid farmer with its tier's terms (the
      standard terms for an unknown tier), adds the premium to the pool and
      the coverage to the total coverage, keeps the pool equal to the
      premiums, and leaves the payout counters and thresholds alone. */
  lemma RegistrationAccounts(s: Snapshot, f: Form, p: Parsed, now: int, addr: seq<Chain.Nibble>,
                             regNote: string, premNote: string, d1: Chain.Draw, d2: Chain.Draw)
    ensures var r := Registration(s, f, p, now, addr, regNote, premNote, d1, d2);
      && r.farmers == s.farmers + [NewFarmer(f, p, now, addr)]
      && r.poolBalance == s.poolBalance + TermsFor(f.tier).premium
      && r.totalCoverage == s.totalCoverage + TermsFor(f.tier).coverage
      && (Store.Accounted(s) ==> Store.Accounted(r))
      && r.payoutCount == s.payoutCount && r.payoutTotal == s.payoutTotal && r.thresholds == s.thresholds
  {
    var farmer := NewFarmer(f, p, now, addr);
    var s1 := Store.Registered(s, farmer);
    var r := Registration(s, f, p, now, addr, regNote, premNote, d1, d2);
    assert r.farmers == s1.farmers && r.poolBalance == s1.poolBalance && r.totalCoverage == s1.totalCoverage;
    if Store.Accounted(s) {
      Store.RegisteredKeepsAccounts(s, farmer);
    }
  }

  /** A registration adds two entries in front of the ledger, both by the
      farmer: the premium entry newest, the registration entry behind it. */
  lemma RegistrationLedger(s: Snapshot, f: Form, p: Parsed, now: int, addr: seq<Chain.Nibble>,
                           regNote: string, premNote: string, d1: Chain.Draw, d2: Chain.Draw)
    requires Chain.ValidDraw(d1) && Chain.ValidDraw(d2)
    ensures var r := Registration(s, f, p, now, addr, regNote, premNote, d1, d2);
      && |r.ledger| == |s.ledger| + 2 && r.ledger[2..] == s.ledger
      && r.ledger[0].kind == "premium" && r.ledger[1].kind == "registration"
      && r.ledger[0].actor == f.name && r.ledger[1].actor == f.name
      && r.ledger[1].block < r.ledger[0].block == r.blockNumber
  {
    var s1 := Store.Registered(s, NewFarmer(f, p, now, addr));
    var s2 := Chain.WithEntry(s1, "registration", f.name, regNote, Chain.NO_EXTRA, d1, now);
    var r := Chain.WithEntry(s2, "premium", f.name, premNote, Chain.NO_EXTRA, d2, now);
    Chain.WithEntryShape(s1, "registration", f.name, regNote, Chain.NO_EXTRA, d1, now);
    Chain.WithEntryShape(s2, "premium", f.name, premNote, Chain.NO_EXTRA, d2, now);
    assert r.ledger[2..] == r.ledger[1..][1..];
  }

  /** `handleRegister`: with a missing field nothing is registered and
      nothing logged; otherwise the farmer is registered and both entries
      are added. Returns the farmer registered, if any. */
  method HandleRegister(store: Store.Store, f: Form, p: Parsed, now: int, addr: seq<Chain.Nibble>,
                        regNote: string, premNote: string, d1: Chain.Draw, d2: Chain.Draw)
    returns (r: Option<Farmer>)
    requires |addr| == 40 && Chain.ValidDraw(d1) && Chain.ValidDraw(d2)
    modifies store
    ensures Incomplete(f) ==> r.None? && store.State() == old(store.State())
    ensures !Incomplete(f) ==> r == Some(NewFarmer(f, p, now, addr))
    ensures !Incomplete(f) ==>
      store.State() == Registration(old(store.State()), f, p, now, addr, regNote, premNote, d1, d2)
  {
    if Incomplete(f) {
      return None;
    }
    var farmer := NewFarmer(f, p, now, addr);
    store.RegisterFarmer(farmer);
    var _ := Chain.AddEntry(store, "registration", f.name, regNote, Chain.NO_EXTRA, d1, now);
    var _ := Chain.AddEntry(store, "premium", f.name, premNote, Chain.NO_EXTRA, d2, now);
    r := Some(farmer);
  }

  // ---------------------------------------------------------------------
  // The weather cards

  datatype Status = Ok | Warn | Alert

  /** `s(v, th)`: 'alert' over the threshold, 'warn' over three quarters of it. */
  function StatusOf(v: real, th: Level): (r: Status)
    ensures r == Alert <==> v > th
    ensures r == Warn <==> 0.75 * th < v <= th
    ensures r == Ok <==> v <= 0.75 * th
  {
    if v > th then Alert else if v > th * 0.75 then Warn else Ok
  }

  /** The bar's fill: the reading as a percentage of the threshold, capped at 100. */
  function BarPct(v: real, th: Level): (r: real)
    ensures r <= 100.0
    ensures v <= th ==> r == v / th * 100.0
    ensures r == 100.0 <==> v >= th
    ensures v >= 0.0 ==> r >= 0.0
  {
    var q := v / th * 100.0;
    Oracle.PercentOfThreshold(v, th);
    if q <= 100.0 then q else 100.0
  }

  /** A card shows a full bar exactly when it is not 'ok' or 'warn', apart
      from a reading exactly at the threshold, which fills the bar but is
      only a warning. */
  lemma FullBarIsAlertOrAtThreshold(v: real, th: Level)
    ensures BarPct(v, th) == 100.0 <==> StatusOf(v, th) == Alert || v == th
  {
  }

  // ---------------------------------------------------------------------
  // The payouts tab

  predicate IsPayout(e: Entry) {
    e.kind == "payout"
  }

  /** The payouts tab's list: the ledger's payout entries. */
  function Payouts(ledger: seq<Entry>): (r: seq<Entry>)
    ensures forall i :: 0 <= i < |r| ==> r[i].kind == "payout"
  {
    Seqs.Filter(ledger, IsPayout)
  }

  /** The payouts tab lists exactly the payout entries of the ledger, in
      ledger order, each as often as the ledger holds it. */
  lemma PayoutsAreThePayoutEntries(ledger: seq<Entry>, e: Entry)
    ensures Seqs.IsSubsequence(Payouts(ledger), ledger)
    ensures multiset(Payouts(ledger))[e] == if e.kind == "payout" then multiset(ledger)[e] else 0
  {
    Seqs.FilterIsSubsequence(ledger, IsPayout);
    Seqs.FilterCounts(ledger, IsPayout, e);
  }

  /** A registration adds no payout. */
  lemma RegistrationAddsNoPayout(s: Snapshot, f: Form, p: Parsed, now: int, addr: seq<Chain.Nibble>,
                                 regNote: string, premNote: string, d1: Chain.Draw, d2: Chain.Draw)
    requires Chain.ValidDraw(d1) && Chain.ValidDraw(d2)
    ensures Payouts(Registration(s, f, p, now, addr, regNote, premNote, d1, d2).ledger) == Payouts(s.ledger)
  {
    var r := Registration(s, f, p, now, addr, regNote, premNote, d1, d2);
    RegistrationLedger(s, f, p, now, addr, regNote, premNote, d1, d2);
    assert r.ledger[1..][1..] == s.ledger;
    assert Seqs.Filter(r.ledger[1..], IsPayout) == Seqs.Filter(s.ledger, IsPayout);
  }
}
