/** The insurer portal (src/pages/insurer/InsurerPortal.jsx): the event
    badges, the short hash, the pool figures, the audit-trail filter, the
    crop chart, the payout total read off the ledger, and the verify box.
    The figures are recomputed from the store on every render; the facts
    below say how they stand to the store's own counters. */
module InsurerPortal {
  import opened Domain
  import Seqs
  import Store
  import Chain
  import FarmerPortal
  import OraclePortal
  import OldApp

  // ---------------------------------------------------------------------
  // Badges and hashes

  /** The colour family of an event badge. */
  datatype Badge = Blue | Amber | Purple | Emerald | Red | Gray

  /** `evClass(type)`: one colour per known event type, grey otherwise. */
  function EvClass(kind: string): (r: Badge)
    ensures r == Blue <==> kind == "registration"
    ensures r == Amber <==> kind == "premium"
    ensures r == Purple <==> kind == "oracle"
    ensures r == Emerald <==> kind == "payout"
    ensures r == Red <==> kind == "admin"
    ensures r == Gray <==> kind !in {"registration", "premium", "oracle", "payout", "admin"}
  {
    match kind
    case "registration" => Blue
    case "premium" => Amber
    case "oracle" => Purple
    case "payout" => Emerald
    case "admin" => Red
    case _ => Gray
  }

  /** `shortHash(h)`: the first 8 and the last 4 characters, or a dash for
      an empty hash. */
  function ShortHash(h: string): (r: string)
    ensures h == "" <==> r == "—"
    ensures h != "" ==>
            var k := Seqs.Min(|h|, 8);
            var t := Seqs.Min(|h|, 4);
            && |r| == k + 1 + t
            && r[..k] == h[..k] && r[k] == '…' && r[k + 1..] == h[|h| - t..]
    ensures |h| >= 12 ==> |r| == 13 && r[..8] == h[..8] && r[8] == '…' && r[9..] == h[|h| - 4..]
  {
    if h == "" then "—" else Chain.Shorten(h, 8, 4)
  }

  // ---------------------------------------------------------------------
  // Pool figures

  /** The reserve: premiums in minus payouts out, floored at zero. */
  function Reserve(poolIn: int, poolOut: int): (r: int)
    ensures r >= 0 && r >= poolIn - poolOut
    ensures r == 0 || r == poolIn - poolOut
  {
    Seqs.Max(0, poolIn - poolOut)
  }

  /** The store's pool balance equals the reserve the insurer computes from
      the premiums and `payoutTotal`. */
  predicate PoolIsReserve(s: Snapshot) {
    s.poolBalance == Reserve(Store.PoolIn(s.farmers), s.payoutTotal)
  }

  /** Marking farmers paid leaves the premiums alone. */
  lemma {:induction false} MarkPaidKeepsPremiums(fs: seq<Farmer>, id: int, tx: string, blk: int)
    ensures Store.PoolIn(Store.MarkPaid(fs, id, tx, blk)) == Store.PoolIn(fs)
  {
    if fs != [] {
      var m := Store.MarkPaid(fs, id, tx, blk);
      MarkPaidKeepsPremiums(fs[1..], id, tx, blk);
      assert m == [m[0]] + m[1..] && fs == [fs[0]] + fs[1..];
      Seqs.SumOfAppend([m[0]], m[1..], (f: Farmer) => f.premium);
      Seqs.SumOfAppend([fs[0]], fs[1..], (f: Farmer) => f.premium);
      assert [m[0]][..0] == [] && [fs[0]][..0] == [];
    }
  }

  /** A payout of a non-negative amount keeps the pool equal to the reserve. */
  lemma PayoutKeepsReserve(s: Snapshot, id: int, tx: string, blk: int, amount: int)
    requires PoolIsReserve(s) && amount >= 0
    ensures PoolIsReserve(Store.MarkedPaid(s, id, tx, blk, amount))
  {
    MarkPaidKeepsPremiums(s.farmers, id, tx, blk);
  }

  /** A registration keeps the pool equal to the reserve as long as the
      payouts have not exceeded the premiums. */
  lemma RegistrationKeepsReserve(s: Snapshot, f: Farmer)
    requires PoolIsReserve(s) && Store.PoolIn(s.farmers) >= s.payoutTotal && f.premium >= 0
    ensures PoolIsReserve(Store.Registered(s, f))
  {
    Seqs.SumOfAppend(s.farmers, [f], (g: Farmer) => g.premium);
    assert [f][..0] == [];
  }

  /** Once the payouts exceed the premiums the two figures part: the store
      empties the pool and then refills it with the next premium, while the
      insurer's reserve still owes the overdraft. */
  lemma ReserveLagsAfterOverdraw(s: Snapshot, f: Farmer)
    requires PoolIsReserve(s) && Store.PoolIn(s.farmers) < s.payoutTotal && f.premium > 0
    ensures var r := Store.Registered(s, f);
            r.poolBalance == f.premium && Reserve(Store.PoolIn(r.farmers), r.payoutTotal) < r.poolBalance
  {
    Seqs.SumOfAppend(s.farmers, [f], (g: Farmer) => g.premium);
    assert [f][..0] == [];
  }

  // ---------------------------------------------------------------------
  // The payout total read off the ledger

  /** `payoutTotal` of the dashboard: the amounts of the payout entries
      added up, a missing amount counting as 0. */
  function LedgerPayoutTotal(ledger: seq<Entry>): int {
    Seqs.SumOf(FarmerPortal.Payouts(ledger), (e: Entry) => e.amount.GetOr(0))
  }

  /** A new entry in front adds its amount when it is a payout, nothing
      otherwise. */
  lemma PrependedPayoutTotal(e: Entry, ledger: seq<Entry>)
    ensures LedgerPayoutTotal([e] + ledger) ==
            LedgerPayoutTotal(ledger) + (if e.kind == "payout" then e.amount.GetOr(0) else 0)
  {
    var l := [e] + ledger;
    assert l[0] == e && l[1..] == ledger;
    if e.kind == "payout" {
      Seqs.SumOfAppend([e], FarmerPortal.Payouts(ledger), (x: Entry) => x.amount.GetOr(0));
      assert [e][..0] == [];
    }
  }

  /** Over a flood run the payout total on the ledger grows exactly as the
      store's `payoutTotal` does. */
  lemma {:induction false} PayAllLedgerTotal(s: Snapshot, fs: seq<Farmer>, blk: int, ds: seq<OraclePortal.PayDraw>,
                                             note: Farmer -> string, now: int)
    requires |ds| == |fs|
    ensures var r := OraclePortal.PayAll(s, fs, blk, ds, note, now);
            LedgerPayoutTotal(r.ledger) - r.payoutTotal == LedgerPayoutTotal(s.ledger) - s.payoutTotal
    decreases |fs|
  {
    if fs != [] {
      var s1 := OraclePortal.PayFarmer(s, fs[0], blk, ds[0], note, now);
      PayAllLedgerTotal(s1, fs[1..], blk, ds[1..], note, now);
      if !fs[0].paid {
        assert s1.ledger == [s1.ledger[0]] + s.ledger;
        PrependedPayoutTotal(s1.ledger[0], s.ledger);
      }
    }
  }

  /** Over a flood run the pool stays equal to the reserve when every
      farmer's coverage is non-negative. */
  lemma {:induction false} PayAllKeepsReserve(s: Snapshot, fs: seq<Farmer>, blk: int, ds: seq<OraclePortal.PayDraw>,
                                              note: Farmer -> string, now: int)
    requires |ds| == |fs| && PoolIsReserve(s)
    requires forall i :: 0 <= i < |fs| ==> fs[i].coverage >= 0
    ensures PoolIsReserve(OraclePortal.PayAll(s, fs, blk, ds, note, now))
    decreases |fs|
  {
    if fs != [] {
      var s1 := OraclePortal.PayFarmer(s, fs[0], blk, ds[0], note, now);
      if !fs[0].paid {
        PayoutKeepsReserve(s, fs[0].id, Chain.RandomHex(ds[0].tx), blk, fs[0].coverage);
      }
      PayAllKeepsReserve(s1, fs[1..], blk, ds[1..], note, now);
    }
  }

  /** The dashboard's two figures agree with the store: the reserve with
      the pool balance, the ledger's payout total with `payoutTotal`. */
  predicate FiguresAgree(s: Snapshot) {
    PoolIsReserve(s) && LedgerPayoutTotal(s.ledger) == s.payoutTotal
  }

  /** The payouts of a flood run keep the figures in agreement. */
  lemma PayAllKeepsFigures(s: Snapshot, fs: seq<Farmer>, blk: int, ds: seq<OraclePortal.PayDraw>,
                           note: Farmer -> string, now: int)
    requires |ds| == |fs| && FiguresAgree(s)
    requires forall i :: 0 <= i < |fs| ==> fs[i].coverage >= 0
    ensures FiguresAgree(OraclePortal.PayAll(s, fs, blk, ds, note, now))
  {
    PayAllKeepsReserve(s, fs, blk, ds, note, now);
    PayAllLedgerTotal(s, fs, blk, ds, note, now);
  }

  /** The oracle entry and the payout block change neither figure. */
  lemma BeforePayoutKeepsFigures(s: Snapshot, oracleNote: string, od: Chain.Draw, step: int, now: int)
    requires FiguresAgree(s)
    ensures FiguresAgree(OldApp.BeforePayout(s, oracleNote, od, step, now))
  {
    var s0 := s.(floodSimulated := true);
    var e := Chain.NewEntry(s0, "oracle", "Oracle Engine", oracleNote, Chain.NO_EXTRA, od, now);
    var s1 := OldApp.BeforePayout(s, oracleNote, od, step, now);
    assert s1.ledger == [e] + s.ledger;
    assert e.kind == "oracle";
    PrependedPayoutTotal(e, s.ledger);
  }

  /** The whole of `runFlood`, from the oracle entry on: the insurer's
      reserve and ledger payout total keep agreeing with the store's pool
      balance and `payoutTotal`. */
  lemma FloodRunKeepsFigures(s: Snapshot, oracleNote: string, od: Chain.Draw, step: int,
                             ds: seq<OraclePortal.PayDraw>, note: Farmer -> string, now: int)
    requires |ds| == |s.farmers| && FiguresAgree(s)
    requires forall i :: 0 <= i < |s.farmers| ==> s.farmers[i].coverage >= 0
    ensures var s1 := OldApp.BeforePayout(s, oracleNote, od, step, now);
            FiguresAgree(OraclePortal.PayAll(s1, s.farmers, s1.blockNumber, ds, note, now))
  {
    var s1 := OldApp.BeforePayout(s, oracleNote, od, step, now);
    BeforePayoutKeepsFigures(s, oracleNote, od, step, now);
    PayAllKeepsFigures(s1, s.farmers, s1.blockNumber, ds, note, now);
  }

  // ---------------------------------------------------------------------
  // The audit trail

  /** The text the search looks in: the hash, type, actor and description,
      joined with single spaces. */
  function Joined(e: Entry): string {
    e.txHash + " " + e.kind + " " + e.actor + " " + e.data
  }

  /** The type filter: `'all'` keeps every entry. */
  predicate TypeKept(filter: string, e: Entry) {
    filter == "all" || e.kind == filter
  }

  /** The search box: an empty query keeps every entry; otherwise the
      lower-cased query must occur in the lower-cased joined fields. */
  predicate SearchKept(q: string, e: Entry) {
    q == "" || Seqs.Contains(Seqs.Lower(Joined(e)), Seqs.Lower(q))
  }

  predicate AuditKept(filter: string, q: string, e: Entry) {
    TypeKept(filter, e) && SearchKept(q, e)
  }

  /** `filteredLedger`: the type filter, then the search. */
  function FilteredLedger(ledger: seq<Entry>, filter: string, q: string): (r: seq<Entry>)
    ensures forall e :: e in r <==> e in ledger && TypeKept(filter, e) && SearchKept(q, e)
    ensures Seqs.IsSubsequence(r, ledger)
  {
    var r := Seqs.Filter(Seqs.Filter(ledger, (e: Entry) => TypeKept(filter, e)), (e: Entry) => SearchKept(q, e));
    Seqs.FilterFilter(ledger, (e: Entry) => TypeKept(filter, e), (e: Entry) => SearchKept(q, e),
                      (e: Entry) => AuditKept(filter, q, e));
    Seqs.FilterIsSubsequence(ledger, (e: Entry) => AuditKept(filter, q, e));
    r
  }

  /** With 'all' and an empty query the whole ledger is shown. */
  lemma FilteredLedgerShowsAll(ledger: seq<Entry>)
    ensures FilteredLedger(ledger, "all", "") == ledger
  {
    Seqs.FilterAllPass(ledger, (e: Entry) => TypeKept("all", e));
    Seqs.FilterAllPass(ledger, (e: Entry) => SearchKept("", e));
  }

  /** The search ignores the case of the query. */
  lemma SearchIgnoresCase(ledger: seq<Entry>, filter: string, q: string)
    ensures FilteredLedger(ledger, filter, Seqs.Lower(q)) == FilteredLedger(ledger, filter, q)
  {
    Seqs.LowerIdempotent(q);
    var pq := (e: Entry) => AuditKept(filter, q, e);
    var typed := (e: Entry) => TypeKept(filter, e);
    Seqs.FilterFilter(ledger, typed, (e: Entry) => SearchKept(q, e), pq);
    Seqs.FilterFilter(ledger, typed, (e: Entry) => SearchKept(Seqs.Lower(q), e), pq);
  }

  /** Searching for an entry's own transaction hash finds it, whenever the
      type filter lets it through. */
  lemma OwnHashFindsEntry(ledger: seq<Entry>, filter: string, e: Entry)
    requires e in ledger && TypeKept(filter, e)
    ensures e in FilteredLedger(ledger, filter, e.txHash)
  {
    var j := Seqs.Lower(Joined(e));
    var h := Seqs.Lower(e.txHash);
    assert Joined(e)[..|e.txHash|] == e.txHash;
    assert j[..|h|] == h;
    assert Seqs.OccursAt(j, h, 0);
  }

  // ---------------------------------------------------------------------
  // The crop chart

  /** The distinct crops of `fs`, in order of first appearance (the key
      order of `cropMap`). */
  function CropsOf(fs: seq<Farmer>): (r: seq<string>)
    ensures Seqs.Distinct(r)
    ensures forall c :: c in r <==> CountCrop(fs, c) > 0
  {
    if fs == [] then []
    else
      var init := fs[..|fs| - 1];
      var r := CropsOf(init);
      if fs[|fs| - 1].crop in r then r else r + [fs[|fs| - 1].crop]
  }

  /** How many farmers of `fs` grow `c`. */
  function CountCrop(fs: seq<Farmer>, c: string): (r: nat)
    ensures r <= |fs|
  {
    if fs == [] then 0
    else CountCrop(fs[..|fs| - 1], c) + if fs[|fs| - 1].crop == c then 1 else 0
  }

  /** A crop is counted exactly when some farmer grows it. */
  lemma {:induction false} CountCropFinds(fs: seq<Farmer>, c: string)
    ensures CountCrop(fs, c) > 0 <==> exists i :: 0 <= i < |fs| && fs[i].crop == c
  {
    if fs != [] {
      var init := fs[..|fs| - 1];
      CountCropFinds(init, c);
      if exists i :: 0 <= i < |init| && init[i].crop == c {
        var i :| 0 <= i < |init| && init[i].crop == c;
        assert fs[i] == init[i];
      }
      if exists i :: 0 <= i < |fs| && fs[i].crop == c {
        var i :| 0 <= i < |fs| && fs[i].crop == c;
        if i < |init| {
          assert init[i] == fs[i];
        }
      }
    }
  }

  /** The per-crop counts of `fs` as a function of the crop. */
  function Counter(fs: seq<Farmer>): string -> int {
    c => CountCrop(fs, c)
  }

  /** The chart's slices account for every farmer exactly once. */
  lemma {:induction false} CropCountsCoverFarmers(fs: seq<Farmer>)
    ensures Seqs.SumOf(CropsOf(fs), Counter(fs)) == |fs|
  {
    if fs != [] {
      var init := fs[..|fs| - 1];
      var c := fs[|fs| - 1].crop;
      CropCountsCoverFarmers(init);
      var keys := CropsOf(init);
      Seqs.SumOfBump(keys, Counter(init), Counter(fs), c);
      if c !in keys {
        assert CropsOf(fs) == keys + [c];
        assert (keys + [c])[..|keys|] == keys;
      }
    }
  }

  /** One more farmer: its crop joins the keys if new and its count grows by one. */
  lemma CropStep(fs: seq<Farmer>, i: nat)
    requires i < |fs|
    ensures CropsOf(fs[..i + 1]) == if fs[i].crop in CropsOf(fs[..i]) then CropsOf(fs[..i])
                                    else CropsOf(fs[..i]) + [fs[i].crop]
    ensures forall c :: CountCrop(fs[..i + 1], c) == CountCrop(fs[..i], c) + if fs[i].crop == c then 1 else 0
  {
    assert fs[..i + 1][..i] == fs[..i] && fs[..i + 1][i] == fs[i];
  }

  /** `cropMap`, built by the `forEach`: the crops in order of first
      appearance and, for each, its number of farmers. */
  method CropTally(fs: seq<Farmer>) returns (keys: seq<string>, tally: map<string, nat>)
    ensures keys == CropsOf(fs)
    ensures forall c :: c in tally <==> c in keys
    ensures forall c :: c in tally ==> tally[c] == CountCrop(fs, c)
  {
    keys, tally := [], map[];
    var i := 0;
    while i < |fs|
      invariant 0 <= i <= |fs|
      invariant keys == CropsOf(fs[..i])
      invariant forall c :: c in tally <==> c in keys
      invariant forall c :: c in tally ==> tally[c] == CountCrop(fs[..i], c)
    {
      var c := fs[i].crop;
      CropStep(fs, i);
      if c in tally {
        tally := tally[c := tally[c] + 1];
      } else {
        keys := keys + [c];
        tally := tally[c := 1];
      }
      i := i + 1;
    }
    assert fs[..|fs|] == fs;
  }

  /** `cropLabels` and `cropVals`: one slice per crop, or the single
      placeholder slice 'No data' of size 1 when there are no farmers. */
  method CropChart(fs: seq<Farmer>) returns (labels: seq<string>, values: seq<nat>)
    ensures |values| == |labels|
    ensures fs == [] ==> labels == ["No data"] && values == [1]
    ensures fs != [] ==> labels == CropsOf(fs)
    ensures fs != [] ==> forall i :: 0 <= i < |labels| ==> values[i] == CountCrop(fs, labels[i]) > 0
  {
    var keys, tally := CropTally(fs);
    if |keys| == 0 {
      labels, values := ["No data"], [1];
    } else {
      labels := keys;
      values := seq(|keys|, i requires 0 <= i < |keys| => tally[keys[i]]);
    }
  }

  // ---------------------------------------------------------------------
  // The verify box

  /** The verify button: an exact, case-sensitive match on the typed text,
      the first (newest) entry carrying it. An entry's own hash always
      verifies. */
  lemma VerifyFindsEveryEntry(ledger: seq<Entry>, i: nat)
    requires i < |ledger|
    ensures Chain.VerifyHash(ledger, ledger[i].txHash).Verified?
    ensures Chain.VerifyHash(ledger, ledger[i].txHash).entry.txHash == ledger[i].txHash
  {
    Chain.StoredHashVerifies(ledger, i);
  }
}
