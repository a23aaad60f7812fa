/** The oracle portal (prototype/src/pages/oracle/OraclePortal.jsx): the
    read counter, the four-step progress display, the flood run that pays
    every farmer unpaid at its start through `markFarmerPaid`, and the
    reset. Timers and delays are left out; the state changes happen in the
    order the source makes them. */
module OraclePortal {
  import opened Domain
  import Chain
  import Store
  import Seqs
  import Oracle
  import OldApp

  /** One progress step: `null`, `'on'` or `'ok'`. */
  datatype StepState = Idle | On | Done

  /** `[null, null, null, null]`. */
  const RESET_STEPS: seq<StepState> := [Idle, Idle, Idle, Idle]

  /** The steps with position `i` set to `v`. */
  function SetStep(s: seq<StepState>, i: int, v: StepState): (r: seq<StepState>)
    ensures |r| == |s|
    ensures 0 <= i < |s| ==> r[i] == v
    ensures forall k :: 0 <= k < |s| && k != i ==> r[k] == s[k]
  {
    seq(|s|, k requires 0 <= k < |s| => if k == i then v else s[k])
  }

  /** `stepOn(i)`. */
  function StepOn(s: seq<StepState>, i: int): seq<StepState> {
    SetStep(s, i, On)
  }

  /** `stepOk(i)`. */
  function StepOk(s: seq<StepState>, i: int): seq<StepState> {
    SetStep(s, i, Done)
  }

  /** The step display through the start of a run: steps 0 to 2 done,
      step 3 under way. */
  lemma StepsOfAStart()
    ensures StepOn(StepOk(StepOn(StepOk(StepOn(StepOk(StepOn(RESET_STEPS, 0), 0), 1), 1), 2), 2), 3)
            == [Done, Done, Done, On]
    ensures StepOk([Done, Done, Done, On], 3) == [Done, Done, Done, Done]
  {
  }

  /** The panel shown after a run (`elapsed` is a clock reading and left out). */
  datatype PayResult = PayResult(total: int, txHash: string, blk: int, count: int)

  const POOL_ACTOR: string := "InsurancePool.sol"

  /** The random inputs for paying the farmer at one position of the
      snapshot: the 64 draws of `payoutTx` and the draw of its entry. */
  datatype PayDraw = PayDraw(tx: seq<Chain.Nibble>, entry: Chain.Draw)

  predicate ValidPayDraws(ds: seq<PayDraw>) {
    forall k :: 0 <= k < |ds| ==> |ds[k].tx| == 64 && Chain.ValidDraw(ds[k].entry)
  }

  /** One turn of `farmers.forEach`, for the snapshot's farmer `f`. */
  function PayFarmer(s: Snapshot, f: Farmer, blk: int, d: PayDraw, note: Farmer -> string, now: int): (r: Snapshot)
    ensures f.paid ==> r == s
    ensures !f.paid ==>
      && r.farmers == Store.MarkPaid(s.farmers, f.id, Chain.RandomHex(d.tx), blk)
      && r.payoutCount == s.payoutCount + 1 && r.payoutTotal == s.payoutTotal + f.coverage
      && r.poolBalance == Seqs.Max(0, s.poolBalance - f.coverage)
    ensures Chain.PayoutsPrepended(r.ledger, s.ledger, if f.paid then 0 else 1, POOL_ACTOR, blk)
    ensures !f.paid ==> r.ledger[0].amount == Some(f.coverage)
    ensures r.totalCoverage == s.totalCoverage && r.thresholds == s.thresholds
    ensures r.floodSimulated == s.floodSimulated && r.weatherData == s.weatherData
  {
    if f.paid then s
    else Chain.WithEntry(Store.MarkedPaid(s, f.id, Chain.RandomHex(d.tx), blk, f.coverage),
                         "payout", POOL_ACTOR, note(f), Chain.Extra(Some(blk), None, Some(f.coverage), None),
                         d.entry, now)
  }

  /** The whole `forEach` over the snapshot `fs`. */
  function PayAll(s: Snapshot, fs: seq<Farmer>, blk: int, ds: seq<PayDraw>, note: Farmer -> string, now: int): Snapshot
    requires |ds| == |fs|
    decreases |fs|
  {
    if fs == [] then s
    else PayAll(PayFarmer(s, fs[0], blk, ds[0], note, now), fs[1..], blk, ds[1..], note, now)
  }

  /** The coverage of the unpaid farmers of `fs`: what `total` adds up. */
  function UnpaidCoverage(fs: seq<Farmer>): int {
    if fs == [] then 0 else (if fs[0].paid then 0 else fs[0].coverage) + UnpaidCoverage(fs[1..])
  }

  /** Some farmer of the snapshot with id `id` was unpaid. */
  predicate Targeted(fs: seq<Farmer>, id: int) {
    exists j :: 0 <= j < |fs| && fs[j].id == id && !fs[j].paid
  }

  /** The run counts one payout and adds the coverage for every farmer
      unpaid in the snapshot, whatever the store's farmers are; a
      non-negative pool stays non-negative. */
  lemma {:induction false} PayAllCounters(s: Snapshot, fs: seq<Farmer>, blk: int, ds: seq<PayDraw>,
                                          note: Farmer -> string, now: int)
    requires |ds| == |fs|
    ensures var r := PayAll(s, fs, blk, ds, note, now);
      && r.payoutCount == s.payoutCount + Store.CountUnpaid(fs)
      && r.payoutTotal == s.payoutTotal + UnpaidCoverage(fs)
      && (s.poolBalance >= 0 ==> r.poolBalance >= 0)
      && r.totalCoverage == s.totalCoverage && r.thresholds == s.thresholds
      && r.floodSimulated == s.floodSimulated && r.weatherData == s.weatherData
    decreases |fs|
  {
    if fs != [] {
      PayAllCounters(PayFarmer(s, fs[0], blk, ds[0], note, now), fs[1..], blk, ds[1..], note, now);
      UnpaidHead(fs);
    }
  }

  /** The run logs exactly one payout entry, with the run's block, per
      farmer unpaid in the snapshot, in front of the older entries. */
  lemma {:induction false} PayAllLedger(s: Snapshot, fs: seq<Farmer>, blk: int, ds: seq<PayDraw>,
                                        note: Farmer -> string, now: int)
    requires |ds| == |fs|
    ensures Chain.PayoutsPrepended(PayAll(s, fs, blk, ds, note, now).ledger, s.ledger,
                                   Store.CountUnpaid(fs), POOL_ACTOR, blk)
    decreases |fs|
  {
    if fs != [] {
      var s1 := PayFarmer(s, fs[0], blk, ds[0], note, now);
      PayAllLedger(s1, fs[1..], blk, ds[1..], note, now);
      UnpaidHead(fs);
      Chain.PayoutsPrependedTrans(PayAll(s1, fs[1..], blk, ds[1..], note, now).ledger, s1.ledger, s.ledger,
                                  Store.CountUnpaid(fs[1..]), if fs[0].paid then 0 else 1, POOL_ACTOR, blk);
    } else {
      assert s.ledger[0..] == s.ledger;
    }
  }

  /** The unpaid farmers of a list: the first one, then the rest. */
  lemma UnpaidHead(fs: seq<Farmer>)
    requires fs != []
    ensures Store.CountUnpaid(fs) == (if fs[0].paid then 0 else 1) + Store.CountUnpaid(fs[1..])
  {
  }

  /** `after` is `before` paid in block `blk` with some transaction, and
      otherwise the same farmer. */
  predicate PaidVersion(after: Farmer, before: Farmer, blk: int) {
    && after.paid && after.payoutBlock == Some(blk) && after.payoutTx.Some?
    && after.(paid := before.paid, payoutTx := before.payoutTx, payoutBlock := before.payoutBlock) == before
  }

  /** `after` is `before` paid in block `blk` when `paidNow`, and `before`
      itself otherwise. */
  predicate Settled(after: Farmer, before: Farmer, paidNow: bool, blk: int) {
    if paidNow then PaidVersion(after, before, blk) else after == before
  }

  /** Paying twice in the same block is paying once. */
  lemma SettledTrans(a: Farmer, b: Farmer, c: Farmer, p: bool, q: bool, blk: int)
    requires Settled(b, c, p, blk) && Settled(a, b, q, blk)
    ensures Settled(a, c, p || q, blk)
  {
  }

  /** A farmer is targeted by a list when the first farmer targets it or
      the rest of the list does. */
  lemma TargetedStep(fs: seq<Farmer>, id: int)
    requires fs != []
    ensures Targeted(fs, id) <==> (!fs[0].paid && fs[0].id == id) || Targeted(fs[1..], id)
  {
    if Targeted(fs, id) {
      var j :| 0 <= j < |fs| && fs[j].id == id && !fs[j].paid;
      if j > 0 {
        assert fs[1..][j - 1] == fs[j];
      }
    }
    if Targeted(fs[1..], id) {
      var j :| 0 <= j < |fs[1..]| && fs[1..][j].id == id && !fs[1..][j].paid;
      assert fs[j + 1] == fs[1..][j];
    }
  }

  /** What the run does to the store's farmers: a farmer whose id some
      farmer unpaid in the snapshot carries is paid in block `blk` and keeps
      everything but its payout fields; every other farmer is unchanged. */
  lemma {:induction false} PayAllFarmers(s: Snapshot, fs: seq<Farmer>, blk: int, ds: seq<PayDraw>,
                                         note: Farmer -> string, now: int)
    requires |ds| == |fs|
    ensures var r := PayAll(s, fs, blk, ds, note, now);
      && |r.farmers| == |s.farmers|
      && forall k :: 0 <= k < |s.farmers| ==>
           Settled(r.farmers[k], s.farmers[k], Targeted(fs, s.farmers[k].id), blk)
    decreases |fs|
  {
    if fs != [] {
      var tx := Chain.RandomHex(ds[0].tx);
      var s1 := PayFarmer(s, fs[0], blk, ds[0], note, now);
      Store.MarkPaidAt(s.farmers, fs[0].id, tx, blk);
      PayAllFarmers(s1, fs[1..], blk, ds[1..], note, now);
      var r := PayAll(s1, fs[1..], blk, ds[1..], note, now);
      assert r == PayAll(s, fs, blk, ds, note, now);
      forall k | 0 <= k < |s.farmers|
        ensures Settled(r.farmers[k], s.farmers[k], Targeted(fs, s.farmers[k].id), blk)
      {
        var id := s.farmers[k].id;
        var p := !fs[0].paid && fs[0].id == id;
        assert Settled(s1.farmers[k], s.farmers[k], p, blk);
        assert s1.farmers[k].id == id;
        TargetedStep(fs, id);
        SettledTrans(r.farmers[k], s1.farmers[k], s.farmers[k], p, Targeted(fs[1..], id), blk);
      }
    }
  }

  /** Ids are distinct. */
  predicate DistinctIds(fs: seq<Farmer>) {
    forall i, j :: 0 <= i < j < |fs| ==> fs[i].id != fs[j].id
  }

  /** When the snapshot is the store's own farmer list and ids are
      distinct, exactly the farmers unpaid at the start are paid, all in
      block `blk`, and the farmers already paid are left as they were. */
  lemma PayAllPaysEachUnpaidOnce(s: Snapshot, blk: int, ds: seq<PayDraw>, note: Farmer -> string, now: int)
    requires |ds| == |s.farmers| && DistinctIds(s.farmers)
    ensures var r := PayAll(s, s.farmers, blk, ds, note, now);
      && |r.farmers| == |s.farmers|
      && (forall k :: 0 <= k < |s.farmers| ==> r.farmers[k].paid)
      && (forall k :: 0 <= k < |s.farmers| && !s.farmers[k].paid ==> r.farmers[k].payoutBlock == Some(blk))
      && (forall k :: 0 <= k < |s.farmers| && s.farmers[k].paid ==> r.farmers[k] == s.farmers[k])
  {
    PayAllFarmers(s, s.farmers, blk, ds, note, now);
    var r := PayAll(s, s.farmers, blk, ds, note, now);
    forall k | 0 <= k < |s.farmers|
      ensures r.farmers[k].paid
      ensures !s.farmers[k].paid ==> r.farmers[k].payoutBlock == Some(blk)
      ensures s.farmers[k].paid ==> r.farmers[k] == s.farmers[k]
    {
      assert Targeted(s.farmers, s.farmers[k].id) <==> !s.farmers[k].paid;
      assert Settled(r.farmers[k], s.farmers[k], !s.farmers[k].paid, blk);
    }
  }

  /** `total` after the loop: the unpaid coverage, or 175000 when that is 0. */
  function ReportedTotal(fs: seq<Farmer>): (r: int)
    ensures UnpaidCoverage(fs) != 0 ==> r == UnpaidCoverage(fs)
    ensures UnpaidCoverage(fs) == 0 ==> r == 175000
    ensures r != 0
  {
    var t := UnpaidCoverage(fs);
    if t == 0 then 175000 else t
  }

  /** The count the panel shows: the number of farmers, or 4 when there are none. */
  function ReportedCount(fs: seq<Farmer>): (r: nat)
    ensures r > 0 && (fs != [] ==> r == |fs|)
    ensures fs == [] ==> r == 4
  {
    if |fs| == 0 then 4 else |fs|
  }

  class OraclePortal {
    const store: Store.Store
    var readCount: nat
    var oracleData: Option<Oracle.Reading>
    var evalResult: Option<Oracle.Verdict>
    var flood: bool
    var running: bool
    var oracleStatus: string
    var execChip: string
    var payResult: Option<PayResult>
    var steps: seq<StepState>

    constructor (s: Store.Store)
      ensures store == s && readCount == 0 && oracleData.None? && evalResult.None?
      ensures !flood && !running && oracleStatus == "Monitoring" && execChip == "Idle"
      ensures payResult.None? && steps == RESET_STEPS
    {
      store := s;
      readCount := 0;
      oracleData, evalResult := None, None;
      flood, running := false, false;
      oracleStatus, execChip := "Monitoring", "Idle";
      payResult := None;
      steps := RESET_STEPS;
    }

    /** `oracleFetch(isFlood)`: `u` and `v` are the two `Math.random()`
      draws of `simulate`. */
    method OracleFetch(isFlood: bool, u: real, v: real) returns (d: Oracle.Reading, ev: Oracle.Verdict)
      requires 0.0 <= u < 1.0 && 0.0 <= v < 1.0
      modifies this
      ensures d == Oracle.Simulate(isFlood, None, u, v)
      ensures ev == Oracle.Evaluate(d, store.thresholds)
      ensures oracleData == Some(d) && evalResult == Some(ev) && readCount == old(readCount) + 1
      ensures flood == old(flood) && running == old(running) && payResult == old(payResult)
      ensures steps == old(steps) && oracleStatus == old(oracleStatus) && execChip == old(execChip)
    {
      d := Oracle.Simulate(isFlood, None, u, v);
      ev := Oracle.Evaluate(d, store.thresholds);
      oracleData, evalResult := Some(d), Some(ev);
      readCount := readCount + 1;
    }

    /** The `forEach` over the snapshot; returns `total`. */
    method PayLoop(fs: seq<Farmer>, blk: int, ds: seq<PayDraw>, note: Farmer -> string, now: int)
      returns (total: int)
      requires |ds| == |fs| && ValidPayDraws(ds)
      modifies store
      ensures store.State() == PayAll(old(store.State()), fs, blk, ds, note, now)
      ensures total == UnpaidCoverage(fs)
    {
      total := 0;
      var i := 0;
      while i < |fs|
        invariant 0 <= i <= |fs|
        invariant PayAll(store.State(), fs[i..], blk, ds[i..], note, now) == PayAll(old(store.State()), fs, blk, ds, note, now)
        invariant total + UnpaidCoverage(fs[i..]) == UnpaidCoverage(fs)
      {
        assert fs[i..][1..] == fs[i + 1..] && ds[i..][1..] == ds[i + 1..];
        var f := fs[i];
        if !f.paid {
          total := total + f.coverage;
          store.MarkFarmerPaid(f.id, Chain.RandomHex(ds[i].tx), blk, f.coverage);
          var _ := Chain.AddEntry(store, "payout", POOL_ACTOR, note(f),
                                  Chain.Extra(Some(blk), None, Some(f.coverage), None), ds[i].entry, now);
        }
        i := i + 1;
      }
      assert fs[0..] == fs && ds[0..] == ds;
    }

    /** `runFlood()` up to `nextBlock()`: the flood flag, a flood reading,
      the oracle entry, then the payout block. Returns the block. */
    method StartFlood(u: real, v: real, oracleNote: string, od: Chain.Draw, step: int, now: int)
      returns (blk: int)
      requires 0.0 <= u < 1.0 && 0.0 <= v < 1.0 && Chain.ValidDraw(od) && 1 <= step <= 4
      modifies this, store
      ensures store.State() == OldApp.BeforePayout(old(store.State()), oracleNote, od, step, now)
      ensures blk == store.blockNumber
      ensures readCount == old(readCount) + 1 && flood && running && payResult.None?
      ensures execChip == "Running…" && oracleStatus == "FLOOD EVENT" && steps == [Done, Done, Done, On]
      ensures oracleData == Some(Oracle.Simulate(true, None, u, v))
    {
      ghost var s0 := store.State();
      BeginRun();
      store.SetFloodSimulated(true);
      ghost var s1 := store.State();
      flood := true;
      var _, _ := OracleFetch(true, u, v);
      var _ := Chain.AddEntry(store, "oracle", "Oracle Engine", oracleNote, Chain.NO_EXTRA, od, now);
      ghost var s2 := store.State();
      assert s2 == Chain.WithEntry(s0.(floodSimulated := true), "oracle", "Oracle Engine", oracleNote,
                                   Chain.NO_EXTRA, od, now);
      steps := StepOk(StepOn(steps, 0), 0);
      steps := StepOk(StepOn(steps, 1), 1);
      steps := StepOn(steps, 2);
      blk := Chain.NextBlock(store, step);
      assert store.State() == s2.(blockNumber := s2.blockNumber + step);
      steps := StepOn(StepOk(steps, 2), 3);
      StepsOfAStart();
    }

    /** The start of `runFlood()`: the run marked in progress, the panel
      cleared, the steps reset and the status chips set. */
    method BeginRun()
      modifies this
      ensures running && payResult.None? && steps == RESET_STEPS
      ensures execChip == "Running…" && oracleStatus == "FLOOD EVENT"
      ensures readCount == old(readCount) && flood == old(flood) && oracleData == old(oracleData)
    {
      running := true;
      payResult := None;
      steps := RESET_STEPS;
      execChip := "Running…";
      oracleStatus := "FLOOD EVENT";
    }

    /** `runFlood()`. The draws: `u`, `v` for the oracle reading, `od` for
      the oracle entry, `step` for `nextBlock()`, `ds[k]` for the farmer at
      position `k` of the snapshot, `resultTx` for the panel's hash;
      `oracleNote` and `note` render the entries' descriptions. While a run
      is in progress nothing happens. */
    method RunFlood(u: real, v: real, oracleNote: string, od: Chain.Draw, step: int,
                    ds: seq<PayDraw>, note: Farmer -> string, resultTx: seq<Chain.Nibble>, now: int)
      requires 0.0 <= u < 1.0 && 0.0 <= v < 1.0 && Chain.ValidDraw(od) && 1 <= step <= 4
      requires |ds| == |store.farmers| && ValidPayDraws(ds) && |resultTx| == 64
      modifies this, store
      ensures old(running) ==> unchanged(this) && store.State() == old(store.State())
      ensures !old(running) ==>
        var s1 := OldApp.BeforePayout(old(store.State()), oracleNote, od, step, now);
        && store.State() == PayAll(s1, old(store.farmers), s1.blockNumber, ds, note, now)
        && payResult == Some(PayResult(ReportedTotal(old(store.farmers)), Chain.RandomHex(resultTx),
                                       s1.blockNumber, ReportedCount(old(store.farmers))))
        && readCount == old(readCount) + 1 && flood && !running && execChip == "Completed"
        && oracleStatus == "FLOOD EVENT" && steps == [Done, Done, Done, Done]
        && oracleData == Some(Oracle.Simulate(true, None, u, v))
    {
      if running {
        return;
      }
      ghost var s0 := store.State();
      var blk := StartFlood(u, v, oracleNote, od, step, now);
      assert store.State() == OldApp.BeforePayout(s0, oracleNote, od, step, now);
      FinishFlood(blk, ds, note, resultTx, now);
      StepsOfAStart();
    }

    /** `runFlood()` from the snapshot of the farmers on: the payouts, the
      fallback total and count, and the result panel. */
    method FinishFlood(blk: int, ds: seq<PayDraw>, note: Farmer -> string, resultTx: seq<Chain.Nibble>, now: int)
      requires |ds| == |store.farmers| && ValidPayDraws(ds) && |resultTx| == 64
      modifies this, store
      ensures store.State() == PayAll(old(store.State()), old(store.farmers), blk, ds, note, now)
      ensures payResult == Some(PayResult(ReportedTotal(old(store.farmers)), Chain.RandomHex(resultTx), blk,
                                          ReportedCount(old(store.farmers))))
      ensures steps == StepOk(old(steps), 3) && execChip == "Completed" && !running
      ensures readCount == old(readCount) && flood == old(flood) && oracleStatus == old(oracleStatus)
      ensures oracleData == old(oracleData)
    {
      var farmers := store.farmers;
      var total := PayLoop(farmers, blk, ds, note, now);
      if total == 0 {
        total := 175000;
      }
      ShowResult(total, if |farmers| == 0 then 4 else |farmers|, Chain.RandomHex(resultTx), blk);
    }

    /** The end of `runFlood()`: the last step done and the result panel. */
    method ShowResult(total: int, count: nat, tx: string, blk: int)
      modifies this
      ensures payResult == Some(PayResult(total, tx, blk, count))
      ensures steps == StepOk(old(steps), 3) && execChip == "Completed" && !running
      ensures readCount == old(readCount) && flood == old(flood) && oracleStatus == old(oracleStatus)
      ensures oracleData == old(oracleData)
    {
      steps := StepOk(steps, 3);
      payResult := Some(PayResult(total, tx, blk, count));
      execChip := "Completed";
      running := false;
    }

    /** `resetOracle()`: only the store's flood flag changes there; the
      farmers' `paid` flags and the counters stay. */
    method ResetOracle(u: real, v: real)
      requires 0.0 <= u < 1.0 && 0.0 <= v < 1.0
      modifies this, store
      ensures store.State() == old(store.State()).(floodSimulated := false)
      ensures !flood && !running && payResult.None? && steps == RESET_STEPS
      ensures execChip == "Idle" && oracleStatus == "Monitoring" && readCount == old(readCount) + 1
      ensures oracleData == Some(Oracle.Simulate(false, None, u, v))
    {
      store.SetFloodSimulated(false);
      flood := false;
      payResult := None;
      steps := RESET_STEPS;
      execChip := "Idle";
      oracleStatus := "Monitoring";
      running := false;
      var _, _ := OracleFetch(false, u, v);
    }
  }
}
