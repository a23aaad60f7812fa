/** The admin portal (prototype/src/pages/admin/AdminPortal.jsx): three
    threshold sliders with the policy settings beside them, the save that
    publishes the thresholds and logs them, and the confirmed reset of the
    whole store. */
module AdminPortal {
  import opened Domain
  import Chain
  import Store

  /** `DEFAULT`: the slider positions after a reset. */
  const DEFAULT: Thresholds := Thresholds(200.0, 40.0, 8.5)

  /** The slider ranges. */
  const RAINFALL_MIN: real := 100.0
  const RAINFALL_MAX: real := 400.0
  const NDVI_MIN: real := 20.0
  const NDVI_MAX: real := 80.0
  const RIVER_MIN: real := 5.0
  const RIVER_MAX: real := 15.0

  /** The percentage `sliderGrad` fills the track to. */
  function SliderPct(val: real, min: real, max: real): (r: real)
    requires min < max
    ensures val == min ==> r == 0.0
    ensures val == max ==> r == 100.0
    ensures min <= val <= max ==> 0.0 <= r <= 100.0
  {
    var w := max - min;
    var q := (val - min) / w;
    var pct := q * 100.0;
    assert q * w == val - min;
    assert val == max ==> q == 1.0;
    assert min <= val <= max ==> 0.0 <= q <= 1.0 by {
      if min <= val <= max {
        FractionOfWidth(val - min, w);
      }
    }
    pct
  }

  /** A part of a positive width is a fraction between 0 and 1 of it. */
  lemma FractionOfWidth(x: real, w: real)
    requires 0.0 <= x <= w && w > 0.0
    ensures 0.0 <= x / w <= 1.0
  {
    assert x / w * w == x;
  }

  /** The fill moves with the slider: a larger value never fills less. */
  lemma SliderPctMonotone(a: real, b: real, min: real, max: real)
    requires min < max && a <= b
    ensures SliderPct(a, min, max) <= SliderPct(b, min, max)
  {
    var w := max - min;
    assert (a - min) / w <= (b - min) / w;
  }

  /** The reset positions sit inside the slider ranges. */
  lemma DefaultsWithinRanges()
    ensures RAINFALL_MIN <= DEFAULT.rainfall <= RAINFALL_MAX
    ensures NDVI_MIN <= DEFAULT.ndvi <= NDVI_MAX
    ensures RIVER_MIN <= DEFAULT.river <= RIVER_MAX
    ensures DEFAULT == DEFAULT_THRESHOLDS
    ensures SliderPct(DEFAULT.rainfall, RAINFALL_MIN, RAINFALL_MAX) == 100.0 / 3.0
  {
  }

  /** One row of the admin log: the values saved and the entry logged. */
  datatype AdminTx = AdminTx(rainfall: Level, ndvi: Level, river: Level, interval: int, entry: Entry)

  /** The confirmation line: nothing, or the block of the entry and the time. */
  datatype SaveMsg = NoMsg | SavedAt(block: int, time: string)

  /** What `save` does to the store: the thresholds replaced, then one
      'oracle' entry by 'Admin'. */
  function Saved(s: Snapshot, t: Thresholds, note: string, d: Chain.Draw, now: int): Snapshot {
    Chain.WithEntry(s.(thresholds := t), "oracle", "Admin", note, Chain.NO_EXTRA, d, now)
  }

  /** Saving stores exactly the three slider values, logs exactly one
      'oracle' entry by 'Admin' in front, advances the counter once, and
      changes nothing else; the entry carries the counter's new value. */
  lemma SavedShape(s: Snapshot, t: Thresholds, note: string, d: Chain.Draw, now: int)
    requires Chain.ValidDraw(d)
    ensures var r := Saved(s, t, note, d, now);
      && r.thresholds == t
      && |r.ledger| == |s.ledger| + 1 && r.ledger[1..] == s.ledger
      && r.ledger[0].kind == "oracle" && r.ledger[0].actor == "Admin" && r.ledger[0].data == note
      && s.blockNumber + 1 <= r.ledger[0].block == r.blockNumber <= s.blockNumber + 4
      && r.farmers == s.farmers && r.poolBalance == s.poolBalance && r.totalCoverage == s.totalCoverage
      && r.payoutCount == s.payoutCount && r.payoutTotal == s.payoutTotal
      && r.floodSimulated == s.floodSimulated && r.weatherData == s.weatherData
  {
    Chain.WithEntryShape(s.(thresholds := t), "oracle", "Admin", note, Chain.NO_EXTRA, d, now);
  }

  class AdminPortal {
    const store: Store.Store
    var rainfall: Level
    var ndvi: Level
    var river: Level
    var coverage: int
    var interval: int
    var saveMsg: SaveMsg
    /** The time of the last save; `None` shows 'Never'. */
    var lastUpdated: Option<string>
    var adminTxs: seq<AdminTx>

    /** The sliders show the thresholds the store holds. */
    predicate Synced()
      reads this, store
    {
      Thresholds(rainfall, ndvi, river) == store.thresholds
    }

    constructor (s: Store.Store)
      ensures store == s && Synced()
      ensures coverage == 50000 && interval == 6
      ensures saveMsg == NoMsg && lastUpdated.None? && adminTxs == []
    {
      store := s;
      rainfall, ndvi, river := s.thresholds.rainfall, s.thresholds.ndvi, s.thresholds.river;
      coverage, interval := 50000, 6;
      saveMsg, lastUpdated, adminTxs := NoMsg, None, [];
    }

    /** Moving the sliders: only the local values change. */
    method Slide(rf: Level, nd: Level, rv: Level, cov: int, hours: int)
      requires RAINFALL_MIN <= rf <= RAINFALL_MAX && NDVI_MIN <= nd <= NDVI_MAX && RIVER_MIN <= rv <= RIVER_MAX
      modifies this
      ensures rainfall == rf && ndvi == nd && river == rv && coverage == cov && interval == hours
      ensures saveMsg == old(saveMsg) && lastUpdated == old(lastUpdated) && adminTxs == old(adminTxs)
    {
      rainfall, ndvi, river := rf, nd, rv;
      coverage, interval := cov, hours;
    }

    /** `save()`: `note` is the entry's description, `d` the entry's draw,
      `clock` the `toLocaleTimeString()` reading. The coverage and the
      interval are not stored. */
    method Save(note: string, d: Chain.Draw, now: int, clock: string)
      requires Chain.ValidDraw(d)
      modifies this, store
      ensures store.State() == Saved(old(store.State()), Thresholds(rainfall, ndvi, river), note, d, now)
      ensures Synced()
      ensures adminTxs == [AdminTx(rainfall, ndvi, river, interval, store.ledger[0])] + old(adminTxs)
      ensures saveMsg == SavedAt(store.ledger[0].block, clock) && lastUpdated == Some(clock)
      ensures rainfall == old(rainfall) && ndvi == old(ndvi) && river == old(river)
      ensures coverage == old(coverage) && interval == old(interval)
    {
      store.SetThresholds(Thresholds(rainfall, ndvi, river));
      var entry := Chain.AddEntry(store, "oracle", "Admin", note, Chain.NO_EXTRA, d, now);
      lastUpdated := Some(clock);
      saveMsg := SavedAt(entry.block, clock);
      adminTxs := [AdminTx(rainfall, ndvi, river, interval, entry)] + adminTxs;
    }

    /** `resetAll()`: `confirmed` is the answer to `window.confirm`. */
    method ResetAll(confirmed: bool)
      modifies this, store
      ensures !confirmed ==> unchanged(this) && store.State() == old(store.State())
      ensures confirmed ==> store.State() == DEFAULTS && Synced()
      ensures confirmed ==> Thresholds(rainfall, ndvi, river) == DEFAULT && coverage == 50000 && interval == 6
      ensures confirmed ==> adminTxs == [] && saveMsg == NoMsg && lastUpdated.None?
    {
      if !confirmed {
        return;
      }
      store.ResetState();
      adminTxs := [];
      saveMsg := NoMsg;
      lastUpdated := None;
      rainfall, ndvi, river := DEFAULT.rainfall, DEFAULT.ndvi, DEFAULT.river;
      coverage, interval := 50000, 6;
    }
  }
}
