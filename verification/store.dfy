/** The zustand store of the current prototype (prototype/src/store/useStore.js):
    one object whose actions replace some of its fields through `set`.
    Each action is specified by a function on `Snapshot` values (the value
    the store holds before and after), and the accounting facts are lemmas
    about those functions. */
module Store {
  import opened Domain
  import Seqs

  /** Sum of the farmers' premiums. */
  function PoolIn(fs: seq<Farmer>): int {
    Seqs.SumOf(fs, (f: Farmer) => f.premium)
  }

  /** Sum of the farmers' coverage amounts. */
  function CoverageIn(fs: seq<Farmer>): int {
    Seqs.SumOf(fs, (f: Farmer) => f.coverage)
  }

  predicate IsUnpaid(f: Farmer) {
    !f.paid
  }

  /** How many farmers are unpaid. */
  function CountUnpaid(fs: seq<Farmer>): nat {
    |Seqs.Filter(fs, IsUnpaid)|
  }

  // ---------------------------------------------------------------------
  // The actions as functions on the stored value

  /** `registerFarmer(farmer)`. */
  function Registered(s: Snapshot, f: Farmer): Snapshot {
    s.(farmers := s.farmers + [f],
       poolBalance := s.poolBalance + f.premium,
       totalCoverage := s.totalCoverage + f.coverage)
  }

  /** `addLedgerEntry(entry)`: the new entry goes in front (newest first). */
  function Prepended(s: Snapshot, e: Entry): Snapshot {
    s.(ledger := [e] + s.ledger)
  }

  /** `advanceBlock()` after the random draw `step`, a whole number in [1, 4]. */
  function Advanced(s: Snapshot, step: int): Snapshot {
    s.(blockNumber := s.blockNumber + step)
  }

  /** The farmers list after `markFarmerPaid`: each farmer with the id
      copied as paid with the transaction and block, every other kept. */
  function MarkPaid(fs: seq<Farmer>, id: int, tx: string, blk: int): seq<Farmer> {
    if fs == [] then []
    else [if fs[0].id == id then fs[0].(paid := true, payoutTx := Some(tx), payoutBlock := Some(blk)) else fs[0]]
         + MarkPaid(fs[1..], id, tx, blk)
  }

  /** `markFarmerPaid(id, payoutTx, payoutBlock, amount)`: no already-paid
      guard, and the counters move even when no farmer has that id. */
  function MarkedPaid(s: Snapshot, id: int, tx: string, blk: int, amount: int): Snapshot {
    s.(farmers := MarkPaid(s.farmers, id, tx, blk),
       poolBalance := Seqs.Max(0, s.poolBalance - amount),
       payoutCount := s.payoutCount + 1,
       payoutTotal := s.payoutTotal + amount)
  }

  /** `_patch(partial)`: the partial spread over the state, then rehydrated. */
  function Patched(s: Snapshot, p: Partial, now: int): Snapshot {
    Hydrate(Overlay(s, p), now)
  }

  // ---------------------------------------------------------------------
  // Accounting

  /** The pool holds exactly the premiums and the total coverage exactly the
      coverage amounts of the registered farmers. */
  predicate Accounted(s: Snapshot) {
    s.poolBalance == PoolIn(s.farmers) && s.totalCoverage == CoverageIn(s.farmers)
  }

  lemma DefaultsAccounted()
    ensures Accounted(DEFAULTS)
  {
  }

  /** Registering keeps the pool equal to the sum of premiums. */
  lemma RegisteredKeepsAccounts(s: Snapshot, f: Farmer)
    requires Accounted(s)
    ensures Accounted(Registered(s, f))
  {
    var fs := s.farmers + [f];
    assert fs[..|fs| - 1] == s.farmers;
    assert PoolIn(fs) == PoolIn(s.farmers) + f.premium;
    assert CoverageIn(fs) == CoverageIn(s.farmers) + f.coverage;
  }

  /** Registering never takes the pool below zero when premiums are not negative. */
  lemma RegisteredKeepsPoolNonNegative(s: Snapshot, f: Farmer)
    requires s.poolBalance >= 0 && f.premium >= 0
    ensures Registered(s, f).poolBalance >= s.poolBalance >= 0
    ensures Registered(s, f).farmers[|s.farmers|] == f
  {
  }

  /** N registrations in a row. */
  function RegisterAll(s: Snapshot, fs: seq<Farmer>): Snapshot
    decreases |fs|
  {
    if fs == [] then s else Registered(RegisterAll(s, fs[..|fs| - 1]), fs[|fs| - 1])
  }

  /** From the defaults, after N registrations the farmers list is exactly
      those N farmers in order, the pool is the sum of their premiums and the
      total coverage the sum of their coverage amounts. */
  lemma {:induction false} RegistrationsFromDefaults(fs: seq<Farmer>)
    ensures RegisterAll(DEFAULTS, fs).farmers == fs
    ensures RegisterAll(DEFAULTS, fs).poolBalance == PoolIn(fs)
    ensures RegisterAll(DEFAULTS, fs).totalCoverage == CoverageIn(fs)
    ensures RegisterAll(DEFAULTS, fs).ledger == []
    decreases |fs|
  {
    if fs != [] {
      var init, last := fs[..|fs| - 1], fs[|fs| - 1];
      RegistrationsFromDefaults(init);
      var s := RegisterAll(DEFAULTS, init);
      assert RegisterAll(DEFAULTS, fs) == Registered(s, last);
      assert init + [last] == fs;
      assert PoolIn(fs) == PoolIn(init) + last.premium;
      assert CoverageIn(fs) == CoverageIn(init) + last.coverage;
    }
  }

  /** Prepending an entry grows the ledger by exactly one and keeps every
      older entry, in order, behind the new one. */
  lemma PrependedShape(s: Snapshot, e: Entry)
    ensures |Prepended(s, e).ledger| == |s.ledger| + 1
    ensures Prepended(s, e).ledger[0] == e && Prepended(s, e).ledger[1..] == s.ledger
    ensures Prepended(s, e).(ledger := s.ledger) == s
  {
  }

  /** What `markFarmerPaid` does to each farmer: those with the id become
      paid with the given transaction and block, all others are unchanged. */
  lemma {:induction false} MarkPaidAt(fs: seq<Farmer>, id: int, tx: string, blk: int)
    ensures |MarkPaid(fs, id, tx, blk)| == |fs|
    ensures forall i :: 0 <= i < |fs| && fs[i].id == id ==>
      MarkPaid(fs, id, tx, blk)[i] == fs[i].(paid := true, payoutTx := Some(tx), payoutBlock := Some(blk))
    ensures forall i :: 0 <= i < |fs| && fs[i].id != id ==> MarkPaid(fs, id, tx, blk)[i] == fs[i]
  {
    if fs != [] {
      MarkPaidAt(fs[1..], id, tx, blk);
    }
  }

  /** The pool never goes below zero after a payout. */
  lemma MarkedPaidPool(s: Snapshot, id: int, tx: string, blk: int, amount: int)
    ensures MarkedPaid(s, id, tx, blk, amount).poolBalance >= 0
    ensures amount <= s.poolBalance ==> MarkedPaid(s, id, tx, blk, amount).poolBalance == s.poolBalance - amount
    ensures amount >= s.poolBalance ==> MarkedPaid(s, id, tx, blk, amount).poolBalance == 0
  {
  }

  /** The quirk of `markFarmerPaid`: with no farmer of that id the list is
      unchanged, yet one more payout of `amount` is counted. */
  lemma MarkedPaidWithoutMatch(s: Snapshot, id: int, tx: string, blk: int, amount: int)
    requires forall i :: 0 <= i < |s.farmers| ==> s.farmers[i].id != id
    ensures MarkedPaid(s, id, tx, blk, amount).farmers == s.farmers
    ensures MarkedPaid(s, id, tx, blk, amount).payoutCount == s.payoutCount + 1
    ensures MarkedPaid(s, id, tx, blk, amount).payoutTotal == s.payoutTotal + amount
  {
    MarkPaidAt(s.farmers, id, tx, blk);
  }

  /** The other quirk: paying the same farmer twice leaves the farmers as
      one payment does, yet counts two payouts and draws the pool twice. */
  lemma MarkedPaidTwice(s: Snapshot, id: int, tx: string, blk: int, amount: int)
    ensures var once := MarkedPaid(s, id, tx, blk, amount);
            var twice := MarkedPaid(once, id, tx, blk, amount);
            && twice.farmers == once.farmers
            && twice.payoutCount == s.payoutCount + 2
            && twice.payoutTotal == s.payoutTotal + 2 * amount
            && (0 <= amount && 2 * amount <= s.poolBalance ==> twice.poolBalance == s.poolBalance - 2 * amount)
  {
    var once := MarkedPaid(s, id, tx, blk, amount);
    MarkPaidAt(s.farmers, id, tx, blk);
    MarkPaidAt(once.farmers, id, tx, blk);
  }

  /** `_patch` gives every key present in the partial its incoming value
      (timestamps rehydrated), keeps every other key, and keeps the lengths
      and order of both lists. */
  lemma PatchedShape(s: Snapshot, p: Partial, now: int)
    ensures var r := Patched(s, p, now);
      && r.(ledger := [], farmers := []) == Overlay(s, p).(ledger := [], farmers := [])
      && |r.ledger| == |p.ledger.GetOr(s.ledger)|
      && (forall i :: 0 <= i < |r.ledger| ==> r.ledger[i] == p.ledger.GetOr(s.ledger)[i].(timestamp := r.ledger[i].timestamp))
      && |r.farmers| == |p.farmers.GetOr(s.farmers)|
      && (forall i :: 0 <= i < |r.farmers| ==> r.farmers[i] == p.farmers.GetOr(s.farmers)[i].(registeredAt := r.farmers[i].registeredAt))
      && IsHydrated(r)
  {
    HydrateEntriesAt(Overlay(s, p).ledger, now);
    HydrateFarmersAt(Overlay(s, p).farmers, now);
    HydrateShape(Overlay(s, p), now);
  }

  /** A tab receiving its own broadcast (a partial that agrees with the
      already hydrated state) ends up with the state it had. */
  lemma PatchedEchoIsHarmless(s: Snapshot, p: Partial, now: int)
    requires IsHydrated(s) && Overlay(s, p) == s
    ensures Patched(s, p, now) == s
  {
    HydrateFixesHydrated(s, now);
  }

  // ---------------------------------------------------------------------
  // The store object

  class Store {
    var farmers: seq<Farmer>
    var ledger: seq<Entry>
    var blockNumber: int
    var poolBalance: int
    var totalCoverage: int
    var payoutCount: int
    var payoutTotal: int
    var thresholds: Thresholds
    var floodSimulated: bool
    var weatherData: Option<Weather>

    /** The value the store currently holds. */
    function State(): Snapshot
      reads this
    {
      Snapshot(farmers, ledger, blockNumber, poolBalance, totalCoverage,
               payoutCount, payoutTotal, thresholds, floodSimulated, weatherData)
    }

    /** The store as created, holding `DEFAULTS`, when nothing was persisted. */
    constructor ()
      ensures State() == DEFAULTS
    {
      farmers, ledger := [], [];
      blockNumber := 19_400_000;
      poolBalance, totalCoverage, payoutCount, payoutTotal := 0, 0, 0, 0;
      thresholds := DEFAULT_THRESHOLDS;
      floodSimulated := false;
      weatherData := None;
    }

    /** Assigns every field from a value. */
    method Load(s: Snapshot)
      modifies this
      ensures State() == s
    {
      farmers, ledger, blockNumber := s.farmers, s.ledger, s.blockNumber;
      poolBalance, totalCoverage := s.poolBalance, s.totalCoverage;
      payoutCount, payoutTotal := s.payoutCount, s.payoutTotal;
      thresholds, floodSimulated, weatherData := s.thresholds, s.floodSimulated, s.weatherData;
    }

    /** `setWeatherData(w)`. */
    method SetWeatherData(w: Option<Weather>)
      modifies this
      ensures State() == old(State()).(weatherData := w)
    {
      weatherData := w;
    }

    /** `registerFarmer(farmer)`: appends the farmer and adds its premium to
      the pool and its coverage to the total coverage. */
    method RegisterFarmer(f: Farmer)
      modifies this
      ensures State() == Registered(old(State()), f)
      ensures Accounted(old(State())) ==> Accounted(State())
    {
      farmers := farmers + [f];
      poolBalance := poolBalance + f.premium;
      totalCoverage := totalCoverage + f.coverage;
      if Accounted(old(State())) {
        RegisteredKeepsAccounts(old(State()), f);
      }
    }

    /** `addLedgerEntry(entry)`. */
    method AddLedgerEntry(e: Entry)
      modifies this
      ensures State() == Prepended(old(State()), e)
      ensures |ledger| == |old(ledger)| + 1 && ledger[1..] == old(ledger)
    {
      ledger := [e] + ledger;
    }

    /** `advanceBlock()`: `step` is the random draw in [1, 4]. */
    method AdvanceBlock(step: int) returns (b: int)
      requires 1 <= step <= 4
      modifies this
      ensures State() == Advanced(old(State()), step)
      ensures b == blockNumber && old(blockNumber) + 1 <= b <= old(blockNumber) + 4
    {
      blockNumber := blockNumber + step;
      b := blockNumber;
    }

    /** `markFarmerPaid(farmerId, payoutTx, payoutBlock, amount)`. */
    method MarkFarmerPaid(id: int, tx: string, blk: int, amount: int)
      modifies this
      ensures State() == MarkedPaid(old(State()), id, tx, blk, amount)
      ensures poolBalance >= 0 && |farmers| == |old(farmers)|
    {
      MarkPaidAt(farmers, id, tx, blk);
      farmers := MarkPaid(farmers, id, tx, blk);
      poolBalance := Seqs.Max(0, poolBalance - amount);
      payoutCount := payoutCount + 1;
      payoutTotal := payoutTotal + amount;
    }

    /** `setFloodSimulated(b)`: only the flag changes. */
    method SetFloodSimulated(b: bool)
      modifies this
      ensures State() == old(State()).(floodSimulated := b)
    {
      floodSimulated := b;
    }

    /** `setThresholds(t)`: only the thresholds change. */
    method SetThresholds(t: Thresholds)
      modifies this
      ensures State() == old(State()).(thresholds := t)
    {
      thresholds := t;
    }

    /** `resetState()`: every field back to `DEFAULTS`. */
    method ResetState()
      modifies this
      ensures State() == DEFAULTS
      ensures Accounted(State())
    {
      farmers, ledger := [], [];
      blockNumber := 19_400_000;
      poolBalance, totalCoverage, payoutCount, payoutTotal := 0, 0, 0, 0;
      thresholds := DEFAULT_THRESHOLDS;
      floodSimulated := false;
      weatherData := None;
    }

    /** `_patch(partial)`, the receiving end of the cross-tab channel;
      `now` is the clock reading `new Date()` would take. */
    method Patch(p: Partial, now: int)
      modifies this
      ensures State() == Patched(old(State()), p, now)
    {
      Load(Patched(State(), p, now));
    }

    /** The persist middleware's start-up: the saved state, if there is one
      readable, is laid over the defaults and rehydrated; otherwise the
      defaults stay. */
    method Rehydrate(saved: Option<Partial>, now: int)
      modifies this
      requires State() == DEFAULTS
      ensures saved.None? ==> State() == DEFAULTS
      ensures saved.Some? ==> State() == Patched(DEFAULTS, saved.value, now)
    {
      if saved.Some? {
        Patch(saved.value, now);
      }
    }
  }
}
