/** The values the FarmProof domain state is made of: registered farmers,
    ledger entries, trigger thresholds, the weather reading and the whole
    synchronised record (`Snapshot`), with its defaults, the key-by-key
    overlay used by `_patch` and `merge`, and the two rehydration passes. */
module Domain {

  datatype Option<+T> = None | Some(value: T) {
    /** The value of a present field, or `default` for an absent one. */
    function GetOr(default: T): T {
      match this
      case Some(v) => v
      case None => default
    }
  }

  /** A point in time as a record holds it:
      - `Absent`: the key is missing (`undefined`);
      - `Null`: JSON `null`, which is what a "Invalid Date" becomes when the
        record is written out as JSON;
      - `Serialized(ms)`: the ISO string JSON writes for a valid `Date` at
        `ms` (never empty, so always truthy; every timestamp is created as a
        `Date`, so a bare number does not occur);
      - `Instant(ms)`: a `Date` object for `ms`;
      - `InvalidInstant`: a `Date` object that is "Invalid Date". */
  datatype Stamp = Absent | Null | Serialized(ms: int) | Instant(ms: int) | InvalidInstant {
    /** Is this a `Date` object (`instanceof Date`)? */
    predicate IsDate() { Instant? || InvalidInstant? }
  }

  /** One ledger entry; `kind` is the entry's `type` field ('registration',
      'premium', 'oracle', 'payout' or 'admin'). `amount` and `address` are
      the optional fields some callers add through `extra`. */
  datatype Entry = Entry(
    block: int,
    timestamp: Stamp,
    kind: string,
    actor: string,
    data: string,
    txHash: string,
    amount: Option<int>,
    address: Option<string>)

  /** One registered farmer (a policy). `unit` is absent in the older app's
      record. `payoutTx` and `payoutBlock` are set once the farmer is paid. */
  datatype Farmer = Farmer(
    id: int,
    name: string,
    wallet: string,
    crop: string,
    area: real,
    unit: Option<string>,
    lat: real,
    lon: real,
    planted: string,
    tier: string,
    coverage: int,
    premium: int,
    address: string,
    registeredAt: Stamp,
    paid: bool,
    payoutTx: Option<string>,
    payoutBlock: Option<int>)

  /** A trigger level; every level the application can hold is positive
      (the defaults and the admin sliders' ranges). */
  type Level = r: real | r > 0.0 witness 1.0

  datatype Thresholds = Thresholds(rainfall: Level, ndvi: Level, river: Level)

  /** The weather reading the oracle consumes. */
  datatype Weather = Weather(rainfall72h: real, temp: real, humidity: real, wind: real)

  /** The whole synchronised domain record. */
  datatype Snapshot = Snapshot(
    farmers: seq<Farmer>,
    ledger: seq<Entry>,
    blockNumber: int,
    poolBalance: int,
    totalCoverage: int,
    payoutCount: int,
    payoutTotal: int,
    thresholds: Thresholds,
    floodSimulated: bool,
    weatherData: Option<Weather>)

  const DEFAULT_THRESHOLDS: Thresholds := Thresholds(200.0, 40.0, 8.5)

  /** `DEFAULTS` / `DB_DEFAULTS`: the state a fresh session starts from
      (`weatherData: null`, or absent in the older variant). */
  const DEFAULTS: Snapshot :=
    Snapshot([], [], 19_400_000, 0, 0, 0, 0, DEFAULT_THRESHOLDS, false, None)

  /** A partial state object: each key is present (`Some`) or absent. */
  datatype Partial = Partial(
    farmers: Option<seq<Farmer>>,
    ledger: Option<seq<Entry>>,
    blockNumber: Option<int>,
    poolBalance: Option<int>,
    totalCoverage: Option<int>,
    payoutCount: Option<int>,
    payoutTotal: Option<int>,
    thresholds: Option<Thresholds>,
    floodSimulated: Option<bool>,
    weatherData: Option<Option<Weather>>)

  const NO_KEYS: Partial := Partial(None, None, None, None, None, None, None, None, None, None)

  /** The partial that carries every key of `s`. */
  function AllKeys(s: Snapshot): Partial {
    Partial(Some(s.farmers), Some(s.ledger), Some(s.blockNumber), Some(s.poolBalance),
            Some(s.totalCoverage), Some(s.payoutCount), Some(s.payoutTotal),
            Some(s.thresholds), Some(s.floodSimulated), Some(s.weatherData))
  }

  /** Spreading `p` over `s` (`_patch`, `merge`): every key present in `p` takes
      its incoming value, every other key keeps the value it had. */
  function Overlay(s: Snapshot, p: Partial): Snapshot {
    Snapshot(
      p.farmers.GetOr(s.farmers),
      p.ledger.GetOr(s.ledger),
      p.blockNumber.GetOr(s.blockNumber),
      p.poolBalance.GetOr(s.poolBalance),
      p.totalCoverage.GetOr(s.totalCoverage),
      p.payoutCount.GetOr(s.payoutCount),
      p.payoutTotal.GetOr(s.payoutTotal),
      p.thresholds.GetOr(s.thresholds),
      p.floodSimulated.GetOr(s.floodSimulated),
      p.weatherData.GetOr(s.weatherData))
  }

  /** Two partials applied one after the other: the later value wins. */
  function Then(p: Partial, q: Partial): Partial {
    Partial(
      if q.farmers.Some? then q.farmers else p.farmers,
      if q.ledger.Some? then q.ledger else p.ledger,
      if q.blockNumber.Some? then q.blockNumber else p.blockNumber,
      if q.poolBalance.Some? then q.poolBalance else p.poolBalance,
      if q.totalCoverage.Some? then q.totalCoverage else p.totalCoverage,
      if q.payoutCount.Some? then q.payoutCount else p.payoutCount,
      if q.payoutTotal.Some? then q.payoutTotal else p.payoutTotal,
      if q.thresholds.Some? then q.thresholds else p.thresholds,
      if q.floodSimulated.Some? then q.floodSimulated else p.floodSimulated,
      if q.weatherData.Some? then q.weatherData else p.weatherData)
  }

  lemma OverlayNoKeys(s: Snapshot)
    ensures Overlay(s, NO_KEYS) == s
  {
  }

  lemma OverlayAllKeys(s: Snapshot, t: Snapshot)
    ensures Overlay(s, AllKeys(t)) == t
  {
  }

  /** Applying the same partial twice is the same as applying it once, and
      two partials in a row act as their combination (later write wins). */
  lemma OverlayIdempotentAndComposes(s: Snapshot, p: Partial, q: Partial)
    ensures Overlay(Overlay(s, p), p) == Overlay(s, p)
    ensures Overlay(Overlay(s, p), q) == Overlay(s, Then(p, q))
  {
  }

  // ---------------------------------------------------------------------
  // Rehydration (the current store): a truthy value is parsed, a falsy one is 'now'

  /** The current store's rule for one timestamp: a truthy value becomes
      `new Date(value)`, a missing or `null` one becomes the current time. */
  function HydrateStamp(t: Stamp, now: int): (r: Stamp)
    ensures r.IsDate()
    ensures t.IsDate() ==> r == t
    ensures t.Serialized? ==> r == Instant(t.ms)
    ensures t.Absent? || t.Null? ==> r == Instant(now)
  {
    match t
    case Absent => Instant(now)
    case Null => Instant(now)
    case Serialized(ms) => Instant(ms)
    case Instant(ms) => Instant(ms)
    case InvalidInstant => InvalidInstant
  }

  function HydrateEntry(e: Entry, now: int): Entry {
    e.(timestamp := HydrateStamp(e.timestamp, now))
  }

  function HydrateFarmer(f: Farmer, now: int): Farmer {
    f.(registeredAt := HydrateStamp(f.registeredAt, now))
  }

  /** The ledger pass of `hydrate`: each entry copied with a new timestamp. */
  function HydrateEntries(es: seq<Entry>, now: int): seq<Entry> {
    if es == [] then [] else [HydrateEntry(es[0], now)] + HydrateEntries(es[1..], now)
  }

  /** The farmers pass of `hydrate`: each farmer copied with a new `registeredAt`. */
  function HydrateFarmers(fs: seq<Farmer>, now: int): seq<Farmer> {
    if fs == [] then [] else [HydrateFarmer(fs[0], now)] + HydrateFarmers(fs[1..], now)
  }

  /** `hydrate(state)` of the current store: only the two lists change. */
  function Hydrate(s: Snapshot, now: int): Snapshot {
    s.(ledger := HydrateEntries(s.ledger, now), farmers := HydrateFarmers(s.farmers, now))
  }

  /** Rehydrating keeps the ledger's length and order and changes nothing
      in an entry but its timestamp, which becomes a Date. */
  lemma {:induction false} HydrateEntriesAt(es: seq<Entry>, now: int)
    ensures |HydrateEntries(es, now)| == |es|
    ensures forall i :: 0 <= i < |es| ==>
      HydrateEntries(es, now)[i] == es[i].(timestamp := HydrateEntries(es, now)[i].timestamp)
    ensures forall i :: 0 <= i < |es| ==> HydrateEntries(es, now)[i] == HydrateEntry(es[i], now)
  {
    if es != [] {
      HydrateEntriesAt(es[1..], now);
    }
  }

  /** The same for the farmers list and `registeredAt`. */
  lemma {:induction false} HydrateFarmersAt(fs: seq<Farmer>, now: int)
    ensures |HydrateFarmers(fs, now)| == |fs|
    ensures forall i :: 0 <= i < |fs| ==>
      HydrateFarmers(fs, now)[i] == fs[i].(registeredAt := HydrateFarmers(fs, now)[i].registeredAt)
    ensures forall i :: 0 <= i < |fs| ==> HydrateFarmers(fs, now)[i] == HydrateFarmer(fs[i], now)
  {
    if fs != [] {
      HydrateFarmersAt(fs[1..], now);
    }
  }

  /** Every timestamp of the record is a Date. */
  predicate IsHydrated(s: Snapshot) {
    && (forall i :: 0 <= i < |s.ledger| ==> s.ledger[i].timestamp.IsDate())
    && (forall i :: 0 <= i < |s.farmers| ==> s.farmers[i].registeredAt.IsDate())
  }

  /** Rehydration leaves a record whose timestamps are all Dates, keeps the
      lengths of both lists, and touches nothing else. */
  lemma HydrateShape(s: Snapshot, now: int)
    ensures IsHydrated(Hydrate(s, now))
    ensures |Hydrate(s, now).ledger| == |s.ledger| && |Hydrate(s, now).farmers| == |s.farmers|
    ensures Hydrate(s, now).(ledger := s.ledger, farmers := s.farmers) == s
  {
    HydrateEntriesAt(s.ledger, now);
    HydrateFarmersAt(s.farmers, now);
  }

  /** An already hydrated record is left as it is, whatever the clock says;
      so rehydrating twice is the same as rehydrating once. */
  lemma HydrateFixesHydrated(s: Snapshot, now: int)
    requires IsHydrated(s)
    ensures Hydrate(s, now) == s
  {
    HydrateEntriesAt(s.ledger, now);
    HydrateFarmersAt(s.farmers, now);
  }

  lemma HydrateIdempotent(s: Snapshot, now: int, later: int)
    ensures Hydrate(Hydrate(s, now), later) == Hydrate(s, now)
  {
    HydrateShape(s, now);
    HydrateFixesHydrated(Hydrate(s, now), later);
  }

  // ---------------------------------------------------------------------
  // Rehydration (the older shared state): anything not yet a date is parsed as one

  /** The older rule for one timestamp: a Date is kept; anything else goes
      through `new Date(x)`, which gives "Invalid Date" for a missing value
      and the epoch (time 0) for `null`. */
  function LegacyHydrateStamp(t: Stamp): (r: Stamp)
    ensures r.IsDate()
    ensures t.IsDate() ==> r == t
    ensures t.Serialized? ==> r == Instant(t.ms)
    ensures t.Absent? ==> r == InvalidInstant
    ensures t.Null? ==> r == Instant(0)
  {
    match t
    case Absent => InvalidInstant
    case Null => Instant(0)
    case Serialized(ms) => Instant(ms)
    case Instant(_) => t
    case InvalidInstant => t
  }

  // ---------------------------------------------------------------------
  // A timestamp written out as JSON and read back

  /** What `JSON.stringify` writes for a timestamp: a valid `Date` becomes
      its ISO string, an "Invalid Date" becomes `null`; a value that is not
      a `Date` is written as it is. */
  function Serialize(t: Stamp): Stamp {
    match t
    case Instant(ms) => Serialized(ms)
    case InvalidInstant => Null
    case _ => t
  }

  /** A valid date survives a JSON round trip through either rehydration.
      An "Invalid Date" does not: the current store reads it back as the
      current time, the older layer as the epoch. */
  lemma SerializeRoundTrip(t: Stamp, now: int)
    ensures t.Instant? ==> HydrateStamp(Serialize(t), now) == t && LegacyHydrateStamp(Serialize(t)) == t
    ensures t.InvalidInstant? ==> HydrateStamp(Serialize(t), now) == Instant(now)
    ensures t.InvalidInstant? ==> LegacyHydrateStamp(Serialize(t)) == Instant(0)
  {
  }
}
