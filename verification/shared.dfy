/** The older prototype's shared layer (prototype.old/shared.js): the
    `StateEvents` publish/subscribe registry and the in-memory `AppState`
    object that server pushes are merged into. */
module Shared {
  import opened Domain
  import Chain

  // ---------------------------------------------------------------------
  // StateEvents

  /** A subscribed handler, known by an identity; `throws` says whether
      calling it raises an exception. */
  datatype Handler = Handler(id: nat, throws: bool)

  /** One invocation: `fn(payload)` for a handler of the emitted type
      (`eventType == None`), `fn(type, payload)` for a '*' handler. */
  datatype Call = Call(handler: Handler, eventType: Option<string>, payload: string)

  const WILDCARD: string := "*"

  /** The invocations a pass over `hs` makes, each call guarded by its own
      try/catch, in order. */
  function Calls(hs: seq<Handler>, eventType: Option<string>, payload: string): seq<Call>
  {
    if hs == [] then []
    else Calls(hs[..|hs| - 1], eventType, payload) + [Call(hs[|hs| - 1], eventType, payload)]
  }

  /** The handlers among `hs` that throw (the ones `console.error` reports). */
  function Failing(hs: seq<Handler>): seq<Handler>
  {
    if hs == [] then []
    else Failing(hs[..|hs| - 1]) + (if hs[|hs| - 1].throws then [hs[|hs| - 1]] else [])
  }

  /** Every handler is called exactly once, at its registration position,
      whether or not an earlier handler threw. */
  lemma {:induction false} CallsAt(hs: seq<Handler>, eventType: Option<string>, payload: string)
    ensures |Calls(hs, eventType, payload)| == |hs|
    ensures forall i :: 0 <= i < |hs| ==> Calls(hs, eventType, payload)[i] == Call(hs[i], eventType, payload)
  {
    if hs != [] {
      CallsAt(hs[..|hs| - 1], eventType, payload);
    }
  }

  /** `emit(type, payload)` calls first the handlers of `type` with the
      payload, in registration order, then every '*' handler with the type
      and the payload; a throwing handler stops none of the later ones. */
  lemma EmitOrder(typed: seq<Handler>, wild: seq<Handler>, t: string, payload: string)
    ensures var calls := Calls(typed, None, payload) + Calls(wild, Some(t), payload);
      && |calls| == |typed| + |wild|
      && (forall i :: 0 <= i < |typed| ==> calls[i] == Call(typed[i], None, payload))
      && (forall j :: 0 <= j < |wild| ==> calls[|typed| + j] == Call(wild[j], Some(t), payload))
  {
    var a := Calls(typed, None, payload);
    var b := Calls(wild, Some(t), payload);
    CallsAt(typed, None, payload);
    CallsAt(wild, Some(t), payload);
    forall j | 0 <= j < |wild|
      ensures (a + b)[|typed| + j] == Call(wild[j], Some(t), payload)
    {
      assert (a + b)[|a| + j] == b[j];
    }
  }

  class StateEvents {
    /** `_h`: event type to its handlers, in registration order. */
    var handlers: map<string, seq<Handler>>

    constructor ()
      ensures handlers == map[]
    {
      handlers := map[];
    }

    /** The handlers of type `t`, none when the type was never subscribed. */
    function HandlersFor(t: string): seq<Handler>
      reads this
    {
      if t in handlers then handlers[t] else []
    }

    /** `on(type, fn)`: appends `fn` to the type's list; other types keep theirs. */
    method On(t: string, fn: Handler)
      modifies this
      ensures handlers == old(handlers)[t := old(HandlersFor(t)) + [fn]]
      ensures HandlersFor(t) == old(HandlersFor(t)) + [fn]
      ensures forall u :: u != t ==> HandlersFor(u) == old(HandlersFor(u))
    {
      handlers := handlers[t := HandlersFor(t) + [fn]];
    }

    /** `emit(type, payload)`: returns the invocations made, in order, and
      the type handlers whose exceptions were logged. */
    method Emit(t: string, payload: string) returns (calls: seq<Call>, logged: seq<Handler>)
      ensures calls == Calls(HandlersFor(t), None, payload) + Calls(HandlersFor(WILDCARD), Some(t), payload)
      ensures logged == Failing(HandlersFor(t))
    {
      var typed := HandlersFor(t);
      calls, logged := [], [];
      var i := 0;
      while i < |typed|
        invariant 0 <= i <= |typed|
        invariant calls == Calls(typed[..i], None, payload)
        invariant logged == Failing(typed[..i])
      {
        assert typed[..i + 1][..i] == typed[..i];
        var fn := typed[i];
        calls := calls + [Call(fn, None, payload)];
        if fn.throws {
          logged := logged + [fn];
        }
        i := i + 1;
      }
      assert typed[..i] == typed;
      var wild := HandlersFor(WILDCARD);
      var wildCalls := [];
      var j := 0;
      while j < |wild|
        invariant 0 <= j <= |wild|
        invariant wildCalls == Calls(wild[..j], Some(t), payload)
      {
        assert wild[..j + 1][..j] == wild[..j];
        wildCalls := wildCalls + [Call(wild[j], Some(t), payload)];
        j := j + 1;
      }
      assert wild[..j] == wild;
      calls := calls + wildCalls;
    }
  }

  /** Emitting '*' itself runs each '*' handler twice: once as a handler of
      the type, once as a wildcard. */
  lemma WildcardEmitRunsTwice(wild: seq<Handler>, payload: string)
    ensures var calls := Calls(wild, None, payload) + Calls(wild, Some(WILDCARD), payload);
      && |calls| == 2 * |wild|
      && forall j :: 0 <= j < |wild| ==> calls[j].handler == calls[|wild| + j].handler == wild[j]
  {
    EmitOrder(wild, wild, WILDCARD, payload);
  }

  // ---------------------------------------------------------------------
  // The shared in-memory state

  /** `hydrate(obj)` of the older layer, on the ledger. */
  function LegacyHydrateEntries(es: seq<Entry>): seq<Entry> {
    if es == [] then []
    else [es[0].(timestamp := LegacyHydrateStamp(es[0].timestamp))] + LegacyHydrateEntries(es[1..])
  }

  /** `hydrate(obj)` of the older layer, on the farmers. */
  function LegacyHydrateFarmers(fs: seq<Farmer>): seq<Farmer> {
    if fs == [] then []
    else [fs[0].(registeredAt := LegacyHydrateStamp(fs[0].registeredAt))] + LegacyHydrateFarmers(fs[1..])
  }

  function LegacyHydrate(s: Snapshot): Snapshot {
    s.(ledger := LegacyHydrateEntries(s.ledger), farmers := LegacyHydrateFarmers(s.farmers))
  }

  lemma {:induction false} LegacyHydrateEntriesAt(es: seq<Entry>)
    ensures |LegacyHydrateEntries(es)| == |es|
    ensures forall i :: 0 <= i < |es| ==>
      LegacyHydrateEntries(es)[i] == es[i].(timestamp := LegacyHydrateStamp(es[i].timestamp))
  {
    if es != [] {
      LegacyHydrateEntriesAt(es[1..]);
    }
  }

  lemma {:induction false} LegacyHydrateFarmersAt(fs: seq<Farmer>)
    ensures |LegacyHydrateFarmers(fs)| == |fs|
    ensures forall i :: 0 <= i < |fs| ==>
      LegacyHydrateFarmers(fs)[i] == fs[i].(registeredAt := LegacyHydrateStamp(fs[i].registeredAt))
  {
    if fs != [] {
      LegacyHydrateFarmersAt(fs[1..]);
    }
  }

  /** The older rehydration converts only what is not yet a Date: it keeps
      both lists' lengths, leaves every timestamp a Date, and a second pass
      changes nothing. */
  lemma LegacyHydrateIdempotent(s: Snapshot)
    ensures |LegacyHydrate(s).ledger| == |s.ledger| && |LegacyHydrate(s).farmers| == |s.farmers|
    ensures IsHydrated(LegacyHydrate(s))
    ensures LegacyHydrate(LegacyHydrate(s)) == LegacyHydrate(s)
  {
    var h := LegacyHydrate(s);
    LegacyHydrateEntriesAt(s.ledger);
    LegacyHydrateFarmersAt(s.farmers);
    LegacyHydrateEntriesAt(h.ledger);
    LegacyHydrateFarmersAt(h.farmers);
    assert LegacyHydrateEntries(h.ledger) == h.ledger;
    assert LegacyHydrateFarmers(h.farmers) == h.farmers;
  }

  /** `merge(incoming)`: the incoming keys assigned over the state, then rehydrated. */
  function Merged(s: Snapshot, incoming: Partial): Snapshot {
    LegacyHydrate(Overlay(s, incoming))
  }

  /** Merging overwrites exactly the keys present in `incoming` (up to the
      timestamps' conversion) and keeps all others. */
  lemma MergedKeys(s: Snapshot, incoming: Partial)
    ensures var r := Merged(s, incoming);
      && r.(ledger := [], farmers := []) == Overlay(s, incoming).(ledger := [], farmers := [])
      && |r.ledger| == |incoming.ledger.GetOr(s.ledger)|
      && |r.farmers| == |incoming.farmers.GetOr(s.farmers)|
      && (incoming.ledger.None? && IsHydrated(s) ==> r.ledger == s.ledger)
      && (incoming.farmers.None? && IsHydrated(s) ==> r.farmers == s.farmers)
  {
    LegacyHydrateEntriesAt(Overlay(s, incoming).ledger);
    LegacyHydrateFarmersAt(Overlay(s, incoming).farmers);
  }

  /** The `AppState` object of prototype.old/shared.js (its data fields). */
  class SyncedState {
    var farmers: seq<Farmer>
    var ledger: seq<Entry>
    var blockNumber: int
    var poolBalance: int
    var totalCoverage: int
    var payoutCount: int
    var payoutTotal: int
    var thresholds: Thresholds
    var floodSimulated: bool
    var weatherData: Option<Weather>

    function State(): Snapshot
      reads this
    {
      Snapshot(farmers, ledger, blockNumber, poolBalance, totalCoverage,
               payoutCount, payoutTotal, thresholds, floodSimulated, weatherData)
    }

    /** A deep copy of `DB_DEFAULTS`. */
    constructor ()
      ensures State() == DEFAULTS
    {
      farmers, ledger := [], [];
      blockNumber := 19_400_000;
      poolBalance, totalCoverage, payoutCount, payoutTotal := 0, 0, 0, 0;
      thresholds := DEFAULT_THRESHOLDS;
      floodSimulated := false;
      weatherData := None;
    }

    /** `hydrate(_s)`: converts, entry by entry, every timestamp that is
      not already a Date. */
    method Hydrate()
      modifies this
      ensures State() == LegacyHydrate(old(State()))
    {
      LegacyHydrateEntriesAt(ledger);
      LegacyHydrateFarmersAt(farmers);
      var es := ledger;
      var i := 0;
      while i < |es|
        invariant 0 <= i <= |es| == |ledger|
        invariant forall k :: 0 <= k < i ==>
          es[k] == ledger[k].(timestamp := LegacyHydrateStamp(ledger[k].timestamp))
        invariant forall k :: i <= k < |es| ==> es[k] == ledger[k]
      {
        if !es[i].timestamp.IsDate() {
          es := es[i := es[i].(timestamp := LegacyHydrateStamp(es[i].timestamp))];
        }
        i := i + 1;
      }
      var fs := farmers;
      var j := 0;
      while j < |fs|
        invariant 0 <= j <= |fs| == |farmers|
        invariant forall k :: 0 <= k < j ==>
          fs[k] == farmers[k].(registeredAt := LegacyHydrateStamp(farmers[k].registeredAt))
        invariant forall k :: j <= k < |fs| ==> fs[k] == farmers[k]
      {
        if !fs[j].registeredAt.IsDate() {
          fs := fs[j := fs[j].(registeredAt := LegacyHydrateStamp(fs[j].registeredAt))];
        }
        j := j + 1;
      }
      assert es == LegacyHydrateEntries(ledger);
      assert fs == LegacyHydrateFarmers(farmers);
      ledger, farmers := es, fs;
    }

    /** `merge(incoming)`. */
    method Merge(incoming: Partial)
      modifies this
      ensures State() == Merged(old(State()), incoming)
    {
      var s := Overlay(State(), incoming);
      farmers, ledger, blockNumber := s.farmers, s.ledger, s.blockNumber;
      poolBalance, totalCoverage := s.poolBalance, s.totalCoverage;
      payoutCount, payoutTotal := s.payoutCount, s.payoutTotal;
      thresholds, floodSimulated, weatherData := s.thresholds, s.floodSimulated, s.weatherData;
      assert State() == s;
      Hydrate();
    }

    /** `Blockchain.nextBlock()`: `step` is the draw in [1, 4]. */
    method NextBlock(step: int) returns (b: int)
      requires 1 <= step <= 4
      modifies this
      ensures State() == old(State()).(blockNumber := b)
      ensures b == old(blockNumber) + step
    {
      blockNumber := blockNumber + step;
      b := blockNumber;
    }

    /** `Blockchain.addEntry(type, actor, data, extra)`: `unshift`s the new
      entry and returns it. */
    method AddEntry(kind: string, actor: string, data: string, extra: Chain.Extra,
                    d: Chain.Draw, now: int) returns (e: Entry)
      requires Chain.ValidDraw(d)
      modifies this
      ensures e == Chain.NewEntry(old(State()), kind, actor, data, extra, d, now)
      ensures State() == Chain.WithEntry(old(State()), kind, actor, data, extra, d, now)
    {
      var b := NextBlock(d.step);
      e := Chain.MakeEntry(b, now, kind, actor, data, Chain.RandomHex(d.digits), extra);
      ledger := [e] + ledger;
    }
  }
}
