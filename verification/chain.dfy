/** The mock blockchain helpers (prototype/src/lib/blockchain.js and the
    `Blockchain` objects of the older app): hex identifiers, the truncated
    display forms, and `addEntry`, which advances the block counter and
    puts a new entry in front of the ledger. */
module Chain {
  import opened Domain
  import Store
  import Seqs

  const HEX_CHARS: string := "0123456789abcdef"

  /** One random hex digit, a number in [0, 16). */
  type Nibble = d: int | 0 <= d < 16

  /** The hex characters for a sequence of draws. */
  function HexOf(ds: seq<Nibble>): (r: string)
    ensures |r| == |ds|
    ensures forall i :: 0 <= i < |r| ==> r[i] == HEX_CHARS[ds[i]]
  {
    if ds == [] then [] else [HEX_CHARS[ds[0]]] + HexOf(ds[1..])
  }

  /** `randomHex(len)` for the draws `ds` (`len == |ds|`). */
  function RandomHex(ds: seq<Nibble>): (r: string)
    ensures |r| == |ds| + 2 && r[..2] == "0x"
  {
    "0x" + HexOf(ds)
  }

  /** Every character after the "0x" prefix is a lower-case hex digit. */
  lemma RandomHexIsHex(ds: seq<Nibble>)
    ensures forall i :: 2 <= i < |RandomHex(ds)| ==> RandomHex(ds)[i] in HEX_CHARS
  {
    forall i | 2 <= i < |RandomHex(ds)|
      ensures RandomHex(ds)[i] in HEX_CHARS
    {
      assert RandomHex(ds)[i] == HexOf(ds)[i - 2] == HEX_CHARS[ds[i - 2]];
    }
  }

  /** The value of a lower-case hex character. */
  function HexValue(c: char): int {
    if '0' <= c <= '9' then c as int - '0' as int
    else if 'a' <= c <= 'f' then c as int - 'a' as int + 10
    else 0
  }

  /** The draws can be read back from the identifier, so different draws
      give different identifiers. */
  lemma RandomHexDecodes(ds: seq<Nibble>)
    ensures forall i :: 0 <= i < |ds| ==> HexValue(RandomHex(ds)[i + 2]) == ds[i]
  {
    forall i | 0 <= i < |ds|
      ensures HexValue(RandomHex(ds)[i + 2]) == ds[i]
    {
      assert RandomHex(ds)[i + 2] == HexOf(ds)[i] == HEX_CHARS[ds[i]];
    }
  }

  lemma RandomHexInjective(a: seq<Nibble>, b: seq<Nibble>)
    requires RandomHex(a) == RandomHex(b)
    ensures a == b
  {
    RandomHexDecodes(a);
    RandomHexDecodes(b);
  }

  // ---------------------------------------------------------------------
  // String truncation, with JavaScript's `slice` semantics

  /** `s.slice(0, n)`. */
  function SliceHead(s: string, n: nat): (r: string)
    ensures |r| == Seqs.Min(|s|, n) && r == s[..|r|]
  {
    if |s| <= n then s else s[..n]
  }

  /** A negative-index slice of `n > 0`: the last `n` characters, or all of a shorter `s`. */
  function SliceTail(s: string, n: nat): (r: string)
    requires n > 0
    ensures |r| == Seqs.Min(|s|, n) && r == s[|s| - |r|..]
  {
    if |s| <= n then s else s[|s| - n..]
  }

  /** The first `head` characters, an ellipsis, and the last `tail` characters. */
  function Shorten(s: string, head: nat, tail: nat): (r: string)
    requires tail > 0
    ensures var h := Seqs.Min(|s|, head);
            var t := Seqs.Min(|s|, tail);
            && |r| == h + 1 + t
            && r[..h] == s[..h] && r[h] == '…' && r[h + 1..] == s[|s| - t..]
  {
    var r := SliceHead(s, head) + "…" + SliceTail(s, tail);
    assert r[..|SliceHead(s, head)|] == SliceHead(s, head);
    r
  }

  /** `shortAddress(addr)`: the first 6 characters, '…', the last 4. */
  function ShortAddress(a: string): (r: string)
    ensures var h := Seqs.Min(|a|, 6);
            var t := Seqs.Min(|a|, 4);
            && |r| == h + 1 + t
            && r[..h] == a[..h] && r[h] == '…' && r[h + 1..] == a[|a| - t..]
    ensures |a| >= 10 ==> |r| == 11 && r[..6] == a[..6] && r[6] == '…' && r[7..] == a[|a| - 4..]
  {
    Shorten(a, 6, 4)
  }

  /** `shortHash(hash)`: '—' for an empty hash, otherwise the first 10
      characters, '…', the last 6. */
  function ShortHash(h: string): (r: string)
    ensures h == "" <==> r == "—"
    ensures h != "" ==>
            var k := Seqs.Min(|h|, 10);
            var t := Seqs.Min(|h|, 6);
            && |r| == k + 1 + t
            && r[..k] == h[..k] && r[k] == '…' && r[k + 1..] == h[|h| - t..]
    ensures |h| >= 16 ==> |r| == 17 && r[..10] == h[..10] && r[10] == '…' && r[11..] == h[|h| - 6..]
  {
    if h == "" then "—" else Shorten(h, 10, 6)
  }

  /** A generated transaction hash shortens to 17 characters that begin with "0x". */
  lemma ShortHashOfRandomHex(ds: seq<Nibble>)
    requires |ds| == 64
    ensures |ShortHash(RandomHex(ds))| == 17 && ShortHash(RandomHex(ds))[..2] == "0x"
  {
    var h := RandomHex(ds);
    assert ShortHash(h)[..10] == h[..10];
    assert ShortHash(h)[..2] == ShortHash(h)[..10][..2];
  }

  // ---------------------------------------------------------------------
  // Ledger entries

  /** The `extra` object passed to `addEntry`: fields it carries override
      the generated `block` and `txHash`, or add `amount`/`address`. */
  datatype Extra = Extra(block: Option<int>, txHash: Option<string>, amount: Option<int>, address: Option<string>)

  const NO_EXTRA: Extra := Extra(None, None, None, None)

  /** The random inputs of one `addEntry` call: the block step and the 64
      hex draws of the transaction hash. */
  datatype Draw = Draw(step: int, digits: seq<Nibble>)

  predicate ValidDraw(d: Draw) {
    1 <= d.step <= 4 && |d.digits| == 64
  }

  /** The entry `addEntry` builds: the generated block and hash, the clock
      reading, the three given fields, and whatever `extra` carries on top. */
  function MakeEntry(block: int, now: int, kind: string, actor: string, data: string,
                     hash: string, extra: Extra): (e: Entry)
    ensures e.block == (if extra.block.Some? then extra.block.value else block)
    ensures e.txHash == (if extra.txHash.Some? then extra.txHash.value else hash)
    ensures e.timestamp == Instant(now) && e.kind == kind && e.actor == actor && e.data == data
  {
    Entry(extra.block.GetOr(block), Instant(now), kind, actor, data,
          extra.txHash.GetOr(hash), extra.amount, extra.address)
  }

  /** The entry `addEntry` creates in state `s`. */
  function NewEntry(s: Snapshot, kind: string, actor: string, data: string,
                    extra: Extra, d: Draw, now: int): Entry {
    MakeEntry(s.blockNumber + d.step, now, kind, actor, data, RandomHex(d.digits), extra)
  }

  /** The state after `addEntry`: the counter advanced, the entry in front. */
  function WithEntry(s: Snapshot, kind: string, actor: string, data: string,
                     extra: Extra, d: Draw, now: int): Snapshot {
    s.(blockNumber := s.blockNumber + d.step,
       ledger := [NewEntry(s, kind, actor, data, extra, d, now)] + s.ledger)
  }

  /** `addEntry` prepends exactly one entry, keeps all older entries in
      order, advances the counter by 1 to 4 and changes nothing else; a
      `block` in `extra` replaces the new block number in the entry even
      though the counter still moves. */
  lemma WithEntryShape(s: Snapshot, kind: string, actor: string, data: string,
                       extra: Extra, d: Draw, now: int)
    requires ValidDraw(d)
    ensures var r := WithEntry(s, kind, actor, data, extra, d, now);
      && |r.ledger| == |s.ledger| + 1 && r.ledger[1..] == s.ledger
      && s.blockNumber + 1 <= r.blockNumber <= s.blockNumber + 4
      && r.ledger[0].block == (if extra.block.Some? then extra.block.value else r.blockNumber)
      && (extra.txHash.None? ==> |r.ledger[0].txHash| == 66)
      && r.ledger[0].kind == kind && r.ledger[0].actor == actor && r.ledger[0].data == data
      && r.ledger[0].amount == extra.amount && r.ledger[0].address == extra.address
      && r.farmers == s.farmers && r.poolBalance == s.poolBalance && r.totalCoverage == s.totalCoverage
      && r.payoutCount == s.payoutCount && r.payoutTotal == s.payoutTotal
      && r.thresholds == s.thresholds && r.floodSimulated == s.floodSimulated && r.weatherData == s.weatherData
  {
  }

  /** `nextBlock()`. */
  method NextBlock(store: Store.Store, step: int) returns (b: int)
    requires 1 <= step <= 4
    modifies store
    ensures store.State() == old(store.State()).(blockNumber := b)
    ensures b == old(store.blockNumber) + step
  {
    b := store.AdvanceBlock(step);
  }

  /** `addEntry(type, actor, data, extra)`: returns the entry it stored. */
  method AddEntry(store: Store.Store, kind: string, actor: string, data: string,
                  extra: Extra, d: Draw, now: int) returns (e: Entry)
    requires ValidDraw(d)
    modifies store
    ensures e == NewEntry(old(store.State()), kind, actor, data, extra, d, now)
    ensures store.State() == WithEntry(old(store.State()), kind, actor, data, extra, d, now)
    ensures store.ledger[0] == e
  {
    var b := NextBlock(store, d.step);
    e := MakeEntry(b, now, kind, actor, data, RandomHex(d.digits), extra);
    store.AddLedgerEntry(e);
  }

  // ---------------------------------------------------------------------
  // Looking an entry up by its hash

  /** `e` is a payout entry logged by `actor` in block `blk`, with an amount. */
  predicate IsPayoutBy(e: Entry, actor: string, blk: int) {
    e.kind == "payout" && e.actor == actor && e.block == blk && e.amount.Some?
  }

  /** `after` is `before` with `n` payout entries by `actor` in block `blk`
      put in front of it. */
  predicate PayoutsPrepended(after: seq<Entry>, before: seq<Entry>, n: nat, actor: string, blk: int) {
    && |after| == |before| + n && after[n..] == before
    && forall k :: 0 <= k < n ==> IsPayoutBy(after[k], actor, blk)
  }

  /** Payouts put in front of payouts put in front of a ledger add up. */
  lemma PayoutsPrependedTrans(a: seq<Entry>, b: seq<Entry>, c: seq<Entry>, n: nat, m: nat, actor: string, blk: int)
    requires PayoutsPrepended(a, b, n, actor, blk) && PayoutsPrepended(b, c, m, actor, blk)
    ensures PayoutsPrepended(a, c, n + m, actor, blk)
  {
    assert a[n + m..] == a[n..][m..];
    forall k | n <= k < n + m
      ensures IsPayoutBy(a[k], actor, blk)
    {
      assert a[k] == b[k - n];
    }
  }

  /** The verify lookup: the first entry, newest first,
      carrying exactly that hash. */
  function FindByHash(ledger: seq<Entry>, hash: string): (r: Option<Entry>)
    ensures r.None? <==> forall i :: 0 <= i < |ledger| ==> ledger[i].txHash != hash
    ensures r.Some? ==> r.value.txHash == hash
    ensures r.Some? ==> exists i :: (0 <= i < |ledger| && ledger[i] == r.value
                                     && forall j :: 0 <= j < i ==> ledger[j].txHash != hash)
  {
    if ledger == [] then None
    else if ledger[0].txHash == hash then Some(ledger[0])
    else
      var r := FindByHash(ledger[1..], hash);
      assert r.Some? ==> exists i :: (1 <= i < |ledger| && ledger[i] == r.value
                                      && forall j :: 0 <= j < i ==> ledger[j].txHash != hash) by {
        if r.Some? {
          var i :| 0 <= i < |ledger[1..]| && ledger[1..][i] == r.value
                   && forall j :: 0 <= j < i ==> ledger[1..][j].txHash != hash;
          assert ledger[i + 1] == r.value;
          assert forall j :: 1 <= j < i + 1 ==> ledger[j] == ledger[1..][j - 1];
        }
      }
      r
  }

  /** The verify box's outcome: the entry found, a not-found message, or
      nothing at all for an empty hash. */
  datatype Verification = Verified(entry: Entry) | NotFound | Blank

  /** The verify message: success for a found entry, a not-found message for
      a non-empty hash, and no message for an empty one. */
  function VerifyHash(ledger: seq<Entry>, hash: string): (r: Verification)
    ensures r.Verified? <==> exists i :: 0 <= i < |ledger| && ledger[i].txHash == hash
    ensures r.Verified? ==> r.entry.txHash == hash && r.entry in ledger
    ensures r.Verified? ==> exists i :: (0 <= i < |ledger| && ledger[i] == r.entry
                                         && forall j :: 0 <= j < i ==> ledger[j].txHash != hash)
    ensures r.NotFound? <==> hash != "" && forall i :: 0 <= i < |ledger| ==> ledger[i].txHash != hash
    ensures r.Blank? <==> hash == "" && forall i :: 0 <= i < |ledger| ==> ledger[i].txHash != hash
  {
    match FindByHash(ledger, hash)
    case Some(e) => Verified(e)
    case None => if hash != "" then NotFound else Blank
  }

  /** Every hash `addEntry` stores can be verified afterwards, as long as the
      entry is still in the ledger. */
  lemma StoredHashVerifies(ledger: seq<Entry>, i: nat)
    requires i < |ledger|
    ensures VerifyHash(ledger, ledger[i].txHash).Verified?
  {
  }
}
