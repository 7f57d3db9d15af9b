/** The hash chain over concrete preimages: the layout that is hashed determines every
    field, so two chains that end in one hash are one chain. */
module LedgerChain {
  import opened Options
  import opened Domain
  import opened Tables
  import opened Protocol
  import opened Safety
  import opened Ordering
  import opened Interleaving
  import opened Runs
  import opened FineGrain
  import Money

  /** Sixty-four zero digits. */
  const GENESIS := Money.Zeros(64)

  const CHAIN_DOMAIN := "vtessera/ledger/v1"

  predicate Hex(s: string) { forall i :: 0 <= i < |s| ==> '0' <= s[i] <= '9' || 'a' <= s[i] <= 'f' }

  function Preimage(seqNo: nat, prev: Hash, payloadHash: Hash): string
  {
    CHAIN_DOMAIN + "|" + Money.FormatUint(seqNo) + "|" + prev + "|" + payloadHash
  }

  /** The two digests the ledger uses, from one hash function and the record's bytes. */
  function HasherOf(digest: string -> string, bytes: TradeRecord -> string): Hasher
  {
    Hasher(GENESIS,
           (record: TradeRecord) => digest(bytes(record)),
           (n: nat, prev: Hash, payloadHash: Hash) => digest(Preimage(n, prev, payloadHash)))
  }

  /** A digest writes hex, never the genesis value, and has no collisions. */
  ghost predicate GoodDigest(digest: string -> string)
  {
    && (forall x :: Hex(digest(x)) && digest(x) != GENESIS)
    && (forall x, y :: digest(x) == digest(y) ==> x == y)
  }

  lemma HexHasNoBar(s: string)
    requires Hex(s)
    ensures '|' !in s
  {
  }

  lemma DigitsHaveNoBar(n: nat)
    ensures '|' !in Money.FormatUint(n)
  {
    hide Money.FormatUint;
  }

  lemma PreimageSplits(n: nat, prev: Hash, ph: Hash)
    ensures Preimage(n, prev, ph) == CHAIN_DOMAIN + (['|'] + (Money.FormatUint(n) + (['|'] + (prev + (['|'] + ph)))))
  {
    hide Money.FormatUint;
  }

  /** On hex hashes the preimage determines the sequence number and both hashes. */
  lemma PreimageIsInjective(m: nat, p: Hash, x: Hash, n: nat, q: Hash, y: Hash)
    requires Hex(p) && Hex(q) && Preimage(m, p, x) == Preimage(n, q, y)
    ensures m == n && p == q && x == y
  {
    hide Preimage, Hex, Money.FormatUint;
    PreimageSplits(m, p, x);
    PreimageSplits(n, q, y);
    DigitsHaveNoBar(m);
    DigitsHaveNoBar(n);
    HexHasNoBar(p);
    HexHasNoBar(q);
    var a, b := Money.FormatUint(m) + (['|'] + (p + (['|'] + x))), Money.FormatUint(n) + (['|'] + (q + (['|'] + y)));
    SplitsOnce('|', CHAIN_DOMAIN, a, CHAIN_DOMAIN, b);
    SplitsOnce('|', Money.FormatUint(m), p + (['|'] + x), Money.FormatUint(n), q + (['|'] + y));
    SplitsOnce('|', p, x, q, y);
  }

  /** What is hashed, read at its bars: the domain, the sequence number in decimal, the
      previous hash, the payload's hash, in that order. The first previous hash is
      sixty-four zeros, and a payload's hash is the digest of its own bytes. */
  lemma HashedText(digest: string -> string, bytes: TradeRecord -> string, n: nat, prev: Hash, ph: Hash, record: TradeRecord)
    returns (decimal: string)
    ensures Money.AllDigits(decimal) && Money.Num(decimal) == n && decimal != "" && (|decimal| > 1 ==> decimal[0] != '0')
    ensures HasherOf(digest, bytes).entry(n, prev, ph) == digest("vtessera/ledger/v1" + "|" + decimal + "|" + prev + "|" + ph)
    ensures HasherOf(digest, bytes).payload(record) == digest(bytes(record))
    ensures |HasherOf(digest, bytes).genesis| == 64 && forall i :: 0 <= i < 64 ==> HasherOf(digest, bytes).genesis[i] == '0'
  {
    decimal := Money.FormatUint(n);
    hide Money.FormatUint;
    assert Preimage(n, prev, ph) == "vtessera/ledger/v1" + "|" + decimal + "|" + prev + "|" + ph;
    assert HasherOf(digest, bytes).entry(n, prev, ph) == digest(Preimage(n, prev, ph));
  }

  lemma PrevIsHex(digest: string -> string, bytes: TradeRecord -> string, ledger: seq<Entry>, i: nat)
    requires GoodDigest(digest) && ChainOk(HasherOf(digest, bytes), ledger) && i <= |ledger|
    ensures Hex(HeadHash(HasherOf(digest, bytes), ledger[..i]))
  {
    if i > 0 {
      assert ledger[..i][i - 1] == ledger[i - 1];
      var e := ledger[i - 1];
      assert e.hash == digest(Preimage(e.seqNo, e.prev, e.payloadHash));
    }
  }

  /** What the hash function and the link columns fix. */
  ghost predicate SameLinks(a: Entry, b: Entry)
  {
    a.seqNo == b.seqNo && a.prev == b.prev && a.hash == b.hash && a.payloadHash == b.payloadHash
  }

  lemma EntryHashDecides(digest: string -> string, bytes: TradeRecord -> string, a: seq<Entry>, b: seq<Entry>, i: nat, j: nat)
    requires GoodDigest(digest) && ChainOk(HasherOf(digest, bytes), a) && ChainOk(HasherOf(digest, bytes), b)
    requires i < |a| && j < |b| && a[i].hash == b[j].hash
    ensures i == j && SameLinks(a[i], b[j])
  {
    PrevIsHex(digest, bytes, a, i);
    PrevIsHex(digest, bytes, b, j);
    hide Hex, Preimage;
    PreimageIsInjective(a[i].seqNo, a[i].prev, a[i].payloadHash, b[j].seqNo, b[j].prev, b[j].payloadHash);
  }

  /** Two valid chains with one head hash have one length and agree link by link. */
  lemma {:induction false} EqualHeadsEqualChains(digest: string -> string, bytes: TradeRecord -> string, a: seq<Entry>, b: seq<Entry>)
    requires GoodDigest(digest) && ChainOk(HasherOf(digest, bytes), a) && ChainOk(HasherOf(digest, bytes), b)
    requires HeadHash(HasherOf(digest, bytes), a) == HeadHash(HasherOf(digest, bytes), b)
    ensures |a| == |b| && forall i :: 0 <= i < |a| ==> SameLinks(a[i], b[i])
    decreases |a|
  {
    hide Hex, Preimage, SameLinks, ChainOk, GoodDigest;
    var h := HasherOf(digest, bytes);
    if a == [] || b == [] {
      if a != [] { NeverGenesis(digest, bytes, a); }
      if b != [] { NeverGenesis(digest, bytes, b); }
    } else {
      var n := |a| - 1;
      EntryHashDecides(digest, bytes, a, b, n, |b| - 1);
      ShorterChain(h, a);
      ShorterChain(h, b);
      assert SameLinks(a[n], b[n]);
      LinksAgree(a[n], b[n]);
      EqualHeadsEqualChains(digest, bytes, a[..n], b[..n]);
    }
  }

  lemma LinksAgree(a: Entry, b: Entry)
    requires SameLinks(a, b)
    ensures a.prev == b.prev && a.payloadHash == b.payloadHash
  {
  }

  lemma NeverGenesis(digest: string -> string, bytes: TradeRecord -> string, a: seq<Entry>)
    requires GoodDigest(digest) && ChainOk(HasherOf(digest, bytes), a) && a != []
    ensures HeadHash(HasherOf(digest, bytes), a) != GENESIS
  {
    var e := a[|a| - 1];
    assert e.hash == digest(Preimage(e.seqNo, e.prev, e.payloadHash));
  }

  lemma ShorterChain(h: Hasher, a: seq<Entry>)
    requires ChainOk(h, a) && a != []
    ensures ChainOk(h, a[..|a| - 1]) && a[|a| - 1].prev == HeadHash(h, a[..|a| - 1])
  {
    forall i | 0 <= i < |a| - 1 ensures a[..|a| - 1][..i] == a[..i] {
    }
  }

  /** Whatever happened in either deployment, two stores whose ledgers end in the same hash
      hold the same ledger: same trades, same records, same order. */
  lemma SameHeadSameLedger(cfg: Config, digest: string -> string, bytes: TradeRecord -> string, s: State, t: State)
    requires GoodDigest(digest) && cfg.hasher == HasherOf(digest, bytes)
    requires forall x, y :: bytes(x) == bytes(y) ==> x == y
    requires Reachable(cfg, s) && Reachable(cfg, t)
    requires HeadHash(cfg.hasher, s.db.ledger) == HeadHash(cfg.hasher, t.db.ledger)
    ensures s.db.ledger == t.db.ledger
  {
    ReachableChain(cfg, s);
    ReachableChain(cfg, t);
    hide Reachable, ChainOk;
    EqualHeadsEqualChains(digest, bytes, s.db.ledger, t.db.ledger);
    forall i | 0 <= i < |s.db.ledger| ensures s.db.ledger[i] == t.db.ledger[i] {
      SameEntry(cfg.hasher, digest, bytes, s.db.ledger, t.db.ledger, i);
    }
  }

  lemma ReachableChain(cfg: Config, s: State)
    requires Reachable(cfg, s)
    ensures ChainOk(cfg.hasher, s.db.ledger)
    ensures forall i :: 0 <= i < |s.db.ledger| ==> s.db.ledger[i].trade == s.db.ledger[i].record.trade.id
  {
    ReachableInv(cfg, s);
    hide Reachable, AcceptancesOk, RequestsOk, SettlementOk, ReceiptsOk, FramesOk, LockOk;
    forall i | 0 <= i < |s.db.ledger| ensures s.db.ledger[i].trade == s.db.ledger[i].record.trade.id {
      assert s.db.ledger[i].record.trade == s.db.trades[s.db.ledger[i].trade];
    }
  }

  lemma SameEntry(h: Hasher, digest: string -> string, bytes: TradeRecord -> string, a: seq<Entry>, b: seq<Entry>, i: nat)
    requires GoodDigest(digest) && h == HasherOf(digest, bytes) && ChainOk(h, a) && ChainOk(h, b)
    requires forall x, y :: bytes(x) == bytes(y) ==> x == y
    requires i < |a| && i < |b| && SameLinks(a[i], b[i])
    requires a[i].trade == a[i].record.trade.id && b[i].trade == b[i].record.trade.id
    ensures a[i] == b[i]
  {
    hide Hex, Preimage;
    assert digest(bytes(a[i].record)) == digest(bytes(b[i].record));
  }
}
