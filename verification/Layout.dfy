/** Persisted image storage: units, spans, and what it means for live images and
    free spans to tile the allocated region. */
module Layout {
  import opened Basics

  /** The index keeps only the tail half of an owner as its tag. */
  type Tag = nat

  function TagOf(p: Pubkey): Tag {
    p.tail
  }

  /** One 8-byte storage unit. The head unit of an image names its account,
      its owner and the image's length in units. */
  datatype Unit =
    | Head(pubkey: Pubkey, owner: Pubkey, span: nat, word: nat)
    | Body(word: nat)

  type Offset = nat

  datatype Span = Span(offset: Offset, units: nat) {
    function End(): nat {
      offset + units
    }
  }

  predicate Disjoint(a: Span, b: Span) {
    a.End() <= b.offset || b.End() <= a.offset
  }

  predicate Within(x: nat, s: Span) {
    s.offset <= x < s.End()
  }

  /** Accounts table value: owner tag and offset. */
  datatype Entry = Entry(owner: Tag, offset: Offset)

  predicate ImageAt(units: seq<Unit>, n: nat, k: Pubkey, e: Entry) {
    && e.offset < n <= |units|
    && units[e.offset].Head?
    && units[e.offset].pubkey == k
    && 0 < units[e.offset].span
    && e.offset + units[e.offset].span <= n
    && TagOf(units[e.offset].owner) == e.owner
  }

  /** The span of the image stored at `o`. */
  function SpanAt(units: seq<Unit>, o: Offset): Span {
    Span(o, if o < |units| && units[o].Head? then units[o].span else 0)
  }

  /** Every indexed offset holds a well-formed image of its own account. */
  ghost predicate ImagesSound(units: seq<Unit>, n: nat, accounts: map<Pubkey, Entry>) {
    forall k :: k in accounts ==> ImageAt(units, n, k, accounts[k])
  }

  ghost predicate LiveDisjoint(units: seq<Unit>, accounts: map<Pubkey, Entry>) {
    forall a, b :: a in accounts && b in accounts && a != b ==>
      Disjoint(SpanAt(units, accounts[a].offset), SpanAt(units, accounts[b].offset))
  }

  ghost predicate FreeSound(n: nat, free: set<Span>) {
    && (forall h :: h in free ==> 0 < h.units && h.End() <= n)
    && (forall g, h :: g in free && h in free && g != h ==> Disjoint(g, h))
  }

  ghost predicate FreeApart(units: seq<Unit>, accounts: map<Pubkey, Entry>, free: set<Span>) {
    forall k, h :: k in accounts && h in free ==> Disjoint(SpanAt(units, accounts[k].offset), h)
  }

  ghost predicate LiveUnit(units: seq<Unit>, accounts: map<Pubkey, Entry>, x: nat) {
    exists k :: k in accounts && Within(x, SpanAt(units, accounts[k].offset))
  }

  ghost predicate FreeUnit(free: set<Span>, x: nat) {
    exists h :: h in free && Within(x, h)
  }

  ghost predicate AllCovered(units: seq<Unit>, n: nat, accounts: map<Pubkey, Entry>, free: set<Span>) {
    forall x :: 0 <= x < n ==> LiveUnit(units, accounts, x) || FreeUnit(free, x)
  }

  /** Live images and free spans tile `[0, n)` exactly once. */
  ghost predicate Tiled(units: seq<Unit>, n: nat, accounts: map<Pubkey, Entry>, free: set<Span>) {
    && ImagesSound(units, n, accounts)
    && LiveDisjoint(units, accounts)
    && FreeSound(n, free)
    && FreeApart(units, accounts, free)
    && AllCovered(units, n, accounts, free)
  }

  /** The owner index recomputed from the accounts table. */
  ghost function OwnerIndex(accounts: map<Pubkey, Entry>): set<(Tag, Offset)> {
    set k | k in accounts :: (accounts[k].owner, accounts[k].offset)
  }

  /** The image stored at `o`. */
  function Image(units: seq<Unit>, o: Offset): seq<Unit> {
    if SpanAt(units, o).End() <= |units| then units[o..SpanAt(units, o).End()] else []
  }

  /** Every account's stored image: the content the state checksum covers. */
  ghost function Contents(units: seq<Unit>, accounts: map<Pubkey, Entry>): map<Pubkey, seq<Unit>> {
    map k | k in accounts :: Image(units, accounts[k].offset)
  }
}
