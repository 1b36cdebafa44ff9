/** Two backends behind one database: persisted images and volatile accounts, each
    with its own owner index, routed by lifecycle mode. */
module Routing {
  import opened Basics
  import opened Layout
  import opened Allocation
  import P = Patches
  import PersistedStore

  datatype Form = Borrowed | Owned

  /** One entry of a store batch: an image, the form it is held in, and what its
      dirty markers say. */
  datatype Entry = Entry(key: Pubkey, mode: P.Mode, form: Form, image: seq<Unit>, modeDirty: bool, ownerDirty: bool,
                         dirty: bool)

  /** The mode stored in an image's head unit. */
  function StoredMode(image: seq<Unit>): Option<P.Mode> {
    if image == [] || !image[0].Head? then None else P.DecodeMode((image[0].word % 256, image[0].word / 256 % 256))
  }

  /** The mode is in the low two bytes of the head word: the kind in the lowest, then
      access and flow. */
  lemma StoredModeMeans(image: seq<Unit>, m: P.Mode)
    ensures StoredMode(image) == Some(m) <==>
            && image != [] && image[0].Head?
            && image[0].word % 256 == P.EncodeMode(m).0 && image[0].word / 256 % 256 == P.EncodeMode(m).1
  {
    hide P.DecodeMode, P.EncodeMode;
    if image != [] && image[0].Head? {
      P.ModeRoundTrip(m, (image[0].word % 256, image[0].word / 256 % 256));
    }
  }

  predicate IsPersistent(m: P.Mode) {
    P.RequiresPersistence(m)
  }

  predicate IsVolatile(m: P.Mode) {
    !P.RequiresPersistence(m) && !m.Closed?
  }

  /** Entries that must touch persisted storage. */
  predicate ToPersisted(e: Entry) {
    e.form.Borrowed? || IsPersistent(e.mode) || e.mode.Closed? || e.modeDirty
  }

  /** Entries that must touch volatile storage. */
  predicate ToVolatile(e: Entry) {
    e.form.Owned? || !IsPersistent(e.mode)
  }

  function OpOf(e: Entry): PersistedStore.Op {
    if !IsPersistent(e.mode) then PersistedStore.Remove(e.key)
    else if e.form.Borrowed? then PersistedStore.Update(e.key, e.image, e.ownerDirty, e.dirty)
    else PersistedStore.Insert(e.key, e.image)
  }

  /** Storage form and mode marker are faithful: a borrowed image of a persistent
      account lives in persisted storage only, and an owned account that leaves
      persisted storage is marked. */
  predicate FormFaithful(persisted: bool, volatile: bool, e: Entry) {
    && (e.form.Borrowed? && IsPersistent(e.mode) ==> persisted && !volatile)
    && (e.form.Owned? && IsVolatile(e.mode) && persisted ==> e.modeDirty)
  }

  // ---------------------------------------------------------------- Volatile store

  datatype Account = Account(owner: Pubkey, mode: P.Mode, image: seq<Unit>)

  function OwnedAccount(e: Entry): Account
    requires e.image != [] && e.image[0].Head?
  {
    Account(e.image[0].owner, e.mode, e.image)
  }

  /** The owner sets recomputed from the accounts: no empty set is kept. */
  ghost predicate OwnersSound(accounts: map<Pubkey, Account>, programs: map<Pubkey, set<Pubkey>>) {
    && (forall o :: o in programs ==>
          programs[o] != {} && forall k :: k in programs[o] <==> k in accounts && accounts[k].owner == o)
    && (forall k :: k in accounts ==> accounts[k].owner in programs)
  }

  class VolatileStore {
    var accounts: map<Pubkey, Account>
    var programs: map<Pubkey, set<Pubkey>>

    ghost predicate Valid()
      reads this
    {
      OwnersSound(accounts, programs)
    }

    /** Opens the store over restored accounts and rebuilds the owner sets. */
    constructor (restored: map<Pubkey, Account>)
      ensures Valid() && accounts == restored
    {
      hide OwnersSound;
      accounts, programs := restored, map[];
      new;
      NoOwners();
      var rest := restored.Keys;
      assert restored - rest == map[];
      while rest != {}
        invariant rest <= restored.Keys && accounts == restored
        invariant OwnersSound(restored - rest, programs)
        decreases |rest|
      {
        var k :| k in rest;
        ghost var done, owners := restored - rest, programs;
        Join(restored[k].owner, k);
        rest := rest - {k};
        assert restored - rest == done[k := restored[k]];
        OwnersAfterJoin(done, owners, k, restored[k]);
      }
      assert restored - rest == restored;
    }

    /** Adds a key to an owner's set. */
    method Join(owner: Pubkey, k: Pubkey)
      modifies this`programs
      ensures programs == old(programs)[owner := (if owner in old(programs) then old(programs)[owner] else {}) + {k}]
    {
      var members := if owner in programs then programs[owner] else {};
      programs := programs[owner := members + {k}];
    }

    /** Removes a key from an owner's set, dropping the set when empty. */
    method Leave(owner: Pubkey, k: Pubkey)
      requires owner in programs
      modifies this`programs
      ensures programs == if old(programs)[owner] - {k} == {} then old(programs) - {owner}
                          else old(programs)[owner := old(programs)[owner] - {k}]
    {
      var members := programs[owner] - {k};
      programs := if members == {} then programs - {owner} else programs[owner := members];
    }

    /** Removes an account and its owner mapping. */
    method Delete(k: Pubkey)
      requires Valid()
      modifies this
      ensures Valid() && accounts == old(accounts) - {k}
    {
      if k !in accounts {
        assert accounts == accounts - {k};
        return;
      }
      OwnersAfterLeave(accounts, programs, k);
      var owner := accounts[k].owner;
      accounts := accounts - {k};
      Leave(owner, k);
    }

    /** Stores one account and keeps the owner sets in step. */
    method Put(k: Pubkey, a: Account)
      requires Valid()
      modifies this
      ensures Valid() && accounts == old(accounts)[k := a]
    {
      ghost var before, owners := accounts, programs;
      Join(a.owner, k);
      var had := k in accounts;
      var previous := if had then accounts[k].owner else a.owner;
      accounts := accounts[k := a];
      if !had {
        OwnersAfterJoin(before, owners, k, a);
        return;
      }
      if previous == a.owner {
        OwnersSame(before, owners, k, a);
        return;
      }
      OwnersAfterMove(before, owners, k, a);
      Leave(previous, k);
    }

    /** Keeps volatile accounts, drops stale copies of the others. */
    method Upsert(entries: seq<Entry>)
      requires Valid() && forall i :: 0 <= i < |entries| ==> ImageOf(entries[i].key, entries[i].image)
      modifies this
      ensures Valid() && accounts == VolatileApplied(old(accounts), entries)
    {
      var i := 0;
      while i < |entries|
        invariant 0 <= i <= |entries| && Valid()
        invariant accounts == VolatileApplied(old(accounts), entries[..i])
      {
        var e := entries[i];
        assert entries[..i + 1][..i] == entries[..i];
        if IsVolatile(e.mode) {
          Put(e.key, OwnedAccount(e));
        } else {
          Delete(e.key);
        }
        i := i + 1;
      }
      assert entries[..i] == entries;
    }

    /** Drops everything. */
    method Reset()
      modifies this
      ensures Valid() && accounts == map[]
    {
      accounts, programs := map[], map[];
    }
  }

  lemma NoOwners()
    ensures OwnersSound(map[], map[])
  {
  }

  function VolatileApplied(accounts: map<Pubkey, Account>, entries: seq<Entry>): map<Pubkey, Account>
    requires forall i :: 0 <= i < |entries| ==> ImageOf(entries[i].key, entries[i].image)
  {
    if entries == [] then accounts
    else
      var before, e := VolatileApplied(accounts, entries[..|entries| - 1]), entries[|entries| - 1];
      assert ImageOf(entries[|entries| - 1].key, e.image);
      if IsVolatile(e.mode) then before[e.key := OwnedAccount(e)] else before - {e.key}
  }

  lemma OwnersAfterJoin(accounts: map<Pubkey, Account>, programs: map<Pubkey, set<Pubkey>>, k: Pubkey, a: Account)
    requires OwnersSound(accounts, programs) && k !in accounts
    ensures OwnersSound(accounts[k := a],
                        programs[a.owner := (if a.owner in programs then programs[a.owner] else {}) + {k}])
  {
  }

  lemma OwnersSame(accounts: map<Pubkey, Account>, programs: map<Pubkey, set<Pubkey>>, k: Pubkey, a: Account)
    requires OwnersSound(accounts, programs) && k in accounts && accounts[k].owner == a.owner
    ensures OwnersSound(accounts[k := a], programs[a.owner := programs[a.owner] + {k}])
  {
  }

  lemma OwnersAfterLeave(accounts: map<Pubkey, Account>, programs: map<Pubkey, set<Pubkey>>, k: Pubkey)
    requires OwnersSound(accounts, programs) && k in accounts
    ensures var owner := accounts[k].owner;
      owner in programs &&
      OwnersSound(accounts - {k},
                  if programs[owner] - {k} == {} then programs - {owner}
                  else programs[owner := programs[owner] - {k}])
  {
  }

  lemma OwnersAfterMove(accounts: map<Pubkey, Account>, programs: map<Pubkey, set<Pubkey>>, k: Pubkey, a: Account)
    requires OwnersSound(accounts, programs) && k in accounts && accounts[k].owner != a.owner
    ensures var owner := accounts[k].owner;
      var joined := programs[a.owner := (if a.owner in programs then programs[a.owner] else {}) + {k}];
      owner in joined &&
      OwnersSound(accounts[k := a],
                  if joined[owner] - {k} == {} then joined - {owner} else joined[owner := joined[owner] - {k}])
  {
    OwnersAfterLeave(accounts, programs, k);
    var owner := accounts[k].owner;
    var left := if programs[owner] - {k} == {} then programs - {owner} else programs[owner := programs[owner] - {k}];
    OwnersAfterJoin(accounts - {k}, left, k, a);
    assert (accounts - {k})[k := a] == accounts[k := a];
    MoveIsLeaveThenJoin(programs, owner, a.owner, k);
  }

  /** Joining the new owner's set and leaving the old one commute. */
  lemma MoveIsLeaveThenJoin(programs: map<Pubkey, set<Pubkey>>, from: Pubkey, to: Pubkey, k: Pubkey)
    requires from in programs && from != to
    ensures var joined := programs[to := (if to in programs then programs[to] else {}) + {k}];
      var left := if programs[from] - {k} == {} then programs - {from} else programs[from := programs[from] - {k}];
      (if joined[from] - {k} == {} then joined - {from} else joined[from := joined[from] - {k}]) ==
      left[to := (if to in left then left[to] else {}) + {k}]
  {
  }

  // ---------------------------------------------------------------- The database

  function Selected(entries: seq<Entry>, keep: Entry -> bool): (r: seq<Entry>)
    ensures forall e :: e in r <==> e in entries && keep(e)
  {
    if entries == [] then []
    else
      var rest, last := Selected(entries[..|entries| - 1], keep), entries[|entries| - 1];
      assert entries == entries[..|entries| - 1] + [last];
      if keep(last) then rest + [last] else rest
  }

  ghost predicate DistinctKeys(entries: seq<Entry>) {
    forall i, j :: 0 <= i < j < |entries| ==> entries[i].key != entries[j].key
  }

  lemma {:induction false} SelectedDistinct(entries: seq<Entry>, keep: Entry -> bool)
    requires DistinctKeys(entries)
    ensures DistinctKeys(Selected(entries, keep))
  {
    if entries != [] {
      var front, last := entries[..|entries| - 1], entries[|entries| - 1];
      SelectedDistinct(front, keep);
      forall i | 0 <= i < |Selected(front, keep)| ensures Selected(front, keep)[i].key != last.key {
        assert Selected(front, keep)[i] in front;
        var j :| 0 <= j < |front| && front[j] == Selected(front, keep)[i];
        assert entries[j].key != entries[|entries| - 1].key;
      }
    }
  }

  function Ops(entries: seq<Entry>): (ops: seq<PersistedStore.Op>)
    ensures |ops| == |entries| && forall i :: 0 <= i < |entries| ==> ops[i] == OpOf(entries[i])
  {
    seq(|entries|, i requires 0 <= i < |entries| => OpOf(entries[i]))
  }

  /** The entry carries its account's image and mode, and a borrowed image is the
      stored one with faithful dirty markers. Nothing is said of form or mode marker. */
  ghost predicate WellFormed(images: PersistedStore.Images, e: Entry) {
    && ImageOf(e.key, e.image) && StoredMode(e.image) == Some(e.mode)
    && PersistedStore.Faithful(images, OpOf(e))
  }

  ghost predicate AllWellFormed(images: PersistedStore.Images, entries: seq<Entry>) {
    forall e :: e in entries ==> WellFormed(images, e)
  }

  /** Each key lives in at most one backend, the one its mode demands. */
  ghost predicate Routed(images: PersistedStore.Images, volatile: map<Pubkey, Account>) {
    forall k :: RoutedAt(images, volatile, k)
  }

  ghost predicate RoutedAt(images: PersistedStore.Images, volatile: map<Pubkey, Account>, k: Pubkey) {
    && (k in images ==>
          StoredMode(images[k]).Some? && IsPersistent(StoredMode(images[k]).value) && k !in volatile)
    && (k in volatile ==> IsVolatile(volatile[k].mode))
  }

  /** Where the batch leaves one of its keys. */
  ghost predicate Placed(images: PersistedStore.Images, volatile: map<Pubkey, Account>, e: Entry) {
    if IsPersistent(e.mode) then e.key in images && images[e.key] == e.image && e.key !in volatile
    else if e.mode.Closed? then e.key !in images && e.key !in volatile
    else
      && e.key !in images && e.key in volatile && volatile[e.key].image == e.image && volatile[e.key].mode == e.mode
      && e.image != [] && e.image[0].Head? && volatile[e.key].owner == e.image[0].owner
  }

  /** The entry's key is in the set of the owner its image names, and in no other. */
  ghost predicate ListedUnder(programs: map<Pubkey, set<Pubkey>>, e: Entry) {
    && e.image != [] && e.image[0].Head?
    && forall o :: o in programs && e.key in programs[o] <==> o == e.image[0].owner
  }

  ghost predicate Mentions(entries: seq<Entry>, k: Pubkey) {
    exists e :: e in entries && e.key == k
  }

  /** What one operation does to its key. */
  ghost predicate AppliedAt(images: PersistedStore.Images, after: PersistedStore.Images, e: Entry) {
    if !IsPersistent(e.mode) then e.key !in after
    else if e.form.Owned? then e.key in after && after[e.key] == e.image
    else (e.key in after <==> e.key in images) && (e.key in after ==> after[e.key] == e.image)
  }

  ghost predicate Same<V>(before: map<Pubkey, V>, after: map<Pubkey, V>, k: Pubkey) {
    (k in after <==> k in before) && (k in before ==> after[k] == before[k])
  }

  /** Applying operations on distinct keys: each key sees its own operation only. */
  lemma {:induction false} OpsApply(images: PersistedStore.Images, entries: seq<Entry>)
    requires DistinctKeys(entries) && forall e :: e in entries ==> PersistedStore.Faithful(images, OpOf(e))
    ensures PersistedStore.AllFaithful(images, Ops(entries))
    ensures var after := PersistedStore.AppliedAll(images, Ops(entries));
      && (forall e :: e in entries ==> AppliedAt(images, after, e))
      && (forall k :: !Mentions(entries, k) ==> Same(images, after, k))
    decreases |entries|
  {
    if entries == [] {
      assert Ops(entries) == [];
    } else {
      var first, rest := entries[0], entries[1..];
      var mid := PersistedStore.Applied(images, OpOf(first));
      assert Ops(entries)[1..] == Ops(rest);
      TailKeys(entries);
      forall e | e in rest ensures PersistedStore.Faithful(mid, OpOf(e)) {
        FaithfulElsewhere(images, first, e);
      }
      OpsApply(mid, rest);
      OpsApplyFirst(images, entries, PersistedStore.AppliedAll(mid, Ops(rest)));
    }
  }

  /** The first operation, seen through the rest. */
  lemma OpsApplyFirst(images: PersistedStore.Images, entries: seq<Entry>, after: PersistedStore.Images)
    requires DistinctKeys(entries) && entries != []
    requires var mid := PersistedStore.Applied(images, OpOf(entries[0]));
      && (forall e :: e in entries[1..] ==> AppliedAt(mid, after, e))
      && (forall k :: !Mentions(entries[1..], k) ==> Same(mid, after, k))
    ensures forall e :: e in entries ==> AppliedAt(images, after, e)
    ensures forall k :: !Mentions(entries, k) ==> Same(images, after, k)
  {
    var first, rest := entries[0], entries[1..];
    var mid := PersistedStore.Applied(images, OpOf(first));
    TailKeys(entries);
    assert !Mentions(rest, first.key);
    assert Same(mid, after, first.key);
    forall e | e in entries ensures AppliedAt(images, after, e) {
      if e in rest {
        assert AppliedAt(mid, after, e) && (e.key in mid <==> e.key in images);
      }
    }
    forall k | !Mentions(entries, k) ensures Same(images, after, k) {
      assert !Mentions(rest, k) && k != first.key;
      assert Same(mid, after, k);
    }
  }

  lemma TailKeys(entries: seq<Entry>)
    requires DistinctKeys(entries) && entries != []
    ensures forall e :: e in entries[1..] ==> e in entries && e.key != entries[0].key
    ensures forall e :: e in entries ==> e == entries[0] || e in entries[1..]
    ensures forall k :: !Mentions(entries, k) ==> !Mentions(entries[1..], k) && k != entries[0].key
  {
  }

  lemma FaithfulElsewhere(images: PersistedStore.Images, first: Entry, e: Entry)
    requires PersistedStore.Faithful(images, OpOf(e)) && e.key != first.key
    ensures PersistedStore.Faithful(PersistedStore.Applied(images, OpOf(first)), OpOf(e))
  {
  }

  /** What one entry of the volatile batch does to its key. */
  ghost predicate VolatileAt(after: map<Pubkey, Account>, e: Entry) {
    if IsVolatile(e.mode) then
      && e.key in after && after[e.key].image == e.image && after[e.key].mode == e.mode
      && e.image != [] && e.image[0].Head? && after[e.key].owner == e.image[0].owner
    else e.key !in after
  }

  lemma {:induction false} VolatileAppliedAt(accounts: map<Pubkey, Account>, entries: seq<Entry>)
    requires DistinctKeys(entries) && forall i :: 0 <= i < |entries| ==> ImageOf(entries[i].key, entries[i].image)
    ensures var after := VolatileApplied(accounts, entries);
      && (forall e :: e in entries ==> VolatileAt(after, e))
      && (forall k :: !Mentions(entries, k) ==> Same(accounts, after, k))
  {
    if entries != [] {
      var front, last := entries[..|entries| - 1], entries[|entries| - 1];
      VolatileAppliedAt(accounts, front);
      assert ImageOf(entries[|entries| - 1].key, last.image);
      FrontKeys(entries);
      forall e | e in entries ensures VolatileAt(VolatileApplied(accounts, entries), e) {
        if e != last {
          assert VolatileAt(VolatileApplied(accounts, front), e);
        }
      }
      forall k | !Mentions(entries, k) ensures Same(accounts, VolatileApplied(accounts, entries), k) {
        assert Same(accounts, VolatileApplied(accounts, front), k);
      }
    }
  }

  lemma FrontKeys(entries: seq<Entry>)
    requires DistinctKeys(entries) && entries != []
    ensures var front, last := entries[..|entries| - 1], entries[|entries| - 1];
      && (forall e :: e in entries ==> e == last || (e in front && e.key != last.key))
      && (forall k :: !Mentions(entries, k) ==> !Mentions(front, k) && k != last.key)
  {
    var front, last := entries[..|entries| - 1], entries[|entries| - 1];
    forall e | e in entries ensures e == last || (e in front && e.key != last.key) {
      var i :| 0 <= i < |entries| && entries[i] == e;
      if i < |front| {
        assert front[i] == e && entries[i].key != entries[|entries| - 1].key;
      }
    }
    forall k | !Mentions(entries, k) ensures !Mentions(front, k) && k != last.key {
      assert last in entries;
      assert forall e :: e in front ==> e in entries;
    }
  }

  // ---------------------------------------------------------------- Where a batch leaves its keys

  function PersistedAfter(images: PersistedStore.Images, entries: seq<Entry>): PersistedStore.Images {
    PersistedStore.AppliedAll(images, Ops(Selected(entries, ToPersisted)))
  }

  function VolatileAfter(volatile: map<Pubkey, Account>, entries: seq<Entry>): map<Pubkey, Account>
    requires forall e :: e in entries ==> ImageOf(e.key, e.image)
  {
    VolatileApplied(volatile, Selected(entries, ToVolatile))
  }

  /** What the two backends do to one key of the batch. */
  lemma StoredAt(images: PersistedStore.Images, volatile: map<Pubkey, Account>, entries: seq<Entry>, e: Entry)
    requires DistinctKeys(entries) && AllWellFormed(images, entries) && e in entries
    ensures if ToPersisted(e) then AppliedAt(images, PersistedAfter(images, entries), e)
            else Same(images, PersistedAfter(images, entries), e.key)
    ensures if ToVolatile(e) then VolatileAt(VolatileAfter(volatile, entries), e)
            else Same(volatile, VolatileAfter(volatile, entries), e.key)
  {
    hide PersistedStore.Faithful, AppliedAt, VolatileAt, PersistedStore.AppliedAll, VolatileApplied, Same;
    SelectedApply(images, volatile, entries);
    if !ToPersisted(e) {
      NotMentioned(entries, ToPersisted, e);
    }
    if !ToVolatile(e) {
      NotMentioned(entries, ToVolatile, e);
    }
  }

  lemma SelectedApply(images: PersistedStore.Images, volatile: map<Pubkey, Account>, entries: seq<Entry>)
    requires DistinctKeys(entries) && AllWellFormed(images, entries)
    ensures PersistedStore.AllFaithful(images, Ops(Selected(entries, ToPersisted)))
    ensures forall e :: e in Selected(entries, ToPersisted) ==> AppliedAt(images, PersistedAfter(images, entries), e)
    ensures forall e :: e in Selected(entries, ToVolatile) ==> VolatileAt(VolatileAfter(volatile, entries), e)
    ensures forall k :: !Mentions(Selected(entries, ToPersisted), k) ==>
              Same(images, PersistedAfter(images, entries), k)
    ensures forall k :: !Mentions(Selected(entries, ToVolatile), k) ==>
              Same(volatile, VolatileAfter(volatile, entries), k)
  {
    hide PersistedStore.Faithful, AppliedAt, VolatileAt, PersistedStore.AppliedAll, VolatileApplied, Same;
    SelectedDistinct(entries, ToPersisted);
    SelectedDistinct(entries, ToVolatile);
    forall e | e in Selected(entries, ToPersisted) ensures PersistedStore.Faithful(images, OpOf(e)) {
      assert WellFormed(images, e);
    }
    OpsApply(images, Selected(entries, ToPersisted));
    ImagesSelected(images, entries);
    VolatileAppliedAt(volatile, Selected(entries, ToVolatile));
  }

  /** Storing a batch over distinct keys leaves an entry's key in exactly the backend
      its mode demands, with its image, if and only if the entry's storage form and
      mode marker are faithful to where the key was before. */
  lemma PlacedIffFaithful(images: PersistedStore.Images, volatile: map<Pubkey, Account>, entries: seq<Entry>, e: Entry)
    requires DistinctKeys(entries) && AllWellFormed(images, entries) && e in entries
    ensures Placed(PersistedAfter(images, entries), VolatileAfter(volatile, entries), e) <==>
            FormFaithful(e.key in images, e.key in volatile, e)
  {
    hide PersistedAfter, VolatileAfter, WellFormed;
    StoredAt(images, volatile, entries, e);
  }

  /** Keys outside the batch stay as they are. */
  lemma UnmentionedStays(images: PersistedStore.Images, volatile: map<Pubkey, Account>, entries: seq<Entry>, k: Pubkey)
    requires DistinctKeys(entries) && AllWellFormed(images, entries) && !Mentions(entries, k)
    ensures Same(images, PersistedAfter(images, entries), k) && Same(volatile, VolatileAfter(volatile, entries), k)
  {
    hide PersistedAfter, VolatileAfter, WellFormed, Same;
    SelectedApply(images, volatile, entries);
  }

  ghost predicate AllFormFaithful(images: PersistedStore.Images, volatile: map<Pubkey, Account>, entries: seq<Entry>) {
    forall e :: e in entries ==> FormFaithful(e.key in images, e.key in volatile, e)
  }

  /** A faithful batch keeps every key of the database in the backend its mode demands. */
  lemma StoreRoutes(images: PersistedStore.Images, volatile: map<Pubkey, Account>, entries: seq<Entry>)
    requires DistinctKeys(entries) && Routed(images, volatile) && AllWellFormed(images, entries)
    requires AllFormFaithful(images, volatile, entries)
    ensures Routed(PersistedAfter(images, entries), VolatileAfter(volatile, entries))
  {
    hide PersistedAfter, VolatileAfter, FormFaithful, Placed, Same, Routed;
    var images', volatile' := PersistedAfter(images, entries), VolatileAfter(volatile, entries);
    forall e | e in entries ensures Placed(images', volatile', e) && StoredMode(e.image) == Some(e.mode) {
      PlacedIffFaithful(images, volatile, entries, e);
      assert WellFormed(images, e);
    }
    forall k | !Mentions(entries, k) ensures Same(images, images', k) && Same(volatile, volatile', k) {
      UnmentionedStays(images, volatile, entries, k);
    }
    RoutedAfter(images, volatile, entries, images', volatile');
  }

  lemma NotMentioned(entries: seq<Entry>, keep: Entry -> bool, e: Entry)
    requires DistinctKeys(entries) && e in entries && !keep(e)
    ensures !Mentions(Selected(entries, keep), e.key)
  {
  }

  lemma RoutedAfter(images: PersistedStore.Images, volatile: map<Pubkey, Account>, entries: seq<Entry>,
                    images': PersistedStore.Images, volatile': map<Pubkey, Account>)
    requires Routed(images, volatile)
    requires forall e :: e in entries ==> Placed(images', volatile', e) && StoredMode(e.image) == Some(e.mode)
    requires forall k :: !Mentions(entries, k) ==> Same(images, images', k) && Same(volatile, volatile', k)
    ensures Routed(images', volatile')
  {
    forall k ensures RoutedAt(images', volatile', k) {
      if Mentions(entries, k) {
        var e :| e in entries && e.key == k;
        assert Placed(images', volatile', e);
      } else {
        assert Same(images, images', k) && Same(volatile, volatile', k) && RoutedAt(images, volatile, k);
      }
    }
  }

  // ---------------------------------------------------------------- Program lookup

  /** What a lookup by owner yields: persisted accounts whose owner has the same tail,
      and volatile accounts of the owner. */
  function ProgramOf(images: PersistedStore.Images, volatile: map<Pubkey, Account>, owner: Pubkey): set<Pubkey> {
    PersistedStore.ProgramOf(images, owner) + set k | k in volatile && volatile[k].owner == owner
  }

  /** The account is stored and its owner is `owner`. */
  ghost predicate OwnedBy(images: PersistedStore.Images, volatile: map<Pubkey, Account>, k: Pubkey, owner: Pubkey) {
    || (k in images && images[k] != [] && images[k][0].Head? && images[k][0].owner == owner)
    || (k in volatile && volatile[k].owner == owner)
  }

  /** No persisted account has another owner with the same tail. */
  ghost predicate TailIsUnique(images: PersistedStore.Images, volatile: map<Pubkey, Account>, owner: Pubkey) {
    forall k :: k in images && images[k] != [] && images[k][0].Head? && images[k][0].owner.tail == owner.tail ==>
      images[k][0].owner == owner || (k in volatile && volatile[k].owner == owner)
  }

  /** A lookup misses none of the owner's accounts, and yields only those exactly
      when no persisted account has another owner with the same tail. */
  lemma ProgramExactIff(images: PersistedStore.Images, volatile: map<Pubkey, Account>, owner: Pubkey)
    ensures forall k :: OwnedBy(images, volatile, k, owner) ==> k in ProgramOf(images, volatile, owner)
    ensures (forall k :: k in ProgramOf(images, volatile, owner) ==> OwnedBy(images, volatile, k, owner)) <==>
            TailIsUnique(images, volatile, owner)
  {
    if !TailIsUnique(images, volatile, owner) {
      var k :| k in images && images[k] != [] && images[k][0].Head? && images[k][0].owner.tail == owner.tail &&
               images[k][0].owner != owner && !(k in volatile && volatile[k].owner == owner);
      assert k in ProgramOf(images, volatile, owner) && !OwnedBy(images, volatile, k, owner);
    }
  }

  /** Two owners that differ only in their heads share their accounts. */
  lemma SharedTailMisleads(k: Pubkey, word: nat)
    ensures var images := map[k := [Head(k, Pubkey(0, 7), 1, word)]];
      && ImageOf(k, images[k]) && k in ProgramOf(images, map[], Pubkey(1, 7))
      && !OwnedBy(images, map[], k, Pubkey(1, 7))
  {
    var images := map[k := [Head(k, Pubkey(0, 7), 1, word)]];
    assert images[k][0] == Head(k, Pubkey(0, 7), 1, word);
  }

  class AccountsDB {
    const persisted: PersistedStore.PersistedStore
    const volatile: VolatileStore

    ghost predicate Valid()
      reads this, persisted, persisted.storage, volatile
    {
      persisted.Valid() && volatile.Valid() && Routed(persisted.Images(), volatile.accounts)
    }

    constructor ()
      ensures Valid() && fresh(persisted) && fresh(persisted.storage) && fresh(volatile)
    {
      persisted := new PersistedStore.PersistedStore();
      volatile := new VolatileStore(map[]);
    }

    /** Stores accounts by lifecycle mode: the persisted batch first, then the
        volatile entries. Each key of the batch ends where its mode demands exactly
        when its entry was faithful; a faithful batch keeps the whole database routed. */
    method Store(entries: seq<Entry>) returns (ok: bool)
      requires Valid() && DistinctKeys(entries) && AllWellFormed(persisted.Images(), entries)
      modifies persisted, persisted.storage, volatile
      ensures var demand := PersistedStore.Demand(Ops(Selected(entries, ToPersisted)));
        old(persisted.cursor) + demand <= PersistedStore.STORAGE_CAPACITY ==> ok
      ensures !ok ==> volatile.accounts == old(volatile.accounts) && volatile.programs == old(volatile.programs)
      ensures ok ==> persisted.Valid() && volatile.Valid()
      ensures ok ==> forall e :: e in entries ==>
                (Placed(persisted.Images(), volatile.accounts, e) <==>
                 FormFaithful(e.key in old(persisted.Images()), e.key in old(volatile.accounts), e))
      ensures ok ==> forall k :: !Mentions(entries, k) ==>
                Same(old(persisted.Images()), persisted.Images(), k) &&
                Same(old(volatile.accounts), volatile.accounts, k)
      ensures ok ==> forall e :: e in entries && IsVolatile(e.mode) ==> ListedUnder(volatile.programs, e)
      ensures ok && AllFormFaithful(old(persisted.Images()), old(volatile.accounts), entries) ==> Valid()
    {
      hide PersistedStore.Demand, Placed, FormFaithful, Same, Routed, WellFormed;
      ghost var images, accounts := persisted.Images(), volatile.accounts;
      SelectedApply(images, accounts, entries);
      ok := persisted.Upsert(Ops(Selected(entries, ToPersisted)));
      if !ok {
        return;
      }
      ImagesSelected(images, entries);
      volatile.Upsert(Selected(entries, ToVolatile));
      Settles(images, accounts, entries);
      forall e | e in entries && IsVolatile(e.mode) ensures ListedUnder(volatile.programs, e) {
        StoredAt(images, accounts, entries, e);
      }
    }

    /** Whether the key is stored, and in which backend: volatile accounts take
        precedence. */
    method Locate(k: Pubkey) returns (inVolatile: bool, inPersisted: bool)
      requires Valid()
      ensures inVolatile == (k in volatile.accounts) && inPersisted == (k in persisted.Images())
      ensures !(inVolatile && inPersisted)
    {
      assert RoutedAt(persisted.Images(), volatile.accounts, k);
      inVolatile := k in volatile.accounts;
      inPersisted := !inVolatile && k in persisted.accounts;
    }

    /** The accounts found under an owner: persisted ones first, then volatile ones. */
    method Program(owner: Pubkey) returns (found: set<Pubkey>)
      requires Valid()
      ensures found == ProgramOf(persisted.Images(), volatile.accounts, owner)
      ensures TailIsUnique(persisted.Images(), volatile.accounts, owner) ==>
                forall k :: k in found <==> OwnedBy(persisted.Images(), volatile.accounts, k, owner)
    {
      ProgramExactIff(persisted.Images(), volatile.accounts, owner);
      found := persisted.Program(owner);
      if owner in volatile.programs {
        found := found + volatile.programs[owner];
      }
    }

    /** Drops the rebuildable mirrors; persisted state is retained. */
    method Reset()
      requires Valid()
      modifies volatile
      ensures Valid() && volatile.accounts == map[] && persisted.Images() == old(persisted.Images())
    {
      forall k ensures RoutedAt(persisted.Images(), map[], k) {
        assert RoutedAt(persisted.Images(), volatile.accounts, k);
      }
      volatile.Reset();
    }

    /** Packs persisted images; what either backend stores stays the same. */
    method Compact() returns (reclaimed: nat)
      requires Valid()
      modifies persisted, persisted.storage
      ensures Valid() && persisted.Images() == old(persisted.Images()) &&
              reclaimed == old(persisted.cursor) - persisted.cursor
    {
      reclaimed := persisted.Compact();
    }
  }

  lemma ImagesSelected(images: PersistedStore.Images, entries: seq<Entry>)
    requires AllWellFormed(images, entries)
    ensures forall i :: 0 <= i < |Selected(entries, ToVolatile)| ==>
              ImageOf(Selected(entries, ToVolatile)[i].key, Selected(entries, ToVolatile)[i].image)
  {
    var some := Selected(entries, ToVolatile);
    forall i | 0 <= i < |some| ensures ImageOf(some[i].key, some[i].image) {
      assert some[i] in entries;
      assert WellFormed(images, some[i]);
    }
  }

  /** Everything a stored batch achieves. */
  lemma Settles(images: PersistedStore.Images, volatile: map<Pubkey, Account>, entries: seq<Entry>)
    requires DistinctKeys(entries) && Routed(images, volatile) && AllWellFormed(images, entries)
    ensures forall e :: e in entries ==>
              (Placed(PersistedAfter(images, entries), VolatileAfter(volatile, entries), e) <==>
               FormFaithful(e.key in images, e.key in volatile, e))
    ensures forall k :: !Mentions(entries, k) ==>
              Same(images, PersistedAfter(images, entries), k) && Same(volatile, VolatileAfter(volatile, entries), k)
    ensures AllFormFaithful(images, volatile, entries) ==>
              Routed(PersistedAfter(images, entries), VolatileAfter(volatile, entries))
  {
    hide PersistedAfter, VolatileAfter, FormFaithful, Placed, Same, Routed, AllFormFaithful;
    forall e | e in entries
      ensures Placed(PersistedAfter(images, entries), VolatileAfter(volatile, entries), e) <==>
              FormFaithful(e.key in images, e.key in volatile, e)
    {
      PlacedIffFaithful(images, volatile, entries, e);
    }
    forall k | !Mentions(entries, k)
      ensures Same(images, PersistedAfter(images, entries), k) && Same(volatile, VolatileAfter(volatile, entries), k)
    {
      UnmentionedStays(images, volatile, entries, k);
    }
    if AllFormFaithful(images, volatile, entries) {
      StoreRoutes(images, volatile, entries);
    }
  }
}
