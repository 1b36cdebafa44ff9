/** Account history across superblocks, read page by page, newest first. */
module Paging {
  import opened Basics
  import opened SpanKeys

  const PREFIX_BYTES: nat := 9

  /** Namespaced truncated public key. */
  type Prefix = p: seq<Byte> | |p| == PREFIX_BYTES witness [97, 0, 0, 0, 0, 0, 0, 0, 0]

  /** One executed transaction: its packed span in the executions file, and the
      account prefixes it mentions. */
  datatype Exec = Exec(signature: Signature, span: nat, accounts: set<Prefix>)

  /** A superblock: its executions in file order, and its index. */
  datatype Superblock = Superblock(execs: seq<Exec>, transactions: map<Signature, nat>, accountKeys: set<seq<Byte>>)

  ghost predicate InFileOrder(execs: seq<Exec>) {
    && (forall i :: 0 <= i < |execs| ==> execs[i].span < WORD_RANGE)
    && (forall i, j :: 0 <= i < j < |execs| ==> execs[i].span < execs[j].span)
  }

  /** Executions lie one after another in the file, each nonempty and packable. */
  ghost predicate LaidOut(execs: seq<Exec>) {
    && (forall i :: 0 <= i < |execs| ==> execs[i].span < WORD_RANGE && SizeOf(execs[i].span) > 0)
    && (forall i, j :: 0 <= i < j < |execs| ==>
          OffsetOf(execs[i].span) + SizeOf(execs[i].span) <= OffsetOf(execs[j].span))
  }

  /** Packed spans order executions as the file does. */
  lemma FileOrderIsSpanOrder(execs: seq<Exec>)
    requires LaidOut(execs)
    ensures InFileOrder(execs)
  {
    forall i, j | 0 <= i < j < |execs| ensures execs[i].span < execs[j].span {
      var a, b := execs[i].span, execs[j].span;
      assert Pack(OffsetOf(a), SizeOf(a)) == a && Pack(OffsetOf(b), SizeOf(b)) == b;
      PackOrders(OffsetOf(a), SizeOf(a), OffsetOf(b), SizeOf(b));
    }
  }

  /** The index holds one entry per transaction and per mentioned account. */
  ghost predicate Indexed(sb: Superblock) {
    && LaidOut(sb.execs)
    && (forall i :: 0 <= i < |sb.execs| ==>
          sb.execs[i].signature in sb.transactions && sb.transactions[sb.execs[i].signature] == sb.execs[i].span)
    && (forall s :: s in sb.transactions ==> Executed(sb, s))
    && (forall key :: key in sb.accountKeys <==>
          exists i, p: Prefix ::
            0 <= i < |sb.execs| && p in sb.execs[i].accounts && key == AccountKey(p, sb.execs[i].span))
  }

  ghost predicate Executed(sb: Superblock, s: Signature) {
    exists i :: 0 <= i < |sb.execs| && sb.execs[i].signature == s
  }

  /** Signatures are unique across the retained superblocks. */
  ghost predicate UniqueSignatures(sbs: seq<Superblock>) {
    && (forall n :: 0 <= n < |sbs| ==> Distinct(sbs[n].execs))
    && (forall n, m, s :: 0 <= n < m < |sbs| && Executed(sbs[n], s) ==> !Executed(sbs[m], s))
  }

  ghost predicate Distinct(execs: seq<Exec>) {
    forall i, j :: 0 <= i < j < |execs| ==> execs[i].signature != execs[j].signature
  }

  // ---------------------------------------------------------------- History

  /** A superblock's executions that mention the account, newest first. */
  function Mentioning(execs: seq<Exec>, p: Prefix): seq<Exec> {
    if execs == [] then []
    else
      var last := execs[|execs| - 1];
      (if p in last.accounts then [last] else []) + Mentioning(execs[..|execs| - 1], p)
  }

  /** The whole history of an account; superblocks come newest first. */
  function History(sbs: seq<Superblock>, p: Prefix): seq<Exec> {
    if sbs == [] then [] else Mentioning(sbs[0].execs, p) + History(sbs[1..], p)
  }

  /** Entries older than a packed span. */
  function Older(es: seq<Exec>, upper: nat): seq<Exec> {
    if es == [] then []
    else if es[0].span < upper then es
    else Older(es[1..], upper)
  }

  ghost predicate NewestFirst(es: seq<Exec>) {
    forall i, j :: 0 <= i < j < |es| ==> es[j].span < es[i].span
  }

  /** What the reader walks: the whole history, or what follows `before`. */
  function Walk(sbs: seq<Superblock>, p: Prefix, before: Option<Signature>): seq<Exec> {
    if sbs == [] then []
    else if before.None? then History(sbs, p)
    else if before.value in sbs[0].transactions then
      Older(Mentioning(sbs[0].execs, p), sbs[0].transactions[before.value]) + History(sbs[1..], p)
    else Walk(sbs[1..], p, before)
  }

  /** The first entries of a walk, up to a limit and a stop signature. */
  function Page(es: seq<Exec>, limit: nat, until: Option<Signature>): seq<Exec> {
    if es == [] || limit == 0 || until == Some(es[0].signature) then []
    else [es[0]] + Page(es[1..], limit - 1, until)
  }

  // ---------------------------------------------------------------- Facts about histories

  lemma {:induction false} MentioningSound(execs: seq<Exec>, p: Prefix)
    requires InFileOrder(execs)
    ensures NewestFirst(Mentioning(execs, p))
    ensures forall e :: e in Mentioning(execs, p) <==> e in execs && p in e.accounts
  {
    if execs != [] {
      var front, last := execs[..|execs| - 1], execs[|execs| - 1];
      MentioningSound(front, p);
      assert execs == front + [last];
      FrontIsOlder(execs);
      var older := Mentioning(front, p);
      forall i | 0 <= i < |older| ensures older[i].span < last.span {
        assert older[i] in front;
      }
      if p in last.accounts {
        NewestFirstFrom(last, older);
      }
    }
  }

  lemma FrontIsOlder(execs: seq<Exec>)
    requires InFileOrder(execs) && execs != []
    ensures forall e :: e in execs[..|execs| - 1] ==> e.span < execs[|execs| - 1].span
  {
    var front := execs[..|execs| - 1];
    forall e | e in front ensures e.span < execs[|execs| - 1].span {
      var j :| 0 <= j < |front| && front[j] == e;
      assert execs[j].span < execs[|execs| - 1].span;
    }
  }

  lemma NewestFirstFrom(e: Exec, es: seq<Exec>)
    requires NewestFirst(es) && forall i :: 0 <= i < |es| ==> es[i].span < e.span
    ensures NewestFirst([e] + es)
  {
    var more := [e] + es;
    forall i, j | 0 <= i < j < |more| ensures more[j].span < more[i].span {
      assert more[j] == es[j - 1];
      assert i > 0 ==> more[i] == es[i - 1];
    }
  }

  lemma {:induction false} OlderIsTail(es: seq<Exec>, i: nat)
    requires NewestFirst(es) && i < |es|
    ensures Older(es, es[i].span) == es[i + 1..]
  {
    if i == 0 {
      assert !(es[0].span < es[0].span);
      if |es| > 1 {
        assert es[1..][0].span < es[0].span;
      }
    } else {
      OlderIsTail(es[1..], i - 1);
    }
  }

  lemma {:induction false} HistoryExecuted(sbs: seq<Superblock>, p: Prefix, i: nat) returns (n: nat)
    requires (forall m :: 0 <= m < |sbs| ==> Indexed(sbs[m])) && i < |History(sbs, p)|
    ensures n < |sbs| && Executed(sbs[n], History(sbs, p)[i].signature)
  {
    hide Indexed, Executed, Mentioning;
    var here := Mentioning(sbs[0].execs, p);
    if i < |here| {
      assert Indexed(sbs[0]);
      MentionedIsExecuted(sbs[0], p, i);
      n := 0;
    } else {
      var m := HistoryExecuted(sbs[1..], p, i - |here|);
      n := m + 1;
    }
  }

  lemma MentionedIsExecuted(sb: Superblock, p: Prefix, i: nat)
    requires Indexed(sb) && i < |Mentioning(sb.execs, p)|
    ensures Executed(sb, Mentioning(sb.execs, p)[i].signature)
  {
    hide Indexed, Mentioning, NewestFirst;
    IndexedInOrder(sb);
    MentioningSound(sb.execs, p);
    var e := Mentioning(sb.execs, p)[i];
    assert e in sb.execs;
    var j :| 0 <= j < |sb.execs| && sb.execs[j] == e;
  }

  /** Walking before an entry of the history is the history after it. */
  lemma {:induction false} WalkResumes(sbs: seq<Superblock>, p: Prefix, i: nat)
    requires (forall m :: 0 <= m < |sbs| ==> Indexed(sbs[m])) && UniqueSignatures(sbs) && i < |History(sbs, p)|
    ensures Walk(sbs, p, Some(History(sbs, p)[i].signature)) == History(sbs, p)[i + 1..]
  {
    hide Indexed, UniqueSignatures;
    var here, rest := Mentioning(sbs[0].execs, p), History(sbs[1..], p);
    assert Indexed(sbs[0]);
    if i < |here| {
      CutoffIs(sbs[0], p, i);
      assert (here + rest)[i + 1..] == here[i + 1..] + rest;
    } else {
      NotInHead(sbs, p, i - |here|);
      UniqueTail(sbs);
      WalkResumes(sbs[1..], p, i - |here|);
      assert (here + rest)[i + 1..] == rest[i + 1 - |here|..];
    }
  }

  /** The transaction entry of a superblock's own history entry cuts right after it. */
  lemma CutoffIs(sb: Superblock, p: Prefix, i: nat)
    requires Indexed(sb) && i < |Mentioning(sb.execs, p)|
    ensures var here := Mentioning(sb.execs, p);
      here[i].signature in sb.transactions && Older(here, sb.transactions[here[i].signature]) == here[i + 1..]
  {
    var here := Mentioning(sb.execs, p);
    IndexedInOrder(sb);
    MentioningSound(sb.execs, p);
    assert here[i] in sb.execs;
    OlderIsTail(here, i);
  }

  /** An entry of an older superblock is not in the newest one's index. */
  lemma NotInHead(sbs: seq<Superblock>, p: Prefix, i: nat)
    requires sbs != [] && (forall m :: 0 <= m < |sbs| ==> Indexed(sbs[m])) && UniqueSignatures(sbs)
    requires i < |History(sbs[1..], p)|
    ensures History(sbs[1..], p)[i].signature !in sbs[0].transactions
  {
    var signature := History(sbs[1..], p)[i].signature;
    var n := HistoryExecuted(sbs[1..], p, i);
    assert Executed(sbs[n + 1], signature);
  }

  lemma UniqueTail(sbs: seq<Superblock>)
    requires UniqueSignatures(sbs) && sbs != []
    ensures UniqueSignatures(sbs[1..])
  {
  }

  /** How many entries come before the first with the stop signature. */
  function Before(es: seq<Exec>, until: Option<Signature>): (n: nat)
    ensures n <= |es| && (n < |es| ==> until == Some(es[n].signature))
    ensures forall i :: 0 <= i < n ==> until != Some(es[i].signature)
  {
    if es == [] || until == Some(es[0].signature) then 0 else 1 + Before(es[1..], until)
  }

  /** A page is the stretch before the first entry with the stop signature, cut at the
      limit; without one it is cut at the limit only. */
  lemma {:induction false} PageIsStretch(es: seq<Exec>, limit: nat, until: Option<Signature>)
    ensures Page(es, limit, until) == es[..if limit < Before(es, until) then limit else Before(es, until)]
    ensures until.None? ==> Before(es, until) == |es|
  {
    if es != [] && limit > 0 && until != Some(es[0].signature) {
      PageIsStretch(es[1..], limit - 1, until);
    }
  }

  lemma PageIsPrefix(es: seq<Exec>, limit: nat)
    ensures Page(es, limit, None) == if limit < |es| then es[..limit] else es
  {
    PageIsStretch(es, limit, None);
  }

  // ---------------------------------------------------------------- Reading the index

  function SpansOf(es: seq<Exec>): (spans: seq<nat>)
    ensures |spans| == |es| && forall i :: 0 <= i < |es| ==> spans[i] == es[i].span
  {
    seq(|es|, i requires 0 <= i < |es| => es[i].span)
  }

  ghost predicate Descending(xs: seq<nat>) {
    forall i, j :: 0 <= i < j < |xs| ==> xs[j] < xs[i]
  }

  lemma {:induction false} DescendingUnique(xs: seq<nat>, ys: seq<nat>)
    requires Descending(xs) && Descending(ys) && forall x: nat :: x in xs <==> x in ys
    ensures xs == ys
  {
    if xs == [] {
      if ys != [] {
        HasMember(ys);
      }
    } else {
      assert xs[0] in ys && ys != [] && ys[0] in xs;
      HeadIsMax(xs, ys[0]);
      HeadIsMax(ys, xs[0]);
      forall x: nat ensures x in xs[1..] <==> x in ys[1..] {
        TailMembers(xs, x);
        TailMembers(ys, x);
      }
      DescendingUnique(xs[1..], ys[1..]);
    }
  }

  lemma HasMember(xs: seq<nat>)
    requires xs != []
    ensures exists x: nat :: x in xs
  {
    assert xs[0] in xs;
  }

  lemma HeadIsMax(xs: seq<nat>, x: nat)
    requires Descending(xs) && x in xs
    ensures x <= xs[0]
  {
  }

  lemma TailMembers(xs: seq<nat>, x: nat)
    requires Descending(xs) && xs != []
    ensures x in xs[1..] <==> x in xs && x != xs[0]
  {
  }

  /** Whether a key lies under the account prefix, below the bound in byte order. */
  predicate InRange(key: seq<Byte>, p: Prefix, upper: Option<nat>) {
    |key| == PREFIX_BYTES + 8 && key[..PREFIX_BYTES] == p && (upper.Some? ==> Less(key, AccountKey(p, upper.value)))
  }

  /** Account entries of an indexed superblock. */
  ghost predicate KeysSound(keys: set<seq<Byte>>) {
    forall key :: key in keys ==> exists q: Prefix, x: nat :: x < WORD_RANGE && key == AccountKey(q, x)
  }

  lemma KeyParts(p: Prefix, q: Prefix, x: nat)
    requires x < WORD_RANGE
    ensures |AccountKey(q, x)| == PREFIX_BYTES + 8 && AccountKey(q, x)[..PREFIX_BYTES] == q
    ensures AccountKey(q, x)[..PREFIX_BYTES] == p <==> p == q
  {
  }

  method LastKey(keys: set<seq<Byte>>, ghost p: Prefix) returns (last: seq<Byte>, span: nat)
    requires keys != {} && forall key :: key in keys ==> exists x: nat :: x < WORD_RANGE && key == AccountKey(p, x)
    ensures last in keys && span < WORD_RANGE && last == AccountKey(p, span)
    ensures forall x: nat :: x < WORD_RANGE && AccountKey(p, x) in keys ==> x <= span
  {
    last :| last in keys;
    var rest := keys - {last};
    while rest != {}
      invariant rest <= keys && last in keys
      invariant forall key :: key in keys && key !in rest ==> key == last || Less(key, last)
      decreases |rest|
    {
      var key :| key in rest;
      rest := rest - {key};
      KeysCompare(p, keys, last, key);
      if Less(last, key) {
        LessIsTransitive(p, keys, last, key);
        last := key;
      }
    }
    span := FromBigEndian(last[PREFIX_BYTES..]);
    ghost var y: nat :| y < WORD_RANGE && last == AccountKey(p, y);
    AccountKeyOrder(p, y, y);
    forall x: nat | x < WORD_RANGE && AccountKey(p, x) in keys ensures x <= span {
      AccountKeyOrder(p, x, y);
    }
  }

  lemma KeysCompare(p: Prefix, keys: set<seq<Byte>>, a: seq<Byte>, b: seq<Byte>)
    requires forall key :: key in keys ==> exists x: nat :: x < WORD_RANGE && key == AccountKey(p, x)
    requires a in keys && b in keys
    ensures a == b || Less(a, b) || Less(b, a)
  {
    var x: nat :| x < WORD_RANGE && a == AccountKey(p, x);
    var y: nat :| y < WORD_RANGE && b == AccountKey(p, y);
    AccountKeyOrder(p, x, y);
    AccountKeyOrder(p, y, x);
  }

  lemma LessIsTransitive(p: Prefix, keys: set<seq<Byte>>, a: seq<Byte>, b: seq<Byte>)
    requires forall key :: key in keys ==> exists x: nat :: x < WORD_RANGE && key == AccountKey(p, x)
    requires a in keys && b in keys && Less(a, b)
    ensures forall c :: c in keys && Less(c, a) ==> Less(c, b)
  {
    var x: nat :| x < WORD_RANGE && a == AccountKey(p, x);
    var y: nat :| y < WORD_RANGE && b == AccountKey(p, y);
    AccountKeyOrder(p, x, y);
    forall c | c in keys && Less(c, a) ensures Less(c, b) {
      var z: nat :| z < WORD_RANGE && c == AccountKey(p, z);
      AccountKeyOrder(p, z, x);
      AccountKeyOrder(p, z, y);
    }
  }

  /** The account's spans below the bound, newest first: reverse byte order over the
      index keys. */
  method AccountSpans(keys: set<seq<Byte>>, p: Prefix, upper: Option<nat>) returns (spans: seq<nat>)
    requires KeysSound(keys) && (upper.Some? ==> upper.value < WORD_RANGE)
    ensures Descending(spans)
    ensures forall x: nat :: x in spans <==>
              x < WORD_RANGE && AccountKey(p, x) in keys && (upper.Some? ==> x < upper.value)
  {
    hide AccountKey, Less, InRange, KeysSound;
    var rest := set key | key in keys && InRange(key, p, upper);
    ghost var all := rest;
    RangeKeys(keys, p, upper, rest);
    spans := [];
    while rest != {}
      invariant rest <= all && Descending(spans)
      invariant forall x: nat :: x in spans <==> x < WORD_RANGE && AccountKey(p, x) in all && AccountKey(p, x) !in rest
      invariant forall i, x: nat :: 0 <= i < |spans| && x < WORD_RANGE && AccountKey(p, x) in rest ==> x < spans[i]
      decreases |rest|
    {
      var key, span := LastKey(rest, p);
      spans := spans + [span];
      rest := rest - {key};
      forall x: nat | x < WORD_RANGE && AccountKey(p, x) == key ensures x == span {
        AccountKeyOrder(p, x, x);
        AccountKeyOrder(p, span, span);
      }
    }
  }

  lemma RangeKeys(keys: set<seq<Byte>>, p: Prefix, upper: Option<nat>, range: set<seq<Byte>>)
    requires KeysSound(keys) && (upper.Some? ==> upper.value < WORD_RANGE)
    requires range == set key | key in keys && InRange(key, p, upper)
    ensures forall key :: key in range ==> exists x: nat :: x < WORD_RANGE && key == AccountKey(p, x)
    ensures forall x: nat :: x < WORD_RANGE ==>
              (AccountKey(p, x) in range <==> AccountKey(p, x) in keys && (upper.Some? ==> x < upper.value))
  {
    forall key | key in range ensures exists x: nat :: x < WORD_RANGE && key == AccountKey(p, x) {
      var q: Prefix, x: nat :| x < WORD_RANGE && key == AccountKey(q, x);
      KeyParts(p, q, x);
    }
    forall x: nat | x < WORD_RANGE
      ensures AccountKey(p, x) in range <==> AccountKey(p, x) in keys && (upper.Some? ==> x < upper.value)
    {
      KeyParts(p, p, x);
      if upper.Some? {
        AccountKeyOrder(p, x, upper.value);
      }
    }
  }

  // ---------------------------------------------------------------- Reading pages

  /** The account spans of an indexed superblock are those of its history. */
  lemma SpansAreHistory(sb: Superblock, p: Prefix, upper: Option<nat>, spans: seq<nat>)
    requires Indexed(sb) && Descending(spans)
    requires forall x: nat :: x in spans <==>
               x < WORD_RANGE && AccountKey(p, x) in sb.accountKeys && (upper.Some? ==> x < upper.value)
    ensures var here := Mentioning(sb.execs, p);
      spans == SpansOf(if upper.Some? then Older(here, upper.value) else here)
  {
    hide Indexed, Mentioning, Older, AccountKey;
    var here := Mentioning(sb.execs, p);
    IndexedInOrder(sb);
    MentioningSound(sb.execs, p);
    var es := if upper.Some? then Older(here, upper.value) else here;
    if upper.Some? {
      OlderMembers(here, upper.value);
    }
    forall x: nat ensures x in spans <==> x in SpansOf(es) {
      if x < WORD_RANGE && AccountKey(p, x) in sb.accountKeys && (upper.Some? ==> x < upper.value) {
        var e := KeyNames(sb, p, x);
        SpanIn(es, e);
      }
      if x in SpansOf(es) {
        var j :| 0 <= j < |es| && SpansOf(es)[j] == x;
        NamedByKey(sb, p, es[j]);
      }
    }
    DescendingUnique(spans, SpansOf(es));
  }

  lemma IndexedInOrder(sb: Superblock)
    requires Indexed(sb)
    ensures InFileOrder(sb.execs)
  {
    FileOrderIsSpanOrder(sb.execs);
  }

  /** An account key names an execution that mentions the account. */
  lemma KeyNames(sb: Superblock, p: Prefix, x: nat) returns (e: Exec)
    requires Indexed(sb) && x < WORD_RANGE && AccountKey(p, x) in sb.accountKeys
    ensures e in sb.execs && p in e.accounts && e.span == x
  {
    var i, q: Prefix :|
      0 <= i < |sb.execs| && q in sb.execs[i].accounts && AccountKey(p, x) == AccountKey(q, sb.execs[i].span);
    e := sb.execs[i];
    assert e.span < WORD_RANGE;
    KeyParts(p, q, e.span);
    KeyParts(p, p, x);
    AccountKeyOrder(p, x, x);
    AccountKeyOrder(p, e.span, e.span);
  }

  lemma NamedByKey(sb: Superblock, p: Prefix, e: Exec)
    requires Indexed(sb) && e in sb.execs && p in e.accounts
    ensures e.span < WORD_RANGE && AccountKey(p, e.span) in sb.accountKeys
  {
  }

  lemma SpanIn(es: seq<Exec>, e: Exec)
    requires e in es
    ensures e.span in SpansOf(es)
  {
  }

  lemma {:induction false} OlderMembers(es: seq<Exec>, upper: nat)
    requires NewestFirst(es)
    ensures NewestFirst(Older(es, upper)) && forall e :: e in Older(es, upper) <==> e in es && e.span < upper
  {
    if es != [] && es[0].span >= upper {
      OlderMembers(es[1..], upper);
      assert es == [es[0]] + es[1..];
    }
  }

  lemma IndexedKeys(sb: Superblock)
    requires Indexed(sb)
    ensures KeysSound(sb.accountKeys)
  {
  }

  /** The execution stored at a span. */
  method Header(sb: Superblock, span: nat, ghost e: Exec) returns (header: Exec)
    requires InFileOrder(sb.execs) && e in sb.execs && e.span == span
    ensures header == e
  {
    ghost var at :| 0 <= at < |sb.execs| && sb.execs[at] == e;
    var i := 0;
    while sb.execs[i].span != span
      invariant 0 <= i <= at
    {
      i := i + 1;
    }
    header := sb.execs[i];
  }

  /** Reads one superblock's part of a page. */
  method ReadSuperblock(sb: Superblock, p: Prefix, upper: Option<nat>, read: seq<Exec>, limit: nat,
                        until: Option<Signature>, ghost rest: seq<Exec>)
    returns (signatures: seq<Exec>, finished: bool)
    requires Indexed(sb) && (upper.Some? ==> upper.value < WORD_RANGE) && |read| < limit
    ensures var here := Mentioning(sb.execs, p);
      var es := if upper.Some? then Older(here, upper.value) else here;
      if finished then signatures == read + Page(es + rest, limit - |read|, until)
      else |signatures| < limit &&
           signatures + Page(rest, limit - |signatures|, until) == read + Page(es + rest, limit - |read|, until)
  {
    ghost var here := Mentioning(sb.execs, p);
    IndexedKeys(sb);
    IndexedInOrder(sb);
    MentioningSound(sb.execs, p);
    if upper.Some? {
      OlderMembers(here, upper.value);
    }
    var spans := AccountSpans(sb.accountKeys, p, upper);
    SpansAreHistory(sb, p, upper, spans);
    signatures, finished := ReadSpans(sb, spans, read, limit, until,
                                      if upper.Some? then Older(here, upper.value) else here, rest);
  }

  /** Reads the headers at the given spans until the limit or the stop signature. */
  method ReadSpans(sb: Superblock, spans: seq<nat>, read: seq<Exec>, limit: nat, until: Option<Signature>,
                   ghost es: seq<Exec>, ghost rest: seq<Exec>)
    returns (signatures: seq<Exec>, finished: bool)
    requires InFileOrder(sb.execs) && spans == SpansOf(es) && (forall e :: e in es ==> e in sb.execs) && |read| < limit
    ensures if finished then signatures == read + Page(es + rest, limit - |read|, until)
            else |signatures| < limit &&
                 signatures + Page(rest, limit - |signatures|, until) == read + Page(es + rest, limit - |read|, until)
  {
    signatures, finished := read, false;
    var i := 0;
    while i < |spans|
      invariant 0 <= i <= |spans| && |signatures| < limit
      invariant signatures + Page(es[i..] + rest, limit - |signatures|, until) ==
                read + Page(es + rest, limit - |read|, until)
    {
      assert es[i] in sb.execs;
      var header := Header(sb, spans[i], es[i]);
      ghost var ahead := es[i..] + rest;
      assert ahead[0] == header && ahead[1..] == es[i + 1..] + rest;
      if until == Some(header.signature) {
        return signatures, true;
      }
      ghost var before := signatures;
      signatures := signatures + [header];
      assert before + ([header] + Page(ahead[1..], limit - |signatures|, until)) ==
             signatures + Page(ahead[1..], limit - |signatures|, until);
      if |signatures| >= limit {
        return signatures, true;
      }
      i := i + 1;
    }
    assert es[i..] + rest == rest;
  }

  /** Reads recent executions that mention an account, across superblocks. */
  method AccountSignatures(sbs: seq<Superblock>, p: Prefix, limit: nat, before: Option<Signature>,
                           until: Option<Signature>)
    returns (signatures: seq<Exec>)
    requires forall m :: 0 <= m < |sbs| ==> Indexed(sbs[m])
    ensures signatures == Page(Walk(sbs, p, before), limit, until)
  {
    hide Indexed, Walk, History, Mentioning, Older;
    signatures := [];
    NoLimitNoPage(Walk(sbs, p, before), until);
    if limit == 0 {
      return;
    }
    hide Page;
    var cursor := before;
    var n := 0;
    while n < |sbs|
      invariant 0 <= n <= |sbs| && |signatures| < limit
      invariant signatures + Page(Walk(sbs[n..], p, cursor), limit - |signatures|, until) ==
                Page(Walk(sbs, p, before), limit, until)
    {
      var sb := sbs[n];
      WalkStep(sbs, n, p, cursor);
      var upper: Option<nat> := None;
      if cursor.Some? {
        if cursor.value !in sb.transactions {
          n := n + 1;
          continue;
        }
        upper := Some(sb.transactions[cursor.value]);
        CutoffFits(sb, cursor.value);
        cursor := None;
      }
      var finished;
      signatures, finished := ReadSuperblock(sb, p, upper, signatures, limit, until, History(sbs[n + 1..], p));
      if finished {
        return;
      }
      WalkIsHistory(sbs[n + 1..], p);
      n := n + 1;
    }
    NothingToWalk(sbs[n..], p, cursor, limit - |signatures|, until);
  }

  lemma NoLimitNoPage(es: seq<Exec>, until: Option<Signature>)
    ensures Page(es, 0, until) == []
  {
  }

  lemma NothingToWalk(sbs: seq<Superblock>, p: Prefix, cursor: Option<Signature>, limit: nat, until: Option<Signature>)
    requires sbs == []
    ensures Page(Walk(sbs, p, cursor), limit, until) == []
  {
  }

  lemma WalkIsHistory(sbs: seq<Superblock>, p: Prefix)
    ensures Walk(sbs, p, None) == History(sbs, p)
  {
  }

  /** The newest superblock's part of a walk, then the older ones. */
  lemma WalkStep(sbs: seq<Superblock>, n: nat, p: Prefix, cursor: Option<Signature>)
    requires n < |sbs|
    ensures cursor.Some? && cursor.value !in sbs[n].transactions ==>
              Walk(sbs[n..], p, cursor) == Walk(sbs[n + 1..], p, cursor)
    ensures cursor.None? ==> Walk(sbs[n..], p, cursor) == Mentioning(sbs[n].execs, p) + History(sbs[n + 1..], p)
    ensures cursor.Some? && cursor.value in sbs[n].transactions ==>
              Walk(sbs[n..], p, cursor) ==
              Older(Mentioning(sbs[n].execs, p), sbs[n].transactions[cursor.value]) + History(sbs[n + 1..], p)
  {
    assert sbs[n..][0] == sbs[n] && sbs[n..][1..] == sbs[n + 1..];
  }

  lemma CutoffFits(sb: Superblock, s: Signature)
    requires Indexed(sb) && s in sb.transactions
    ensures sb.transactions[s] < WORD_RANGE
  {
  }

  /** Requesting pages, each before the last signature of the one before, gives
      exactly the unpaged newest-first history. */
  method ReadAll(sbs: seq<Superblock>, p: Prefix, limit: nat) returns (all: seq<Exec>)
    requires (forall m :: 0 <= m < |sbs| ==> Indexed(sbs[m])) && UniqueSignatures(sbs) && limit > 0
    ensures all == History(sbs, p)
  {
    hide Indexed, UniqueSignatures;
    ghost var history := History(sbs, p);
    var page := AccountSignatures(sbs, p, limit, None, None);
    PageIsPrefix(history, limit);
    assert sbs == [] ==> history == [];
    all := page;
    while |page| == limit
      invariant all <= history && |page| <= limit && (|page| < limit ==> all == history)
      invariant |page| == limit ==> all != []
      decreases |history| - |all|, |page|
    {
      page := NextPage(sbs, p, limit, all);
      all := all + page;
    }
  }

  /** The page after what has been read. */
  method NextPage(sbs: seq<Superblock>, p: Prefix, limit: nat, all: seq<Exec>) returns (page: seq<Exec>)
    requires (forall m :: 0 <= m < |sbs| ==> Indexed(sbs[m])) && UniqueSignatures(sbs)
    requires all != [] && all <= History(sbs, p)
    ensures var rest := History(sbs, p)[|all|..];
      page == if limit < |rest| then rest[..limit] else rest
  {
    hide Indexed, UniqueSignatures, Page, Walk;
    WalkResumes(sbs, p, |all| - 1);
    page := AccountSignatures(sbs, p, limit, Some(all[|all| - 1].signature), None);
    PageIsPrefix(History(sbs, p)[|all|..], limit);
  }
}
