/** The handlers of supabase/functions/server/index.tsx that scan the
    `confession:<uid>:` prefix: list a user's confessions newest first, and
    delete them all while reverting their karma in one profile update. */
module Scans {
  import opened Wrappers
  import opened Text
  import opened Kv
  import opened Sums
  import opened Ledger
  import opened Handlers

  // ----------------------------------------------------------------- listing

  /** The confessions stored under the user's prefix. */
  function ConfessionsUnder(st: Store, uid: string): set<Confession> {
    set k | k in ConfessionKeys(st, uid) && st[k].ConfessionRec? :: st[k].confession
  }

  /** The keys under the user's prefix that hold a confession. */
  function ConfessionRecordKeys(st: Store, uid: string): set<string> {
    set k | k in ConfessionKeys(st, uid) && st[k].ConfessionRec?
  }

  /** Sorted by `createdAt`, newest first. */
  predicate NewestFirst(cs: seq<Confession>) {
    forall i, j :: 0 <= i < j < |cs| ==> cs[i].createdAt >= cs[j].createdAt
  }

  /** Insert one confession into a newest-first list. */
  function InsertByDate(c: Confession, cs: seq<Confession>): (r: seq<Confession>)
    requires NewestFirst(cs)
    ensures NewestFirst(r)
    ensures multiset(r) == multiset(cs) + multiset{c}
    ensures |r| == |cs| + 1
    ensures r[0] == c || (|cs| > 0 && r[0] == cs[0])
    decreases |cs|
  {
    if cs == [] || cs[0].createdAt <= c.createdAt then [c] + cs
    else
      var rest := InsertByDate(c, cs[1..]);
      assert cs == [cs[0]] + cs[1..];
      [cs[0]] + rest
  }

  /** Splicing into the tail of a list is splicing one place further on. */
  lemma SpliceAfterHead<T>(cs: seq<T>, j: nat, c: T)
    requires 0 < |cs| && j <= |cs| - 1
    ensures [cs[0]] + (cs[1..][..j] + [c] + cs[1..][j..]) == cs[..j + 1] + [c] + cs[j + 1..]
  {
    assert cs[..j + 1] == [cs[0]] + cs[1..][..j];
    assert cs[j + 1..] == cs[1..][j..];
  }

  /** Where `InsertByDate` puts the new confession: it is spliced in there and
      the list around it is untouched. */
  function InsertIndex(c: Confession, cs: seq<Confession>): (i: nat)
    requires NewestFirst(cs)
    ensures i <= |cs| && InsertByDate(c, cs) == cs[..i] + [c] + cs[i..]
    decreases |cs|
  {
    if cs == [] || cs[0].createdAt <= c.createdAt then 0
    else
      var tail := cs[1..];
      var j := InsertIndex(c, tail);
      SpliceAfterHead(cs, j, c);
      j + 1
  }

  /** The confessions held at the given keys. */
  function ConfessionsAt(st: Store, ks: set<string>): set<Confession> {
    set k | k in ks && k in st && st[k].ConfessionRec? :: st[k].confession
  }

  /** The given keys that hold a confession. */
  function RecordKeysIn(st: Store, ks: set<string>): set<string> {
    set k | k in ks && k in st && st[k].ConfessionRec?
  }

  lemma ConfessionsAtInsert(st: Store, ks: set<string>, k: string)
    requires k in st
    ensures st[k].ConfessionRec? ==>
      ConfessionsAt(st, ks + {k}) == ConfessionsAt(st, ks) + {st[k].confession}
      && RecordKeysIn(st, ks + {k}) == RecordKeysIn(st, ks) + {k}
    ensures !st[k].ConfessionRec? ==>
      ConfessionsAt(st, ks + {k}) == ConfessionsAt(st, ks) && RecordKeysIn(st, ks + {k}) == RecordKeysIn(st, ks)
  {
  }

  /** Every entry of `list` is the confession at the matching key of `source`,
      a key of `ks`, and no key is used twice. */
  ghost predicate ReadFrom(st: Store, ks: set<string>, list: seq<Confession>, source: seq<string>) {
    && |source| == |list|
    && (forall i :: 0 <= i < |list| ==>
          source[i] in ks && source[i] in st && st[source[i]].ConfessionRec? && list[i] == st[source[i]].confession)
    && (forall i, j :: 0 <= i < j < |source| ==> source[i] != source[j])
  }

  /** Splicing a fresh key's confession into the list at the same place as the
      key keeps the pairing. */
  lemma SpliceKeepsReadFrom(st: Store, ks: set<string>, list: seq<Confession>, source: seq<string>, p: nat, k: string)
    requires ReadFrom(st, ks, list, source) && p <= |list|
    requires k !in ks && k in st && st[k].ConfessionRec?
    ensures ReadFrom(st, ks + {k}, list[..p] + [st[k].confession] + list[p..], source[..p] + [k] + source[p..])
  {
    var list', source' := list[..p] + [st[k].confession] + list[p..], source[..p] + [k] + source[p..];
    forall i | 0 <= i < |source'|
      ensures i < p ==> source'[i] == source[i] && list'[i] == list[i]
      ensures i == p ==> source'[i] == k && list'[i] == st[k].confession
      ensures i > p ==> source'[i] == source[i - 1] && list'[i] == list[i - 1]
    {
    }
  }

  /** One step of the listing loop: inserting the record at a fresh key keeps
      the list in step with the keys visited so far. */
  lemma ListStep(st: Store, done: set<string>, k: string, list: seq<Confession>) returns (next: seq<Confession>)
    requires k in st && k !in done && NewestFirst(list)
    requires |list| == |RecordKeysIn(st, done)|
    requires forall c :: c in list <==> c in ConfessionsAt(st, done)
    ensures next == (if st[k].ConfessionRec? then InsertByDate(st[k].confession, list) else list)
    ensures NewestFirst(next)
    ensures |next| == |RecordKeysIn(st, done + {k})|
    ensures forall c :: c in next <==> c in ConfessionsAt(st, done + {k})
  {
    ConfessionsAtInsert(st, done, k);
    next := list;
    if st[k].ConfessionRec? {
      var x := st[k].confession;
      next := InsertByDate(x, list);
      forall c ensures c in next <==> c in list || c == x {
        assert c in next <==> c in multiset(next);
        assert c in list <==> c in multiset(list);
      }
      assert k !in RecordKeysIn(st, done);
    }
  }

  /** The same step for the keys the entries were read from: the key goes in
      at the place the record went. */
  lemma SourceStep(st: Store, done: set<string>, k: string, list: seq<Confession>, source: seq<string>)
    returns (nextSource: seq<string>)
    requires k in st && k !in done && NewestFirst(list)
    requires ReadFrom(st, RecordKeysIn(st, done), list, source)
    ensures nextSource == (if st[k].ConfessionRec? then
      var p := InsertIndex(st[k].confession, list); source[..p] + [k] + source[p..] else source)
    ensures ReadFrom(st, RecordKeysIn(st, done + {k}),
      if st[k].ConfessionRec? then InsertByDate(st[k].confession, list) else list, nextSource)
  {
    ConfessionsAtInsert(st, done, k);
    nextSource := source;
    if st[k].ConfessionRec? {
      var p := InsertIndex(st[k].confession, list);
      SpliceKeepsReadFrom(st, RecordKeysIn(st, done), list, source, p, k);
      nextSource := source[..p] + [k] + source[p..];
    }
  }

  /** `GET confessions?userId=`: every confession under the user's prefix,
      each once, newest first. The ghost `source` names the key each entry
      was read from: distinct keys, one per record, so the list is a
      permutation of the stored confessions. */
  method ListConfessions(st: Store, uid: string) returns (list: seq<Confession>, ghost source: seq<string>)
    ensures NewestFirst(list)
    ensures forall c :: c in list <==> c in ConfessionsUnder(st, uid)
    ensures |list| == |ConfessionRecordKeys(st, uid)|
    ensures |source| == |list|
    ensures forall i :: 0 <= i < |list| ==>
      source[i] in ConfessionRecordKeys(st, uid) && list[i] == st[source[i]].confession
    ensures forall i, j :: 0 <= i < j < |source| ==> source[i] != source[j]
  {
    var remaining := ConfessionKeys(st, uid);
    ghost var done: set<string> := {};
    list := [];
    source := [];
    while remaining != {}
      invariant remaining + done == ConfessionKeys(st, uid) && remaining !! done
      invariant NewestFirst(list)
      invariant |list| == |RecordKeysIn(st, done)|
      invariant forall c :: c in list <==> c in ConfessionsAt(st, done)
      invariant ReadFrom(st, RecordKeysIn(st, done), list, source)
      decreases remaining
    {
      var k :| k in remaining;
      ghost var next := ListStep(st, done, k, list);
      source := SourceStep(st, done, k, list, source);
      if st[k].ConfessionRec? {
        list := InsertByDate(st[k].confession, list);
      }
      remaining := remaining - {k};
      done := done + {k};
    }
    assert ConfessionsAt(st, done) == ConfessionsUnder(st, uid);
    assert RecordKeysIn(st, done) == ConfessionRecordKeys(st, uid);
  }

  // ------------------------------------------------------------- bulk delete

  /** `DELETE confessions/user/:userId`: remove every key under the user's
      prefix, and, when the completed deltas there sum to something nonzero,
      subtract that sum from the user's karma if the user has a profile. The
      answer is the number of records removed. The weight of the contract is
      in the emptied prefix and the frame (no key outside the prefix but the
      profile changes); the profile clause follows the code. */
  ghost function BulkDelete(st: Store, uid: string): (s: Step<int>)
    ensures s.response == Ok(|ConfessionKeys(st, uid)|)
    ensures ConfessionKeys(s.store, uid) == {}
    ensures forall k :: k !in ConfessionKeys(st, uid) && k != ProfileKey(uid) ==>
      (k in s.store <==> k in st) && (k in st ==> s.store[k] == st[k])
    ensures ProfileAt(st, uid).Some? ==>
      ProfileAt(s.store, uid) == Some(if LedgerOf(st, uid) == 0 then ProfileAt(st, uid).value
                                      else AddKarma(ProfileAt(st, uid).value, -LedgerOf(st, uid)))
    ensures ProfileAt(st, uid).None? ==> s.store == st - ConfessionKeys(st, uid)
  {
    var keys := ConfessionKeys(st, uid);
    var total := LedgerOf(st, uid);
    OtherKeysOutsidePrefix(uid, uid, "", None);
    var st1 :=
      if total != 0 && ProfileAt(st, uid).Some? then
        st[ProfileKey(uid) := ProfileRec(AddKarma(ProfileAt(st, uid).value, -total))]
      else st;
    Step(st1 - keys, Ok(|keys|))
  }

  /** The loop that adds up `karmaChange` over the scanned records that are
      completed with a nonzero delta. */
  method SumCompleted(st: Store, keys: set<string>) returns (total: int)
    requires keys <= st.Keys
    ensures total == SumOver(keys, CreditOf(st))
  {
    var remaining := keys;
    ghost var done: set<string> := {};
    total := 0;
    while remaining != {}
      invariant remaining + done == keys && remaining !! done
      invariant total == SumOver(done, CreditOf(st))
      decreases remaining
    {
      var k :| k in remaining;
      if st[k].ConfessionRec? && Reverts(st[k].confession) {
        total := total + st[k].confession.karmaChange;
      }
      assert CreditOf(st)(k) == Credit(st[k]);
      SumOverInsert(done, CreditOf(st), k);
      remaining := remaining - {k};
      done := done + {k};
    }
  }

  /** The bulk delete as the handler computes it: one pass over the scanned
      records accumulating the karma to revert, then one profile write and one
      multi-key delete. */
  method BulkDeleteConfessions(st: Store, uid: string) returns (st': Store, deletedCount: int)
    ensures Step(st', Ok(deletedCount)) == BulkDelete(st, uid)
  {
    var keys := ConfessionKeys(st, uid);
    var total := SumCompleted(st, keys);
    st' := st;
    if total != 0 {
      var p := ProfileAt(st, uid);
      if p.Some? {
        st' := st[ProfileKey(uid) := ProfileRec(AddKarma(p.value, -total))];
      }
    }
    st' := st' - keys;
    deletedCount := |keys|;
  }
}
