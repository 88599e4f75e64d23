/** The karma a user's stored confessions account for: the sum of `karmaChange`
    over the completed confessions under the user's prefix. The profile's
    `karma` field is meant to be this sum, maintained incrementally. */
module Ledger {
  import opened Text
  import opened Kv
  import opened Sums

  /** What one stored record contributes: its delta once completed, else nothing. */
  function Credit(r: Record): int {
    if r.ConfessionRec? && r.confession.completed then r.confession.karmaChange else 0
  }

  function CreditOf(st: Store): string -> int {
    k => if k in st then Credit(st[k]) else 0
  }

  ghost function LedgerOf(st: Store, uid: string): int {
    SumOver(ConfessionKeys(st, uid), CreditOf(st))
  }

  /** The profile of `uid` exists and its karma equals the ledger. */
  ghost predicate KarmaTracksLedger(st: Store, uid: string) {
    && ProfileKey(uid) in st
    && st[ProfileKey(uid)].ProfileRec?
    && st[ProfileKey(uid)].profile.KarmaValue() == LedgerOf(st, uid)
  }

  /** A change that leaves the prefix keys and their records alone leaves the ledger alone. */
  lemma LedgerFrame(st: Store, st': Store, uid: string)
    requires ConfessionKeys(st', uid) == ConfessionKeys(st, uid)
    requires forall k :: k in ConfessionKeys(st, uid) ==> st'[k] == st[k]
    ensures LedgerOf(st', uid) == LedgerOf(st, uid)
  {
    SumOverAgree(ConfessionKeys(st, uid), CreditOf(st), CreditOf(st'));
  }

  /** Writing a key outside the prefix leaves the ledger alone. */
  lemma LedgerWriteOutside(st: Store, uid: string, k: string, r: Record)
    requires !HasPrefix(k, ConfessionPrefix(uid))
    ensures LedgerOf(st[k := r], uid) == LedgerOf(st, uid)
  {
    LedgerFrame(st, st[k := r], uid);
  }

  /** Replacing a record under the prefix swaps its credit for the new one's. */
  lemma LedgerReplace(st: Store, uid: string, k: string, r: Record)
    requires k in ConfessionKeys(st, uid)
    ensures LedgerOf(st[k := r], uid) == LedgerOf(st, uid) - Credit(st[k]) + Credit(r)
  {
    var st' := st[k := r];
    var ks := ConfessionKeys(st, uid);
    assert ConfessionKeys(st', uid) == ks;
    SumOverRemove(ks, CreditOf(st), k);
    SumOverRemove(ks, CreditOf(st'), k);
    SumOverAgree(ks - {k}, CreditOf(st), CreditOf(st'));
  }

  /** Adding a fresh key under the prefix adds the new record's credit. */
  lemma LedgerInsert(st: Store, uid: string, k: string, r: Record)
    requires k !in st && HasPrefix(k, ConfessionPrefix(uid))
    ensures LedgerOf(st[k := r], uid) == LedgerOf(st, uid) + Credit(r)
  {
    var st' := st[k := r];
    var ks := ConfessionKeys(st, uid);
    assert ConfessionKeys(st', uid) == ks + {k};
    SumOverInsert(ks, CreditOf(st'), k);
    SumOverAgree(ks, CreditOf(st), CreditOf(st'));
  }

  /** Removing a key under the prefix takes its credit out. */
  lemma LedgerRemove(st: Store, uid: string, k: string)
    requires k in ConfessionKeys(st, uid)
    ensures LedgerOf(st - {k}, uid) == LedgerOf(st, uid) - Credit(st[k])
  {
    var st' := st - {k};
    var ks := ConfessionKeys(st, uid);
    assert ConfessionKeys(st', uid) == ks - {k};
    SumOverRemove(ks, CreditOf(st), k);
    SumOverAgree(ks - {k}, CreditOf(st), CreditOf(st'));
  }

  /** With no keys under the prefix the ledger is zero. */
  lemma LedgerEmpty(st: Store, uid: string)
    requires ConfessionKeys(st, uid) == {}
    ensures LedgerOf(st, uid) == 0
  {
  }
}
