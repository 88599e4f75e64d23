/** The profile's karma as a materialised sum: under which conditions every
    store-writing handler keeps `karma` equal to the sum of `karmaChange` over
    the user's completed, undeleted confessions, and how completing the same
    confession twice breaks it. */
module Invariant {
  import opened Wrappers
  import opened Text
  import opened Kv
  import opened Ledger
  import opened Handlers
  import opened Scans

  /** The requests that write the store, with the handler's parameters. */
  datatype Request =
    | PutProfileReq(uid: string, body: ProfileBody)
    | SaveDraftReq(draftOwner: Option<string>, messages: Option<seq<Message>>, now: int)
    | DeleteDraftReq(draftOwner: Option<string>)
    | CreateReq(author: Option<string>, messages: Option<seq<Message>>, karmaChange: Option<int>,
                summary: Option<string>, now: int, stamp: string)
    | CompleteReq(id: string, delta: int, now: int)
    | DeleteReq(id: string)
    | BulkDeleteReq(uid: string)
    | SubmitFeedbackReq(reporter: Option<string>, userName: Option<string>, message: Option<string>,
                        now: int, stamp: string)
    | UpdateFeedbackReq(id: string, status: Option<string>, now: int)
    | DeleteFeedbackReq(id: string)
    | DonateReq(donor: Option<string>, amount: Option<int>, now: int, stamp: string)

  /** The store after one request. */
  ghost function Apply(st: Store, req: Request): Store {
    match req
    case PutProfileReq(u, body) => PutProfile(st, u, body).store
    case SaveDraftReq(u, ms, now) => SaveDraft(st, u, ms, now).store
    case DeleteDraftReq(u) => DeleteDraft(st, u).store
    case CreateReq(u, ms, kc, sm, now, stamp) => CreateConfession(st, u, ms, kc, sm, now, stamp).store
    case CompleteReq(id, delta, now) => CompleteConfession(st, id, delta, now).store
    case DeleteReq(id) => DeleteConfession(st, id).store
    case BulkDeleteReq(u) => BulkDelete(st, u).store
    case SubmitFeedbackReq(u, name, msg, now, stamp) => SubmitFeedback(st, u, name, msg, now, stamp).store
    case UpdateFeedbackReq(id, status, now) => UpdateFeedbackStatus(st, id, status, now).store
    case DeleteFeedbackReq(id) => DeleteFeedback(st, id).store
    case DonateReq(u, amount, now, stamp) => RecordDonation(st, u, amount, now, stamp).store
  }

  /** The conditions the code relies on but does not check: no profile update
      carries `karma`, no confession is completed twice, new confession keys do
      not collide, user ids contain no ':', the confession delete is never
      pointed at a profile, and the feedback delete is never pointed at a
      profile or a confession (neither delete checks what kind of record it
      removes). */
  ghost predicate Admissible(st: Store, req: Request) {
    match req
    case PutProfileReq(_, body) => body.karma.None?
    case CreateReq(u, ms, _, _, _, stamp) =>
      Present(u) && ms.Some? ==> NoColon(u.value) && ConfessionKey(u.value, stamp) !in st
    case CompleteReq(id, _, _) => ConfessionAt(st, id).Some? ==> !ConfessionAt(st, id).value.completed
    case DeleteReq(id) => !(id in st && st[id].ProfileRec?)
    case BulkDeleteReq(u) => NoColon(u)
    case DeleteFeedbackReq(id) => !(id in st && (st[id].ProfileRec? || st[id].ConfessionRec?))
    case _ => true
  }

  /** Removing a record that is neither a profile nor a confession leaves
      every user's karma tracking the ledger. */
  lemma RemoveInertKeeps(st: Store, id: string, uid: string)
    requires WellKeyed(st) && KarmaTracksLedger(st, uid)
    requires id in st && !st[id].ProfileRec? && !st[id].ConfessionRec?
    ensures WellKeyed(st - {id}) && KarmaTracksLedger(st - {id}, uid)
  {
    if HasPrefix(id, ConfessionPrefix(uid)) {
      LedgerRemove(st, uid, id);
    } else {
      LedgerRemoveOutside(st, uid, id);
    }
  }

  /** Removing a key outside the prefix leaves the ledger alone. */
  lemma LedgerRemoveOutside(st: Store, uid: string, k: string)
    requires !HasPrefix(k, ConfessionPrefix(uid))
    ensures LedgerOf(st - {k}, uid) == LedgerOf(st, uid)
  {
    LedgerFrame(st, st - {k}, uid);
  }

  /** A confession key of one colon-free user is outside another's prefix. */
  lemma OwnerPrefixOnly(st: Store, k: string, uid: string)
    requires WellKeyed(st) && NoColon(uid) && k in st && st[k].ConfessionRec?
    ensures HasPrefix(k, ConfessionPrefix(uid)) <==> st[k].confession.userId == uid
  {
    if HasPrefix(k, ConfessionPrefix(uid)) {
      PrefixOwnerUnique(k, uid, st[k].confession.userId);
    }
  }

  lemma PutProfileKeeps(st: Store, u: string, body: ProfileBody, uid: string)
    requires WellKeyed(st) && KarmaTracksLedger(st, uid) && body.karma.None?
    ensures WellKeyed(PutProfile(st, u, body).store)
    ensures KarmaTracksLedger(PutProfile(st, u, body).store, uid)
  {
    OtherKeysOutsidePrefix(uid, u, "", None);
    LedgerWriteOutside(st, uid, ProfileKey(u), ProfileRec(PutProfile(st, u, body).response.value));
    if u != uid { KeysInjective(u, uid); }
  }

  lemma SaveDraftKeeps(st: Store, u: Option<string>, ms: Option<seq<Message>>, now: int, uid: string)
    requires WellKeyed(st) && KarmaTracksLedger(st, uid)
    ensures WellKeyed(SaveDraft(st, u, ms, now).store)
    ensures KarmaTracksLedger(SaveDraft(st, u, ms, now).store, uid)
  {
    if Present(u) && ms.Some? {
      OtherKeysOutsidePrefix(uid, u.value, "", None);
      ProfileKeyDistinct(uid, u.value, "", None);
      LedgerWriteOutside(st, uid, DraftKey(u.value), DraftRec(Draft(u.value, ms.value, now, now)));
    }
  }

  lemma DeleteDraftKeeps(st: Store, u: Option<string>, uid: string)
    requires WellKeyed(st) && KarmaTracksLedger(st, uid)
    ensures WellKeyed(DeleteDraft(st, u).store)
    ensures KarmaTracksLedger(DeleteDraft(st, u).store, uid)
  {
    if Present(u) {
      OtherKeysOutsidePrefix(uid, u.value, "", None);
      ProfileKeyDistinct(uid, u.value, "", None);
      LedgerRemoveOutside(st, uid, DraftKey(u.value));
    }
  }

  lemma CreateKeeps(st: Store, u: Option<string>, ms: Option<seq<Message>>, kc: Option<int>,
                    sm: Option<string>, now: int, stamp: string, uid: string)
    requires WellKeyed(st) && NoColon(uid) && KarmaTracksLedger(st, uid)
    requires Admissible(st, CreateReq(u, ms, kc, sm, now, stamp))
    ensures WellKeyed(CreateConfession(st, u, ms, kc, sm, now, stamp).store)
    ensures KarmaTracksLedger(CreateConfession(st, u, ms, kc, sm, now, stamp).store, uid)
  {
    if Present(u) && ms.Some? {
      var k := ConfessionKey(u.value, stamp);
      var r := ConfessionRec(CreateConfession(st, u, ms, kc, sm, now, stamp).response.value);
      assert HasPrefix(k, ConfessionPrefix(u.value));
      if u.value == uid {
        LedgerInsert(st, uid, k, r);
      } else {
        if HasPrefix(k, ConfessionPrefix(uid)) { PrefixOwnerUnique(k, uid, u.value); }
        LedgerWriteOutside(st, uid, k, r);
      }
      OtherKeysOutsidePrefix(u.value, uid, "", None);
    }
  }

  lemma CompleteKeeps(st: Store, id: string, delta: int, now: int, uid: string)
    requires WellKeyed(st) && NoColon(uid) && KarmaTracksLedger(st, uid)
    requires ConfessionAt(st, id).Some? ==> !ConfessionAt(st, id).value.completed
    ensures WellKeyed(CompleteConfession(st, id, delta, now).store)
    ensures KarmaTracksLedger(CompleteConfession(st, id, delta, now).store, uid)
  {
    if ConfessionAt(st, id).Some? {
      var c := ConfessionAt(st, id).value;
      var s := CompleteConfession(st, id, delta, now);
      var st1 := st[id := s.store[id]];
      OwnerPrefixOnly(st, id, uid);
      if c.userId == uid {
        LedgerReplace(st, uid, id, s.store[id]);
      } else {
        LedgerWriteOutside(st, uid, id, s.store[id]);
        KeysInjective(c.userId, uid);
      }
      OtherKeysOutsidePrefix(uid, c.userId, "", None);
      if ProfileAt(st, c.userId).Some? {
        LedgerWriteOutside(st1, uid, ProfileKey(c.userId), s.store[ProfileKey(c.userId)]);
      }
    }
  }

  lemma DeleteKeeps(st: Store, id: string, uid: string)
    requires WellKeyed(st) && NoColon(uid) && KarmaTracksLedger(st, uid)
    requires !(id in st && st[id].ProfileRec?)
    ensures WellKeyed(DeleteConfession(st, id).store)
    ensures KarmaTracksLedger(DeleteConfession(st, id).store, uid)
  {
    if id in st && ConfessionAt(st, id).None? {
      RemoveInertKeeps(st, id, uid);
    } else if ConfessionAt(st, id).Some? {
      var c := ConfessionAt(st, id).value;
      OwnerPrefixOnly(st, id, uid);
      OtherKeysOutsidePrefix(uid, c.userId, "", None);
      var st1 :=
        if Reverts(c) && ProfileAt(st, c.userId).Some? then
          st[ProfileKey(c.userId) := ProfileRec(AddKarma(ProfileAt(st, c.userId).value, -c.karmaChange))]
        else st;
      assert DeleteConfession(st, id).store == st1 - {id};
      LedgerFrame(st, st1, uid);
      if c.userId == uid {
        LedgerRemove(st1, uid, id);
      } else {
        KeysInjective(c.userId, uid);
        LedgerRemoveOutside(st1, uid, id);
      }
    }
  }

  /** Bulk-deleting another colon-free user's confessions touches nothing of `uid`'s. */
  lemma BulkDeleteOtherUser(st: Store, u: string, uid: string)
    requires NoColon(uid) && NoColon(u) && u != uid && KarmaTracksLedger(st, uid)
    ensures KarmaTracksLedger(BulkDelete(st, u).store, uid)
  {
    var st' := BulkDelete(st, u).store;
    OtherKeysOutsidePrefix(u, uid, "", None);
    OtherKeysOutsidePrefix(uid, u, "", None);
    KeysInjective(u, uid);
    assert ProfileKey(uid) in st' && st'[ProfileKey(uid)] == st[ProfileKey(uid)];
    forall k | k in ConfessionKeys(st, uid)
      ensures k in st' && st'[k] == st[k]
    {
      if k in ConfessionKeys(st, u) { PrefixOwnerUnique(k, uid, u); }
    }
    forall k | k in ConfessionKeys(st', uid)
      ensures k in ConfessionKeys(st, uid)
    {
    }
    LedgerFrame(st, st', uid);
  }

  lemma BulkDeleteKeeps(st: Store, u: string, uid: string)
    requires WellKeyed(st) && NoColon(uid) && NoColon(u) && KarmaTracksLedger(st, uid)
    ensures WellKeyed(BulkDelete(st, u).store)
    ensures KarmaTracksLedger(BulkDelete(st, u).store, uid)
  {
    if u == uid {
      LedgerEmpty(BulkDelete(st, u).store, uid);
    } else {
      BulkDeleteOtherUser(st, u, uid);
    }
  }

  lemma FeedbackKeeps(st: Store, req: Request, uid: string)
    requires req.SubmitFeedbackReq? || req.UpdateFeedbackReq? || req.DeleteFeedbackReq?
    requires WellKeyed(st) && KarmaTracksLedger(st, uid) && Admissible(st, req)
    ensures WellKeyed(Apply(st, req))
    ensures KarmaTracksLedger(Apply(st, req), uid)
  {
    match req
    case SubmitFeedbackReq(u, name, msg, now, stamp) =>
      if Present(msg) {
        var owner := if Present(u) then u else None;
        OtherKeysOutsidePrefix(uid, "", stamp, owner);
        ProfileKeyDistinct(uid, "", stamp, owner);
        LedgerWriteOutside(st, uid, FeedbackKey(stamp, owner), SubmitFeedback(st, u, name, msg, now, stamp).store[FeedbackKey(stamp, owner)]);
      }
    case UpdateFeedbackReq(id, status, now) =>
      var s := UpdateFeedbackStatus(st, id, status, now);
      if s.response.Ok? {
        if HasPrefix(id, ConfessionPrefix(uid)) {
          LedgerReplace(st, uid, id, s.store[id]);
        } else {
          LedgerWriteOutside(st, uid, id, s.store[id]);
        }
      }
    case DeleteFeedbackReq(id) =>
      if id in st {
        RemoveInertKeeps(st, id, uid);
      }
  }

  /** Why the confession delete must not name a profile: the user's profile,
      and with it the karma that tracks the ledger, is gone. */
  lemma DeleteOfProfileBreaksLedger(st: Store, uid: string)
    requires KarmaTracksLedger(st, uid)
    ensures !KarmaTracksLedger(DeleteConfession(st, ProfileKey(uid)).store, uid)
  {
  }

  /** Why the feedback delete must not name a confession: removing a completed
      confession with a nonzero delta there takes its delta out of the ledger
      while the owner's karma keeps it. */
  lemma FeedbackDeleteOfConfessionBreaksLedger(st: Store, id: string, uid: string)
    requires WellKeyed(st) && NoColon(uid) && KarmaTracksLedger(st, uid)
    requires ConfessionAt(st, id).Some? && ConfessionAt(st, id).value.userId == uid
    requires Reverts(ConfessionAt(st, id).value)
    ensures !KarmaTracksLedger(DeleteFeedback(st, id).store, uid)
  {
    OwnerPrefixOnly(st, id, uid);
    LedgerRemove(st, uid, id);
  }

  lemma DonateKeeps(st: Store, u: Option<string>, amount: Option<int>, now: int, stamp: string, uid: string)
    requires WellKeyed(st) && KarmaTracksLedger(st, uid)
    ensures WellKeyed(RecordDonation(st, u, amount, now, stamp).store)
    ensures KarmaTracksLedger(RecordDonation(st, u, amount, now, stamp).store, uid)
  {
    var s := RecordDonation(st, u, amount, now, stamp);
    if s.response.Ok? {
      var d := u.value;
      var st1 := st[DonationKey(d, stamp) := DonationRec(s.response.value)];
      OtherKeysOutsidePrefix(uid, d, stamp, None);
      ProfileKeyDistinct(uid, d, stamp, None);
      LedgerWriteOutside(st, uid, DonationKey(d, stamp), DonationRec(s.response.value));
      LedgerWriteOutside(st1, uid, ProfileKey(d), s.store[ProfileKey(d)]);
      if d != uid { KeysInjective(d, uid); }
    }
  }

  /** One admissible request keeps the store well keyed and keeps the karma of
      every colon-free user whose profile exists equal to that user's ledger. */
  lemma StepKeepsLedger(st: Store, req: Request, uid: string)
    requires WellKeyed(st) && NoColon(uid) && KarmaTracksLedger(st, uid) && Admissible(st, req)
    ensures WellKeyed(Apply(st, req)) && KarmaTracksLedger(Apply(st, req), uid)
  {
    match req
    case PutProfileReq(u, body) => PutProfileKeeps(st, u, body, uid);
    case SaveDraftReq(u, ms, now) => SaveDraftKeeps(st, u, ms, now, uid);
    case DeleteDraftReq(u) => DeleteDraftKeeps(st, u, uid);
    case CreateReq(u, ms, kc, sm, now, stamp) => CreateKeeps(st, u, ms, kc, sm, now, stamp, uid);
    case CompleteReq(id, delta, now) => CompleteKeeps(st, id, delta, now, uid);
    case DeleteReq(id) => DeleteKeeps(st, id, uid);
    case BulkDeleteReq(u) => BulkDeleteKeeps(st, u, uid);
    case SubmitFeedbackReq(_, _, _, _, _) => FeedbackKeeps(st, req, uid);
    case UpdateFeedbackReq(_, _, _) => FeedbackKeeps(st, req, uid);
    case DeleteFeedbackReq(_) => FeedbackKeeps(st, req, uid);
    case DonateReq(u, amount, now, stamp) => DonateKeeps(st, u, amount, now, stamp, uid);
  }

  /** The store after a sequence of requests. */
  ghost function Run(st: Store, reqs: seq<Request>): Store
    decreases |reqs|
  {
    if reqs == [] then st else Run(Apply(st, reqs[0]), reqs[1..])
  }

  /** Every request of the sequence is admissible in the store it meets. */
  ghost predicate AdmissibleRun(st: Store, reqs: seq<Request>)
    decreases |reqs|
  {
    reqs == [] || (Admissible(st, reqs[0]) && AdmissibleRun(Apply(st, reqs[0]), reqs[1..]))
  }

  /** The karma invariant over any admissible history: once a colon-free user's
      profile holds the ledger's value, it keeps holding it. */
  lemma {:induction false} RunKeepsLedger(st: Store, reqs: seq<Request>, uid: string)
    requires WellKeyed(st) && NoColon(uid) && KarmaTracksLedger(st, uid) && AdmissibleRun(st, reqs)
    ensures WellKeyed(Run(st, reqs)) && KarmaTracksLedger(Run(st, reqs), uid)
    decreases |reqs|
  {
    if reqs != [] {
      StepKeepsLedger(st, reqs[0], uid);
      RunKeepsLedger(Apply(st, reqs[0]), reqs[1..], uid);
    }
  }

  /** Completing the same confession a second time adds its delta again while
      the ledger counts it once: the invariant survives only a zero delta. */
  lemma DoubleCompletionCountsTwice(st: Store, id: string, delta: int, t1: int, t2: int, uid: string)
    requires WellKeyed(st) && NoColon(uid) && KarmaTracksLedger(st, uid)
    requires ConfessionAt(st, id).Some? && ConfessionAt(st, id).value.userId == uid
    requires !ConfessionAt(st, id).value.completed
    ensures var st1 := CompleteConfession(st, id, delta, t1).store;
      var st2 := CompleteConfession(st1, id, delta, t2).store;
      && KarmaTracksLedger(st1, uid)
      && ProfileAt(st2, uid).Some?
      && ProfileAt(st2, uid).value.KarmaValue() == LedgerOf(st2, uid) + delta
      && (KarmaTracksLedger(st2, uid) <==> delta == 0)
  {
    var st1 := CompleteConfession(st, id, delta, t1).store;
    CompleteKeeps(st, id, delta, t1, uid);
    // After the first completion the record is completed with the delta.
    var c1 := ConfessionAt(st1, id).value;
    assert c1.userId == uid && c1.completed && c1.karmaChange == delta;
    var p1 := ProfileAt(st1, uid).value;
    assert p1.KarmaValue() == LedgerOf(st1, uid);
    // The second completion rewrites the record with the same credit ...
    var s2 := CompleteConfession(st1, id, delta, t2);
    var st2 := s2.store;
    var r2 := st2[id];
    assert Credit(r2) == delta == Credit(st1[id]);
    OwnerPrefixOnly(st1, id, uid);
    assert id in ConfessionKeys(st1, uid);
    var st1' := st1[id := r2];
    LedgerReplace(st1, uid, id, r2);
    assert LedgerOf(st1', uid) == LedgerOf(st1, uid);
    // ... and still adds the delta to the profile, outside the prefix.
    var pk := ProfileKey(uid);
    assert st2 == st1'[pk := ProfileRec(AddKarma(p1, delta))];
    OtherKeysOutsidePrefix(uid, uid, "", None);
    LedgerWriteOutside(st1', uid, pk, ProfileRec(AddKarma(p1, delta)));
    assert LedgerOf(st2, uid) == LedgerOf(st1, uid);
  }

  /** Completing a confession and then deleting it gives the owner back the
      karma it had before the completion, whatever the delta. */
  lemma CompleteThenDeleteRestoresKarma(st: Store, id: string, delta: int, now: int)
    requires ConfessionAt(st, id).Some?
    requires ProfileAt(st, ConfessionAt(st, id).value.userId).Some?
    ensures var owner := ConfessionAt(st, id).value.userId;
      var st2 := DeleteConfession(CompleteConfession(st, id, delta, now).store, id).store;
      && id !in st2
      && ProfileAt(st2, owner).Some?
      && ProfileAt(st2, owner).value.KarmaValue() == ProfileAt(st, owner).value.KarmaValue()
  {
  }

  /** Completing two different confessions of one user leaves the same karma in
      either order. */
  lemma CompletionsCommute(st: Store, a: string, b: string, da: int, db: int, now: int)
    requires a != b && ConfessionAt(st, a).Some? && ConfessionAt(st, b).Some?
    requires ConfessionAt(st, a).value.userId == ConfessionAt(st, b).value.userId
    requires ProfileAt(st, ConfessionAt(st, a).value.userId).Some?
    requires ProfileKey(ConfessionAt(st, a).value.userId) != a && ProfileKey(ConfessionAt(st, a).value.userId) != b
    ensures var owner := ConfessionAt(st, a).value.userId;
      var ab := CompleteConfession(CompleteConfession(st, a, da, now).store, b, db, now).store;
      var ba := CompleteConfession(CompleteConfession(st, b, db, now).store, a, da, now).store;
      && ProfileAt(ab, owner).Some? && ProfileAt(ba, owner).Some?
      && ProfileAt(ab, owner).value.KarmaValue() == ProfileAt(st, owner).value.KarmaValue() + da + db
      && ProfileAt(ba, owner).value.KarmaValue() == ProfileAt(ab, owner).value.KarmaValue()
  {
  }

  /** Completing A (+5) and B (-3) from zero karma and then deleting A leaves -3. */
  lemma ScenarioCompleteCompleteDelete(st: Store, a: string, b: string, now: int)
    requires a != b && ConfessionAt(st, a).Some? && ConfessionAt(st, b).Some?
    requires ConfessionAt(st, a).value.userId == ConfessionAt(st, b).value.userId
    requires ProfileAt(st, ConfessionAt(st, a).value.userId).Some?
    requires ProfileAt(st, ConfessionAt(st, a).value.userId).value.KarmaValue() == 0
    requires ProfileKey(ConfessionAt(st, a).value.userId) != a && ProfileKey(ConfessionAt(st, a).value.userId) != b
    ensures var owner := ConfessionAt(st, a).value.userId;
      var st1 := CompleteConfession(st, a, 5, now).store;
      var st2 := CompleteConfession(st1, b, -3, now).store;
      var st3 := DeleteConfession(st2, a).store;
      && ProfileAt(st1, owner).value.KarmaValue() == 5
      && ProfileAt(st2, owner).value.KarmaValue() == 2
      && ProfileAt(st3, owner).Some? && ProfileAt(st3, owner).value.KarmaValue() == -3
  {
  }

  /** A profile update that does carry `karma` keeps the invariant only when it
      writes back exactly the ledger's value; the profile screen's save sends
      the karma it loaded, so a stale copy overwrites karma earned since. */
  lemma PutWithKarmaOverwrites(st: Store, uid: string, body: ProfileBody)
    requires KarmaTracksLedger(st, uid) && body.karma.Some?
    ensures KarmaTracksLedger(PutProfile(st, uid, body).store, uid) <==> body.karma.value == LedgerOf(st, uid)
  {
    OtherKeysOutsidePrefix(uid, uid, "", None);
    LedgerWriteOutside(st, uid, ProfileKey(uid), ProfileRec(PutProfile(st, uid, body).response.value));
  }

  /** Donations add up on the profile, and a later profile update drops the total. */
  lemma DonationsAccumulateUntilPut(st: Store, uid: string, a1: int, a2: int, t1: int, t2: int,
                                    s1: string, s2: string, body: ProfileBody)
    requires uid != "" && a1 != 0 && a2 != 0
    ensures var st1 := RecordDonation(st, Some(uid), Some(a1), t1, s1).store;
      var st2 := RecordDonation(st1, Some(uid), Some(a2), t2, s2).store;
      var before := if ProfileAt(st, uid).Some? then ProfileAt(st, uid).value.totalDonations.GetOr(0) else 0;
      && ProfileAt(st2, uid).Some?
      && ProfileAt(st2, uid).value.totalDonations == Some(before + a1 + a2)
      && ProfileAt(PutProfile(st2, uid, body).store, uid).value.totalDonations.None?
  {
  }

  /** Three draft saves for one user leave one draft slot holding the last messages. */
  lemma DraftLastWriteWins(st: Store, uid: string, m1: seq<Message>, m2: seq<Message>, m3: seq<Message>,
                           t1: int, t2: int, t3: int)
    requires uid != ""
    ensures var st3 := SaveDraft(SaveDraft(SaveDraft(st, Some(uid), Some(m1), t1).store,
                                           Some(uid), Some(m2), t2).store, Some(uid), Some(m3), t3).store;
      && GetDraft(st3, Some(uid)) == Ok(Some(Draft(uid, m3, t3, t3)))
      && st3.Keys == st.Keys + {DraftKey(uid)}
  {
  }
}
