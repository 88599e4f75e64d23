/** How the handlers of supabase/functions/server/index.tsx answer one
    another: what a read returns after a write, and how completions feed the
    daily limit. */
module Requests {
  import opened Wrappers
  import opened Text
  import opened Kv
  import opened Handlers

  // ---------------------------------------------------------------- profile

  /** `GET profile/:userId` after `PUT profile/:userId` returns the profile the
      PUT answered with: the body's fields, the stored karma and subscription
      flag when the body left them out, and no donation total. */
  lemma GetAfterPutProfile(st: Store, uid: string, body: ProfileBody)
    ensures var put := PutProfile(st, uid, body);
      GetProfile(put.store, uid) == Ok(put.response.value)
    ensures var got := GetProfile(PutProfile(st, uid, body).store, uid).value;
      && (body.karma.None? && ProfileAt(st, uid).Some? ==>
            got.KarmaValue() == ProfileAt(st, uid).value.KarmaValue())
      && (body.hasSubscription.None? && ProfileAt(st, uid).Some? ==>
            got.Subscribed() == ProfileAt(st, uid).value.Subscribed())
      && (Present(body.firstName) ==> got.firstName == body.firstName)
      && got.totalDonations.None?
  {
  }

  // ------------------------------------------------------------------ drafts

  /** `GET confessions/active` after `POST confessions/active` returns the
      saved draft, stamped with the save's time. */
  lemma GetDraftAfterSave(st: Store, uid: string, ms: seq<Message>, now: int)
    requires uid != ""
    ensures GetDraft(SaveDraft(st, Some(uid), Some(ms), now).store, Some(uid)) == Ok(Some(Draft(uid, ms, now, now)))
  {
  }

  /** A second draft save makes the first one as if it never happened, so
      any run of saves leaves the store the last save alone would. */
  lemma SaveDraftOverwrites(st: Store, uid: string, m1: seq<Message>, m2: seq<Message>, t1: int, t2: int)
    requires uid != ""
    ensures SaveDraft(SaveDraft(st, Some(uid), Some(m1), t1).store, Some(uid), Some(m2), t2).store
         == SaveDraft(st, Some(uid), Some(m2), t2).store
  {
  }

  // ------------------------------------------------------------ confessions

  /** `GET confession/:id` on the key `POST confessions` just wrote returns the
      new confession: the author's, with the posted messages, not completed. */
  lemma GetAfterCreate(st: Store, u: Option<string>, ms: Option<seq<Message>>, kc: Option<int>,
                       sm: Option<string>, now: int, stamp: string)
    requires Present(u) && ms.Some?
    ensures var s := CreateConfession(st, u, ms, kc, sm, now, stamp);
      var got := GetConfession(s.store, ConfessionKey(u.value, stamp));
      && got == Ok(s.response.value)
      && got.value.userId == u.value && got.value.messages == ms.value
      && !got.value.completed && got.value.completedAt.None?
  {
  }

  /** After `DELETE confessions/:id` that id is 404, and every other
      confession reads as before. */
  lemma GetAfterDelete(st: Store, id: string, other: string)
    requires other != id
    ensures GetConfession(DeleteConfession(st, id).store, id) == NotFound
    ensures GetConfession(DeleteConfession(st, id).store, other) == GetConfession(st, other)
  {
  }

  // ------------------------------------------------------------ daily limit

  /** Completing one of the user's confessions that was not completed today
      adds exactly that confession to today's completions. */
  lemma CompletionJoinsToday(st: Store, uid: string, id: string, delta: int, now: int, tzOffsetMs: int)
    requires id in ConfessionKeys(st, uid) && ConfessionAt(st, id).Some?
    requires ConfessionAt(st, id).value.userId == uid
    requires id !in CompletedToday(st, uid, now, tzOffsetMs)
    ensures var st' := CompleteConfession(st, id, delta, now).store;
      && CompletedToday(st', uid, now, tzOffsetMs) == CompletedToday(st, uid, now, tzOffsetMs) + {id}
      && ProfileAt(st', uid).Some? == ProfileAt(st, uid).Some?
      && (ProfileAt(st, uid).Some? ==> ProfileAt(st', uid).value.Subscribed() == ProfileAt(st, uid).value.Subscribed())
  {
    var st' := CompleteConfession(st, id, delta, now).store;
    OtherKeysOutsidePrefix(uid, uid, "", None);
    SameDayWindow(now, now, tzOffsetMs);
    assert ConfessionKeys(st', uid) == ConfessionKeys(st, uid);
  }

  /** For a user without a subscription, a completion today raises the
      `confessionsToday` that `check-limit` reports by one. */
  lemma CompletionRaisesCount(st: Store, uid: string, id: string, delta: int, now: int, tzOffsetMs: int)
    requires id in ConfessionKeys(st, uid) && ConfessionAt(st, id).Some?
    requires ConfessionAt(st, id).value.userId == uid
    requires id !in CompletedToday(st, uid, now, tzOffsetMs)
    requires uid != "" && !(ProfileAt(st, uid).Some? && ProfileAt(st, uid).value.Subscribed())
    ensures var after := CheckLimit(CompleteConfession(st, id, delta, now).store, Some(uid), now, tzOffsetMs);
      var before := CheckLimit(st, Some(uid), now, tzOffsetMs);
      after.Ok? && before.Ok? && after.value.confessionsToday == before.value.confessionsToday + 1
  {
    var st' := CompleteConfession(st, id, delta, now).store;
    CompletionJoinsToday(st, uid, id, delta, now, tzOffsetMs);
    assert |CompletedToday(st', uid, now, tzOffsetMs)| == |CompletedToday(st, uid, now, tzOffsetMs)| + 1;
  }

  /** Two completions on the same day use up a free user's daily allowance:
      `check-limit` then answers that the user cannot confess. */
  lemma TwoCompletionsReachLimit(st: Store, uid: string, a: string, b: string,
                                 da: int, db: int, now: int, tzOffsetMs: int)
    requires a != b
    requires a in ConfessionKeys(st, uid) && ConfessionAt(st, a).Some? && ConfessionAt(st, a).value.userId == uid
    requires b in ConfessionKeys(st, uid) && ConfessionAt(st, b).Some? && ConfessionAt(st, b).value.userId == uid
    requires a !in CompletedToday(st, uid, now, tzOffsetMs) && b !in CompletedToday(st, uid, now, tzOffsetMs)
    requires uid != "" && !(ProfileAt(st, uid).Some? && ProfileAt(st, uid).value.Subscribed())
    ensures var st2 := CompleteConfession(CompleteConfession(st, a, da, now).store, b, db, now).store;
      var r := CheckLimit(st2, Some(uid), now, tzOffsetMs);
      r.Ok? && !r.value.canConfess && r.value.confessionsToday >= FreeDailyLimit
  {
    var st1 := CompleteConfession(st, a, da, now).store;
    CompletionRaisesCount(st, uid, a, da, now, tzOffsetMs);
    CompletionJoinsToday(st, uid, a, da, now, tzOffsetMs);
    OtherKeysOutsidePrefix(uid, uid, "", None);
    assert st1[b] == st[b];
    CompletionRaisesCount(st1, uid, b, db, now, tzOffsetMs);
  }
}
