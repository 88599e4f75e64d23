/** The server's persisted state: one flat key-value namespace mapping string
    keys to JSON records (supabase/functions/server/index.tsx), with the key
    layout the handlers use and the facts about it that keep one user's
    records apart from another's. */
module Kv {
  import opened Wrappers
  import opened Text

  datatype Role = User | Assistant

  /** One chat message `{role, content}`. */
  datatype Message = Message(role: Role, content: string)

  /** `profile:<uid>`. Every field may be absent: a donation to a user with no
      profile stores an object holding only `totalDonations`. */
  datatype Profile = Profile(
    firstName: Option<string>,
    lastName: Option<string>,
    city: Option<string>,
    language: Option<string>,
    karma: Option<int>,
    hasSubscription: Option<bool>,
    totalDonations: Option<int>)
  {
    /** `profile.karma || 0` */
    function KarmaValue(): int { karma.GetOr(0) }

    /** `profile.hasSubscription || false` */
    function Subscribed(): bool { hasSubscription.GetOr(false) }
  }

  /** `confession:<uid>:<ts>`. Timestamps are milliseconds since the epoch. */
  datatype Confession = Confession(
    id: string,
    userId: string,
    messages: seq<Message>,
    karmaChange: int,
    summary: string,
    completed: bool,
    createdAt: int,
    completedAt: Option<int>)

  /** `confession_active_<uid>`: the auto-saved, not yet scored conversation. */
  datatype Draft = Draft(userId: string, messages: seq<Message>, createdAt: int, updatedAt: int)

  /** `feedback:<ts>:<uid|anonymous>`; `status` is free text validated on update. */
  datatype Feedback = Feedback(
    id: string,
    userId: Option<string>,
    userName: string,
    message: string,
    status: string,
    createdAt: int,
    updatedAt: Option<int>)

  /** `donation:<uid>:<ts>` */
  datatype Donation = Donation(id: string, userId: string, amount: int, createdAt: int)

  datatype Record =
    | ProfileRec(profile: Profile)
    | ConfessionRec(confession: Confession)
    | DraftRec(draft: Draft)
    | FeedbackRec(feedback: Feedback)
    | DonationRec(donation: Donation)

  type Store = map<string, Record>

  function ProfileKey(uid: string): string { "profile:" + uid }

  /** The prefix scanned to list, count and bulk-delete a user's confessions. */
  function ConfessionPrefix(uid: string): string { "confession:" + uid + ":" }

  /** `confession:${userId}:${Date.now()}`, the stamp being the rendered clock. */
  function ConfessionKey(uid: string, stamp: string): string { ConfessionPrefix(uid) + stamp }

  function DraftKey(uid: string): string { "confession_active_" + uid }

  function DonationKey(uid: string, stamp: string): string { "donation:" + uid + ":" + stamp }

  function FeedbackKey(stamp: string, uid: Option<string>): string {
    "feedback:" + stamp + ":" + uid.GetOr("anonymous")
  }

  /** The keys a prefix scan for `uid`'s confessions returns. */
  function ConfessionKeys(st: Store, uid: string): (ks: set<string>)
    ensures forall k :: k in ks <==> k in st && HasPrefix(k, ConfessionPrefix(uid))
  {
    set k | k in st && HasPrefix(k, ConfessionPrefix(uid))
  }

  /** The store invariant the handlers keep: every confession sits under its
      owner's prefix, and owners are ids without ':' (Supabase user ids are
      UUIDs), so that no user's prefix reaches into another user's keys. */
  ghost predicate WellKeyed(st: Store) {
    forall k :: k in st && st[k].ConfessionRec? ==>
      NoColon(st[k].confession.userId) && HasPrefix(k, ConfessionPrefix(st[k].confession.userId))
  }

  /** Two colon-free users whose prefixes both start a key are the same user. */
  lemma PrefixOwnerUnique(k: string, u1: string, u2: string)
    requires NoColon(u1) && NoColon(u2)
    requires HasPrefix(k, ConfessionPrefix(u1)) && HasPrefix(k, ConfessionPrefix(u2))
    ensures u1 == u2
  {
    var p1, p2 := ConfessionPrefix(u1), ConfessionPrefix(u2);
    assert k[11 + |u1|] == p1[11 + |u1|] == ':';
    assert k[11 + |u2|] == p2[11 + |u2|] == ':';
    forall i | 0 <= i < |u1| ensures u1[i] == u2[i] {
      assert u1[i] == p1[11 + i] == k[11 + i] == p2[11 + i] == u2[i];
    }
  }

  /** In a well-keyed store the prefix scan for a colon-free user returns
      exactly that user's confessions: no other owner's, and none missed. */
  lemma ScanFindsOwnConfessions(st: Store, uid: string)
    requires WellKeyed(st) && NoColon(uid)
    ensures forall k :: k in ConfessionKeys(st, uid) && st[k].ConfessionRec? <==>
      k in st && st[k].ConfessionRec? && st[k].confession.userId == uid
  {
    forall k | k in ConfessionKeys(st, uid) && st[k].ConfessionRec?
      ensures st[k].confession.userId == uid
    {
      PrefixOwnerUnique(k, uid, st[k].confession.userId);
    }
  }

  /** Profile, draft, donation and feedback keys never fall under a confession prefix. */
  lemma OtherKeysOutsidePrefix(uid: string, u: string, stamp: string, owner: Option<string>)
    ensures !HasPrefix(ProfileKey(u), ConfessionPrefix(uid))
    ensures !HasPrefix(DraftKey(u), ConfessionPrefix(uid))
    ensures !HasPrefix(DonationKey(u, stamp), ConfessionPrefix(uid))
    ensures !HasPrefix(FeedbackKey(stamp, owner), ConfessionPrefix(uid))
  {
    var p := ConfessionPrefix(uid);
    assert p[0] == 'c' && p[10] == ':';
    assert ProfileKey(u)[0] == 'p';
    assert DraftKey(u)[10] == '_';
    assert DonationKey(u, stamp)[0] == 'd';
    assert FeedbackKey(stamp, owner)[0] == 'f';
  }

  /** Different users' profile keys and draft keys are different keys. */
  lemma KeysInjective(u1: string, u2: string)
    requires u1 != u2
    ensures ProfileKey(u1) != ProfileKey(u2)
    ensures DraftKey(u1) != DraftKey(u2)
  {
    assert ProfileKey(u1)[8..] == u1 && ProfileKey(u2)[8..] == u2;
    assert DraftKey(u1)[18..] == u1 && DraftKey(u2)[18..] == u2;
  }

  /** The profile key of a user is no draft, donation or feedback key. */
  lemma ProfileKeyDistinct(uid: string, u: string, stamp: string, owner: Option<string>)
    ensures ProfileKey(uid) != DraftKey(u)
    ensures ProfileKey(uid) != DonationKey(u, stamp)
    ensures ProfileKey(uid) != FeedbackKey(stamp, owner)
  {
    assert ProfileKey(uid)[0] == 'p';
    assert DraftKey(u)[0] == 'c' && DonationKey(u, stamp)[0] == 'd' && FeedbackKey(stamp, owner)[0] == 'f';
  }
}
