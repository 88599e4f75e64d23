/** The request handlers of supabase/functions/server/index.tsx that read and
    write the key-value store, each a pure transition from the store before
    the request to the store after it and the response. Clock readings are
    parameters (`now` in milliseconds, `stamp` for the `${Date.now()}` text
    inside a new key); request-body fields are `Option`s, `None` meaning the
    field was absent. */
module Handlers {
  import opened Wrappers
  import opened Text
  import opened Kv

  /** 200 with a body, 400, 404, or 404 that still carries a body. */
  datatype Response<T> = Ok(value: T) | BadRequest | NotFound | NotFoundWith(value: T)

  datatype Step<T> = Step(store: Store, response: Response<T>)

  /** JavaScript truthiness of an optional string field: present and non-empty. */
  predicate Present(s: Option<string>) {
    s.Some? && s.value != ""
  }

  /** `field || fallback` on an optional string field. */
  function OrElse(s: Option<string>, fallback: string): (r: string)
    ensures Present(s) ==> r == s.value
    ensures r == fallback || (s.Some? && r == s.value)
    ensures r == "" <==> !Present(s) && fallback == ""
  {
    if Present(s) then s.value else fallback
  }

  const DefaultLanguage := "Русский"

  /** The record at a key, when it is a profile. */
  function ProfileAt(st: Store, uid: string): Option<Profile> {
    var k := ProfileKey(uid);
    if k in st && st[k].ProfileRec? then Some(st[k].profile) else None
  }

  /** The record at a key, when it is a confession. */
  function ConfessionAt(st: Store, id: string): Option<Confession> {
    if id in st && st[id].ConfessionRec? then Some(st[id].confession) else None
  }

  // ---------------------------------------------------------------- profile

  /** The body `GET profile/:userId` sends with its 404. */
  function DefaultProfile(): Profile {
    Profile(Some(""), Some(""), Some(""), Some(DefaultLanguage), Some(0), Some(false), None)
  }

  /** `GET profile/:userId`: the stored profile, or a 404 carrying the zero-value profile. */
  function GetProfile(st: Store, uid: string): (r: Response<Profile>)
    ensures ProfileAt(st, uid).Some? ==> r == Ok(ProfileAt(st, uid).value)
    ensures ProfileAt(st, uid).None? ==>
      r.NotFoundWith? && r.value.KarmaValue() == 0 && !r.value.Subscribed()
      && r.value.language == Some(DefaultLanguage)
  {
    match ProfileAt(st, uid)
    case Some(p) => Ok(p)
    case None => NotFoundWith(DefaultProfile())
  }

  /** The JSON body of `PUT profile/:userId`. */
  datatype ProfileBody = ProfileBody(
    firstName: Option<string>,
    lastName: Option<string>,
    city: Option<string>,
    language: Option<string>,
    karma: Option<int>,
    hasSubscription: Option<bool>)

  /** `PUT profile/:userId`: rebuild the profile from the body, keeping the stored
      karma and subscription flag when the body omits them. */
  function PutProfile(st: Store, uid: string, body: ProfileBody): (s: Step<Profile>)
    ensures s.response.Ok? && s.store == st[ProfileKey(uid) := ProfileRec(s.response.value)]
    ensures var p := s.response.value;
      && p.karma == Some(
           if body.karma.Some? then body.karma.value
           else if ProfileAt(st, uid).Some? then ProfileAt(st, uid).value.KarmaValue()
           else 0)
      && p.hasSubscription == Some(
           if body.hasSubscription.Some? then body.hasSubscription.value
           else ProfileAt(st, uid).Some? && ProfileAt(st, uid).value.Subscribed())
      && p.totalDonations.None?
      && p.firstName == Some(OrElse(body.firstName, ""))
      && p.lastName == Some(OrElse(body.lastName, ""))
      && p.city == Some(OrElse(body.city, ""))
      && p.language == Some(OrElse(body.language, DefaultLanguage))
  {
    var existing := ProfileAt(st, uid);
    var karma :=
      if body.karma.Some? then body.karma.value
      else match existing { case Some(e) => e.KarmaValue() case None => 0 };
    var subscribed :=
      if body.hasSubscription.Some? then body.hasSubscription.value
      else match existing { case Some(e) => e.Subscribed() case None => false };
    var p := Profile(
      Some(OrElse(body.firstName, "")),
      Some(OrElse(body.lastName, "")),
      Some(OrElse(body.city, "")),
      Some(OrElse(body.language, DefaultLanguage)),
      Some(karma),
      Some(subscribed),
      None);
    Step(st[ProfileKey(uid) := ProfileRec(p)], Ok(p))
  }

  // ------------------------------------------------------------------ drafts

  /** `GET confessions/active?userId=`: the user's draft, if any. */
  function GetDraft(st: Store, uid: Option<string>): (r: Response<Option<Draft>>)
    ensures !Present(uid) <==> r.BadRequest?
    ensures Present(uid) ==>
      r.Ok? && (r.value.Some? <==> DraftKey(uid.value) in st && st[DraftKey(uid.value)].DraftRec?)
  {
    if !Present(uid) then BadRequest
    else
      var k := DraftKey(uid.value);
      Ok(if k in st && st[k].DraftRec? then Some(st[k].draft) else None)
  }

  /** `POST confessions/active {userId, messages}`: overwrite the user's single
      draft slot; both timestamps are reset on every save. */
  function SaveDraft(st: Store, uid: Option<string>, messages: Option<seq<Message>>, now: int): (s: Step<bool>)
    ensures !Present(uid) || messages.None? ==> s == Step(st, BadRequest)
    ensures Present(uid) && messages.Some? ==>
      s.response == Ok(true) && DraftKey(uid.value) in s.store
      && s.store[DraftKey(uid.value)] == DraftRec(Draft(uid.value, messages.value, now, now))
      && forall k :: k != DraftKey(uid.value) ==> (k in s.store <==> k in st) && (k in st ==> s.store[k] == st[k])
  {
    if !Present(uid) || messages.None? then Step(st, BadRequest)
    else Step(st[DraftKey(uid.value) := DraftRec(Draft(uid.value, messages.value, now, now))], Ok(true))
  }

  /** `DELETE confessions/active?userId=`: drop the user's draft slot. */
  function DeleteDraft(st: Store, uid: Option<string>): (s: Step<bool>)
    ensures !Present(uid) ==> s == Step(st, BadRequest)
    ensures Present(uid) ==>
      && s.response == Ok(true)
      && s.store.Keys == st.Keys - {DraftKey(uid.value)}
      && forall k :: k in s.store ==> s.store[k] == st[k]
  {
    if !Present(uid) then Step(st, BadRequest)
    else Step(st - {DraftKey(uid.value)}, Ok(true))
  }

  // ------------------------------------------------------------- confessions

  /** `POST confessions {userId, messages, karmaChange, summary}`: store a new,
      not yet completed confession under `confession:<uid>:<stamp>`. */
  function CreateConfession(
    st: Store, uid: Option<string>, messages: Option<seq<Message>>,
    karmaChange: Option<int>, summary: Option<string>, now: int, stamp: string): (s: Step<Confession>)
    ensures !Present(uid) || messages.None? ==> s == Step(st, BadRequest)
    ensures Present(uid) && messages.Some? ==>
      var k := ConfessionKey(uid.value, stamp);
      && s.response.Ok?
      && s.store == st[k := ConfessionRec(s.response.value)]
      && s.response.value.id == k
      && s.response.value.userId == uid.value
      && s.response.value.messages == messages.value
      && !s.response.value.completed
      && s.response.value.completedAt.None?
      && s.response.value.karmaChange == karmaChange.GetOr(0)
  {
    if !Present(uid) || messages.None? then Step(st, BadRequest)
    else
      var k := ConfessionKey(uid.value, stamp);
      var c := Confession(k, uid.value, messages.value, karmaChange.GetOr(0),
                          summary.GetOr(""), false, now, None);
      Step(st[k := ConfessionRec(c)], Ok(c))
  }

  /** `GET confession/:confessionId` */
  function GetConfession(st: Store, id: string): (r: Response<Confession>)
    ensures r.Ok? <==> ConfessionAt(st, id).Some?
    ensures r.Ok? ==> r.value == ConfessionAt(st, id).value
    ensures !r.Ok? ==> r.NotFound?
  {
    match ConfessionAt(st, id)
    case Some(c) => Ok(c)
    case None => NotFound
  }

  /** What `PUT confessions/:id/complete` answers: the confession and the karma
      now on the owner's profile (0 when there is no profile). */
  datatype Completion = Completion(confession: Confession, newKarma: int)

  /** The profile with `karma = (karma || 0) + delta`; every other field kept. */
  function AddKarma(p: Profile, delta: int): (q: Profile)
    ensures q.KarmaValue() == p.KarmaValue() + delta
    ensures q.(karma := p.karma) == p
  {
    p.(karma := Some(p.KarmaValue() + delta))
  }

  /** `PUT confessions/:id/complete {karmaChange}`: mark the confession completed
      with the given delta and add the delta to the owner's karma when the owner
      has a profile. Nothing stops a second completion of the same id. */
  function CompleteConfession(st: Store, id: string, delta: int, now: int): (s: Step<Completion>)
    ensures ConfessionAt(st, id).None? ==> s == Step(st, NotFound)
    ensures ConfessionAt(st, id).Some? ==>
      var c := ConfessionAt(st, id).value;
      var pk := ProfileKey(c.userId);
      && s.response.Ok?
      && s.response.value.confession == c.(completed := true, karmaChange := delta, completedAt := Some(now))
      && id in s.store && s.store[id] == ConfessionRec(s.response.value.confession)
      && (ProfileAt(st, c.userId).Some? ==>
            && s.store == st[id := s.store[id]][pk := ProfileRec(AddKarma(ProfileAt(st, c.userId).value, delta))]
            && s.response.value.newKarma == ProfileAt(st, c.userId).value.KarmaValue() + delta)
      && (ProfileAt(st, c.userId).None? ==>
            s.store == st[id := s.store[id]] && s.response.value.newKarma == 0)
  {
    match ConfessionAt(st, id)
    case None => Step(st, NotFound)
    case Some(c) =>
      var done := c.(completed := true, karmaChange := delta, completedAt := Some(now));
      var st1 := st[id := ConfessionRec(done)];
      match ProfileAt(st, c.userId)
      case None => Step(st1, Ok(Completion(done, 0)))
      case Some(p) =>
        var p' := AddKarma(p, delta);
        Step(st1[ProfileKey(c.userId) := ProfileRec(p')], Ok(Completion(done, p'.KarmaValue())))
  }

  /** Whether deleting this confession reverts karma: `completed && karmaChange`. */
  predicate Reverts(c: Confession) {
    c.completed && c.karmaChange != 0
  }

  /** `DELETE confessions/:id`: remove whatever record the key holds (an absent
      key is 404; the record's kind is not checked). When it is a confession
      completed with a nonzero delta, subtract that delta from the owner's
      karma if the owner has a profile. */
  function DeleteConfession(st: Store, id: string): (s: Step<bool>)
    ensures id !in st <==> s.response.NotFound?
    ensures id !in st ==> s.store == st
    ensures id in st ==> s.response == Ok(true) && id !in s.store
    ensures id in st && ConfessionAt(st, id).None? ==> s.store == st - {id}
    ensures ConfessionAt(st, id).Some? ==>
      var c := ConfessionAt(st, id).value;
      && (Reverts(c) && ProfileAt(st, c.userId).Some? ==>
            s.store == st[ProfileKey(c.userId) := ProfileRec(AddKarma(ProfileAt(st, c.userId).value, -c.karmaChange))] - {id})
      && (!Reverts(c) || ProfileAt(st, c.userId).None? ==> s.store == st - {id})
  {
    if id !in st then Step(st, NotFound)
    else match ConfessionAt(st, id)
      case None => Step(st - {id}, Ok(true))
      case Some(c) =>
        var st1 :=
          if Reverts(c) && ProfileAt(st, c.userId).Some? then
            st[ProfileKey(c.userId) := ProfileRec(AddKarma(ProfileAt(st, c.userId).value, -c.karmaChange))]
          else st;
        Step(st1 - {id}, Ok(true))
  }

  // ------------------------------------------------------------ daily limit

  const MsPerDay := 86400000
  const FreeDailyLimit := 2

  /** The local calendar day of an instant, for a fixed offset from UTC. */
  function LocalDay(ts: int, tzOffsetMs: int): int {
    (ts + tzOffsetMs) / MsPerDay
  }

  /** What `GET confessions/check-limit` answers. */
  datatype LimitReport = LimitReport(canConfess: bool, confessionsToday: int, limit: int, hasSubscription: bool)

  /** A stored record that is a confession completed on the given local day. */
  predicate CompletedOn(r: Record, day: int, tzOffsetMs: int) {
    r.ConfessionRec? && r.confession.completedAt.Some?
    && LocalDay(r.confession.completedAt.value, tzOffsetMs) == day
  }

  /** The local midnight that starts the day of `ts`, as an instant: what
      `setHours(0, 0, 0, 0)` makes of a date. */
  function Midnight(ts: int, tzOffsetMs: int): int {
    LocalDay(ts, tzOffsetMs) * MsPerDay - tzOffsetMs
  }

  /** Two instants share a local day exactly when the first lies in the 24
      hours that start at the second one's local midnight. */
  lemma SameDayWindow(t: int, now: int, tzOffsetMs: int)
    ensures LocalDay(t, tzOffsetMs) == LocalDay(now, tzOffsetMs) <==>
      Midnight(now, tzOffsetMs) <= t < Midnight(now, tzOffsetMs) + MsPerDay
  {
  }

  lemma SameDayWindowAll(now: int, tzOffsetMs: int)
    ensures forall t :: LocalDay(t, tzOffsetMs) == LocalDay(now, tzOffsetMs) <==>
      Midnight(now, tzOffsetMs) <= t < Midnight(now, tzOffsetMs) + MsPerDay
  {
    forall t ensures LocalDay(t, tzOffsetMs) == LocalDay(now, tzOffsetMs) <==>
      Midnight(now, tzOffsetMs) <= t < Midnight(now, tzOffsetMs) + MsPerDay
    {
      SameDayWindow(t, now, tzOffsetMs);
    }
  }

  /** The user's confessions whose completion falls on today's local day: those
      under the user's prefix completed between today's local midnight and the
      next one. */
  function CompletedToday(st: Store, uid: string, now: int, tzOffsetMs: int): (ks: set<string>)
    ensures ks <= ConfessionKeys(st, uid)
    ensures forall k :: k in ks <==>
      && k in ConfessionKeys(st, uid) && st[k].ConfessionRec? && st[k].confession.completedAt.Some?
      && Midnight(now, tzOffsetMs) <= st[k].confession.completedAt.value < Midnight(now, tzOffsetMs) + MsPerDay
  {
    SameDayWindowAll(now, tzOffsetMs);
    set k | k in ConfessionKeys(st, uid) && CompletedOn(st[k], LocalDay(now, tzOffsetMs), tzOffsetMs)
  }

  /** `GET confessions/check-limit?userId=`: subscribers are unlimited; everyone
      else may confess while fewer than two confessions completed today. */
  function CheckLimit(st: Store, uid: Option<string>, now: int, tzOffsetMs: int): (r: Response<LimitReport>)
    ensures !Present(uid) <==> r.BadRequest?
    ensures Present(uid) ==> r.Ok?
    ensures Present(uid) && ProfileAt(st, uid.value).Some? && ProfileAt(st, uid.value).value.Subscribed() ==>
      r.value == LimitReport(true, 0, -1, true)
    ensures Present(uid) && !(ProfileAt(st, uid.value).Some? && ProfileAt(st, uid.value).value.Subscribed()) ==>
      && r.value.limit == FreeDailyLimit && !r.value.hasSubscription
      && r.value.confessionsToday == |CompletedToday(st, uid.value, now, tzOffsetMs)|
      && (r.value.canConfess <==> |CompletedToday(st, uid.value, now, tzOffsetMs)| < 2)
  {
    if !Present(uid) then BadRequest
    else
      var p := ProfileAt(st, uid.value);
      if p.Some? && p.value.Subscribed() then Ok(LimitReport(true, 0, -1, true))
      else
        var n := |CompletedToday(st, uid.value, now, tzOffsetMs)|;
        Ok(LimitReport(n < FreeDailyLimit, n, FreeDailyLimit, false))
  }

  // ---------------------------------------------------------------- feedback

  const FeedbackStatuses: seq<string> := ["new", "reviewed", "resolved"]

  /** `POST feedback {userId, userName, message}`: file a new report with status 'new'. */
  function SubmitFeedback(
    st: Store, uid: Option<string>, userName: Option<string>, message: Option<string>,
    now: int, stamp: string): (s: Step<Feedback>)
    ensures !Present(message) ==> s == Step(st, BadRequest)
    ensures Present(message) ==>
      var owner := if Present(uid) then uid else None;
      && s.response.Ok?
      && s.response.value.status == "new"
      && s.response.value.message == message.value
      && s.response.value.userName == OrElse(userName, "Аноним")
      && s.store == st[FeedbackKey(stamp, owner) := FeedbackRec(s.response.value)]
  {
    if !Present(message) then Step(st, BadRequest)
    else
      var owner := if Present(uid) then uid else None;
      var k := FeedbackKey(stamp, owner);
      var f := Feedback(k, owner, OrElse(userName, "Аноним"), message.value, "new", now, None);
      Step(st[k := FeedbackRec(f)], Ok(f))
  }

  /** `PUT admin/feedback/:id {status}`: an unknown status is refused before the
      store is read; an unknown id is 404; otherwise only the status and
      `updatedAt` of that record change. */
  function UpdateFeedbackStatus(st: Store, id: string, status: Option<string>, now: int): (s: Step<Feedback>)
    ensures status.None? || status.value !in FeedbackStatuses ==> s == Step(st, BadRequest)
    ensures status.Some? && status.value in FeedbackStatuses && !(id in st && st[id].FeedbackRec?) ==>
      s == Step(st, NotFound)
    ensures status.Some? && status.value in FeedbackStatuses && id in st && st[id].FeedbackRec? ==>
      && s.response == Ok(st[id].feedback.(status := status.value, updatedAt := Some(now)))
      && s.store == st[id := FeedbackRec(s.response.value)]
  {
    if status.None? || status.value !in FeedbackStatuses then Step(st, BadRequest)
    else if !(id in st && st[id].FeedbackRec?) then Step(st, NotFound)
    else
      var f := st[id].feedback.(status := status.value, updatedAt := Some(now));
      Step(st[id := FeedbackRec(f)], Ok(f))
  }

  /** `DELETE admin/feedback/:id`: remove whatever record the key holds; the
      record's kind is not checked, so a confession or profile key is removed
      too, without any karma bookkeeping. */
  function DeleteFeedback(st: Store, id: string): (s: Step<bool>)
    ensures id !in st <==> s.response.NotFound?
    ensures id !in st ==> s.store == st
    ensures id in st ==> s == Step(st - {id}, Ok(true))
  {
    if id !in st then Step(st, NotFound)
    else Step(st - {id}, Ok(true))
  }

  // --------------------------------------------------------------- donations

  /** `POST donations {userId, amount}`: record the donation and add the amount to
      the profile's `totalDonations`, creating a profile holding only that field
      when the user has none. A zero or missing amount is refused. */
  function RecordDonation(st: Store, uid: Option<string>, amount: Option<int>, now: int, stamp: string): (s: Step<Donation>)
    ensures !Present(uid) || amount.None? || amount.value == 0 ==> s == Step(st, BadRequest)
    ensures Present(uid) && amount.Some? && amount.value != 0 ==>
      var u := uid.value;
      var before := match ProfileAt(st, u) { case Some(p) => p case None => Profile(None, None, None, None, None, None, None) };
      && s.response.Ok?
      && s.response.value == Donation(DonationKey(u, stamp), u, amount.value, now)
      && s.store == st[DonationKey(u, stamp) := DonationRec(s.response.value)]
                      [ProfileKey(u) := ProfileRec(before.(totalDonations := Some(before.totalDonations.GetOr(0) + amount.value)))]
  {
    if !Present(uid) || amount.None? || amount.value == 0 then Step(st, BadRequest)
    else
      var u := uid.value;
      var d := Donation(DonationKey(u, stamp), u, amount.value, now);
      var before := match ProfileAt(st, u) { case Some(p) => p case None => Profile(None, None, None, None, None, None, None) };
      var after := before.(totalDonations := Some(before.totalDonations.GetOr(0) + amount.value));
      Step(st[DonationKey(u, stamp) := DonationRec(d)][ProfileKey(u) := ProfileRec(after)], Ok(d))
  }
}
