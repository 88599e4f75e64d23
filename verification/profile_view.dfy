/** The profile screen of src/app/components/profile.tsx: the karma level name
    and colour, the progress bar, and the edit / cancel / save cycle of the
    profile form. */
module ProfileView {
  import opened Wrappers
  import opened Kv
  import opened Handlers

  /** The client's `UserProfile`, as the screen holds it: the fields of the
      JSON `getUserProfile` returned. `hasSubscription` is absent from the
      client's own default profile and present in every profile a PUT stored. */
  datatype UserProfile = UserProfile(
    firstName: string, lastName: string, city: string, language: string, karma: int,
    hasSubscription: Option<bool>)

  /** The form's contents before the stored profile has loaded, and the
      profile `getUserProfile` falls back to on a 404 or a failed request. */
  const BlankProfile := UserProfile("", "", "", "Русский", 0, None)

  /** The JSON of a stored profile as the screen reads it. A field the record
      lacks (only a donation to a user without a profile leaves such a record)
      reads as empty text or zero karma. */
  function FromStored(p: Profile): (u: UserProfile)
    ensures u.hasSubscription == p.hasSubscription && u.karma == p.KarmaValue()
    ensures Present(p.firstName) ==> u.firstName == p.firstName.value
  {
    UserProfile(p.firstName.GetOr(""), p.lastName.GetOr(""), p.city.GetOr(""),
                p.language.GetOr(""), p.KarmaValue(), p.hasSubscription)
  }

  /** `getUserProfile`: the answer of `GET profile/:userId` when it is ok, and
      the client's default profile on a 404 or when the request fails
      (`answer` is `None`). Its type admits null, but it never yields it. */
  function FetchProfile(answer: Option<Response<Profile>>): (u: Option<UserProfile>)
    ensures u.Some?
    ensures answer.Some? && answer.value.Ok? ==> u.value == FromStored(answer.value.value)
    ensures !(answer.Some? && answer.value.Ok?) ==> u.value == BlankProfile && u.value.hasSubscription.None?
  {
    match answer
    case Some(Ok(p)) => Some(FromStored(p))
    case _ => Some(BlankProfile)
  }

  // ------------------------------------------------------------------ level

  /** The five karma levels, lowest first. */
  datatype Level = Novice | Beginner | Seeker | Pious | Righteous

  function LevelRank(l: Level): nat {
    match l
    case Novice => 0
    case Beginner => 1
    case Seeker => 2
    case Pious => 3
    case Righteous => 4
  }

  /** The level `getKarmaLabel` names, as the band the karma falls in. */
  function KarmaLevel(karma: int): (l: Level)
    ensures l == Righteous <==> 100 <= karma
    ensures l == Pious <==> 50 <= karma < 100
    ensures l == Seeker <==> 10 <= karma < 50
    ensures l == Beginner <==> 0 < karma < 10
    ensures l == Novice <==> karma <= 0
  {
    if karma >= 100 then Righteous
    else if karma >= 50 then Pious
    else if karma >= 10 then Seeker
    else if karma > 0 then Beginner
    else Novice
  }

  function LevelName(l: Level): string {
    match l
    case Novice => "Новичок"
    case Beginner => "Начинающий"
    case Seeker => "Ищущий"
    case Pious => "Благочестивый"
    case Righteous => "Праведник"
  }

  /** `getKarmaLabel(karma)` */
  function KarmaLabel(karma: int): string {
    LevelName(KarmaLevel(karma))
  }

  /** More karma never means a lower level. */
  lemma LevelMonotone(a: int, b: int)
    requires a <= b
    ensures LevelRank(KarmaLevel(a)) <= LevelRank(KarmaLevel(b))
  {
  }

  /** Each level has its own name. */
  lemma LevelNamesDistinct(l: Level, m: Level)
    ensures LevelName(l) == LevelName(m) <==> l == m
  {
    if l != m {
      assert LevelName(l)[0] != LevelName(m)[0] || LevelName(l)[1] != LevelName(m)[1];
    }
  }

  // ----------------------------------------------------------------- colour

  datatype Tone = Green | Blue | Yellow | Red

  /** The colour band `getKarmaColor` picks. */
  function KarmaTone(karma: int): (t: Tone)
    ensures t == Green <==> 100 <= karma
    ensures t == Blue <==> 50 <= karma < 100
    ensures t == Yellow <==> 0 <= karma < 50
    ensures t == Red <==> karma < 0
  {
    if karma >= 100 then Green
    else if karma >= 50 then Blue
    else if karma >= 0 then Yellow
    else Red
  }

  function ToneClass(t: Tone): string {
    match t
    case Green => "text-green-500"
    case Blue => "text-blue-500"
    case Yellow => "text-yellow-500"
    case Red => "text-red-500"
  }

  /** `getKarmaColor(karma)` */
  function KarmaColor(karma: int): string {
    ToneClass(KarmaTone(karma))
  }

  /** The colour and the level name change together at 100 and 50; yellow
      spans the three lowest non-negative levels and red is always a novice. */
  lemma ToneMatchesLevel(karma: int)
    ensures KarmaTone(karma) == Green <==> KarmaLevel(karma) == Righteous
    ensures KarmaTone(karma) == Blue <==> KarmaLevel(karma) == Pious
    ensures KarmaTone(karma) == Yellow <==> karma >= 0 && LevelRank(KarmaLevel(karma)) <= 2
    ensures KarmaTone(karma) == Red ==> KarmaLevel(karma) == Novice
  {
  }

  // ------------------------------------------------------------ progress bar

  /** The bar's width in percent, `min(karma / 100 * 100, 100)`. */
  function ProgressWidth(karma: int): (w: int)
    ensures w <= 100
    ensures w == 100 <==> karma >= 100
    ensures karma <= 100 ==> w == karma
  {
    if karma < 100 then karma else 100
  }

  /** The bar only grows with karma, and is full exactly at the top level. */
  lemma ProgressFullAtTopLevel(a: int, b: int)
    requires a <= b
    ensures ProgressWidth(a) <= ProgressWidth(b)
    ensures ProgressWidth(a) == 100 <==> KarmaLevel(a) == Righteous
  {
  }

  // ------------------------------------------------------------------- form

  /** The screen's state: the shown profile, the form's copy, and the two flags. */
  datatype Screen = Screen(profile: UserProfile, edited: UserProfile, editing: bool, saving: bool)

  const InitialScreen := Screen(BlankProfile, BlankProfile, false, false)

  /** `loadProfile`: a fetched profile replaces both copies. The `None` branch
      follows the source's `if (userProfile)`; `FetchProfile` never takes it
      (see `LoadReplaces`). */
  function Loaded(s: Screen, fetched: Option<UserProfile>): (t: Screen)
    ensures fetched.Some? ==> t.profile == fetched.value && t.edited == fetched.value
    ensures fetched.None? ==> t == s
    ensures t.editing == s.editing && t.saving == s.saving
  {
    match fetched
    case Some(p) => s.(profile := p, edited := p)
    case None => s
  }

  /** Loading always replaces both copies: with the stored profile when the
      GET is ok, otherwise with the default profile, which has no
      subscription flag. */
  lemma LoadReplaces(s: Screen, answer: Option<Response<Profile>>)
    ensures var t := Loaded(s, FetchProfile(answer));
      && t.profile == t.edited
      && (answer.Some? && answer.value.Ok? ==> t.profile.hasSubscription == answer.value.value.hasSubscription)
      && (!(answer.Some? && answer.value.Ok?) ==> t.profile == BlankProfile)
  {
  }

  /** `handleEdit`: the form starts from the shown profile. */
  function Edit(s: Screen): (t: Screen)
    ensures t.editing && t.edited == t.profile == s.profile && t.saving == s.saving
  {
    s.(edited := s.profile, editing := true)
  }

  /** Typing into the form changes only the form's copy. */
  function Type(s: Screen, e: UserProfile): (t: Screen)
    ensures t.edited == e && t.profile == s.profile && t.editing == s.editing && t.saving == s.saving
  {
    s.(edited := e)
  }

  /** `handleCancel`: the form's copy is reset and editing ends. */
  function Cancel(s: Screen): (t: Screen)
    ensures !t.editing && t.edited == t.profile == s.profile && t.saving == s.saving
  {
    s.(edited := s.profile, editing := false)
  }

  /** `handleSave` once `saveUserProfile` has settled: on success the form's
      copy becomes the shown profile and editing ends; on failure (the
      request rejected or not ok) the screen keeps the edits and stays in the
      form. Either way `isSaving` is cleared by the `finally`. */
  function Save(s: Screen, ok: bool): (t: Screen)
    ensures !t.saving && t.edited == s.edited
    ensures ok ==> t.profile == s.edited && !t.editing
    ensures !ok ==> t.profile == s.profile && t.editing == s.editing
  {
    if ok then s.(profile := s.edited, editing := false, saving := false)
    else s.(saving := false)
  }

  /** Whatever was typed, cancelling restores the screen editing started from. */
  lemma CancelDiscardsEdits(s: Screen, e: UserProfile)
    ensures Cancel(Type(Edit(s), e)) == Cancel(s)
  {
  }

  /** A successful save shows exactly what was typed, and the form then
      reopens on it. */
  lemma SaveShowsTyped(s: Screen, e: UserProfile)
    ensures Save(Type(Edit(s), e), true).profile == e
    ensures Edit(Save(Type(Edit(s), e), true)).edited == e
  {
  }

  /** The body `saveUserProfile` sends, `JSON.stringify` of the form: every
      field, karma included, and the subscription flag exactly when the loaded
      profile had one. */
  function SaveBody(e: UserProfile): (b: ProfileBody)
    ensures b.karma == Some(e.karma) && b.hasSubscription == e.hasSubscription
    ensures b.firstName == Some(e.firstName) && b.language == Some(e.language)
  {
    ProfileBody(Some(e.firstName), Some(e.lastName), Some(e.city), Some(e.language), Some(e.karma), e.hasSubscription)
  }

  /** Saving the form writes back the karma the screen loaded, over whatever
      karma the store holds by then: a confession completed after the screen
      loaded is undone by the next profile save. */
  lemma SaveWritesLoadedKarma(st: Store, uid: string, e: UserProfile)
    ensures ProfileAt(PutProfile(st, uid, SaveBody(e)).store, uid) == Some(PutProfile(st, uid, SaveBody(e)).response.value)
    ensures PutProfile(st, uid, SaveBody(e)).response.value.KarmaValue() == e.karma
  {
  }

  /** Saving the form writes back the subscription flag the screen loaded,
      over whatever flag the store holds by then; only a form loaded from the
      default profile leaves the stored flag alone. */
  lemma SaveWritesLoadedSubscription(st: Store, uid: string, e: UserProfile)
    ensures var saved := ProfileAt(PutProfile(st, uid, SaveBody(e)).store, uid);
      && saved.Some?
      && (e.hasSubscription.Some? ==> saved.value.Subscribed() == e.hasSubscription.value)
      && (e.hasSubscription.None? ==>
            saved.value.Subscribed() == (ProfileAt(st, uid).Some? && ProfileAt(st, uid).value.Subscribed()))
  {
  }

  /** The screen loads an unsubscribed profile, a later PUT grants the
      subscription, and the user then saves the form: the grant is undone and
      `GET confessions/check-limit` limits the user to two a day again. */
  lemma SaveUndoesLaterSubscription(st: Store, uid: string, grant: ProfileBody, now: int, tzOffsetMs: int)
    requires uid != ""
    requires ProfileAt(st, uid).Some? && ProfileAt(st, uid).value.hasSubscription == Some(false)
    requires grant.hasSubscription == Some(true)
    ensures var loaded := Loaded(InitialScreen, FetchProfile(Some(GetProfile(st, uid))));
      var granted := PutProfile(st, uid, grant).store;
      var saved := PutProfile(granted, uid, SaveBody(loaded.edited)).store;
      && CheckLimit(granted, Some(uid), now, tzOffsetMs).value.hasSubscription
      && CheckLimit(saved, Some(uid), now, tzOffsetMs).value.limit == FreeDailyLimit
      && !CheckLimit(saved, Some(uid), now, tzOffsetMs).value.hasSubscription
  {
    var loaded := Loaded(InitialScreen, FetchProfile(Some(GetProfile(st, uid))));
    assert loaded.edited.hasSubscription == Some(false);
    var granted := PutProfile(st, uid, grant).store;
    SaveWritesLoadedSubscription(granted, uid, loaded.edited);
  }
}
