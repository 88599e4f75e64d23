/** The admin panel of src/app/components/admin-panel.tsx: the search filters
    over users and feedback, the summary counters, the status labels and the
    karma colour of the user table. */
module Admin {
  import opened Text
  import opened Handlers

  /** One row of `GET admin/users`. */
  datatype AdminUser = AdminUser(
    id: string,
    email: string,
    name: string,
    karma: int,
    confessionsCount: int,
    hasSubscription: bool,
    totalDonations: int)

  /** One row of `GET admin/feedback`, the fields the panel reads. */
  datatype FeedbackItem = FeedbackItem(id: string, userName: string, message: string, status: string)

  // ----------------------------------------------------------------- filter

  /** `xs.filter(keep)` */
  function Filter<T>(xs: seq<T>, keep: T -> bool): (r: seq<T>)
    ensures |r| <= |xs|
    ensures forall x :: x in r ==> x in xs && keep(x)
    ensures forall x :: x in xs && keep(x) ==> x in r
  {
    if xs == [] then []
    else (if keep(xs[0]) then [xs[0]] else []) + Filter(xs[1..], keep)
  }

  /** A filter that keeps everything returns the list as it was. */
  lemma {:induction false} FilterKeepsAll<T>(xs: seq<T>, keep: T -> bool)
    requires forall x :: x in xs ==> keep(x)
    ensures Filter(xs, keep) == xs
  {
    if xs != [] {
      FilterKeepsAll(xs[1..], keep);
      assert [xs[0]] + xs[1..] == xs;
    }
  }

  /** Two tests that agree on every element filter alike. */
  lemma {:induction false} FilterAgree<T>(xs: seq<T>, a: T -> bool, b: T -> bool)
    requires forall x :: x in xs ==> a(x) == b(x)
    ensures Filter(xs, a) == Filter(xs, b)
  {
    if xs != [] {
      FilterAgree(xs[1..], a, b);
    }
  }

  /** Filtering a concatenation filters each part and keeps them in order, so
      the result is the list's kept elements in their original order. */
  lemma {:induction false} FilterAppend<T>(xs: seq<T>, ys: seq<T>, keep: T -> bool)
    ensures Filter(xs + ys, keep) == Filter(xs, keep) + Filter(ys, keep)
    decreases |xs|
  {
    if xs == [] {
      assert xs + ys == ys;
    } else {
      assert (xs + ys)[1..] == xs[1..] + ys;
      FilterAppend(xs[1..], ys, keep);
    }
  }

  /** What a test keeps and what its negation keeps add up to the whole list. */
  lemma {:induction false} FilterSplits<T>(xs: seq<T>, keep: T -> bool, drop: T -> bool)
    requires forall x :: x in xs ==> drop(x) == !keep(x)
    ensures |Filter(xs, keep)| + |Filter(xs, drop)| == |xs|
  {
    if xs != [] {
      FilterSplits(xs[1..], keep, drop);
    }
  }

  /** The positions of the elements a test keeps. */
  ghost function KeptPositions<T>(xs: seq<T>, keep: T -> bool): set<int> {
    set i | 0 <= i < |xs| && keep(xs[i])
  }

  /** Positions up to one more: the last position joins exactly when kept. */
  lemma KeptPositionsSnoc<T>(xs: seq<T>, keep: T -> bool)
    requires xs != []
    ensures var n := |xs| - 1;
      KeptPositions(xs, keep) == KeptPositions(xs[..n], keep) + (if keep(xs[n]) then {n} else {})
  {
  }

  /** A filter keeps one element per position that passes the test. */
  lemma {:induction false} FilterCountsKept<T>(xs: seq<T>, keep: T -> bool)
    ensures |Filter(xs, keep)| == |KeptPositions(xs, keep)|
    decreases |xs|
  {
    if xs != [] {
      var n := |xs| - 1;
      assert xs[..n] + [xs[n]] == xs;
      FilterAppend(xs[..n], [xs[n]], keep);
      assert |Filter([xs[n]], keep)| == if keep(xs[n]) then 1 else 0;
      FilterCountsKept(xs[..n], keep);
      KeptPositionsSnoc(xs, keep);
    }
  }

  /** A user row matches a query when its name or e-mail contains it, ignoring case. */
  predicate UserMatches(u: AdminUser, query: string) {
    Contains(Lower(u.name), Lower(query)) || Contains(Lower(u.email), Lower(query))
  }

  /** A feedback row matches when its author's name or its message contains the query. */
  predicate FeedbackMatches(f: FeedbackItem, query: string) {
    Contains(Lower(f.userName), Lower(query)) || Contains(Lower(f.message), Lower(query))
  }

  /** `filteredUsers` */
  function FilteredUsers(users: seq<AdminUser>, query: string): (r: seq<AdminUser>)
    ensures forall u :: u in r <==> u in users && UserMatches(u, query)
  {
    Filter(users, u => UserMatches(u, query))
  }

  /** `filteredFeedback` */
  function FilteredFeedback(items: seq<FeedbackItem>, query: string): (r: seq<FeedbackItem>)
    ensures forall f :: f in r <==> f in items && FeedbackMatches(f, query)
  {
    Filter(items, f => FeedbackMatches(f, query))
  }

  /** Every string contains the empty word. */
  lemma ContainsEmpty(s: string)
    ensures Contains(s, "")
  {
  }

  /** An empty search box shows every user, in the order loaded. */
  lemma EmptyQueryShowsAllUsers(users: seq<AdminUser>)
    ensures FilteredUsers(users, "") == users
  {
    forall u | u in users
      ensures UserMatches(u, "")
    {
      ContainsEmpty(Lower(u.name));
    }
    FilterKeepsAll(users, u => UserMatches(u, ""));
  }

  /** Searching a list that was loaded in two parts shows the matches of the
      first part, in order, before those of the second. */
  lemma UserSearchKeepsOrder(a: seq<AdminUser>, b: seq<AdminUser>, query: string)
    ensures FilteredUsers(a + b, query) == FilteredUsers(a, query) + FilteredUsers(b, query)
  {
    FilterAppend(a, b, u => UserMatches(u, query));
  }

  /** The feedback search, too, keeps the loaded order. */
  lemma FeedbackSearchKeepsOrder(a: seq<FeedbackItem>, b: seq<FeedbackItem>, query: string)
    ensures FilteredFeedback(a + b, query) == FilteredFeedback(a, query) + FilteredFeedback(b, query)
  {
    FilterAppend(a, b, f => FeedbackMatches(f, query));
  }

  /** An empty search box shows all feedback. */
  lemma EmptyQueryShowsAllFeedback(items: seq<FeedbackItem>)
    ensures FilteredFeedback(items, "") == items
  {
    forall f | f in items
      ensures FeedbackMatches(f, "")
    {
      ContainsEmpty(Lower(f.userName));
    }
    FilterKeepsAll(items, f => FeedbackMatches(f, ""));
  }

  /** The search ignores the case of the query. */
  lemma UserSearchIgnoresCase(users: seq<AdminUser>, query: string)
    ensures FilteredUsers(users, Lower(query)) == FilteredUsers(users, query)
  {
    LowerIdempotent(query);
    FilterAgree(users, u => UserMatches(u, Lower(query)), u => UserMatches(u, query));
  }

  // ------------------------------------------------------------------ stats

  /** `xs.reduce((sum, x) => sum + f(x), 0)` */
  function SumBy<T>(xs: seq<T>, f: T -> int): int {
    if xs == [] then 0 else SumBy(xs[..|xs| - 1], f) + f(xs[|xs| - 1])
  }

  /** The running sum splits over concatenation. */
  lemma {:induction false} SumByAppend<T>(xs: seq<T>, ys: seq<T>, f: T -> int)
    ensures SumBy(xs + ys, f) == SumBy(xs, f) + SumBy(ys, f)
    decreases |ys|
  {
    if ys != [] {
      assert (xs + ys)[..|xs + ys| - 1] == xs + ys[..|ys| - 1];
      SumByAppend(xs, ys[..|ys| - 1], f);
    } else {
      assert xs + ys == xs;
    }
  }

  /** A sum of non-negative terms is non-negative. */
  lemma {:induction false} SumByNonNegative<T>(xs: seq<T>, f: T -> int)
    requires forall x :: x in xs ==> f(x) >= 0
    ensures SumBy(xs, f) >= 0
  {
    if xs != [] {
      SumByNonNegative(xs[..|xs| - 1], f);
    }
  }

  predicate Subscribed(u: AdminUser) { u.hasSubscription }
  predicate Unsubscribed(u: AdminUser) { !u.hasSubscription }
  function ConfessionsOf(u: AdminUser): int { u.confessionsCount }
  function DonationsOf(u: AdminUser): int { u.totalDonations }
  predicate IsNew(f: FeedbackItem) { f.status == "new" }

  datatype Stats = Stats(totalUsers: int, subscribedUsers: int, totalConfessions: int, totalDonations: int, newFeedback: int)

  /** The five counters above the tables: the number of users, of users with a
      subscription, of reports still 'new', and the two totals, which are zero
      for no users. */
  function ComputeStats(users: seq<AdminUser>, items: seq<FeedbackItem>): (s: Stats)
    ensures 0 <= s.subscribedUsers <= s.totalUsers == |users|
    ensures 0 <= s.newFeedback <= |items|
    ensures s.subscribedUsers == |set i | 0 <= i < |users| && users[i].hasSubscription|
    ensures s.newFeedback == |set i | 0 <= i < |items| && items[i].status == "new"|
    ensures users == [] ==> s.totalConfessions == 0 && s.totalDonations == 0
  {
    FilterCountsKept(users, Subscribed);
    FilterCountsKept(items, IsNew);
    assert KeptPositions(users, Subscribed) == set i | 0 <= i < |users| && users[i].hasSubscription;
    assert KeptPositions(items, IsNew) == set i | 0 <= i < |items| && items[i].status == "new";
    Stats(
      |users|,
      |Filter(users, Subscribed)|,
      SumBy(users, ConfessionsOf),
      SumBy(users, DonationsOf),
      |Filter(items, IsNew)|)
  }

  /** Subscribed and unsubscribed users add up to all users. */
  lemma SubscribersPartitionUsers(users: seq<AdminUser>)
    ensures ComputeStats(users, []).subscribedUsers + |Filter(users, Unsubscribed)| == |users|
  {
    FilterSplits(users, Subscribed, Unsubscribed);
  }

  /** One user's totals are that user's own figures. */
  lemma TotalsOfOne(u: AdminUser)
    ensures ComputeStats([u], []).totalConfessions == u.confessionsCount
    ensures ComputeStats([u], []).totalDonations == u.totalDonations
  {
    assert [u][..0] == [];
    assert SumBy([u], ConfessionsOf) == SumBy([], ConfessionsOf) + ConfessionsOf(u);
    assert SumBy([u], DonationsOf) == SumBy([], DonationsOf) + DonationsOf(u);
  }

  /** The totals of two parts of the user list add up, and appending one user
      adds exactly that user's figures; with the empty list's zero totals this
      makes them the sums of the per-user fields. */
  lemma TotalsAdd(a: seq<AdminUser>, b: seq<AdminUser>)
    ensures ComputeStats(a + b, []).totalConfessions == ComputeStats(a, []).totalConfessions + ComputeStats(b, []).totalConfessions
    ensures ComputeStats(a + b, []).totalDonations == ComputeStats(a, []).totalDonations + ComputeStats(b, []).totalDonations
    ensures |b| == 1 ==> ComputeStats(a + b, []).totalConfessions == ComputeStats(a, []).totalConfessions + b[0].confessionsCount
    ensures |b| == 1 ==> ComputeStats(a + b, []).totalDonations == ComputeStats(a, []).totalDonations + b[0].totalDonations
  {
    SumByAppend(a, b, ConfessionsOf);
    SumByAppend(a, b, DonationsOf);
    if |b| == 1 {
      assert b == [b[0]];
      TotalsOfOne(b[0]);
    }
  }

  /** Counts and donation totals that are never negative give non-negative totals. */
  lemma TotalsNonNegative(users: seq<AdminUser>)
    requires forall u :: u in users ==> u.confessionsCount >= 0 && u.totalDonations >= 0
    ensures ComputeStats(users, []).totalConfessions >= 0
    ensures ComputeStats(users, []).totalDonations >= 0
  {
    SumByNonNegative(users, ConfessionsOf);
    SumByNonNegative(users, DonationsOf);
  }

  // ----------------------------------------------------------------- labels

  /** `getStatusLabel(status)`: the three known statuses get Russian names, any
      other text is shown as it is. */
  function StatusLabel(status: string): (r: string)
    ensures status == "new" ==> r == "Новое"
    ensures status == "reviewed" ==> r == "Просмотрено"
    ensures status == "resolved" ==> r == "Решено"
    ensures status !in FeedbackStatuses ==> r == status
  {
    if status == "new" then "Новое"
    else if status == "reviewed" then "Просмотрено"
    else if status == "resolved" then "Решено"
    else status
  }

  /** A status is translated exactly when the server accepts it. */
  lemma StatusTranslatedIffKnown(status: string)
    ensures StatusLabel(status) != status <==> status in FeedbackStatuses
  {
    if status in FeedbackStatuses {
      assert StatusLabel(status)[0] != status[0];
    }
  }

  /** Known statuses keep distinct labels. */
  lemma StatusLabelsDistinct(a: string, b: string)
    requires a in FeedbackStatuses && b in FeedbackStatuses
    ensures StatusLabel(a) == StatusLabel(b) <==> a == b
  {
    if a != b {
      assert StatusLabel(a)[0] != StatusLabel(b)[0];
    }
  }

  // --------------------------------------------------------- karma colour

  datatype TableTone = TableGreen | TableYellow | TableRed

  /** The karma cell's colour in the user table: green from 50, yellow from 0, red below. */
  function TableKarmaTone(karma: int): (t: TableTone)
    ensures t == TableGreen <==> karma >= 50
    ensures t == TableYellow <==> 0 <= karma < 50
    ensures t == TableRed <==> karma < 0
  {
    if karma >= 50 then TableGreen
    else if karma >= 0 then TableYellow
    else TableRed
  }

  function TableToneClass(t: TableTone): string {
    match t
    case TableGreen => "text-green-500"
    case TableYellow => "text-yellow-500"
    case TableRed => "text-red-500"
  }
}
