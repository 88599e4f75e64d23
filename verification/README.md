# Confession app: karma ledger, handlers and client helpers in Dafny

This project models the core of an AI-confession web app. The app has two parts.

- **Server.** A Deno/Hono edge function keeps every record in one flat key-value store:
  - `profile:<uid>`: profiles;
  - `confession:<uid>:<ts>`: confessions;
  - `confession_active_<uid>`: drafts;
  - `feedback:<ts>:<uid>` and `donation:<uid>:<ts>`.
- **Client.** A React front end with small threshold and bucketing helpers.

Every server handler is a pure transition `Store -> Step(Store', Response)` over a `map<string, Record>`. Request-body fields are `Option`s, and `None` means the field was absent. Clock readings are parameters:
- `now` is in milliseconds;
- `stamp` is the text of `Date.now()` inside a new key;
- a fixed `tzOffsetMs` gives the local day.

`Math.random()` is a `dice: nat` parameter.

The central property concerns the **karma ledger**. A user's stored `karma` should equal the sum of `karmaChange` over that user's completed, undeleted confessions. The code keeps this only under conditions. `Invariant.RunKeepsLedger` proves it holds across any sequence of requests, under these hypotheses:
- the profile exists;
- no confession is completed twice;
- no profile PUT carries `karma`;
- `DELETE confessions/:id` is never aimed at a profile key, and `DELETE admin/feedback/:id` is never aimed at a profile or a confession. Neither delete checks what kind of record it removes.

A store invariant `WellKeyed` is also needed: confession records sit under their owner's prefix. Two more conditions the code relies on are assumed: user ids contain no `:`, and a new confession's key is not already in use. Other lemmas show what happens when each hypothesis is dropped:
- `DoubleCompletionCountsTwice`: a second completion adds the delta again;
- `PutWithKarmaOverwrites`: a PUT with `karma` sets it outright;
- `DeleteOfProfileBreaksLedger` and `FeedbackDeleteOfConfessionBreaksLedger`: a delete aimed at the wrong kind of record removes the profile, or removes a completed delta from the ledger while karma keeps it;
- `ProfileView.SaveWritesLoadedKarma`: the profile screen's save sends the karma it loaded, so it overwrites whatever karma the store holds by then.
- `ProfileView.SaveUndoesLaterSubscription`: the save also sends the subscription flag it loaded, so a subscription granted after the screen loaded is undone and the daily limit applies again.

Files:
- `wrappers.dfy`, `text.dfy`: `Option`, plus the JavaScript string operations used. These are `includes`, `startsWith`, `toLowerCase` for ASCII and the Cyrillic capitals U+0400–U+042F, `trim() === ''` and number rendering.
- `kv.dfy`: the record types, the key layout, and the facts that keep one user's keys apart from another's.
- `sums.dfy`, `ledger.dfy`: a sum over a finite set, and the ledger of a user.
- `handlers.dfy`: the single-record handlers.
- `requests.dfy`: how handlers answer one another: reads after writes, and completions against the daily limit.
- `scans.dfy`: the prefix-scanning handlers (list and bulk delete), written as loops.
- `invariant.dfy`: the request language, the per-request preservation lemmas, the trace lemma and the scenario lemmas.
- `analyzer.dfy`: `POST confessions/analyze` and `simpleKarmaAnalysis`.
- `responder.dfy`: the keyword cascades of the client's `generateAIResponse` and the server's `generateSimpleResponse`.
- `profile_view.dfy`, `admin.dfy`, `history.dfy`, `donation.dfy`, `chat.dfy`: the client components.

The fallback analyzer's comment says "-3 to -8" for an unrepented sin. The arithmetic `Math.floor(Math.random() * 5) - 8` yields -8 to -4. The model follows the arithmetic, and `Analyzer.EveryPenaltyReachable` shows that exactly -8..-4 is reachable.

## Model

| member | source | states |
|---|---|---|
| Kv.ScanFindsOwnConfessions | supabase/functions/server/index.tsx:323-325 | In a well-keyed store, the prefix scan of `confession:<uid>:` for a colon-free id returns exactly the confessions whose `userId` is that user: none of another user's, none of the user's missed. |
| Kv.PrefixOwnerUnique | supabase/functions/server/index.tsx:403 | Two colon-free user ids whose confession prefixes both start the same key are the same id. So one user's prefix scan never sees another user's confessions. |
| Kv.OtherKeysOutsidePrefix | supabase/functions/server/index.tsx:1177 | Profile, draft, donation and feedback keys never fall under any confession prefix. |
| Kv.KeysInjective | supabase/functions/server/index.tsx:202 | Different user ids have different profile keys and different draft slots. |
| Handlers.GetProfile | supabase/functions/server/index.tsx:199-217 | Returns the stored profile when there is one. Otherwise a 404 carrying a default body: karma 0, no subscription, language "Русский". |
| Handlers.PutProfile | supabase/functions/server/index.tsx:225-246 | Karma comes from the body if given, else the stored karma, else 0. `hasSubscription` follows the same rule with default false. Names default to "" and language to "Русский". The record is rebuilt with only these six fields, so `totalDonations` is dropped. Nothing else in the store changes. |
| Handlers.GetDraft | supabase/functions/server/index.tsx:255-269 | 400 exactly when the user id is missing or empty. Otherwise 200, with a draft exactly when that user's slot holds one. |
| Handlers.SaveDraft | supabase/functions/server/index.tsx:277-294 | A missing user id or missing messages gives 400 with no write. Otherwise the user's single slot is overwritten with both timestamps set to now, and every other key is untouched. |
| Handlers.DeleteDraft | supabase/functions/server/index.tsx:302-312 | 400 without a user id. Otherwise exactly the user's draft key is removed. |
| Handlers.CreateConfession | supabase/functions/server/index.tsx:393-419 | 400 without a user id or messages. Otherwise a new, uncompleted confession is stored under `confession:<uid>:<stamp>`, with id equal to that key and `karmaChange` defaulting to 0. |
| Handlers.GetConfession | supabase/functions/server/index.tsx:461-470 | 200 with the record exactly when the id names a confession, otherwise 404. |
| Handlers.AddKarma | supabase/functions/server/index.tsx:449 | The profile's karma (absent reads as 0) grows by the delta. Every other field is kept. |
| Handlers.CompleteConfession | supabase/functions/server/index.tsx:427-453 | An unknown id gives 404 and leaves the store unchanged. Otherwise the confession becomes completed with the new delta and `completedAt`. The owner's karma grows by the delta only when a profile exists; no profile is created. `newKarma` is the new karma, or 0 without a profile. |
| Handlers.DeleteConfession | supabase/functions/server/index.tsx:652-675 | 404 exactly when the key is absent, and then nothing changes. Otherwise the key is removed, whatever kind of record it holds. The owner's karma drops by `karmaChange` only when the record is a confession completed with a nonzero delta and the owner's profile exists. |
| Handlers.SameDayWindow | supabase/functions/server/index.tsx:366-374 | Two instants fall on the same local day exactly when the first lies in the 24 hours starting at the second one's local midnight. |
| Handlers.CompletedToday | supabase/functions/server/index.tsx:362-375 | A key is counted exactly when it is under the user's prefix and holds a confession whose `completedAt` lies between today's local midnight and the next. Records without `completedAt` are not counted. |
| Handlers.CheckLimit | supabase/functions/server/index.tsx:340-385 | 400 without a user id. A subscriber always gets (true, 0, -1, true). Anyone else gets limit 2, and `canConfess` holds exactly when fewer than two confessions were completed today. |
| Handlers.SubmitFeedback | supabase/functions/server/index.tsx:1063-1091 | 400 without a message. Otherwise a record with status "new" is stored under `feedback:<stamp>:<uid or anonymous>`, with the author name defaulting to "Аноним". |
| Handlers.UpdateFeedbackStatus | supabase/functions/server/index.tsx:1117-1136 | A status outside new/reviewed/resolved gives 400 before the store is read. An unknown id gives 404. Otherwise only that record's status and `updatedAt` change. |
| Handlers.DeleteFeedback | supabase/functions/server/index.tsx:1144-1155 | 404 exactly when the key is absent. Otherwise exactly that key is removed, whatever kind of record it holds, with no karma bookkeeping. |
| Handlers.RecordDonation | supabase/functions/server/index.tsx:1167-1196 | 400 without a user id or with a zero or missing amount. Otherwise the donation is stored and the amount is added to the profile's `totalDonations`. A user without a profile gets one holding only that field. |
| Scans.InsertByDate | supabase/functions/server/index.tsx:328-330 | Inserting into a newest-first list keeps it newest-first and is a permutation of the list plus the new element. |
| Scans.InsertIndex | supabase/functions/server/index.tsx:328-330 | The insertion splices the new confession in at one position and leaves the list on either side of it untouched. |
| Scans.ListConfessions | supabase/functions/server/index.tsx:320-332 | The list is newest-first. Each entry is the confession read from a distinct key under the user's prefix, and there are as many entries as such keys, so the list is a permutation of the stored confession records. |
| Scans.SumCompleted | supabase/functions/server/index.tsx:692-697 | The loop's total is the sum of `karmaChange` over the completed confessions among the scanned keys. |
| Scans.BulkDelete | supabase/functions/server/index.tsx:683-719 | Every key under the prefix is removed, and `deletedCount` is the number of those keys. Karma drops by the user's completed total when that total is nonzero and a profile exists. No other key changes. |
| Scans.BulkDeleteConfessions | supabase/functions/server/index.tsx:683-719 | The loop-based handler computes exactly the transition `BulkDelete` describes. |
| Ledger.LedgerReplace | supabase/functions/server/index.tsx:440-443 | Rewriting one of a user's confession records changes the ledger by the new record's credit minus the old one's. |
| Ledger.LedgerRemove | supabase/functions/server/index.tsx:673 | Deleting one of a user's confession keys lowers the ledger by that record's credit. |
| Ledger.LedgerInsert | supabase/functions/server/index.tsx:417 | Storing a new key under the user's prefix raises the ledger by the record's credit. |
| Ledger.LedgerWriteOutside | supabase/functions/server/index.tsx:244 | Writing a key outside the user's prefix leaves the ledger unchanged. |
| Invariant.PutProfileKeeps | supabase/functions/server/index.tsx:233 | A profile PUT without `karma` keeps every user's karma equal to their ledger. |
| Invariant.SaveDraftKeeps | supabase/functions/server/index.tsx:285-292 | Saving a draft touches no confession and no profile, so karma stays equal to the ledger. |
| Invariant.DeleteDraftKeeps | supabase/functions/server/index.tsx:302-312 | Deleting a draft keeps karma equal to the ledger. |
| Invariant.CreateKeeps | supabase/functions/server/index.tsx:403-417 | Creating a confession under a fresh key keeps the karma/ledger equality, because a new confession is uncompleted. |
| Invariant.CompleteKeeps | supabase/functions/server/index.tsx:440-451 | Completing a not-yet-completed confession keeps the equality for every user. |
| Invariant.RemoveInertKeeps | supabase/functions/server/index.tsx:674 | Removing a record that is neither a profile nor a confession keeps the equality for every user. |
| Invariant.DeleteKeeps | supabase/functions/server/index.tsx:655-674 | A confession delete not aimed at a profile keeps the equality for every user, whatever other kind of record it removes. |
| Invariant.BulkDeleteKeeps | supabase/functions/server/index.tsx:692-713 | Bulk deletion by one user keeps the equality for every user. |
| Invariant.BulkDeleteOtherUser | supabase/functions/server/index.tsx:686-713 | One user's bulk deletion leaves another user's karma and ledger alone. |
| Invariant.DonateKeeps | supabase/functions/server/index.tsx:1190-1194 | A donation, which rewrites the profile, keeps karma and ledger equal. |
| Invariant.FeedbackKeeps | supabase/functions/server/index.tsx:1063-1155 | Submitting or updating feedback, or deleting a key that holds neither a profile nor a confession, keeps the store well keyed and karma equal to the ledger. |
| Invariant.DeleteOfProfileBreaksLedger | supabase/functions/server/index.tsx:655-674 | A confession delete aimed at a user's profile key removes the profile, so the user's karma no longer tracks the ledger. |
| Invariant.FeedbackDeleteOfConfessionBreaksLedger | supabase/functions/server/index.tsx:1144-1155 | A feedback delete aimed at a completed confession with a nonzero delta removes the delta from the ledger but not from karma. |
| Invariant.StepKeepsLedger | supabase/functions/server/index.tsx:448 | Any one request meeting the hypotheses keeps the store well keyed and karma equal to the ledger. These are: no karma in a PUT, no second completion, a fresh colon-free key on create, a colon-free bulk delete, and deletes aimed at the right kind of record. |
| Invariant.RunKeepsLedger | supabase/functions/server/index.tsx:448-450 | Over any sequence of such requests, karma stays equal to the ledger. |
| Invariant.DoubleCompletionCountsTwice | supabase/functions/server/index.tsx:440-451 | Completing the same confession twice leaves karma at ledger + delta. The equality survives only for a zero delta. |
| Invariant.CompleteThenDeleteRestoresKarma | supabase/functions/server/index.tsx:663-668 | With a profile present, completing and then deleting a confession restores the karma held before. |
| Invariant.CompletionsCommute | supabase/functions/server/index.tsx:446-450 | Two completions of different confessions of one user give the same karma in either order. |
| Invariant.ScenarioCompleteCompleteDelete | supabase/functions/server/index.tsx:663-668 | Starting from 0: completing +5, then -3, then deleting the +5 confession leaves karma -3. |
| Invariant.PutWithKarmaOverwrites | supabase/functions/server/index.tsx:233 | A PUT carrying `karma` keeps the equality exactly when it supplies the ledger's value. |
| Invariant.DonationsAccumulateUntilPut | supabase/functions/server/index.tsx:1192-1193 | Two donations add up in `totalDonations`. A later profile PUT drops the field. |
| Requests.GetDraftAfterSave | supabase/functions/server/index.tsx:255-292 | A GET after a save returns that save's messages, with both stamps set to the save's time. |
| Requests.SaveDraftOverwrites | supabase/functions/server/index.tsx:285-292 | A second save leaves the store the second save alone would, so any run of saves ends as its last save. |
| Invariant.DraftLastWriteWins | supabase/functions/server/index.tsx:285-292 | After several saves, the draft slot holds the last save's messages. |
| Requests.GetAfterPutProfile | supabase/functions/server/index.tsx:199-246 | A GET after a PUT returns the profile the PUT answered with. It keeps the stored karma and subscription flag the body left out, takes a given first name, and carries no donation total. |
| Requests.GetAfterCreate | supabase/functions/server/index.tsx:393-470 | A GET of the key a create just wrote returns the new confession: the author's, with the posted messages, not completed. |
| Requests.GetAfterDelete | supabase/functions/server/index.tsx:461-675 | After a delete, that id is 404 and every other id reads as it did. |
| Requests.CompletionJoinsToday | supabase/functions/server/index.tsx:427-453 | Completing one of the user's confessions not completed today adds exactly that key to today's completions, and leaves the subscription flag alone. |
| Requests.CompletionRaisesCount | supabase/functions/server/index.tsx:340-453 | For a user without a subscription, such a completion raises `confessionsToday` by one. |
| Requests.TwoCompletionsReachLimit | supabase/functions/server/index.tsx:340-453 | Two such completions on one day make `check-limit` answer that a user without a subscription cannot confess. |
| Analyzer.ClampKarma | supabase/functions/server/index.tsx:579 | The result lies in [-10, 10]. It is the input when already in range, else the nearer bound. |
| Analyzer.ClampMonotone | supabase/functions/server/index.tsx:579 | Clamping preserves order. |
| Analyzer.TranscriptContainsMessage | supabase/functions/server/index.tsx:488-490 | Each message's content occurs verbatim in the joined transcript, after its speaker label. |
| Analyzer.TranscriptShowsEveryMessage | supabase/functions/server/index.tsx:488-490 | A word in any message's lower-cased content occurs in the lower-cased joined transcript. |
| Analyzer.SimpleKarmaAnalysis | supabase/functions/server/index.tsx:594-648 | The result is positive exactly when a good-deed or redemption word occurs, and then lies in [3, 6]. It is negative exactly when neither occurs, a sin word does and no repentance word does, and then lies in [-8, -4]. Otherwise it is 0. |
| Analyzer.EveryRewardReachable | supabase/functions/server/index.tsx:613 | Every reward from 3 to 6 is drawn for some random value. |
| Analyzer.EveryPenaltyReachable | supabase/functions/server/index.tsx:619 | Every penalty from -8 to -4 is drawn for some random value. |
| Analyzer.GoodDeedAnywhereRewarded | supabase/functions/server/index.tsx:607-613 | A good-deed word in any message earns at least +3, whatever sin words appear too. |
| Analyzer.SummaryTellsVerdict | supabase/functions/server/index.tsx:612-640 | The five branches have pairwise different summaries. |
| Analyzer.Analyze | supabase/functions/server/index.tsx:478-586 | Missing or empty messages give 400, otherwise 200 with a score in [-10, 10]. A model verdict is passed through with its score clamped. Without one, the summary and reasoning are one of the fallback's five pairs. |
| Analyzer.AnalyzeFallsBack | supabase/functions/server/index.tsx:494-498 | With no model verdict, the answer is the keyword fallback run on the transcript. |
| Responder.FirstMatch | src/app/components/confession-chat.tsx:179-217 | The index of the first rule with a matching word: that rule matches and no earlier one does. Otherwise it is the rule count. |
| Responder.ClientRulesInOrder | src/app/components/confession-chat.tsx:179-217 | The client tests sin, repentance, fear, loneliness and anger in that order, each theme once. |
| Responder.ClassifyChoosesFirst | src/app/components/confession-chat.tsx:179-220 | With distinct themes, rule i's theme is chosen exactly when one of its words occurs and no earlier rule's word does. |
| Responder.ClassifyGeneral | src/app/components/confession-chat.tsx:219-220 | The default reply is chosen exactly when no rule's word occurs. |
| Responder.ClientSinFirst | src/app/components/confession-chat.tsx:179-185 | A sin word makes the reply the sin reply, whatever else is said (for example, an anger word). |
| Responder.ClientAngerLast | src/app/components/confession-chat.tsx:211-217 | The anger reply comes exactly when an anger word occurs and no word of the four earlier themes does. |
| Responder.ClientThemeCaseInsensitive | src/app/components/confession-chat.tsx:176 | Lower-casing the input first does not change the reply. |
| Responder.GenerateAIResponse | src/app/components/confession-chat.tsx:175-221 | The reply is one of the six fixed theme replies. |
| Responder.ServerRulesExtendClient | supabase/functions/server/index.tsx:918-990 | Each server rule is the client's rule of the same theme plus one extra word. |
| Responder.GenerateSimpleResponse | supabase/functions/server/index.tsx:918-998 | The reply index is within its theme's pool: two replies per theme, three for the general one. |
| Responder.EveryServerReplyReachable | supabase/functions/server/index.tsx:932 | Every reply in the chosen theme's pool is drawn for some random value. |
| Responder.ServerThemeNoLater | supabase/functions/server/index.tsx:918-998 | The server settles on a theme no later in the cascade than the client would. |
| Responder.ServerAgreesWithClient | supabase/functions/server/index.tsx:918-998 | Without any of the server's five extra words, server and client choose the same theme. |
| ProfileView.KarmaLevel | src/app/components/profile.tsx:88-94 | The bands are ≥100 "Праведник", ≥50 "Благочестивый", ≥10 "Ищущий", >0 "Начинающий", and "Новичок" otherwise. |
| ProfileView.LevelMonotone | src/app/components/profile.tsx:88-94 | More karma never gives a lower level. |
| ProfileView.LevelNamesDistinct | src/app/components/profile.tsx:88-94 | The five level names are pairwise different. |
| ProfileView.KarmaTone | src/app/components/profile.tsx:81-86 | The bands are ≥100 green, ≥50 blue, ≥0 yellow, and red below 0. |
| ProfileView.ToneMatchesLevel | src/app/components/profile.tsx:81-94 | Green and blue coincide with the two top levels. Yellow covers the lower three levels for non-negative karma, so 0 is yellow yet "Новичок". Red is always "Новичок". |
| ProfileView.ProgressWidth | src/app/components/profile.tsx:272 | The width is capped at 100, is full exactly from 100, and equals the karma below that, with no lower bound. |
| ProfileView.ProgressFullAtTopLevel | src/app/components/profile.tsx:272 | The bar is monotone in karma and full exactly at the top level. |
| ProfileView.FromStored | src/app/lib/supabase.ts:69 | The screen's profile carries the stored record's subscription flag, present or absent, and its karma read as `karma || 0`. |
| ProfileView.FetchProfile | src/app/lib/supabase.ts:47-80 | `getUserProfile` never yields null. An ok answer gives the stored profile. A 404 or a failed request gives the default profile, which has no subscription flag. |
| ProfileView.Loaded | src/app/components/profile.tsx:41-47 | A fetched profile replaces both the shown profile and the form copy. The null branch leaves the screen as it was. |
| ProfileView.LoadReplaces | src/app/components/profile.tsx:41-47 | Loading through `getUserProfile` always replaces both copies, with the stored flag when the GET is ok and the default profile otherwise. |
| ProfileView.Edit | src/app/components/profile.tsx:58-61 | Editing starts from the shown profile. |
| ProfileView.Cancel | src/app/components/profile.tsx:63-66 | The form copy is reset to the shown profile and editing ends. The shown profile is unchanged. |
| ProfileView.Save | src/app/components/profile.tsx:68-79 | On success the form copy becomes the shown profile and editing ends. On failure the shown profile and editing flag are unchanged. `isSaving` is cleared either way. |
| ProfileView.CancelDiscardsEdits | src/app/components/profile.tsx:58-66 | Edit, type, cancel ends where cancelling without typing would. |
| ProfileView.SaveShowsTyped | src/app/components/profile.tsx:68-74 | After a successful save the screen shows what was typed, and editing again starts from it. |
| ProfileView.SaveBody | src/app/lib/supabase.ts:32 | The saved body carries the form's karma and names, and its subscription flag exactly when the loaded profile had one. |
| ProfileView.SaveWritesLoadedKarma | src/app/components/profile.tsx:70 | The server stores the form's karma on save, whatever karma it held. |
| ProfileView.SaveWritesLoadedSubscription | supabase/functions/server/index.tsx:241 | A save stores the loaded subscription flag over the current one. Only a form loaded from the default profile keeps the stored flag. |
| ProfileView.SaveUndoesLaterSubscription | src/app/components/profile.tsx:41-79 | Load an unsubscribed profile, grant the subscription by a later PUT, then save: the flag is false again and check-limit applies the free limit of 2. |
| Admin.Filter | src/app/components/admin-panel.tsx:147-155 | Keeps exactly the elements that pass the test, never more elements than the input. |
| Admin.FilterAppend | src/app/components/admin-panel.tsx:147-155 | Filtering distributes over concatenation, so kept elements stay in their original order. |
| Admin.FilteredUsers | src/app/components/admin-panel.tsx:147-150 | A user is shown exactly when the lower-cased name or e-mail contains the lower-cased query. |
| Admin.FilteredFeedback | src/app/components/admin-panel.tsx:152-155 | A report is shown exactly when the author name or message contains the query, ignoring case. |
| Admin.EmptyQueryShowsAllUsers | src/app/components/admin-panel.tsx:147-150 | An empty query shows the whole user list, unchanged. |
| Admin.EmptyQueryShowsAllFeedback | src/app/components/admin-panel.tsx:152-155 | An empty query shows all feedback, unchanged. |
| Admin.UserSearchKeepsOrder | src/app/components/admin-panel.tsx:147-150 | The filtered users are an order-preserving selection of the list. |
| Admin.FeedbackSearchKeepsOrder | src/app/components/admin-panel.tsx:152-155 | The filtered feedback is an order-preserving selection of the list. |
| Admin.UserSearchIgnoresCase | src/app/components/admin-panel.tsx:147-150 | Lower-casing the query does not change the result. |
| Admin.FilterCountsKept | src/app/components/admin-panel.tsx:159 | A filter keeps one element per position that passes the test. |
| Admin.ComputeStats | src/app/components/admin-panel.tsx:157-163 | `totalUsers` is the list length. `subscribedUsers` is the number of positions holding a subscribed user, and `newFeedback` the number holding a report with status "new". Both totals are 0 for no users. |
| Admin.SubscribersPartitionUsers | src/app/components/admin-panel.tsx:159 | Subscribed plus unsubscribed users equals all users. |
| Admin.TotalsAdd | src/app/components/admin-panel.tsx:160-161 | The confession and donation totals of two parts of the list add up, and appending one user adds exactly that user's confession count and donations. With the zero totals of the empty list, the totals are the sums of the per-user fields. |
| Admin.TotalsOfOne | src/app/components/admin-panel.tsx:160-161 | One user's totals are that user's own confession count and donations. |
| Admin.TotalsNonNegative | src/app/components/admin-panel.tsx:160-161 | Non-negative per-user figures give non-negative totals. |
| Admin.StatusLabel | src/app/components/admin-panel.tsx:178-189 | The three known statuses get their Russian names; any other text is shown unchanged. |
| Admin.StatusTranslatedIffKnown | src/app/components/admin-panel.tsx:178-189 | A status is translated exactly when it is one the server accepts. |
| Admin.StatusLabelsDistinct | src/app/components/admin-panel.tsx:178-189 | The three known statuses get different labels. |
| Admin.TableKarmaTone | src/app/components/admin-panel.tsx:346-348 | The table's karma colour is green from 50, yellow from 0, and red below 0. |
| History.FormatAge | src/app/components/confessions-history.tsx:53-73 | Exactly one bucket is chosen: minutes below an hour, hours below a day, days below a week, else a calendar date. Each count is the floor of the age in its unit, with hours in 1..23 and days in 1..6. |
| History.FormatAgeMonotone | src/app/components/confessions-history.tsx:61-73 | An older confession never gets a finer bucket. |
| History.FutureReadsNegativeMinutes | src/app/components/confessions-history.tsx:56-62 | A creation time in the future reads as a negative number of minutes. |
| History.KarmaBadge | src/app/components/confessions-history.tsx:147-167 | A badge appears exactly on completed confessions. The trend is up or down exactly for a positive or negative change. |
| History.BadgeSignShowsTrend | src/app/components/confessions-history.tsx:164-167 | The badge text starts with '+' exactly for a gain, '-' exactly for a loss, and '0' exactly for no change. |
| History.Title | src/app/components/confessions-history.tsx:173 | The title is the summary when it is non-empty, and is never empty. |
| History.Preview | src/app/components/confessions-history.tsx:177-179 | The preview is the last message's text, or "Нет сообщений" when there are no messages. |
| History.PreviewFollowsLastMessage | src/app/components/confessions-history.tsx:177-179 | Appending a message makes it the preview. |
| Donation.ClampAmount | src/app/components/donation-modal.tsx:203 | The typed amount is clamped into [1, 10000]; it is kept as-is when already in range. |
| Donation.ClampIdempotent | src/app/components/donation-modal.tsx:203 | Clamping twice equals clamping once. |
| Donation.Adjust | src/app/components/donation-modal.tsx:105-203 | The slider sets its value, a quick button sets one of 5/10/25/50, and the typed field sets the clamped value. |
| Donation.AmountStaysInRange | src/app/components/donation-modal.tsx:9-203 | Starting from 5, any sequence of control uses keeps the amount in [1, 10000]. |
| Donation.TextTier | src/app/components/donation-modal.tsx:17-24 | Six thank-you bands, each one exactly: below 5, [5, 10), [10, 25), [25, 50), [50, 100), and from 100. |
| Donation.HeartTier | src/app/components/donation-modal.tsx:26-32 | Five heart sizes, each one exactly: below 10, [10, 25), [25, 50), [50, 100), and from 100. |
| Donation.HeartFollowsText | src/app/components/donation-modal.tsx:17-32 | The heart's band is the text's band minus one, floored at 0. |
| Donation.FeedbackMonotone | src/app/components/donation-modal.tsx:17-32 | A larger amount never gets a lesser text or a smaller heart. |
| Donation.HandleDonate | src/app/components/donation-modal.tsx:11-15 | Donating shows thanks for the amount and closes the dialog. Nothing is sent or stored. |
| Chat.HandleSend | src/app/components/confession-chat.tsx:41-53 | Blank or whitespace-only input changes nothing. Otherwise exactly one user message with the input is appended, the field is cleared, typing shows, and the input is kept for the reply. |
| Chat.DeliverReply | src/app/components/confession-chat.tsx:56-66 | Exactly one assistant message, carrying the reply, is appended, and typing hides. The page passes the reply to the text captured at send time (`Chat.Exchange`). |
| Chat.ExchangeAppendsPair | src/app/components/confession-chat.tsx:41-66 | A non-blank send followed by its reply appends the user's words and then the theme reply, and nothing else. |
| Chat.ExchangeKeepsTurns | src/app/components/confession-chat.tsx:41-66 | Whatever the responder answers, an exchange keeps the conversation at odd length, ending with the assistant. |
| Chat.ConversationEndsWithAssistant | src/app/components/confession-chat.tsx:41-66 | When each reply arrives before the next send, after any number of exchanges from a conversation awaiting the user, the assistant has answered every message. |
| Chat.GreetingAwaitsUser | src/app/components/confession-chat.tsx:12-19 | The conversation opens with the assistant's greeting alone, so it starts out awaiting the user. |
| Chat.SendKeepsOrder | src/app/components/confession-chat.tsx:41-53 | A send while replies are still pending adds its text to the user's messages and, in the same order, to the pending timers. |
| Chat.FireKeepsOrder | src/app/components/confession-chat.tsx:56-66 | A timer answers the oldest unanswered message, with the reply to the text it captured. |
| Chat.ReplayKeepsOrder | src/app/components/confession-chat.tsx:41-73 | However typing, sends and timers interleave, reply i answers user message i, and the unanswered messages are exactly the pending timers' texts. |
| Chat.QuietPageAnswersAll | src/app/components/confession-chat.tsx:12-73 | From the greeting, once no timer is pending, the assistant has spoken once more than the user, and each user message has its reply in order. |

## Left out

- Authentication and the admin bootstrap (`ensureAdminExists`, sign-in and sign-up) are not modelled. They are calls into the Supabase auth SDK.
- The `GET admin/users` endpoint is not modelled for the same reason: it lists users through the SDK. `GET admin/feedback` is a prefix scan plus sort like the confession list, and it is not modelled separately.
- The language-model calls in the analyzer, the chat endpoint and text-to-speech are not modelled, with their prompts, the JSON parsing of the model's output and the base64 audio encoding. They are network calls. Their outcome enters `Analyzer.Analyze` only as the optional verdict parameter, and the server responder models only the fallback.
- src/app/lib/supabase.ts, the client's HTTP wrapper, is not part of this model. The components' calls through it are taken to reach the handlers as requests.
- Two records created in the same millisecond share a key, and the later one overwrites the earlier. The model keeps that overwrite, but `Invariant.CreateKeeps` assumes the key is fresh.
- The model has no concurrency. Handlers run one at a time, so read-modify-write races on a profile are not modelled.
- Loose typing is not modelled. An absent `karmaChange` in a completion request makes the source store `0` on the confession but add `undefined` (giving NaN) to the profile; the model takes the delta as an integer. Non-integer amounts and a `NaN` typed amount are not modelled.
- Handlers.GetConfession: a key holding another kind of record reads as 404. The source returns whatever record is there.
- Handlers.CompleteConfession: a key holding another kind of record gives 404. The source marks that record completed and credits the delta to `profile:<its userId>`. Drafts, donations and feedback carry a `userId`, so that credit is one the ledger does not count. `Invariant.RunKeepsLedger` does not cover a completion aimed at a non-confession key.
- Handlers.UpdateFeedbackStatus: a key holding another kind of record gives 404. The source adds `status` and `updatedAt` to whatever record is there, which changes no karma and no ledger.
- Chat: the typing indicator hides when the first pending reply arrives, even if a later one is still due. `Chat.Page` keeps the flag as the source sets it, but no lemma states anything about it.
- Invariant.RunKeepsLedger: it holds only for user ids without `:`. With a colon, `confession:a:` is a prefix of user `a:b`'s keys, and user `a`'s bulk delete would also count and delete `a:b`'s confessions.
- Scans.BulkDelete: removes every key under the prefix. The source deletes the `id` fields of the records found there. The two agree when each confession's id is its key, which `CreateConfession` guarantees.
- Local days are a fixed offset from UTC. Daylight-saving changes in `setHours(0, 0, 0, 0)` are not modelled.
- Text.Lower lower-cases only ASCII A–Z and the Cyrillic capitals U+0400–U+042F (Ѐ–Џ, which holds Ё, and А–Я). Accented Latin, Greek and every other script are left as they are, where `toLowerCase` would fold them.
- The server responder's reply texts are represented by the theme and the index into its pool. The strings themselves are not reproduced. The client's six replies are reproduced.
- Feedback `type`, `userEmail` and `imageBase64` are not modelled. They are stored as given and never read by the modelled logic.
- History's absolute date (`toLocaleDateString`) is not modelled: it depends on the browser locale.
- The donation dialog's glow, font size and brightness are not modelled: they are floating-point presentation.
- ProfileView.FromStored: a stored profile missing names or karma (only a donation to a user without a profile leaves one) reads as empty text and karma 0. The source's screen would hold `undefined`, and a save would then omit karma and keep the stored value.
- ProfileView.ProgressWidth: the source computes `(karma / 100) * 100` in floating point. The model uses the integer karma, ignoring rounding of the division.
- Rendering, scrolling, textarea resizing and the remaining presentation-only components are not modelled.
