# Bridge: cocoon report, session controller, profile page and role-play panel

Bridge is a news reader that shows a user how narrow or broad their reading
has been. This project models four parts of it in Dafny and proves
properties about them.

- **The cocoon report** (`CocoonService`, `cocoon_service.dfy`) takes the read
  history and the favorites. It returns:
  - the radar score of each of the six categories;
  - the blind spots;
  - the balance score and the diversity tier;
  - a recommended blind spot;
  - the weighted top-three topics;
  - the fixed summary texts.

  The two dictionaries the source fills in place are built by loops:
  - the category counts;
  - the per-topic weights.

  JavaScript's own key order for `Object.values` is modelled in `JsObject`
  (`js_object.dfy`). So ties in the ranking come out in the order the source
  produces them.
- **The session controller** (`AppSession`, `app.dfy`) is the state `App`
  keeps for one session, modelled as the class `Session`.
  - Each handler is a method: opening a topic, toggling a favorite, the
    search box, back, opening the profile, dismissing the error, saving the
    profile.
  - Each completion of asynchronous work is also a method, called with its
    outcome:
    - the first and second search stages, each succeeding or failing;
    - the poller's minute timer;
    - the refresh timeout.
  - A ghost record counts the work still in flight. A completion can only
    happen for work that was started.
- **The profile page** (`ProfilePage`, `profile_page.dfy`) covers:
  - the favorites search;
  - the grouping of favorites by category, a loop that fills a map in place;
  - the reading history shown newest first;
  - the upgrade to Pro;
  - the membership goals.
- **The role-play panel** (`RolePlayGame`, `role_play_game.dfy`) is modelled
  as the class `Game`. It covers:
  - how the panel's mode is chosen;
  - the dilemma rounds: choice, feedback, next, completion and reset;
  - the expert chat: its opening message and its guarded send;
  - the reply, or the fixed notice when the request fails.

Shared definitions:

- `types.dfy`: the records. A topic is an identity plus a map of named
  fields. The object spread `{ ...prev, ...deep }` is a right-biased map
  union (`Types.Merge`). A field that is absent, `false`, `""` or `0` is
  falsy, as in JavaScript.
- `text.dfy`: `trim`, `toLowerCase` and `includes`.
- `seqs.dfy`: `filter` and the order facts about it.
- `constants.dfy`: the goal targets and the first three catalog entries.

Where the code and the documented behaviour of the system disagree, the
model follows the code:

- The second search stage merges its result into the selected topic and into
  the favorites, and not into the read history (App.tsx:130-149).
- A failed first stage sends the view to the home feed (App.tsx:154). It does
  not go back to whatever was shown before.
- Toggling the same record twice restores which identities are favorites
  (`AppSession.ToggleTwiceIds`). It restores the exact list only when the
  record was not a favorite before (`AppSession.ToggleTwiceAbsent`). When it
  was, the first toggle removes every entry with that identity, and the
  second appends the record once, at the end.
- An empty history gives the tier Explorer (`CocoonService.EmptyHistory`):
  its balance score is 100 but it has no more than five reads.
- Ties in the ranking are not left unspecified. `Object.values` lists
  integer-like identities first, in ascending numeric order, and then the
  other identities in the order they were first seen. `Array.prototype.sort`
  is stable, and so is the model's sort (`CocoonService.SortDescStable`), so
  equal weights keep that order.

## Model

| member | source | states |
|---|---|---|
| Types.Merge | App.tsx:134 | the spread keeps the identity; its fields are the union of both; a field of the partial result overrides; other fields are kept |
| JsText.BlankIffAllSpace | App.tsx:111 | `Trim` (`trim()`) gives the empty string exactly when `Blank` holds, that is when every character is white space |
| JsText.TrimStart | App.tsx:111 | leading white space is dropped and what remains starts with no white space |
| JsText.TrimEnd | App.tsx:111 | trailing white space is dropped and what remains ends with no white space |
| JsText.ToLower | components/ProfilePage.tsx:57-58 | lower-casing keeps the length and maps each character on its own |
| JsText.ToLowerIdempotent | components/ProfilePage.tsx:57-58 | lower-casing twice equals lower-casing once |
| JsText.Includes | components/ProfilePage.tsx:57-58 | `includes` is true exactly when the needle occurs at some position |
| JsText.IncludesEmpty | components/ProfilePage.tsx:57-58 | every string includes the empty string |
| JsObject.OwnKeys | services/cocoonService.ts:85 | the enumeration order of object keys is a permutation of the insertion order |
| JsObject.IndexKeysFirst | services/cocoonService.ts:85 | integer-like keys come before all other keys, in ascending numeric order |
| JsObject.StringKeysKeepOrder | services/cocoonService.ts:85 | non-integer keys keep their insertion order |
| JsObject.StringKeysInInsertionOrder | services/cocoonService.ts:85 | when no key is integer-like, the enumeration order is the insertion order |
| JsObject.IndexKeysByValue | services/cocoonService.ts:85 | the keys "11" then "1" are enumerated as "1", "11" |
| JsObject.Values | services/cocoonService.ts:85 | `Object.values` lists one value per key, in the key enumeration order |
| CocoonService.CountIn | services/cocoonService.ts:15-19 | a category's count never exceeds the number of reads |
| CocoonService.CountAppend | services/cocoonService.ts:15-19 | counting a concatenated history adds the two counts |
| CocoonService.CountPermutation | services/cocoonService.ts:15-19 | reordering the history leaves every category count unchanged |
| CocoonService.ReadsAreSplit | services/cocoonService.ts:8-19 | the six counts plus the reads with no known category add up to the total reads |
| CocoonService.CountCategories | services/cocoonService.ts:9-19 | the counts map has exactly the six categories as keys, each with the number of reads of that category |
| CocoonService.ScoreOf | services/cocoonService.ts:23-33 | the score is one of 0, 40, 60, 80 and 100; it is 0 exactly for a count of 0; one read gives 40; four or more give 100 |
| CocoonService.ScoreMonotone | services/cocoonService.ts:26 | more reads never lower a score, and each read up to the fourth raises it |
| CocoonService.BlindSpotsMembers | services/cocoonService.ts:36 | a subject is a blind spot exactly when some radar entry for it scores 0 |
| CocoonService.BlindSpotsInOrder | services/cocoonService.ts:36 | the blind spots keep the radar's order |
| CocoonService.BlindSpotsExact | services/cocoonService.ts:23-36 | `BlindSpots`, the filter and map of `BlindSpotsOf` over `RadarData` (the radar built from the counts, as `RadarFromCounts` builds it from the counts map), are exactly the categories never read, in category order |
| CocoonService.AllBlind | services/cocoonService.ts:36 | when every score is 0, every subject is a blind spot |
| CocoonService.BlindSpotsAfterTwo | services/cocoonService.ts:36 | when only the first two subjects score, the blind spots are the other four |
| CocoonService.RoundedDeviation | services/cocoonService.ts:42-45 | the least whole k at which k + 1/2 reaches the standard deviation, capped at 100 |
| CocoonService.BalanceScore | services/cocoonService.ts:38-45 | the balance score is at most 100 |
| CocoonService.RoundingIsExact | services/cocoonService.ts:42-45 | 100 minus the rounded deviation equals `Math.max(0, Math.round(100 - sd))`, with `JsRound` as `Math.round` (halves up), for a non-negative sd whose square is the variance |
| CocoonService.BalanceMatchesFormula | services/cocoonService.ts:38-45 | the balance score is `Math.max(0, Math.round(100 - sqrt(variance)))`, where `Mean` and `Variance` are the population mean and variance of the six radar scores |
| CocoonService.EvenScoresBalance | services/cocoonService.ts:38-45 | six equal scores give a balance of 100 |
| CocoonService.ReportIgnoresOrder | services/cocoonService.ts:8-45 | histories that are permutations of each other give the same radar, blind spots, balance and total |
| CocoonService.Tier | services/cocoonService.ts:48-51 | each of the four tiers holds exactly when the first matching rule picks it |
| CocoonService.TierMonotone | services/cocoonService.ts:48-51 | a higher score with more reads never gives a lower tier |
| CocoonService.PickIndex | services/cocoonService.ts:56 | `Math.floor(random * n)` is an index below n |
| CocoonService.Recommend | services/cocoonService.ts:54-57 | a recommendation exists exactly when there is a blind spot, and it is one of them |
| CocoonService.RecommendReachesEvery | services/cocoonService.ts:56 | every blind spot is recommended for some random draw |
| CocoonService.CountIdPresence | services/cocoonService.ts:73-81 | an identity has a non-zero occurrence count exactly when it occurs |
| CocoonService.CountIdUnique | services/cocoonService.ts:79-82 | in a list with unique identities (`UniqueIds`) an identity is counted once when it occurs and otherwise not at all |
| CocoonService.FavoriteWeighsThree | services/cocoonService.ts:78-82 | with unique favorites, a favorite adds exactly 3 to its identity's weight, on top of one per view |
| CocoonService.FirstIndex | services/cocoonService.ts:74 | the position of the first record with a given identity |
| CocoonService.DistinctIds | services/cocoonService.ts:70-82 | the identities each once, and all of them; the first-seen order is stated by `DistinctSnoc` |
| CocoonService.DistinctSnoc | services/cocoonService.ts:73-82 | appending a record leaves the distinct identities unchanged when its identity is known, and otherwise puts the new identity last: identities are listed in the order first seen |
| CocoonService.InsertDesc | services/cocoonService.ts:86 | inserting into a ranking adds exactly that entry |
| CocoonService.InsertDescSorted | services/cocoonService.ts:86 | inserting keeps a ranking non-increasing |
| CocoonService.SortDesc | services/cocoonService.ts:86 | the sort by descending weight returns a non-increasing permutation of its input |
| CocoonService.InsertDescStable | services/cocoonService.ts:86 | inserting an entry goes after none of the entries with its weight, so it keeps their order |
| CocoonService.SortDescStable | services/cocoonService.ts:86 | the sort is stable: for each weight, the entries of that weight keep their order |
| CocoonService.ScoredTopicsFacts | services/cocoonService.ts:70-85 | `ScoredTopics` (`Entries` of the key enumeration order) has one entry per distinct identity, none twice, each with its first record (`FirstWith`) and its weight (`Weight`: `CountId` views + 3 × `CountId` favorites) |
| CocoonService.RankedEntries | services/cocoonService.ts:70-86 | after sorting, one entry per distinct identity, with distinct identities and true weights |
| CocoonService.Top3Facts | services/cocoonService.ts:84-87 | `Top3`, the sorted list cut to three, has min(3, number of distinct identities) entries, non-increasing, distinct, each with its first record and views + 3 × favorites |
| CocoonService.Top3Omitted | services/cocoonService.ts:84-87 | an identity left out of the top list weighs no more than the third entry, and the list is then full |
| CocoonService.RankTwo | services/cocoonService.ts:84-87 | with two identities, the heavier is listed first |
| CocoonService.WeightExample | services/cocoonService.ts:69-87 | viewed twice and favorited once weighs 5 and ranks above favorited only, which weighs 3 |
| CocoonService.Project | services/cocoonService.ts:88-92 | each ranked entry becomes its title, weight and category; an absent title or category stays absent (`undefined`) |
| CocoonService.UserTopTopics | services/cocoonService.ts:84-92 | `userTopTopics` has min(3, number of distinct identities) entries with non-increasing scores, each the title and category of an identity's first record and its views + 3 × favorites |
| CocoonService.FocusSummary | services/cocoonService.ts:96-105 | no top topics exactly when the not-enough-history text is used; one uses the focused template, two or more the centered template; the text names the first top topic's title and then its category, each as `Printed` prints it (`undefined` when absent, as a template literal does), and ends with the template's closing words |
| CocoonService.Printed | services/cocoonService.ts:96-105 | a present text field prints as itself, an absent one as `undefined` |
| CocoonService.Themes | services/cocoonService.ts:63-66 | the first three catalog records, each as its title and category (either possibly absent) |
| CocoonService.IdSetAppend | services/cocoonService.ts:73-81 | the identities of two lists joined are the identities of each |
| CocoonService.ViewBump | services/cocoonService.ts:73-76 | a view of a known identity adds 1 to its weight and keeps the table exact |
| CocoonService.ViewEnter | services/cocoonService.ts:73-76 | a view of a new identity enters it with its record and weight 1 |
| CocoonService.FavoriteBump | services/cocoonService.ts:79-82 | a favorite of a known identity adds 3 to its weight and keeps the table exact |
| CocoonService.FavoriteEnter | services/cocoonService.ts:79-82 | a favorite of a new identity enters it with its record and weight 3 |
| CocoonService.AddView | services/cocoonService.ts:73-76 | one step of the views loop keeps the table exact for the history read so far |
| CocoonService.AddFavorite | services/cocoonService.ts:79-82 | one step of the favorites loop keeps the table exact for the favorites read so far |
| CocoonService.CountViews | services/cocoonService.ts:72-76 | after the views loop, each identity maps to its first record and its view count, in first-seen order |
| CocoonService.ScoreTopics | services/cocoonService.ts:70-82 | after both loops, each identity maps to its first record and views + 3 × favorites, in first-seen order |
| CocoonService.ValuesAreScored | services/cocoonService.ts:85 | `Object.values` of the table lists the scored entries in key enumeration order |
| CocoonService.RankTopTopics | services/cocoonService.ts:84-92 | the imperative ranking returns the top topics defined by the ranking functions |
| CocoonService.GenerateCocoonReport | services/cocoonService.ts:7-125 | every field of the report: total reads, radar, blind spots, balance, tier, recommendation, themes, top topics and both summaries |
| CocoonService.EmptyHistory | services/cocoonService.ts:8-57 | no reads: every score 0, all six categories blind, balance 100, tier Explorer, a recommendation given |
| CocoonService.NothingToRank | services/cocoonService.ts:84-105 | no reads and no favorites: no top topics and the not-enough-history text |
| CocoonService.TechTechPolicy | services/cocoonService.ts:8-51 | two Tech reads and one Policy read: Policy 40, Tech 60, the other four blind, balance 76, tier Explorer |
| CocoonService.VarianceOfExample | services/cocoonService.ts:39-41 | the scores 40, 60, 0, 0, 0, 0 have variance 5300/9 |
| CocoonService.DeviationOfExample | services/cocoonService.ts:42-45 | that variance rounds to a deviation of 24 |
| AppSession.CountRead | App.tsx:83-91 | the outside-cocoon counter rises by 1 exactly when `OutsideCocoon` holds: `IsInternational`, or `HasCategory` with a category other than Tech; no other counter changes |
| AppSession.CountReadsTotal | App.tsx:83-91 | `CountReads`, reading a list one topic after another, raises the counter by the number of outside-cocoon topics in it, and changes nothing else |
| AppSession.Toggled | App.tsx:98-107 | a record whose identity is not a favorite is appended; otherwise its identity stops being a favorite |
| AppSession.ToggleRemoves | App.tsx:100-102 | removal (`WithoutId`, the filter of line 102) keeps the other entries in order and drops exactly the entries with that identity |
| AppSession.ToggleTwiceIds | App.tsx:98-107 | toggling twice restores the set of favorite identities |
| AppSession.ToggleTwiceAbsent | App.tsx:98-107 | adding and then removing a record gives back the original list |
| AppSession.MergeMatching | App.tsx:139-144 | every favorite with the identity gets the partial result merged in; other entries and the length are unchanged |
| AppSession.MergeMatchingKeepsIds | App.tsx:139-144 | merging keeps every identity in its place |
| AppSession.MergeMatchingUnique | App.tsx:139-144 | merging keeps the favorites' identities unique |
| AppSession.FilterUnique | App.tsx:102 | filtering a list with unique identities keeps them unique |
| AppSession.ToggledUnique | App.tsx:98-107 | toggling keeps the favorites' identities unique: a record is appended only when its identity is absent |
| AppSession.MergeMatchingIdempotent | App.tsx:139-144 | a second merge of the same result changes nothing |
| AppSession.MergeSelection | App.tsx:132-137 | the selected topic is merged only when it has the summary's identity, and is otherwise unchanged |
| AppSession.IsBlankQuery | App.tsx:111 | the query is ignored exactly when it is all white space |
| AppSession.Session.constructor | App.tsx:11-49 | the initial state: home view, nothing selected, the initial profile, empty history and favorites, the catalog feed, no pending updates, no work in flight; `Valid` (favorites keyed by identity, `UniqueIds`) holds, and every handler requires and keeps it |
| AppSession.Session.TopicClick | App.tsx:78-96 | the topic is appended to the history, the counters are bumped, the topic is selected and the detail view shown; nothing else changes |
| AppSession.Session.ToggleFavorite | App.tsx:98-107 | only the favorites change, to the toggled list, and they stay keyed by identity (`Valid`) |
| AppSession.Session.TypeQuery | App.tsx:192 | only the query changes |
| AppSession.Session.BeginSearch | App.tsx:109-115 | a blank query changes nothing; any other query raises the spinner, clears the error, shows the searching view and starts the first stage |
| AppSession.Session.StartSearch | App.tsx:113-115 | the spinner, the cleared error and the searching view; one first stage more in flight |
| AppSession.Session.SummaryArrived | App.tsx:118-130 | the summary is appended to the history, selected and shown; the query is cleared and the spinner stops; its second stage starts |
| AppSession.Session.SummaryFailed | App.tsx:151-156 | the error text is set, the home view is shown, the spinner stops, the history is unchanged |
| AppSession.Session.DeepDiveArrived | App.tsx:130-145 | the result is merged into the matching selection and favorites; the history and everything else are unchanged; the favorites stay keyed by identity (`Valid`) |
| AppSession.Session.DeepDiveFailed | App.tsx:146-149 | nothing the user sees changes |
| AppSession.Session.Tick | App.tsx:52-65 | the pending count rises by 1 when `HasNewContent` (a draw above 0.3) reports new content and is otherwise unchanged; the feed never changes |
| AppSession.Session.BeginRefresh | App.tsx:67-69 | the busy flag is raised and a timeout starts |
| AppSession.Session.RefreshCompleted | App.tsx:70-75 | the refresh time is set, the pending count is 0 and the busy flag is down |
| AppSession.Session.Back | App.tsx:159-162 | the home view, with nothing selected |
| AppSession.Session.OpenProfile | App.tsx:212 | the profile view |
| AppSession.Session.DismissError | App.tsx:253 | the error is cleared |
| AppSession.Session.SaveProfile | App.tsx:164-167 | the profile is replaced |
| ProfilePage.FilteredFavoritesExact | components/ProfilePage.tsx:56-59 | `FilteredFavorites` keeps the favorites' order and holds exactly those satisfying `MatchesSearch`: the lower-cased title or summary includes the lower-cased text |
| ProfilePage.EmptySearchKeepsAll | components/ProfilePage.tsx:56-59 | an empty search text keeps every favorite |
| ProfilePage.SearchIgnoresCase | components/ProfilePage.tsx:56-59 | searching for a text or for its lower-case form gives the same list |
| ProfilePage.FirstKeysMembers | components/ProfilePage.tsx:61-66 | `FirstKeys`, the keys in first-seen order, are exactly the `GroupKey`s of the topics: the category, or Uncategorized |
| ProfilePage.FirstKeysNoDup | components/ProfilePage.tsx:61-66 | no group key occurs twice |
| ProfilePage.GroupExisting | components/ProfilePage.tsx:63-64 | pushing onto an existing group keeps the grouping exact |
| ProfilePage.GroupNew | components/ProfilePage.tsx:63-64 | creating a group for a new key and pushing keeps the grouping exact |
| ProfilePage.GroupFavorites | components/ProfilePage.tsx:61-66 | the reduce gives each key, in first-seen order (`FirstKeys`), the filtered topics with that key, in order (`InGroup`) |
| ProfilePage.GroupingPartitions | components/ProfilePage.tsx:61-66 | each topic lands in the group of its key and only there; no group is empty; groups keep order; no keys exactly when nothing was filtered |
| ProfilePage.GroupSizesSnoc | components/ProfilePage.tsx:61-66 | one more topic adds one to the sizes when its key is among the keys |
| ProfilePage.GroupSizesAppendKey | components/ProfilePage.tsx:61-66 | one more key adds the size of its group |
| ProfilePage.GroupSizesTotal | components/ProfilePage.tsx:61-66 | the groups of the first-seen keys together hold every topic |
| ProfilePage.TotalIsGroupSizes | components/ProfilePage.tsx:61-66 | the groups of the map have the sizes of the per-key filters |
| ProfilePage.GroupingCountsAll | components/ProfilePage.tsx:61-66 | the groups together hold exactly as many items as were filtered |
| ProfilePage.NewestFirst | components/ProfilePage.tsx:264 | the history is listed in reverse: entry i is the i-th newest |
| ProfilePage.NewestFirstAppend | components/ProfilePage.tsx:264 | a newly read topic is listed first, above the earlier list |
| ProfilePage.NewestFirstInvolutive | components/ProfilePage.tsx:264 | reversing twice gives the history back |
| ProfilePage.Upgraded | components/ProfilePage.tsx:47-50 | the upgrade sets the plan to Pro and keeps every other field |
| ProfilePage.UpgradeIdempotent | components/ProfilePage.tsx:47-50 | upgrading twice is upgrading once |
| ProfilePage.UpgradeHidesGoals | components/ProfilePage.tsx:327-357 | `ShownGoals` is the five bars of `Goals` on the free plan and none after the upgrade |
| ProfilePage.InitialGoalsUnmet | components/ProfilePage.tsx:71 | no goal is met (`IsMet`: current at least the target) by a new session's profile |
| ProfilePage.ReadsGoalAfter | components/ProfilePage.tsx:71 | the outside-cocoon goal is met after a list of reads exactly when the counter plus its outside-cocoon topics reaches 20 |
| RolePlayGame.ModeOf | components/RolePlayGame.tsx:25-27 | chat when forced; otherwise the data's mode when set; a dilemma exactly when not forced and the data's mode is a dilemma, or is unset with rounds present |
| RolePlayGame.Opening | components/RolePlayGame.tsx:44-58 | the initial message when present, else the `Greeting` naming the role, else none; always from the model |
| RolePlayGame.CanSend | components/RolePlayGame.tsx:257 | a message may be sent exactly when no reply is awaited and the input is not blank |
| RolePlayGame.ReplyText | components/RolePlayGame.tsx:272-275 | the reply text, or the connection notice when the request failed |
| RolePlayGame.Game.constructor | components/RolePlayGame.tsx:20-40 | the first round, nothing chosen, no feedback, not complete, an empty log, empty input, not loading |
| RolePlayGame.Game.SelectOption | components/RolePlayGame.tsx:93-97 | ignored while feedback is shown; otherwise it records the option and shows feedback |
| RolePlayGame.Game.Choose | components/RolePlayGame.tsx:95-96 | records the option and shows feedback |
| RolePlayGame.Game.Next | components/RolePlayGame.tsx:99-107 | before the last round, the next round with choice and feedback cleared; on the last, completion with the index kept; the index stays below the number of rounds |
| RolePlayGame.Game.Advance | components/RolePlayGame.tsx:101-103 | the next round with choice and feedback cleared |
| RolePlayGame.Game.Reset | components/RolePlayGame.tsx:109-114 | the first round, nothing chosen, no feedback, not complete |
| RolePlayGame.Game.SwitchToChat | components/RolePlayGame.tsx:136-175 | a Pro viewer's dilemma becomes the chat, from the completion screen's button (lines 136-138) or the Debate button of a round (lines 167-175) |
| RolePlayGame.Game.BackToScenario | components/RolePlayGame.tsx:304-311 | the forced chat is turned off |
| RolePlayGame.Game.OpenChat | components/RolePlayGame.tsx:44-58 | the opening message is added only in chat mode to an empty log; otherwise nothing changes; the environment calls it after construction and after every change of mode or log |
| RolePlayGame.Game.TypeInput | components/RolePlayGame.tsx:355 | only the input changes |
| RolePlayGame.Game.SendMessage | components/RolePlayGame.tsx:255-263 | a blank input or a pending reply rejects the send and changes nothing; otherwise the user's message is logged, the input cleared and loading starts |
| RolePlayGame.Game.Post | components/RolePlayGame.tsx:259-262 | the user's message is logged, the input cleared and loading starts |
| RolePlayGame.Game.ReplyArrived | components/RolePlayGame.tsx:264-278 | one model message, the reply or the notice, joins the log and loading ends |
| RolePlayGame.Game.Converse | components/RolePlayGame.tsx:255-279 | an accepted send and its outcome grow the log by exactly the user's message then one model message, clear the input and end loading, and leave the mode and dilemma fields as they were |

## Left out

- Floating point: the mean, variance and standard deviation are computed
  exactly over the reals. `Math.sqrt` and `Math.round` are replaced by the
  least whole deviation that rounds correctly. `CocoonService.RoundingIsExact`
  shows that this equals `Math.max(0, Math.round(100 - sd))` for the exact
  square root.
- The goal bars' progress percentage (components/ProfilePage.tsx:70) is a
  floating-point width for display and is not modelled.
- Randomness:
  - `Math.random()` is a parameter `roll` with 0 <= roll < 1, in the
    recommendation pick and in the poller's check.
  - Clocks are a parameter `now`.
- Effects: `RolePlayGame.Game.OpenChat` is the chat-opening effect
  (components/RolePlayGame.tsx:44-58). React runs it after mount and after
  every change of the mode or the log; the model leaves that schedule to the
  environment, which is expected to call it at those points.
- Timers and scrolling:
  - `setInterval`, `setTimeout` and `clearInterval` become the event methods
    `Tick` and `RefreshCompleted`, which the environment calls.
  - The celebration timer of the upgrade is not modelled.
  - `window.scrollTo` and `scrollIntoView` are not modelled.
- The generation backend is not part of this model: `generateTopicSummary`,
  `generateTopicDeepDive` and `chatWithExpert`. Their results are the
  parameters of `SummaryArrived`, `DeepDiveArrived` and `ReplyArrived`, and
  their failures are the methods `SummaryFailed`, `DeepDiveFailed` and the
  `None` outcome. What is sent to them (the query, the profile, the chat
  history) is not modelled.
- Presentation: JSX, the radar chart, the icons and the translation lookup
  are not modelled. components/CocoonReport.tsx and
  components/SituationMap.tsx are not part of this model.
- components/ProfileModal.tsx is not part of this model. The application
  does not use it.
- The catalog: only the first three topics of `MOCK_TOPICS` are modelled,
  and only as far as the themes need them. The feed is a parameter of the
  session's constructor.
- The dilemma round contents (options, consequences, texts) are not
  modelled. A round is only an index. An option is only its number.
- The panel's screen for missing data, and its screen for a dilemma without
  rounds, are not states. `SelectOption`, `Next`, `Reset` and
  `SwitchToChat` require `DilemmaShown`, and `SendMessage`, `Converse` and
  `BackToScenario` require `ChatShown`: the conditions under which the
  source renders their buttons.
- `RolePlayGame.Game` fixes `data` and `isPro` at construction. The source
  receives them as props, which can change while the panel keeps its state
  (for example a second search stage updating the selected topic under an
  open panel, which re-runs the chat-opening effect). The model does not
  capture a panel keeping its state across new props.
- `ProfilePage.MatchesSearch`: a favorite's `title` or `summary` that is
  absent makes the source's filter throw. The model reads it as the empty
  string. In the report no title is read that way: the top topics and themes
  carry an absent title as absent, and the focus summary prints it as
  `undefined`.
- `CocoonService.ScoredTopics`, `CocoonService.ViewEnter` and
  `CocoonService.FavoriteEnter`: ids that name `Object.prototype`
  properties (such as `constructor`, `toString`, `__proto__`): the source
  omits them, because `topicScores[id]` finds the inherited property and no
  own entry is created; the model ranks them like any other id.
- `ProfilePage.GroupFavorites`: a category that names an `Object.prototype`
  property (such as `constructor`, `toString`, `__proto__`) makes the
  source's reduce throw (components/ProfilePage.tsx:63-64): `acc[cat]` finds
  the inherited value, so no group is created, and its `push` is not a
  function. The model creates the group and lists the topic. The page shows
  the groups through `Object.entries` (components/ProfilePage.tsx:216), so
  the order `FirstKeys` is the display order only when no category is
  integer-like; otherwise the display order is `JsObject.OwnKeys` of it,
  which the model does not compose.
- `Types.Merge`: a second-stage result is assumed to carry no `id`. In the
  source a result with an `id` field would replace the record's identity;
  the model keeps the identity apart from the merged fields.
- `JsText.ToLower` lower-cases only the letters A to Z. Unicode case mapping
  is not modelled.
- Editing the profile form (`handleChange`) and the form's reset from the
  saved profile are not modelled. `Upgraded` is applied to the form's
  profile, and `Session.SaveProfile` stores the result.
- AppSession.Session.BeginSearch: may be called while a search is running.
  The source disables the search box then (App.tsx:195, 240), and the model
  does not state that guard.
- AppSession.Session.BeginRefresh: may be called while a refresh is
  running. Each call starts one more timeout, as the source does.
- AppSession.ToggleTwiceIds: restores the set of favorite identities, not
  the exact list. The exact list comes back only when the record was not a
  favorite (`AppSession.ToggleTwiceAbsent`), because the source's toggle
  behaves that way.
