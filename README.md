# Mailumina support-email dashboard — a Dafny model

This project models the logic inside the Mailumina support-email dashboard:

- **Live page** (`frontend/src/pages/Index.tsx`). The page keeps a local copy of the
  `emails` table. An initial read fills the list. The realtime INSERT and UPDATE events
  then update it: each event's `sentiment` value is normalised to `{label, score}`, and
  the list is re-sorted by `priority_score`, highest first. Four action handlers share one
  busy marker, `actionLoading`. The pure updaters are in module `EmailFeed`
  (`email_feed.dfy`). The component state is the class `IndexPage.Page`
  (`index_page.dfy`), and the busy marker is also modelled as a small state machine over
  start and finish events.
- **Priority scoring** (`backend/app/nlp_utils.py`). The score is the sum of the weights
  of the `PRIORITY_KEYWORDS` that occur in the lower-cased text, plus 2 when the
  sentiment label starts with "NEG". This is modelled in module `NlpUtils`
  (`nlp_utils.dfy`): the scoring loop is a method proved against a specification
  function. The sentiment pipeline's answer, or a failure of the call or of reading its result, is a parameter.
- **Presentational components** over the mock `Email` record
  (`frontend/src/data/mockEmails.ts`, module `Mail`):
  - the Dashboard filter (`Dashboard`);
  - text truncation, the badge classes, the header counts and the row highlight (`EmailList`);
  - the integer analytics counts (`AnalyticsCards`);
  - the Edit/Save/Cancel state of the editable AI response (`EmailDetail`, class `DraftEditor`).

`Seqs` holds `Array.prototype.filter` and the notion of an order-preserving subsequence.
`Optional` holds `Option`.

Notes on the source's behaviour:

- The initial load does not sort. It keeps the order in which the query returned the rows
  (`order("priority_score", { ascending: false })`). The list is only guaranteed sorted
  after an INSERT or UPDATE event.
- On a read error the list is left as it was, not emptied. It is empty only if no realtime
  event arrived first. A successful load that completes after realtime events replaces
  them.
- An UPDATE whose id matches no row is well defined: the list is only re-sorted.
- The fetch action's marker is the sentinel -1. A row action on a row whose id is -1
  therefore also disables the fetch button (`StartDisablesOwnControl`).

## Model

| member | source | states |
|---|---|---|
| `EmailFeed.NormalizeSentiment` | frontend/src/pages/Index.tsx:22-28 | Null, undefined, booleans, numbers and strings give {label: "N/A", score: 0}. For an object, `label` and `score` are each kept when present, and each is replaced independently by "N/A" or 0 when it is missing or null. An empty label or a 0 score is kept. |
| `EmailFeed.NormalizeIdempotent` | frontend/src/pages/Index.tsx:22-28 | Normalising a normalised sentiment, stored back as an object, changes nothing. |
| `EmailFeed.Normalize` | frontend/src/pages/Index.tsx:52 | The spread keeps the id, sender, subject, body, received date, extracted info, score, status and draft of the row, and replaces only its sentiment by the normalised one. |
| `EmailFeed.LoadedRows` | frontend/src/pages/Index.tsx:41 | A successful read gives the fetched rows in the same order and number, each normalised. A null `data` gives the empty list. |
| `EmailFeed.SortByPriority` | frontend/src/pages/Index.tsx:53 | The comparator's sort returns a permutation of its input (same multiset) that is non-increasing in priority score. |
| `EmailFeed.InsertKeepsSorted` | frontend/src/pages/Index.tsx:53 | Inserting a row into a list sorted by descending score keeps it sorted. |
| `EmailFeed.ApplyInsert` | frontend/src/pages/Index.tsx:51-54 | INSERT gives a permutation of the new row followed by the previous list. It is one longer and sorted by descending score. |
| `EmailFeed.InsertKeepsRows` | frontend/src/pages/Index.tsx:52-53 | After an INSERT, a row is in the list iff it was there before or it is the new row, so no row is lost. |
| `EmailFeed.ReplaceById` | frontend/src/pages/Index.tsx:58-63 | The `.map` keeps the length. Every row whose id equals the incoming id becomes the incoming row, and every other row is kept. |
| `EmailFeed.ReplaceByIdMultiset` | frontend/src/pages/Index.tsx:58-63 | Rows with another id keep their multiplicity. No row other than the incoming one with the incoming id remains. |
| `EmailFeed.ApplyUpdate` | frontend/src/pages/Index.tsx:55-65 | UPDATE keeps the length. It is a permutation of the replaced list, sorted by descending score. |
| `EmailFeed.UpdateKeepsOtherRows` | frontend/src/pages/Index.tsx:57-65 | Every row whose id differs from the incoming one keeps its multiplicity through an UPDATE. |
| `EmailFeed.UpdateReplacesMatchingRows` | frontend/src/pages/Index.tsx:57-65 | After an UPDATE, every row carrying the incoming id is the normalised incoming row. That row is in the list iff some previous row had its id. |
| `EmailFeed.UpdateOfUnknownIdOnlySorts` | frontend/src/pages/Index.tsx:57-65 | An UPDATE for an id not in the list gives a permutation of the previous list, only re-sorted. |
| `EmailFeed.UrgencyLabel` | frontend/src/pages/Index.tsx:147-150 | The label is "Urgent" iff the score is strictly above 3, and "Normal" otherwise. |
| `EmailFeed.ShowsDraft` | frontend/src/pages/Index.tsx:165 | The draft block is shown iff the draft is neither null nor the empty string. |
| `EmailFeed.SentimentText` | frontend/src/pages/Index.tsx:158 | The shown sentiment text is never empty. A non-empty label is shown as is, and an empty one as "N/A". |
| `IndexPage.NextMarker` | frontend/src/pages/Index.tsx:76-117 | A start sets the marker to the action's marker, and a finish sets it to null, whatever it held before. |
| `IndexPage.FetchDisabled` | frontend/src/pages/Index.tsx:132 | The fetch button is disabled exactly while the marker is the fetch action's marker. |
| `IndexPage.RowDisabled` | frontend/src/pages/Index.tsx:180-195 | A row's three buttons are disabled exactly while the marker is the one any of that row's own actions sets. |
| `IndexPage.MarkerOf` | frontend/src/pages/Index.tsx:75-111 | The fetch action sets the marker to -1. The draft, resolve and send actions set it to their row's id. |
| `IndexPage.MarkerFollowsLastEvent` | frontend/src/pages/Index.tsx:75-118 | After any sequence of start and finish events, the marker depends only on the last event. |
| `IndexPage.FinishClearsMarker` | frontend/src/pages/Index.tsx:77-118 | A finish, failed or not, leaves the marker null whatever came before, so no control stays disabled. |
| `IndexPage.StartDisablesOwnControl` | frontend/src/pages/Index.tsx:129-198 | After a start, a row's buttons are disabled iff the row has the action's id. The fetch button is disabled iff the action is the fetch or its id is -1. |
| `IndexPage.SecondActionOverridesFirst` | frontend/src/pages/Index.tsx:75-118 | A second start re-enables the first action's controls while that action is still in flight. The first finish then clears the marker of the second. |
| `IndexPage.Page.constructor` | frontend/src/pages/Index.tsx:18-20 | The page starts with an empty list, loading, and no busy marker. |
| `IndexPage.Page.BeginLoad` | frontend/src/pages/Index.tsx:32 | Loading is set, and nothing else changes. |
| `IndexPage.Page.CompleteLoad` | frontend/src/pages/Index.tsx:38-43 | A successful read replaces the list with the loaded rows. An error leaves the list unchanged. Loading ends in both cases, and the busy marker is untouched. |
| `IndexPage.Page.OnInsert` | frontend/src/pages/Index.tsx:51-54 | The list becomes the INSERT result: one longer and sorted. Loading and the marker are unchanged. |
| `IndexPage.Page.OnUpdate` | frontend/src/pages/Index.tsx:55-66 | The list becomes the UPDATE result: same length and sorted. Loading and the marker are unchanged. |
| `IndexPage.Page.StartAction` | frontend/src/pages/Index.tsx:75-111 | An action starts only once loading is over, only while its control is enabled, and a row action only for a row in the list. The marker becomes the action's marker: -1 or the row id. The list and loading are unchanged. |
| `IndexPage.Page.FinishAction` | frontend/src/pages/Index.tsx:77-118 | The marker becomes null whatever the outcome and whatever it held. The list and loading are unchanged. |
| `NlpUtils.AnalyzeSentimentPriority` | backend/app/nlp_utils.py:30-44 | A failure of the pipeline call or of reading its answer gives ("NEUTRAL", 0.0). The score is the keyword part of the whole lower-cased text, plus 2 exactly when the upper-cased label starts with "NEG". It lies in 0..37. |
| `NlpUtils.Preview` | backend/app/nlp_utils.py:32 | The pipeline input is the prefix of the text of length min(length, 1000). A missing text gives the empty string. |
| `NlpUtils.KeywordPartAtMostWeights` | backend/app/nlp_utils.py:39-42 | Each keyword counts at most once, so the keyword part never exceeds the sum of the weights. |
| `NlpUtils.KeywordScore` | backend/app/nlp_utils.py:39-42 | The keyword part of a text is at most 35. |
| `NlpUtils.IsNegativeLabel` | backend/app/nlp_utils.py:43 | A label earns the bonus iff its first three characters are n, e, g in any mix of cases. |
| `NlpUtils.WeightsTotal` | backend/app/nlp_utils.py:8-12 | The weights of `PRIORITY_KEYWORDS` add up to 35. |
| `NlpUtils.KeywordScoreBounded` | backend/app/nlp_utils.py:8-12 | The weights of `PRIORITY_KEYWORDS` sum to 35, which bounds the keyword part. |
| `NlpUtils.KeywordPartAtLeastHit` | backend/app/nlp_utils.py:41-42 | A keyword that occurs contributes its full weight. |
| `NlpUtils.NoTextScoresZero` | backend/app/nlp_utils.py:39-42 | A None or empty text has keyword part 0. |
| `NlpUtils.NegativeLabels` | backend/app/nlp_utils.py:38-43 | The fallback label "NEUTRAL" earns no bonus. "NEGATIVE" and "negative" earn it, and "POSITIVE" does not. |
| `NlpUtils.LowerForgetsCase` | backend/app/nlp_utils.py:40 | Lower-casing an upper-cased or lower-cased text gives the text lower-cased. |
| `NlpUtils.ScoreIgnoresCase` | backend/app/nlp_utils.py:40-42 | The keyword part of a text equals that of its upper-cased and of its lower-cased form. |
| `NlpUtils.ContainsInLonger` | backend/app/nlp_utils.py:42 | A substring occurrence remains one when text is added on either side. |
| `NlpUtils.KeywordPartMonotone` | backend/app/nlp_utils.py:41-42 | If every keyword found in one text is found in another, the other's keyword part is at least as large. |
| `NlpUtils.ScoreMonotone` | backend/app/nlp_utils.py:39-42 | A text scores at least as much as any of its substrings. |
| `NlpUtils.KeywordAfterPreviewCounts` | backend/app/nlp_utils.py:32-42 | The scan reads the whole text: "urgent" after 1000 blanks is absent from the preview (keyword part 0) and still scores at least 5. |
| `Seqs.Filter` | frontend/src/components/Dashboard.tsx:27 | `.filter` returns an order-preserving subsequence of the input. An element occurs in it as often as in the input if it satisfies the predicate, and never otherwise. |
| `Seqs.FilterAppend` | frontend/src/components/AnalyticsCards.tsx:23-27 | Filtering distributes over concatenation. |
| `Mail.IsUrgent` | frontend/src/components/EmailList.tsx:119 | An email is urgent iff its priority is "urgent" (the only other value is "normal"). This test shows a list row's URGENT badge and drives the urgent filter and the urgent counts. |
| `Mail.UrgentCount` | frontend/src/components/AnalyticsCards.tsx:23 | The number of urgent emails is at most the list length. |
| `Mail.SentimentCount` | frontend/src/components/AnalyticsCards.tsx:24-26 | The number of emails with a given sentiment is at most the list length. |
| `Mail.ProcessedCount` | frontend/src/components/AnalyticsCards.tsx:27 | The number of processed emails is at most the list length. |
| `Mail.SentimentPartition` | frontend/src/data/mockEmails.ts:7 | Sentiment has three values, so the positive, negative and neutral counts sum to the list length. |
| `Mail.CountsAppend` | frontend/src/components/AnalyticsCards.tsx:23-27 | Each count over a concatenation is the sum of the counts over its two parts. |
| `Dashboard.Matches` | frontend/src/components/Dashboard.tsx:28-33 | "all" and unknown names match every email. "urgent" matches exactly the urgent emails, and each sentiment name exactly the emails with that sentiment. |
| `Dashboard.FilteredEmails` | frontend/src/components/Dashboard.tsx:27-34 | The result is an order-preserving subsequence of the list. Each email the active filter matches occurs in it as often as in the list, and no other email occurs. |
| `Dashboard.UnfilteredWhenAllOrUnknown` | frontend/src/components/Dashboard.tsx:28-33 | "all" and any unrecognised filter return the whole list unchanged. |
| `Dashboard.UrgentFilter` | frontend/src/components/Dashboard.tsx:29 | "urgent" keeps exactly the urgent emails in order. Its length is the urgent count. |
| `Dashboard.SentimentFilter` | frontend/src/components/Dashboard.tsx:30-32 | Each sentiment filter keeps exactly the emails with that sentiment in order. Its length is that sentiment's count. |
| `Dashboard.SentimentFiltersPartition` | frontend/src/components/Dashboard.tsx:30-32 | The lengths of the three sentiment filters sum to the list length. |
| `EmailList.SentimentColor` | frontend/src/components/EmailList.tsx:22-28 | Each sentiment string gets its own class. A string gets the muted class iff it is none of the three. |
| `EmailList.SentimentColorsDistinct` | frontend/src/components/EmailList.tsx:22-28 | Distinct sentiments get distinct badge classes. |
| `EmailList.TruncateText` | frontend/src/components/EmailList.tsx:49-51 | A text no longer than the limit is returned unchanged. A longer one becomes its first `n` characters plus "...", of length `n + 3`; a negative limit gives "...". The result always starts with the kept prefix. |
| `EmailList.Header` | frontend/src/components/EmailList.tsx:59-62 | The header count is the list length. The urgent badge count is the number of urgent emails, which is never more than the length. |
| `EmailList.IsHighlighted` | frontend/src/components/EmailList.tsx:75 | A row is highlighted iff its id equals the selected email's id, so the selected email's own row always is. |
| `EmailList.HighlightedRows` | frontend/src/components/EmailList.tsx:75 | With distinct ids, exactly one row is highlighted when the selected email's id is in the list, and none otherwise. |
| `AnalyticsCards.ComputeCounts` | frontend/src/components/AnalyticsCards.tsx:22-27 | The total is the list length. Each other count is the number of emails with that priority, sentiment or status, at most the total. Positive + negative + neutral equals the total. |
| `AnalyticsCards.CountsAdditive` | frontend/src/components/AnalyticsCards.tsx:23-27 | The counts of two lists together are the sums of their counts. |
| `AnalyticsCards.Render` | frontend/src/components/AnalyticsCards.tsx:38-98 | "Total Emails" shows the list length. "Urgent Priority" shows the same urgent count as the "Urgent Cases" badge (line 200). "Positive Sentiment" and the three sentiment rows show the per-sentiment counts under their labels, and the rows sum to the list length. |
| `EmailDetail.HeaderBadges` | frontend/src/components/EmailDetail.tsx:74-83 | The URGENT badge is shown iff the email is urgent. The sentiment badge comes last. |
| `EmailDetail.Initial` | frontend/src/components/EmailDetail.tsx:30-31 | On mount the editor holds the email's AI response and is not editing. |
| `EmailDetail.Step` | frontend/src/components/EmailDetail.tsx:182-205 | Edit flips the mode. A change sets the text and keeps the mode. Save leaves edit mode. Cancel gives the mount state for the current prop. A new prop keeps the mode. Only a new prop changes the prop, and only a change or Cancel changes the text. |
| `EmailDetail.RunAppend` | frontend/src/components/EmailDetail.tsx:182-205 | Running events one more step applies that event's handler to the state reached so far. |
| `EmailDetail.CancelRestoresInitial` | frontend/src/components/EmailDetail.tsx:202-205 | Whatever came before, Cancel returns the editor to the state a fresh mount with the current `email` prop has: that email's response, not editing. |
| `EmailDetail.TextChangesOnlyOnChange` | frontend/src/components/EmailDetail.tsx:182-205 | Without a change event and without a new `email` prop, the text stays the email's own response. |
| `EmailDetail.SelectionKeepsStaleText` | frontend/src/components/EmailDetail.tsx:29-31 | A new `email` prop keeps the text and the mode, so the previous email's response is shown under the new email. A Cancel afterwards gives the new email's initial state. |
| `EmailDetail.SaveKeepsLastChange` | frontend/src/components/EmailDetail.tsx:194-199 | A change followed by Edit clicks and Save keeps the typed value and leaves edit mode. |
| `EmailDetail.EditTogglesOnly` | frontend/src/components/EmailDetail.tsx:182 | Edit clicks never touch the text or the prop, and they flip the mode once per click. |
| `EmailDetail.DraftEditor.constructor` | frontend/src/components/EmailDetail.tsx:30-31 | The editor starts with the email's AI response and not editing. |
| `EmailDetail.DraftEditor.EditClick` | frontend/src/components/EmailDetail.tsx:182 | Edit flips the mode and leaves the text unchanged. |
| `EmailDetail.DraftEditor.Change` | frontend/src/components/EmailDetail.tsx:194 | A change replaces the text with the new value and keeps the mode. |
| `EmailDetail.DraftEditor.Save` | frontend/src/components/EmailDetail.tsx:199 | Save leaves edit mode and keeps the edited text. |
| `EmailDetail.DraftEditor.Cancel` | frontend/src/components/EmailDetail.tsx:202-205 | Cancel restores the current email's AI response and leaves edit mode. |
| `EmailDetail.DraftEditor.SelectEmail` | frontend/src/components/Dashboard.tsx:148 | A re-render with another `email` prop replaces the prop and keeps both state variables. |

## Left out

- Network and database I/O is not modelled: the Supabase read, update and subscription, `removeChannel` at teardown, and the `fetch` POSTs. The rows, realtime events and call outcomes they deliver are method arguments instead.
- Real concurrency is not modelled. Each action handler is split into `StartAction` and `FinishAction`. `StartAction` requires what the page checks before a click can reach a handler.
- `IndexPage.Page.FinishAction`: the model does not pair a finish with an earlier start of the same action. Any finish is accepted, while in the page each finish follows its own handler's start.
- The relative order of rows with equal `priority_score` after a sort is not stated. The model's insertion sort happens to be stable, but no contract relies on it.
- `EmailFeed.NormalizeSentiment`: a present `label` is modelled as a string and a present `score` as a real. A JavaScript object whose `label` holds some other type keeps it untouched, which the model does not represent.
- `NlpUtils.LowerForgetsCase`: `str.lower()` and `str.upper()` are modelled on ASCII letters only. Python's full Unicode case mapping, such as a character that lower-cases to two characters, is not represented.
- `NlpUtils.ScoreIgnoresCase`: holds for the ASCII case mapping of the model only. Under Python's full `str.upper()`, the long s (U+017F) upper-cases to `S` and the dotless i (U+0131) to `I`. So "aſap" scores 0 while its upper-cased form "ASAP" scores 4, and "crıtıcal" scores 0 while "CRITICAL" scores 5.
- `EmailDetail.Run`: `Step` and `Run` accept a change, Save and Cancel in either mode, while the page renders the text area and those two buttons only in edit mode. The lemmas about `Run` therefore cover every event sequence, a superset of the reachable ones. The `DraftEditor` methods `Change`, `Save` and `Cancel` require edit mode.
- `NlpUtils.AnalyzeSentimentPriority`: the method always returns. In the source, building the pipeline (`get_sentiment_pipeline()`, nlp_utils.py:31 and 17-22) happens before the `try`. A failure there is not caught: it propagates to the caller (email_fetcher.py:59, caught at 83-85, which drops the rest of the batch), and the next call tries to build the pipeline again. The `None` answer models only a failure of the call or of reading its result (nlp_utils.py:34-36). The pipeline itself is not modelled: its answer for the preview is a parameter.
- `extract_info` is not modelled: it depends on regular-expression engine semantics.
- `rag.py` (embeddings, FAISS search) is not modelled: floating-point vector search in foreign libraries.
- `main.py`, `email_fetcher.py`, `supabase_utils.py` and `send_mail.py` are not modelled: they are HTTP, IMAP, SMTP and OpenAI plumbing.
- The AnalyticsCards percentages are not modelled: they use floating division and `Math.round`, and give NaN for an empty list.
- The AnalyticsCards 24-hour count is not modelled: it depends on the wall clock and on `Date` parsing.
- `formatDate` is not modelled: it is locale formatting.
- The clipboard call and EmailDetail's icon and colour switches are not modelled: they are presentation only.
- The busy-state button texts are not modelled: "Fetching...", "Generating...", "Updating..." and "Sending..." follow the same tests as `disabled`.
- JavaScript string lengths count UTF-16 code units, while `TruncateText` counts Dafny characters. For text outside the Basic Multilingual Plane the two differ.
- The Dashboard's `selectedEmail` and `activeFilter` state is not modelled as a class. Both are only replaced wholesale by clicks, so the filter is a function of the filter name. The page offers no "neutral" button, but the filter handles that name.
