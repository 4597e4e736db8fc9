# svoote live polls: a verified model of the core

This project models svoote's core in Dafny. svoote is a live-polling web app. A host builds a poll of
single-choice and free-text questions in the browser editor and starts it. Participants join with a
short numeric id and are given anonymous names. They then answer while the host steps through the
questions. Tallies show as bars, and free-text answers build a word cloud.

Each module follows one file of the repository:

| module | file | what it holds |
|---|---|---|
| `WordClouds` | `src/word_cloud.rs` | Answer normalisation. Count-sorted insertion. Rendering (font size, colour, vertical stacking). |
| `Answers` | `src/slide.rs` (`MultipleChoiceLiveAnswers`, `FreeTextLiveAnswers`) | Tallies, per-participant answers, scoring and bar heights. |
| `Items` | `src/live_poll.rs` (`Item`, `Answers`) | The questions the editor submits. |
| `Slides` | `src/slide.rs` | A slide of the newer presentation model. |
| `LiveItems` | `src/live_item.rs` | An item of a running poll. |
| `LivePolls` | `src/live_poll.rs` | Joining under a fresh name. The participant limit. Answer slots. Stepping through the questions. |
| `LivePollStores` | `src/live_poll_store.rs` | The table of running polls and the random choice of a free short id. |
| `Play` | `src/play.rs` | Avatar-based participant names: `Name`, `Name (2)`, … |
| `AppErrors` | `src/app_error.rs` | HTTP status, body and display text of the four errors. |
| `StaticFiles` | `src/static_file.rs` | Bundling static files under a content-hashed path, and serving them. |
| `Language` | `src/main.rs` (`select_language`) | Cookie first, then `Accept-Language`, then English. |
| `Editor` | `src/static/custom.js` | The browser editor: helpers, slide navigation, saving, starting. |
| `DemoWordCloud` | `src/landing_page.rs` | The landing page's sample word cloud. |

The design of the system describes the word cloud as a greedy row packer that measures every term
and hides the ones that do not fit. The code in `src/word_cloud.rs` does something different: it
stacks the words vertically in count order, giving each a font size from its count and a cyclic
colour. The model follows the code.

`Wrappers` (`Option`, `Result`), `Sequences` (`iter().position` as `Position` and its loop) and
`Strings` (decimal formatting and the `"{} ({})"` suffix) are shared helpers.

Objects the source mutates in place are classes with `modifies` frames:

- the word cloud;
- the answer collections;
- slides and live items;
- the running poll;
- the store;
- the editor component.

Each method is specified by functions on its state. Loop methods (`FindPosition`, `RenderDenominator`,
`Restyle`, `Stack`, `PickName`, `CreateBundle`, `GetPath`, `ServeStaticFile`, `FindFree`) are proved
against those functions.

The central invariants are:

- the word cloud stays sorted by non-increasing count, with distinct texts of at most 64 characters;
- every multiple-choice tally equals the number of participants who chose that option;
- the word cloud's total count equals the number of free-text answers submitted;
- every item of a running poll keeps exactly one answer slot per participant;
- participant names and indices stay distinct.

## Model

| member | source | states |
|---|---|---|
| Sequences.Position | src/word_cloud.rs:35-36 | `position`: the first index whose element satisfies the predicate, and `None` exactly when no element does |
| Sequences.FindPosition | src/word_cloud.rs:35-36 | the left-to-right search loop returns exactly `Position` |
| Strings.NatToStringInjective | src/live_poll.rs:186 | distinct numbers print as distinct decimal strings |
| Strings.WithNumber | src/live_poll.rs:184-191 | `"{} ({})"`: the base, a space, `(`, the decimal number and `)`, in that layout |
| Strings.WithNumberInjective | src/play.rs:63-68 | for bases without `(`, the numbered name determines both base and number |
| Strings.WithNumberSameBase | src/live_poll.rs:184-191 | with one base, different numbers give different names |
| AppErrors.IntoResponse | src/app_error.rs:15-45 | NotFound gives 404, BadRequest 400, Unauthorized 401 and the internal error 500, each in both directions; exactly BadRequest and Unauthorized answer with their message as the body |
| AppErrors.ClientErrorStatus | src/app_error.rs:15-45 | the status is a 4xx code exactly when the error is not the internal server error |
| AppErrors.Fmt | src/app_error.rs:49-58 | formatting succeeds exactly when the formatter accepts the write, and then yields the display text |
| AppErrors.DisplayInjective | src/app_error.rs:50-55 | two errors with the same display text are the same error |
| WordClouds.TrimStart | src/word_cloud.rs:33 | removes exactly the leading whitespace: the result is a suffix, and it starts with a non-space |
| WordClouds.TrimEnd | src/word_cloud.rs:33 | removes exactly the trailing whitespace: the result is a prefix, and it ends with a non-space |
| WordClouds.TruncateChars | src/word_cloud.rs:105-110 | the first `min(len, max)` characters of the text |
| WordClouds.Normalise | src/word_cloud.rs:33 | exactly the first min(64, length) characters of the trimmed answer, lower-cased: no upper-case letter, no leading whitespace |
| WordClouds.NormaliseNotIdempotent | src/word_cloud.rs:33 | normalising twice can differ from normalising once, because cutting at 64 characters can expose trailing whitespace |
| WordClouds.MoveTo | src/word_cloud.rs:46-47 | the element at `from` goes to `to`, the ones between shift right by one, the rest stay; a permutation |
| WordClouds.RemoveInsertIsMove | src/word_cloud.rs:46-47 | `remove(from)` followed by `insert(to, _)` is `MoveTo` |
| WordClouds.Bump | src/word_cloud.rs:38 | one entry's count goes up by one; every other entry is unchanged |
| WordClouds.InsertTextCounts | src/word_cloud.rs:32-62 | inserting a text raises that text's count by one, leaves every other text's count unchanged, and raises the total by one |
| WordClouds.InsertTextKeepsOthers | src/word_cloud.rs:32-62 | the entries of the other texts keep their contents and relative order |
| WordClouds.InsertTextPlacement | src/word_cloud.rs:35-61 | the table stays sorted by non-increasing count; the inserted text is present, and every entry after it has a strictly smaller count |
| WordClouds.InsertTextWellFormed | src/word_cloud.rs:32-62 | sorted order, distinct texts, positive counts and the 64-character bound are preserved |
| WordClouds.MoveToDistinct | src/word_cloud.rs:45-48 | moving an entry keeps texts distinct, counts positive and texts within 64 characters |
| WordClouds.Denominator | src/word_cloud.rs:65-70 | the largest count, attained by some word, or 1 for an empty cloud |
| WordClouds.RenderDenominator | src/word_cloud.rs:65-70 | the maximum loop computes `Denominator` |
| WordClouds.FontSizeBounds | src/word_cloud.rs:73 | font sizes lie in (0.5, 2.5] rem and grow with the count; the most frequent word gets 2.5 rem |
| WordClouds.ColorAt | src/word_cloud.rs:75 | a palette colour; the first six words get the palette in order |
| WordClouds.ColorsCycle | src/word_cloud.rs:75 | colours repeat every six words, and neighbouring words never share a colour |
| WordClouds.Restyle | src/word_cloud.rs:72-76 | each word gets its font size and cyclic colour and remembers its old colour; text, count and top are unchanged |
| WordClouds.Stack | src/word_cloud.rs:78-86 | the first word sits at 0, and each later one sits below its predecessor's bottom plus the 0.75 rem gap; nothing else changes |
| WordClouds.StackedLayout | src/word_cloud.rs:78-92 | in a stacked cloud every word lies inside [0, container height], and any two words are separated by at least the gap |
| WordClouds.SameEntriesWellFormed | src/word_cloud.rs:64-102 | rendering and saving touch only the layout fields, so well-formedness survives them |
| WordClouds.SameEntriesTotal | src/word_cloud.rs:64-102 | rendering and saving keep the total count |
| WordClouds.WordCloud.constructor | src/word_cloud.rs:28-30 | an empty, well-formed cloud |
| WordClouds.WordCloud.Insert | src/word_cloud.rs:32-62 | the words become `InsertText` of the old words and the normalised answer; the cloud stays well formed |
| WordClouds.WordCloud.Render | src/word_cloud.rs:64-95 | every word is restyled against the largest count and stacked; the returned height is the stack's bottom; texts and counts are kept |
| WordClouds.WordCloud.SavePrevious | src/word_cloud.rs:97-102 | every word's previous top and font size become its current ones; nothing else changes |
| DemoWordCloud.InsertNewEntries | src/word_cloud.rs:50-61 | an unseen text is appended with count 1 |
| DemoWordCloud.InsertKnownEntries | src/word_cloud.rs:38-48 | a known text moves, with its count raised, to the first position that held its old count |
| DemoWordCloud.DemoOrder | src/landing_page.rs:339-359 | for any six distinct normalised texts, the thirteen sample answers give the cloud (b,4), (c,3), (f,2), (d,2), (a,1), (e,1) |
| Answers.Score | src/slide.rs:402-413 | a wrong answer scores 0; a right one scores between 50 and 100: 100 at once, 50 after a minute or more |
| Answers.ScoreMonotone | src/slide.rs:404-410 | answering sooner never scores fewer points |
| Answers.Chose | src/slide.rs:33 | the number of participants who chose an option is at most the number of participants |
| Answers.ChoseAfterAnswer | src/slide.rs:399-400 | recording the first answer of a participant adds one to the chosen option's tally and nothing to the others |
| Answers.ChoseAfterJoin | src/slide.rs:97-99 | a participant who joins without answering changes no tally |
| Answers.ChoseNone | src/slide.rs:45-48 | with no answers recorded every tally is 0 |
| Answers.StatisticsDenominator | src/slide.rs:222-226 | the largest tally, or 1 when every tally is 0 or there is none; at least every tally |
| Answers.BarHeightPercent | src/slide.rs:236 | a bar is at least 2% high, at most 100%, and exactly 100% for the largest tally |
| Answers.MultipleChoiceLiveAnswers.constructor | src/slide.rs:45-49 | the options are kept, every tally is 0, there are no participants |
| Answers.MultipleChoiceLiveAnswers.AddPlayer | src/slide.rs:97-99 | a new participant with no answer; tallies unchanged |
| Answers.MultipleChoiceLiveAnswers.SubmitAnswer | src/slide.rs:381-414 | an out-of-range option is rejected first, then a second answer; only a first answer in range is recorded, adding one to its tally and returning `Score`; a rejected answer changes nothing |
| Answers.Submitted | src/slide.rs:38 | no participants means no answers submitted |
| Answers.SubmittedAfterUpdate | src/slide.rs:429-430 | replacing one participant's answers changes the total by the difference in their number |
| Answers.FreeTextLiveAnswers.constructor | src/slide.rs:51-54 | an empty word cloud and no participants |
| Answers.FreeTextLiveAnswers.AddPlayer | src/slide.rs:100-102 | a new participant with no answers |
| Answers.FreeTextLiveAnswers.SubmitAnswer | src/slide.rs:418-433 | rejected exactly when the participant has reached the cap, with nothing changed; otherwise the cloud takes the answer and the participant's list grows by it |
| Slides.Slide.FromItem | src/slide.rs:42-65 | `None` exactly for an untyped item; otherwise a fresh slide with the question, zeroed tallies or an empty cloud, and no participants |
| Slides.Slide.CreateJoinSlide | src/slide.rs:67-73 | an entry slide with no question and no participants |
| Slides.Slide.CreateFinalSlide | src/slide.rs:75-81 | a final slide with no question and no participants |
| Slides.Slide.AddPlayer | src/slide.rs:91-104 | a score of 0 and an empty answer slot are added; the tallies and the cloud are unchanged |
| Slides.Slide.SubmitScore | src/slide.rs:374-376 | only the given participant's score is replaced |
| Slides.Slide.RenderStatistics | src/slide.rs:217-282 | no statistics for entry and final slides; bars of the unchanged tallies over their denominator; or the rendered cloud, after which the layout is saved as previous |
| LiveItems.LiveItem.FromItem | src/live_item.rs:39-64 | `None` exactly for an untyped item; otherwise a fresh item with zeroed tallies or an empty cloud |
| LiveItems.LiveItem.NewJoinItem | src/live_item.rs:66-72 | the join-code item, with no question and no answer slots |
| LiveItems.LiveItem.AddPlayer | src/live_item.rs:74-86 | a score of 0 and, except on the join-code item, one more answer slot |
| LiveItems.WithEmptySlot | src/live_poll.rs:209-214 | a single-choice item gets `None` appended, a free-text item an empty list; tallies, cloud and the join code are kept |
| LiveItems.LiveItem.PushAnswerSlot | src/live_poll.rs:207-216 | one more empty answer slot, except on the join-code item: the answer contents become `WithEmptySlot` of what they were |
| LiveItems.LiveItem.SubmitScore | src/live_item.rs:358-360 | only the given participant's score is replaced |
| LiveItems.LiveItem.RenderStatistics | src/live_item.rs:199-263 | as for slides: no statistics for the join code, bars of the unchanged tallies, or the rendered cloud with its layout saved |
| LivePolls.Step | src/live_poll.rs:138-147 | `Next` moves one forward; `Previous` moves one back except at the first question |
| LivePolls.RunShowsItems | src/live_poll.rs:116-148 | every question shown exists, it is flagged last exactly when it is the last one, and the loop ends exactly at the number of items |
| LivePolls.RunNextFinishes | src/live_poll.rs:113-148 | n `Next` signals finish the poll exactly when they reach past the last item, showing each remaining item once |
| LivePolls.PickName | src/live_poll.rs:179-192 | the drawn name if free, else `"name (n)"` for the least free `n >= 2`; never a name already taken |
| LivePolls.JoinKeepsPlayersOk | src/live_poll.rs:194-205 | adding a token with a fresh name and the next index keeps names and indices distinct and indices below the participant count |
| LivePolls.LivePoll.constructor | src/live_poll.rs:87-105 | the given items, no participants, no names, the first question current |
| LivePolls.LivePoll.Join | src/live_poll.rs:170-221 | a known token gets its name back, and participants and items stay unchanged; beyond 200 participants nobody joins and nothing changes; otherwise the participant is stored under a fresh name with the next index, and every item gains an empty slot with its answers, tallies and cloud kept |
| LivePolls.LivePoll.Admit | src/live_poll.rs:194-216 | the participant and name are recorded; every item gains an empty slot (`None` or no texts) and keeps its answers, tallies and cloud; the poll stays consistent |
| LivePolls.LivePoll.AddAnswerSlots | src/live_poll.rs:207-216 | every item with n slots per participant ends with n + 1: each item's answer contents become `WithEmptySlot` of what they were |
| LivePolls.LivePoll.PushSlotAt | src/live_poll.rs:208-215 | one item gains an empty slot and keeps its answers, tallies and cloud; no other item's answers change |
| LivePolls.LivePoll.GetPlayer | src/live_poll.rs:223-233 | the participant of a joined token, else BadRequest with the "did not join" message |
| LivePolls.LivePoll.GetCurrentItem | src/live_poll.rs:240-242 | the current item is one of the poll's items |
| LivePolls.LivePoll.Present | src/live_poll.rs:113-148 | the questions shown and the end of the poll are those of `Run`; the current index is the last question shown; participants are untouched |
| LivePollStores.FirstFree | src/live_poll_store.rs:36 | the first drawn id not taken, and `None` exactly when every draw is taken |
| LivePollStores.FindFree | src/live_poll_store.rs:36 | the search loop computes `FirstFree` |
| LivePollStores.ChooseId | src/live_poll_store.rs:36-39 | the first free short id if there is one, else the first free long id; an error exactly when no long draw is free, because the fallback is evaluated eagerly |
| LivePollStores.ChooseIdRange | src/live_poll_store.rs:36-37 | a chosen id has 4 digits when a short draw was free, else 5 or 6 digits |
| LivePollStores.EagerFallbackFails | src/live_poll_store.rs:36-39 | a free short id does not prevent the error when every long draw is taken |
| LivePollStores.LivePollStore.constructor | src/live_poll_store.rs:19-23 | an empty store |
| LivePollStores.LivePollStore.Get | src/live_poll_store.rs:25-27 | the poll stored under the id, and `None` exactly when there is none |
| LivePollStores.LivePollStore.Insert | src/live_poll_store.rs:29-44 | the result is `ChooseId`; on success the poll is stored under a previously unused id, and on failure the store is unchanged |
| LivePollStores.LivePollStore.Remove | src/live_poll_store.rs:46-48 | the id is gone and every other entry is kept |
| Play.NewPlayer | src/play.rs:58-78 | the avatar is the index modulo 20; the name is the avatar's name for the first round and `"name (k)"` for round k >= 2; no custom name |
| Play.DuplicateNameNumber | src/play.rs:59-60 | `(index - avatar) / 20 + 1` is the round number `index / 20 + 1` |
| Play.GetName | src/play.rs:80-85 | the custom name if set, else the generated one |
| Play.NewPlayerName | src/play.rs:58-85 | a new participant is shown by a non-empty generated name |
| Play.AvatarNamesDistinct | src/play.rs:28-49 | the 20 avatar names are pairwise distinct and contain no parentheses |
| Play.GeneratedNamesDistinct | src/play.rs:58-78 | different participant indices get different generated names |
| Play.NumberedNamesDistinct | src/play.rs:59-68 | two numbered names from different indices differ |
| Play.BareNameIsNotNumbered | src/play.rs:63-71 | a first-round name never equals a numbered one |
| Play.IndexFromRoundAndAvatar | src/play.rs:59-60 | an index is determined by its avatar and its round |
| Editor.IncrementChar | src/static/custom.js:1-3 | one code unit: the first unit plus `add` modulo 2^16, or unit 0 for an empty string |
| Editor.IncrementCharInverse | src/static/custom.js:1-3 | incrementing by `add` and then by `-add` gives back the first character |
| Editor.CreateSlide | src/static/custom.js:5-13 | a slide of the given type, "undefined" for null, with empty question and answers |
| Editor.CreatePoll | src/static/custom.js:15-26 | entry, untyped and final slides, with the untyped one active; leaderboard and custom names off |
| Editor.Clamp | src/static/custom.js:68-71 | the index clamped into the slide range: never negative, below the length of a non-empty poll, never above the request unless 0 |
| Editor.ClampKeepsValidIndex | src/static/custom.js:68-71 | an index is kept unchanged exactly when it names a slide |
| Editor.ClampIdempotent | src/static/custom.js:67-74 | going to the clamped slide again changes nothing |
| Editor.StepRightThenLeft | src/static/custom.js:52-60 | right then left returns to any slide but the last |
| Editor.StepsSaturate | src/static/custom.js:52-60 | right on the last slide and left on the first stay put |
| Editor.PollEditor.constructor | src/static/custom.js:28-40 | the stored poll if any, else a new poll; not live, no code |
| Editor.PollEditor.Save | src/static/custom.js:63-65 | storage holds the current poll; nothing else changes |
| Editor.PollEditor.GotoSlide | src/static/custom.js:67-74 | the clamped index becomes active, the rest of the poll is kept, and the poll is saved |
| Editor.PollEditor.KeyUp | src/static/custom.js:52-60 | arrow keys on the page body move one slide and save; anything else changes nothing |
| Editor.PollEditor.StartPoll | src/static/custom.js:88-101 | the editor is live under code "1234"; the poll and storage are unchanged |
| Language.ValueTrimmed | src/main.rs:90 | one pair of surrounding double quotes is removed; any other value is unchanged |
| Language.CookieLanguage | src/main.rs:91-95 | the cookie's language exactly when it is one of the offered ones |
| Language.SelectLanguage | src/main.rs:87-106 | a supported cookie wins; else the first language of the header's intersection; else "en" |
| Language.SelectedIsSupported | src/main.rs:87-106 | the chosen language is always "en" or "de" |
| Language.CookieWins | src/main.rs:89-96 | with a supported cookie, the header is irrelevant |
| Language.UnknownCookieIgnored | src/main.rs:89-103 | an unsupported cookie is the same as no cookie |
| Language.QuotedCookie | src/main.rs:90-93 | a quoted `"de"` cookie selects German |
| StaticFiles.ConcatAppend | src/static_file.rs:70-80 | bundling a list is bundling its parts one after the other |
| StaticFiles.ConcatEmpty | src/static_file.rs:70-80 | a bundle is empty exactly when none of its files could be read |
| StaticFiles.ConcatOne | src/static_file.rs:71-75 | a readable file contributes its text followed by a newline |
| StaticFiles.BundlePath | src/static_file.rs:84-86 | `/static/`, the digest, a dot and the name |
| StaticFiles.BundleOf | src/static_file.rs:65-94 | name and type as given, the concatenated content, and the path from the content's digest |
| StaticFiles.CreateBundle | src/static_file.rs:65-94 | the reading loop builds exactly `BundleOf` |
| StaticFiles.InitBundles | src/static_file.rs:15-48 | one bundle per registered source, in order |
| StaticFiles.Init | src/static_file.rs:15-48 | the four bundles built in order are `InitBundles` |
| StaticFiles.InitNames | src/static_file.rs:18-45 | bundle.css (text/css), then app.js, tailwind_4_dev.js and qrcode.js (text/javascript) |
| StaticFiles.PathOf | src/static_file.rs:96-104 | the path of the first bundle with that name, and no path exactly when no bundle has it |
| StaticFiles.GetPath | src/static_file.rs:96-104 | the lookup loop computes `PathOf` |
| StaticFiles.InitPathsFound | src/static_file.rs:96-101 | each registered name resolves to its own bundle's path |
| StaticFiles.RegisteredNames | src/static_file.rs:96-104 | a name resolves exactly when it is one of the four registered names |
| StaticFiles.UnregisteredPaths | src/html_page.rs:25 | "alpine.js" and "cookies.js", which pages ask for, are not registered |
| StaticFiles.Contains | src/static_file.rs:52 | substring test: true exactly when the name occurs at some position of the requested file name |
| StaticFiles.Served | src/static_file.rs:50-63 | NotFound exactly when no bundle name occurs in the requested name |
| StaticFiles.ServedIsFirstMentioned | src/static_file.rs:51-59 | a served file is the content of the first bundle whose name occurs in the request, with its MIME type and a one-week cache header |
| StaticFiles.ServeStaticFile | src/static_file.rs:50-63 | the serving loop computes `Served` |

## Left out

- HTML rendering (maud markup), SSE streams, WebSocket messages, channels and the spawned presentation loop are not modelled. Of that loop, only the index-stepping rule (`Step`, `Run`) and the current index are kept.
- `Mutex`, `Arc`, `OnceLock` and the shared global store are not modelled: every operation is sequential on one object.
- Randomness is a parameter: the name drawn in `join` is `nameIndex`; the 1000 short and 1000 long id draws of `insert` are sequences.
- Clocks are a parameter: `Score` takes the elapsed milliseconds.
- The file system, md5, the cookie jar, the `Accept-Language` parser and `localStorage` are parameters: `read`, `hexDigest`, `cookie`, `intersection` and `stored`.
- `fetch`, `console.log`, `QRCode`, `renderQRCode`, `questionInputEnterEvent` and the `init` focus handling are DOM or network code, and are not modelled.
- JSON parsing and serialising (`loadPollFromLocalStorage`, `save`) are not modelled: the stored value is the poll itself.
- AppErrors.IntoResponse: the `error!` log line written for an internal server error (src/app_error.rs:34) is logging, and is not modelled.
- Machine integer widths (`usize`, `u32`) are not modelled: counts and indices are unbounded naturals, and none of the modelled operations comes near a wrap-around.
- Answers.Score: the f32 fraction is modelled as the exact rational, floored; near integer boundaries the source's rounding may differ by one point.
- WordClouds.FontSizeBounds and WordClouds.Stack: f32 arithmetic is modelled by `real`, so sizes and offsets are exact.
- WordClouds.Normalise: `to_lowercase` is modelled for ASCII letters only; Unicode case mapping (which can also change the length) is not modelled. `trim` uses the full Unicode white-space set of `char::is_whitespace`.
- Editor.IncrementChar: `add` is an integer, and `charCodeAt` on a non-empty string is the first code unit; non-integer `add` is not modelled.
- Language.SelectLanguage: a header that is not valid visible ASCII (`to_str` fails) is passed as `None`.
- `get_generated_name` and `get_custom_name` (src/play.rs:87-93) are plain field reads, modelled as `Player.generatedName` and `Player.customName`.
- `get_avatar_svg` and the SVG data of the avatars are not modelled; only the names are.
- `MAX_FREE_TEXT_ANSWERS` is not defined in src/config.rs, so it is the `maxAnswers` parameter of the free-text answers.
- The answer classes are identical in src/slide.rs and src/live_item.rs, and are modelled once, in `Answers`.
- The `Untyped` answers variant is referred to by both files but absent from `Answers` in src/live_poll.rs. It is kept as a variant of `Items.ItemAnswers`.
- LivePolls.LivePoll.Join: the `match` in src/live_poll.rs:208-215 has no `JoinCode` arm. The join-code item is modelled as left untouched, as `add_player` does.
- LivePolls.LivePoll.Join: as written, it extends answer slots but not `player_scores`, and the model follows that.
- src/live_poll.rs:70 defines its own participant limit of 200, while src/config.rs says 100. `join` uses the local 200.
- src/play.rs and src/live_poll.rs name participants in two different ways (avatar rounds versus random names with a suffix); both are modelled, each in its own module.
- `LivePoll::new` with its `PollV1` conversion and `get_from_session` are not modelled. The poll is built from `LiveItem`s directly.
- DemoWordCloud.DemoOrder: stated for any six distinct texts that normalisation leaves unchanged, standing for the six sample answers. The literal strings are not plugged in.
- LivePolls.LivePoll.GetCurrentItem: it returns the item itself, and its `requires` states the index bound that the source's indexing would panic on.
