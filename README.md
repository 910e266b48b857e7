# TAKK sign-language app: a Dafny model of its logic

TAKK teaches Swedish sign-supported communication. It lets a user practise signs level by level, play a
competition quiz with a leaderboard, and browse a dictionary. Staff use it to generate QR codes that open a
small logging page for tracking a resident's wellbeing.

This project models the pieces of sequential logic in that app and proves what they promise:
- the three quiz engines: the competition, the practice quiz with elimination, and the older level quiz and training page;
- the leaderboard store;
- the question-queue helper;
- the catalog routes of the web server;
- the manifest builder and the catalog validator;
- the rules of the admin form, the tracking log and the dictionary;
- the directory-tree renderer.

Each source file is one Dafny module. There are also four shared modules:
- `Wrappers`: `Option` and `Result`.
- `Strings`: whitespace trimming, case mapping and decimal numerals.
- `Sorting`: an insertion sort under a caller's total order; it is stable (`SortStable`).
- `Shuffling`: a shuffle driven by a sequence of random picks. The picks can reach every permutation.
- `Signs` is a fifth, smaller one: the sign records both level quizzes share.

## How the source maps here

- **Pure code** (filters, lookups, validation chains, renderers) becomes functions. Their properties are
  proved as `ensures` clauses or lemmas.
- **React components** become classes. The component's state variables are the class fields. Each handler
  is a method whose `modifies` names the state it sets. Its `ensures` states the whole new state, and a
  `Valid()` invariant is preserved across all methods.
- **Loops** in the source stay loops in the model. The loops are in the manifest builder, the catalog
  validator, the form flattening, the tree renderer, the pictogram sequence and the queue copy. Each loop
  method except the pictogram sequence is proved equal to a specification function, and the properties
  are proved about that function. The pictogram sequence (`Dictionary.DictionaryPage.OnEnded`) only steps
  an index, and its contract states the state it ends in.
- **Randomness** becomes explicit parameters:
  - `sort(() => Math.random() - 0.5)` is `Shuffle(s, picks)`. A shuffle is a permutation, and every
    permutation is reachable.
  - The competition's random base points are a parameter `base` with `1.15 <= base < 1.17`.
- **I/O becomes parameters.** Clock readings, server replies, the file store, directory listings and the
  file-existence test are all passed in.

## Model

| member | source | states |
|---|---|---|
| Competition.Target | app/components/src/Competition.jsx:42 | the sign asked after `current` answers is `ids[current mod n]`, a catalog id |
| Competition.TargetWraps | app/components/src/Competition.jsx:34-42 | the target repeats every `n` answers: there is no last question |
| Competition.TargetLabel | app/components/src/Competition.jsx:43 | the displayed label is the sign's non-empty text, otherwise its id |
| Competition.WordCount | app/components/src/Competition.jsx:44 | a trimmed label splits into at least one word |
| Competition.OneWord | app/components/src/Competition.jsx:44 | a label without whitespace is one word |
| Competition.WordsJoin | app/components/src/Competition.jsx:44 | two phrases joined by a run of whitespace count as many words as both together, so the pool key is the number of whitespace-separated words |
| Competition.Pool | app/components/src/Competition.jsx:45 | the pool is the distractor list for the word count (`Listed`, none when absent), then the label of every sign in catalog order |
| Competition.Candidates | app/components/src/Competition.jsx:46 | a value survives the filter iff it is a non-empty text different from the target label and occurs in the pool |
| Competition.Dedup | app/components/src/Competition.jsx:46 | `[...new Set(s)]` has no repeats and the same members as `s` |
| Competition.UniqMembers | app/components/src/Competition.jsx:45-46 | a text is an offered distractor iff it is non-empty, not the target label, and in the word-count pool or among the sign labels |
| Competition.MakeChoices | app/components/src/Competition.jsx:39-49 | no signs gives no choices. Otherwise: the target label once, plus `min(3, |uniq|)` distinct distractors from `uniq`, with no repeats |
| Competition.IsCorrect | app/components/src/Competition.jsx:60-62 | an accepted answer is the target's own label with no id fallback, so it is one of the sign labels and, when non-empty, the displayed target label |
| Competition.LabelledTargetAnswerable | app/components/src/Competition.jsx:59-62 | a sign with a non-empty text is offered and accepted |
| Competition.UnlabelledTargetUnanswerable | app/components/src/Competition.jsx:60-62 | a sign without a text is offered under its id, but no offered choice is ever accepted for it |
| Competition.Points | app/components/src/Competition.jsx:63-64 | points lie in `[1.15 + 0.05·streak, 1.17 + 0.05·streak)` |
| Competition.PointsGrowWithStreak | app/components/src/Competition.jsx:64 | points are at least 1.15 and do not decrease along a streak |
| Competition.MinTotalAtLeast | app/components/src/Competition.jsx:63-65 | a streak of `n` is worth at least `1.15·n` |
| Competition.ScoreStep | app/components/src/Competition.jsx:63-66 | a correct answer keeps the score within the bounds for the longer streak |
| Competition.Game.constructor | app/components/src/Competition.jsx:9-18 | start in the name phase with no name, score, streak or scoreboard |
| Competition.Game.Load | app/components/src/Competition.jsx:22-29 | the fetched catalog and distractors replace the empty ones; nothing else changes |
| Competition.Game.SetTag | app/components/src/Competition.jsx:100 | the tag holds the first ten characters typed |
| Competition.Game.Start | app/components/src/Competition.jsx:107 | play starts iff the tag is not blank |
| Competition.Game.RefreshChoices | app/components/src/Competition.jsx:52-56 | the choices are `MakeChoices` of the current question |
| Competition.Game.HandleAnswer | app/components/src/Competition.jsx:59-71 | correct: add `Points(base, streak)`, and streak and current each grow by 1. Wrong: phase becomes `End`, the overlay shows, the score is posted, and score and streak stay |
| Competition.Game.EndGame | app/components/src/Competition.jsx:73-81 | end phase, overlay shown, `(tag, score)` posted |
| Competition.Game.ReceiveScores | app/components/src/Competition.jsx:82-87 | a reply sets `scores` (`[]` when absent) and `madeTop`; a failure keeps the previous ones |
| Competition.Game.CloseOverlay | app/components/src/Competition.jsx:218 | hides the overlay |
| Competition.PlayThrough | app/components/src/Competition.jsx:59-88 | over a whole game, a blank name never starts play. Only the first wrong answer ends the game, every earlier answer was right, and the score is posted exactly when the game ends |
| PracticeQuiz.ToChoice | app/components/src/practice/Quiz.jsx:57-58 | a button carries the sign's id |
| PracticeQuiz.Options | app/components/src/practice/Quiz.jsx:51-60 | none before the level and the question exist. Otherwise: the asked sign once, plus `min(3, |pool|)` other cumulative signs (none with the asked id), at most 4 in all, none offered more often than the pool holds it. With distinct cumulative ids, the button ids are distinct |
| PracticeQuiz.OthersIds | app/components/src/practice/Quiz.jsx:54 | dropping the asked id keeps distinct ids distinct and removes that id |
| PracticeQuiz.OptionsAreADeal | app/components/src/practice/Quiz.jsx:55-59 | the options are the asked button dealt with three shuffled other buttons |
| PracticeQuiz.OtherButton | app/components/src/practice/Quiz.jsx:54-57 | no other button carries the asked id |
| PracticeQuiz.OptionsOnce | app/components/src/practice/Quiz.jsx:51-60 | exactly one option has the asked id, and it is the right button |
| PracticeQuiz.OptionsIds | app/components/src/practice/Quiz.jsx:51-60 | distinct cumulative ids give distinct option ids |
| PracticeQuiz.Quiz.constructor | app/components/src/practice/Quiz.jsx:16-24 | no level, no order, nothing struck out or confirmed, playing |
| PracticeQuiz.Quiz.Load | app/components/src/practice/Quiz.jsx:31-38 | the order is `Shuffle` of the level's sign ids and a permutation of them; the reset effect on the new `qid` (lines 62-66) leaves the struck-out set and the confirmation empty |
| PracticeQuiz.Quiz.OnAnswer | app/components/src/practice/Quiz.jsx:112-134 | a no-op without a question or while confirming. The right id locks the quiz and schedules finishing after the last question, or the next question otherwise. Any other id is added to `eliminated`, and the asked id is never struck out |
| PracticeQuiz.Quiz.NextQuestion | app/components/src/practice/Quiz.jsx:100-110 | clears the struck-out set and the confirmation. It then advances while a next question exists; otherwise it finishes with `idx` unchanged, so `idx` stays in range |
| PracticeQuiz.Quiz.Fire | app/components/src/practice/Quiz.jsx:122-129 | the scheduled continuation moves to the next question or finishes |
| PracticeQuiz.DisabledRule | app/components/src/practice/Quiz.jsx:152-165 | an option is disabled iff it is struck out or the quiz is locked |
| PracticeQuiz.ConfirmedDisabled | app/components/src/practice/Quiz.jsx:160-165 | the confirmed option is disabled and is never struck out |
| Signs.SignsMap | app/components/src/practice/Quiz.jsx:41-45 | every sign's id is a key, and each key maps to a sign with that id |
| Signs.SignsMapLast | app/components/src/practice/Quiz.jsx:43 | a later sign with the same id replaces an earlier one |
| Signs.Question | app/components/src/practice/Quiz.jsx:47-48 | a question exists iff `idx` is inside the order and names a loaded sign; it is that sign |
| Signs.QuestionExists | app/components/src/main.jsx:171-172 | an id of the order names a question iff it is one of the level's sign ids |
| Signs.Others | app/components/src/practice/Quiz.jsx:54 | exactly the cumulative signs whose id differs from the asked one, each as often as listed |
| Signs.OthersAppend | app/components/src/practice/Quiz.jsx:54 | the filter keeps order: it distributes over concatenation |
| LevelQuiz.Options | app/components/src/main.jsx:174-179 | none without a question. Otherwise: the asked sign's text plus `min(3, n)` texts of other signs, each other text offered no more often than the other signs carry it |
| LevelQuiz.OthersCount | app/components/src/main.jsx:176 | with distinct ids, the other signs number one fewer than all signs |
| LevelQuiz.OthersAll | app/components/src/main.jsx:176 | a list without the id keeps all its signs |
| LevelQuiz.OptionsCount | app/components/src/main.jsx:174-179 | a level of `n` distinct signs offers `1 + min(3, n - 1)` options |
| LevelQuiz.Quiz.constructor | app/components/src/main.jsx:153-157 | empty order, score 0, nothing answered |
| LevelQuiz.Quiz.Load | app/components/src/main.jsx:160-165 | the order is a permutation of the level's sign ids |
| LevelQuiz.Quiz.Click | app/components/src/main.jsx:242 | a click while an answer is shown, or without a question, changes nothing; any other click is answered as `OnAnswer` answers it |
| LevelQuiz.Quiz.OnAnswer | app/components/src/main.jsx:192-197 | right iff the text equals `q.label || q.id`. The score grows by exactly 1 only on a right answer, and the advance is scheduled |
| LevelQuiz.Quiz.Fire | app/components/src/main.jsx:198-202 | the next question comes while one exists. Otherwise the results show the captured score plus the last answer, out of `order.length`, and never more than that |
| LevelQuiz.Training.constructor | app/components/src/main.jsx:88-89 | start at the first sign |
| LevelQuiz.Training.Next | app/components/src/main.jsx:117-122 | the next sign while one exists, otherwise the page is left; `i` stays in range |
| Shuffling.ShufflePermutes | app/components/src/main.jsx:13 | a shuffle is a permutation of its input (the input is a value and is not changed) |
| Shuffling.ShuffleReachesEvery | app/components/src/main.jsx:13 | every permutation of the input is the result of some picks |
| Shuffling.ShuffleKeepsDistinct | app/components/src/practice/Quiz.jsx:8 | a shuffle has repeats iff its input does |
| Shuffling.DealShape | app/components/src/Competition.jsx:47-48 | a deal holds the first element and `min(3, |pool|)` pool elements; as a multiset it is the first element plus the first three of the shuffled pool, so no pool element appears more often than in the pool |
| Shuffling.DealOnce | app/components/src/Competition.jsx:48 | the first element occurs once when it is not in the pool |
| Shuffling.DealDistinct | app/components/src/Competition.jsx:46-48 | a distinct pool without the first element deals without repeats |
| Shuffling.Shuffle | app/components/src/main.jsx:13 | the shuffle keeps the length; `ShufflePermutes` and `ShuffleReachesEvery` give that it is a permutation and that every permutation is reachable |
| Shuffling.Deal | app/components/src/Competition.jsx:47-48 | the deal has `1 + min(3, |pool|)` elements; `DealShape`, `DealOnce` and `DealDistinct` give its contents |
| Sorting.SortSorted | app/leaderboard.py:58 | under a total order the sort's result is sorted |
| Sorting.Sort | app/leaderboard.py:58 | the sort keeps every element with its multiplicity |
| Sorting.SortStable | app/leaderboard.py:58 | under a transitive order the sort is stable: the elements tying with any `x` keep their input order, as Python's `sort` does (also with `reverse=True`) |
| Leaderboard.ReadAll | app/leaderboard.py:18-24 | an undecodable file reads as the empty list |
| Leaderboard.KeyGeTotal | app/leaderboard.py:58 | the descending (score, date) order relates every pair of entries |
| Leaderboard.SliceTo | app/leaderboard.py:60 | Python's `s[:n]` is a prefix, with a negative `n` counting from the end |
| Leaderboard.NewEntry | app/leaderboard.py:48-52 | the stored name is the stripped name cut to 32 characters; the date ends in `Z` |
| Leaderboard.Check | app/leaderboard.py:41-46 | accepted iff the name is a non-blank string and the score converts. Otherwise "name required" comes first, then "score must be a number" |
| Leaderboard.Added | app/leaderboard.py:55-60 | the stored list is a sorted prefix of the old entries plus the new one, sorted descending. It is cut to `max_keep` unless that is 0, in which case it keeps them all; a negative `max_keep` drops that many from the end |
| Leaderboard.TopOf | app/leaderboard.py:64-67 | the top is the first `min(20, |data|)` stored entries; `made_top` holds iff an equal entry is among them |
| Leaderboard.Board.AddScore | app/leaderboard.py:40-68 | bad arguments raise and leave the file alone. Otherwise the file becomes `Added(...)`, and the reply is its top-20 and flag |
| Leaderboard.Board.GetTop | app/leaderboard.py:70-72 | the first `min(len, max(0, limit))` stored entries |
| Leaderboard.AddedKeepsBest | app/leaderboard.py:55-60 | cutting to `max_keep` keeps the best: every entry written back ranks at least as high as every dropped one |
| Leaderboard.SortedPairs | app/leaderboard.py:57-58 | in a list sorted best first, each entry ranks at least as high as every later one |
| Leaderboard.BestEntryFirst | app/leaderboard.py:58 | a new score above every stored one sorts first |
| Leaderboard.Outranked | app/leaderboard.py:58 | the entry just before the new one's first copy is an old entry that does not rank below it |
| Leaderboard.BestEntryMakesTop | app/leaderboard.py:58-67 | such an entry makes the top whenever anything is kept |
| Queue.SpliceStart | app/components/src/lib/queue.js:6 | `splice` inserts at the start when it lies inside the array, at the end past it, and counts a negative start from the end |
| Queue.InsertAt | app/components/src/lib/queue.js:5-6 | the position is `min(len, fromIndex + k + 1)`; a negative sum counts from the end, as `splice` does, and stops at 0 |
| Queue.Inserted | app/components/src/lib/queue.js:4-6 | the spliced copy is one longer, holds `id` at the insertion point, and as a multiset is the queue plus `id` |
| Queue.InsertedShape | app/components/src/lib/queue.js:6 | one longer, `id` at the position, the elements before it unchanged, those after it shifted by one |
| Queue.AppendsPastEnd | app/components/src/lib/queue.js:5-6 | with `fromIndex + k + 1 >= len`, `id` is appended at the end |
| Queue.RequeueAhead | app/components/src/lib/queue.js:2-8 | `k <= 0` returns the same array. Otherwise a fresh array holds the copy with `id` spliced in, and the input is not modified |
| Routes.ApiLevels | app/routes.py:32-38 | the manifest's levels, or `[]` when the manifest file or its levels are missing; a status 500 exactly when the file does not decode to a JSON object |
| Routes.FirstLevel | app/routes.py:44 | the first level whose id is `n`, or none iff no level has that id |
| Routes.ExpandOne | app/routes.py:49 | an unknown id becomes `{id, label: id}`. A known one keeps all its metadata keys (which override `id`) plus `id` |
| Routes.Expand | app/routes.py:47-51 | one expanded sign per sign id, in order |
| Routes.ApiLevelDetail | app/routes.py:41-52 | a missing or malformed manifest, and only that, is a server error, and no matching level is a 404. A match returns the id `n`, the name of the first level with that id, and each of its sign ids expanded in order by `ExpandOne` |
| Routes.ApiSigns | app/routes.py:55-61 | the signs mapping, or `{}` when the manifest file or its signs are missing; a status 500 exactly when the file does not decode to a JSON object |
| Routes.Spa | app/routes.py:67-72 | serves the path iff it is non-empty and a file; otherwise `index.html` |
| ManifestBuilder.Capitalize | video_processing/manifest_builder.py:18 | the first character upper-cased, every other one lower-cased |
| ManifestBuilder.TitleFromName | video_processing/manifest_builder.py:16-18 | every `_` becomes a space, the first character is not lower case, and no later one is upper case |
| ManifestBuilder.SignKey | video_processing/manifest_builder.py:51 | the folder name lower-cased with spaces replaced by `_` |
| ManifestBuilder.LabelOfKey | video_processing/manifest_builder.py:51-52 | the label has a space exactly where the key has `_` |
| ManifestBuilder.AcceptLevel | video_processing/manifest_builder.py:27-30 | "" and "0" give level 0 and nothing else does; each level `k` from 1 to 5 is given exactly by a digit string of value `k`; every other answer is rejected |
| ManifestBuilder.AcceptsDecimal | video_processing/manifest_builder.py:29-30 | every level 0 to 5, written in decimal, is accepted as itself |
| ManifestBuilder.Prompted | video_processing/manifest_builder.py:21-31 | the chosen level is at most 5, reached after at least one answer |
| ManifestBuilder.PromptedSpec | video_processing/manifest_builder.py:21-31 | the input runs out iff no stripped answer is acceptable. Otherwise the first acceptable answer gives the level, and every earlier answer was rejected |
| ManifestBuilder.PromptLevel | video_processing/manifest_builder.py:21-31 | the prompt loop computes `Prompted` |
| ManifestBuilder.SuffixFrom | video_processing/manifest_builder.py:66 | the suffix is empty or a final `.x…` of the name that is not the whole name |
| ManifestBuilder.Url | video_processing/manifest_builder.py:67 | a file's URL lies under `/media/signs/<key>/` |
| ManifestBuilder.LastVideoSpec | video_processing/manifest_builder.py:61-67 | a folder has a video iff one entry ends in `.mp4` in any case, and the video is the URL of such an entry with no `.mp4` entry after it |
| ManifestBuilder.NoVideo | video_processing/manifest_builder.py:66-73 | no video iff no entry ends in `.mp4` |
| ManifestBuilder.SomeVideo | video_processing/manifest_builder.py:66-67 | the video found is the URL of the last `.mp4` entry |
| ManifestBuilder.PicturesSpec | video_processing/manifest_builder.py:66-69 | a URL is a pictogram iff it is the URL of an image entry that is not an `.mp4`; there are pictograms iff such an entry exists, and the first pictogram is the first such entry's URL; all lie under the sign's URL |
| ManifestBuilder.PicturesAppend | video_processing/manifest_builder.py:61-69 | the pictograms of two entry lists in turn are those of the first followed by those of the second |
| ManifestBuilder.PicturesOne | video_processing/manifest_builder.py:66-69 | one entry gives its URL exactly when it is an image that is not an `.mp4`, and nothing otherwise |
| ManifestBuilder.PicturesFilter | video_processing/manifest_builder.py:61-69 | the pictograms are the URLs of the image entries, in their order |
| ManifestBuilder.ScanItems | video_processing/manifest_builder.py:61-69 | the entry loop computes the last video and the pictograms in order |
| ManifestBuilder.FolderStep | video_processing/manifest_builder.py:48-90 | one pass of the folder loop computes `Step` |
| ManifestBuilder.SkipsWithoutVideo | video_processing/manifest_builder.py:71-73 | a folder without an `.mp4` is skipped and asks nothing |
| ManifestBuilder.Step | video_processing/manifest_builder.py:48-90 | one pass runs out of input iff the folder holds a video and no acceptable answer is left; it reads lines only from the front, reads at least one for a folder with a video and then records that folder's key, and keeps every recorded key |
| ManifestBuilder.Collect | video_processing/manifest_builder.py:47-90 | the folder loop reads console lines only from the front and keeps every sign recorded before it |
| ManifestBuilder.StepLevels | video_processing/manifest_builder.py:81-90 | a folder with a video reads one answer and level `k` gains its key exactly when the answer is `k`; other levels stay, and a folder without a video changes nothing |
| ManifestBuilder.KeysAt | video_processing/manifest_builder.py:89-90 | a key is filed under level `k` iff it was answered with `k` |
| ManifestBuilder.AnswersFrom | video_processing/manifest_builder.py:47-90 | every answer names a walked folder holding a video and a level from 0 to 5 |
| ManifestBuilder.CollectAnswers | video_processing/manifest_builder.py:47-90 | the folder loop runs out of input exactly when the dialog does |
| ManifestBuilder.CollectLevels | video_processing/manifest_builder.py:89-90 | each level from 1 to 5 ends with the keys it held followed by the keys answered with its number, in the order asked |
| ManifestBuilder.Build | video_processing/manifest_builder.py:35-100 | the `NoProcessedFolder` outcome happens iff the processed-clips folder is missing; a built manifest has version 2 |
| ManifestBuilder.LevelIds | video_processing/manifest_builder.py:95-97 | the assigned level ids in increasing order, each exactly once |
| ManifestBuilder.LevelList | video_processing/manifest_builder.py:95-97 | one record per assigned level, in increasing id order, named `Nivå n`, listing exactly the keys filed under that level (as a multiset) |
| ManifestBuilder.GoodRecord | video_processing/manifest_builder.py:83-90 | recording a sign and filing it under a level keeps the tables consistent |
| ManifestBuilder.StepGood | video_processing/manifest_builder.py:47-90 | one folder keeps the tables consistent |
| ManifestBuilder.CollectGood | video_processing/manifest_builder.py:47-90 | the whole folder loop keeps the tables consistent |
| ManifestBuilder.BuildManifest | video_processing/manifest_builder.py:35-100 | the builder computes `Build` |
| ManifestBuilder.BuiltManifest | video_processing/manifest_builder.py:83-100 | a built manifest has version 2. Its levels have ids 1 to 5 in increasing order, named `Nivå n`, with sorted sign lists that name only known signs; every sign's label is derived from its key, and its video and pictogram lie under the key's public folder |
| ManifestBuilder.StepRecords | video_processing/manifest_builder.py:48-90 | one folder with a video records, under its key, its label, its last video and its first pictogram or none; other entries stay; a folder without a video changes no entry |
| ManifestBuilder.StepFrom | video_processing/manifest_builder.py:47-90 | one folder keeps every recorded sign the entry of a folder walked |
| ManifestBuilder.CollectFrom | video_processing/manifest_builder.py:47-90 | the folder loop keeps every recorded sign the entry of a folder walked |
| ManifestBuilder.CollectKeys | video_processing/manifest_builder.py:47-90 | the folder loop records a key for every folder holding a video and loses none |
| ManifestBuilder.BuiltSigns | video_processing/manifest_builder.py:47-99 | every listed folder with a video has an entry in the manifest, and every entry is some such folder's label, last video, and first pictogram or none |
| ManifestBuilder.BuiltLevels | video_processing/manifest_builder.py:89-97 | the outcome is `InputEnded` iff the console input runs out during the dialog; a built manifest has a level iff some key was answered with its number, and that level lists exactly those keys, each as often as answered, sorted |
| CatalogValidator.LStripSlash | tools/validate_catalog.py:32 | `lstrip("/")` leaves a suffix of the URL that does not start with `/`, and everything removed was `/` |
| CatalogValidator.RefErrors | tools/validate_catalog.py:19-22 | at most one error per sign id |
| CatalogValidator.Check | tools/validate_catalog.py:10-40 | the run raises iff the URL checks raise; otherwise `ok` iff no error, and the reference errors come first, in level order |
| CatalogValidator.RefErrorsSpec | tools/validate_catalog.py:18-22 | no reference errors iff every id is known; each unknown id gets its message, every message names an unknown id of the level, and there is one message per position holding an unknown id |
| CatalogValidator.LevelsErrorsEmpty | tools/validate_catalog.py:18-22 | no reference errors iff every level refers only to known signs |
| CatalogValidator.UrlErrors | tools/validate_catalog.py:26-35 | a non-string raises. Without the `/media/` prefix there is one error and no lookup; with it, no error iff the path exists (file or directory) |
| CatalogValidator.PrefixFailSkipsLookup | tools/validate_catalog.py:28-31 | a URL without the prefix gets its error whatever the file system holds |
| CatalogValidator.KeyErrorsRaise | tools/validate_catalog.py:27-28 | the checks of a sign raise iff one of its URL values is not a string |
| CatalogValidator.SignsRaise | tools/validate_catalog.py:25-28 | one raising sign makes the whole run raise |
| CatalogValidator.SignsRaiseOnly | tools/validate_catalog.py:25-28 | the run raises only because of a raising sign |
| CatalogValidator.KeyErrorsClean | tools/validate_catalog.py:26-35 | a sign has no URL errors iff each URL is a string with the prefix and names an existing path |
| CatalogValidator.SignsErrorsClean | tools/validate_catalog.py:25-35 | no URL errors iff no sign has any |
| CatalogValidator.SignClean | tools/validate_catalog.py:26-35 | a sign's three URLs (`symbol`, `training_video`, `quiz_video`) are clean iff each is good |
| CatalogValidator.Output | tools/validate_catalog.py:37-39 | a crash prints nothing. A report prints `OK` or `ERRORS:`, then the line ` - <error>` for each error in order |
| CatalogValidator.ExitStatus | tools/validate_catalog.py:40 | the status is 0 iff the run finished with `ok`, otherwise 1 |
| CatalogValidator.Validate | tools/validate_catalog.py:10-40 | the nested loops compute `Check`, and `ok` holds iff no error was appended |
| CatalogValidator.CheckLevels | tools/validate_catalog.py:16-22 | the level loop appends exactly the reference errors, and `ok` iff none |
| CatalogValidator.CheckLevel | tools/validate_catalog.py:19-22 | one level's loop appends its reference errors |
| CatalogValidator.CheckSigns | tools/validate_catalog.py:25-35 | the sign loop raises iff some URL value is not a string; otherwise it appends the URL errors |
| CatalogValidator.CheckSign | tools/validate_catalog.py:26-35 | one sign's key loop |
| CatalogValidator.CheckUrl | tools/validate_catalog.py:27-35 | one URL check appends its errors and keeps `ok` iff no errors |
| CatalogValidator.CleanRun | tools/validate_catalog.py:14-40 | exit 0 iff every level refers only to known signs and every sign's URLs are good |
| CatalogValidator.CrashRun | tools/validate_catalog.py:27-28 | the run raises iff some sign has a non-string URL value |
| AdminForm.Toggled | app/components/AdminPage.jsx:198 | each click selects the other mode |
| AdminForm.Validate | app/components/AdminPage.jsx:52-86 | the focus message comes iff the focus is blank; event mode never reports the labels; any message is one of the seven listed |
| AdminForm.Posted | app/components/AdminPage.jsx:92-103 | `n + 8` fields, starting with `focus` and ending with the mode |
| AdminForm.Set | app/components/AdminPage.jsx:34-37 | the named field takes the value, and every other field and the activities stay |
| AdminForm.Changed | app/components/AdminPage.jsx:22-38 | initials become the upper-cased value, with no lower-case letter left; any other field takes the value; nothing else changes |
| AdminForm.WithActivity | app/components/AdminPage.jsx:40-44 | only activity `index` changes |
| AdminForm.ValidateFirstFailure | app/components/AdminPage.jsx:52-86 | the message is the first broken rule in the order: focus, labels (scale mode), initials, location, duration, e-mail, domain. The form is accepted iff no rule is broken |
| AdminForm.Accepted | app/components/AdminPage.jsx:52-86 | an accepted form has every required field. In scale mode it has both labels, and its e-mail ends in `@betaniahemmet.se` in any case |
| AdminForm.EventIgnoresLabels | app/components/AdminPage.jsx:57 | in event mode the labels play no part |
| AdminForm.EmailCaseInsensitive | app/components/AdminPage.jsx:82-83 | two e-mails equal up to case are judged alike |
| AdminForm.LowerKeepsBlank | app/components/AdminPage.jsx:77-83 | lower-casing keeps a blank e-mail blank and a non-blank one non-blank |
| AdminForm.ActivityKeyShape | app/components/AdminPage.jsx:96 | the key of activity `i` is `activity_` followed by `i + 1` in decimal |
| AdminForm.ActivityKeysDiffer | app/components/AdminPage.jsx:95-96 | different activities get different keys |
| AdminForm.FixedKeysApart | app/components/AdminPage.jsx:93-103 | no fixed key is an activity key or the word `activities`, and the fixed keys differ |
| AdminForm.PostedKey | app/components/AdminPage.jsx:93-103 | the key at each posted position |
| AdminForm.NoActivitiesKey | app/components/AdminPage.jsx:94-97 | no posted key is `activities` |
| AdminForm.KeysDistinct | app/components/AdminPage.jsx:93-103 | the posted keys are distinct |
| AdminForm.PostedShape | app/components/AdminPage.jsx:92-103 | `n + 8` fields, with `activity_1`..`activity_n` in order after the labels. `admin_email` and then `tracking_mode` come last, no `activities` key appears, and every key occurs once |
| AdminForm.BuildForm | app/components/AdminPage.jsx:92-103 | the append loop builds `Posted` |
| AdminForm.FailureMessage | app/components/AdminPage.jsx:115-123 | a refusal mentioning "finns redan" reports the duplicate, any other refusal a server error, and no answer the generic message |
| AdminForm.AdminPage.constructor | app/components/AdminPage.jsx:8-20 | scale mode, no messages, the blank form with six activities |
| AdminForm.AdminPage.HandleChange | app/components/AdminPage.jsx:22-38 | the form becomes `Changed` |
| AdminForm.AdminPage.HandleActivityChange | app/components/AdminPage.jsx:40-44 | the form becomes `WithActivity` and keeps six activities |
| AdminForm.AdminPage.ToggleMode | app/components/AdminPage.jsx:198 | the mode flips |
| AdminForm.AdminPage.HandleSubmit | app/components/AdminPage.jsx:46-149 | a failed check sets its message and posts nothing. A passing form posts the form as it was before its e-mail was lower-cased. Success downloads `<initials>_<location>_QR.pdf` and resets the form; a failure keeps the form with the lower-cased e-mail and sets the failure's message |
| TrackingLog.Or | app/components/TrackingLog.jsx:30-31 | a non-empty setting, otherwise the fallback |
| TrackingLog.Available | app/components/TrackingLog.jsx:32 | exactly the present, non-blank activities, none blank, no more than listed |
| TrackingLog.AvailableAppend | app/components/TrackingLog.jsx:32 | the filter keeps order: two lists in turn give the activities of the first followed by those of the second |
| TrackingLog.AvailableOne | app/components/TrackingLog.jsx:32 | one activity is kept exactly when it is present and not blank |
| TrackingLog.AvailableCount | app/components/TrackingLog.jsx:32 | each non-blank activity is kept as often as it is listed, a blank one never |
| TrackingLog.Remove | app/components/TrackingLog.jsx:45 | every copy of the activity goes, and every other activity stays as often as listed |
| TrackingLog.RemoveAppend | app/components/TrackingLog.jsx:45 | the filter keeps order: it distributes over concatenation |
| TrackingLog.RemoveAbsent | app/components/TrackingLog.jsx:45 | removing an activity that is absent changes nothing |
| TrackingLog.Toggle | app/components/TrackingLog.jsx:42-48 | membership of the activity flips, no other changes, and an unticked activity is appended |
| TrackingLog.ToggleTwice | app/components/TrackingLog.jsx:42-48 | toggling twice restores the members, and restores the exact list when the activity was unticked |
| TrackingLog.ToggleKeepsDistinct | app/components/TrackingLog.jsx:42-48 | the ticked activities never repeat |
| TrackingLog.TooSoon | app/components/TrackingLog.jsx:56 | too soon iff a last time is recorded (0 counts as none) and `now` is less than a minute later |
| TrackingLog.LoggedValue | app/components/TrackingLog.jsx:70-74 | the slider value in scale mode, 1 otherwise |
| TrackingLog.NextLast | app/components/TrackingLog.jsx:85-88 | only an attempt that is not too soon and is saved moves the last time |
| TrackingLog.SavedBlocksAMinute | app/components/TrackingLog.jsx:56-90 | after a save, every attempt within the next minute is refused; a failed post blocks nothing new |
| TrackingLog.LogPage.constructor | app/components/TrackingLog.jsx:6-22 | the link's parameters and the default settings |
| TrackingLog.LogPage.LoadSettings | app/components/TrackingLog.jsx:28-33 | the settings with their fallbacks, and the available activities |
| TrackingLog.LogPage.HandleValueChange | app/components/TrackingLog.jsx:38-40 | the value is set |
| TrackingLog.LogPage.ToggleActivity | app/components/TrackingLog.jsx:42-48 | the ticked list becomes `Toggle` and stays free of repeats |
| TrackingLog.LogPage.HandleSubmit | app/components/TrackingLog.jsx:50-94 | too soon: only the wait message. Otherwise the log sent holds the link's non-empty parameters, the settings, the ticked activities and `LoggedValue`. Saved or failed sets the matching message, and only a save moves the last time |
| TrackingLog.LogPage.InvalidLink | app/components/TrackingLog.jsx:94 | the form is shown only when `tracking_id`, `initials` and `location` are all given and non-empty |
| Dictionary.Needle | app/components/src/Dictionary.jsx:39 | a blank query gives the empty needle |
| Dictionary.Kept | app/components/src/Dictionary.jsx:40-41 | exactly the present signs whose lower-cased label contains the needle |
| Dictionary.KeptCount | app/components/src/Dictionary.jsx:40-41 | each matching sign is kept as often as the server listed it, any other never |
| Dictionary.SignOrderTotal | app/components/src/Dictionary.jsx:42 | a total order on labels orders the signs totally |
| Dictionary.Filtered | app/components/src/Dictionary.jsx:38-43 | a permutation of the kept signs |
| Dictionary.FilteredSpec | app/components/src/Dictionary.jsx:38-43 | the members are exactly the matching present signs, each as often as the server listed it, no more than the signs, and sorted by label under any total collation |
| Dictionary.BlankQueryKeepsAll | app/components/src/Dictionary.jsx:39-41 | a blank query keeps every present sign |
| Dictionary.Find | app/components/src/Dictionary.jsx:30 | finding nothing in a non-empty list means its first element is present |
| Dictionary.FindSpec | app/components/src/Dictionary.jsx:30 | `find` returns the first "hej" and raises at a `null`, but only when every element before it passed |
| Dictionary.Preselect | app/components/src/Dictionary.jsx:29-32 | the first "hej", else the first sign, else nothing; it raises iff `find` does |
| Dictionary.PreselectSpec | app/components/src/Dictionary.jsx:29-32 | without `null`s: nothing iff no signs. A "hej" sign is chosen whenever one exists, otherwise the first sign |
| Dictionary.DictionaryPage.constructor | app/components/src/Dictionary.jsx:9-15 | no signs, no query, nothing selected or playing |
| Dictionary.DictionaryPage.Load | app/components/src/Dictionary.jsx:20-35 | a failure leaves the list empty and the selection alone; otherwise the list is stored and the preselection applied |
| Dictionary.DictionaryPage.SetQuery | app/components/src/Dictionary.jsx:189 | the query is set |
| Dictionary.DictionaryPage.Select | app/components/src/Dictionary.jsx:166-171 | playback stops and the sign is selected |
| Dictionary.DictionaryPage.SetSearchOpen | app/components/src/Dictionary.jsx:112 | "Sök" opens the search overlay and "Avbryt" closes it: it is open exactly as requested |
| Dictionary.DictionaryPage.SelectFromSearch | app/components/src/Dictionary.jsx:206-211 | the sign is selected, the overlay closed, the video hidden and the pictograms rewound; playing and fading stay as they were, so a click while the video plays leaves the page playing with no end handler to stop it |
| Dictionary.DictionaryPage.PlaySequence | app/components/src/Dictionary.jsx:49-91 | a no-op without a selection or while playing. Otherwise the video shows, the sorted pictograms are kept, and playing continues only with a video element |
| Dictionary.DictionaryPage.OnEnded | app/components/src/Dictionary.jsx:68-87 | the video hides, the pictogram index ends on the last one, and playing stops |
| Dictionary.PlayedPictograms | app/components/src/Dictionary.jsx:53 | the pictograms played are a sorted permutation of the sign's |
| DirectoryTree.Included | scripts/generate_tree.py:24 | exactly the entries whose name is not excluded |
| DirectoryTree.IncludedCount | scripts/generate_tree.py:24 | each entry with a name outside the excluded set is kept as often as listed, an excluded one never |
| DirectoryTree.IncludedAppend | scripts/generate_tree.py:24 | the filter keeps order: it distributes over concatenation |
| DirectoryTree.NameLeTotal | scripts/generate_tree.py:25 | the case-insensitive order is total |
| DirectoryTree.ShownSpec | scripts/generate_tree.py:23-26 | the shown entries are the non-excluded ones, each exactly as often as listed and an excluded one never, sorted case-insensitively |
| DirectoryTree.Connector | scripts/generate_tree.py:33 | `└── ` iff last, otherwise `├── ` |
| DirectoryTree.Extension | scripts/generate_tree.py:36 | four spaces iff last, otherwise `│   ` |
| DirectoryTree.Join | scripts/generate_tree.py:32 | the joined path ends in the entry name |
| DirectoryTree.ErrorLine | scripts/generate_tree.py:28 | the warning line starts with the prefix |
| DirectoryTree.Tree | scripts/generate_tree.py:18-40 | past the maximum depth no lines; a readable listing gives at least one line per shown entry |
| DirectoryTree.TooDeep | scripts/generate_tree.py:19-20 | past the maximum depth the result is `[]`, whatever the listing |
| DirectoryTree.UnreadableLine | scripts/generate_tree.py:27-28 | a listing error gives exactly one warning line |
| DirectoryTree.EntryBlock | scripts/generate_tree.py:33-39 | an entry's block starts with its connector line, and a file's block is that one line |
| DirectoryTree.AtLeastOneLineEach | scripts/generate_tree.py:31-40 | every entry contributes at least one line |
| DirectoryTree.LinesPrefix | scripts/generate_tree.py:30-40 | the lines of the first entries are a prefix of the lines of more entries |
| DirectoryTree.EntryPosition | scripts/generate_tree.py:31-40 | each entry's block sits in the tree right after the earlier entries' lines, starting with its connector line |
| DirectoryTree.TreeIndented | scripts/generate_tree.py:18-40 | every line starts with the prefix |
| DirectoryTree.LinesIndented | scripts/generate_tree.py:30-40 | every line of the first entries starts with the prefix |
| DirectoryTree.EntryIndented | scripts/generate_tree.py:34-39 | every line of an entry's block starts with the prefix |
| DirectoryTree.GenerateTree | scripts/generate_tree.py:18-40 | the recursive loop computes `Tree` |
| DirectoryTree.DrawEntry | scripts/generate_tree.py:32-39 | one pass of the loop gives exactly the entry's block: its connector line, then for a directory the drawing one level deeper under the extended prefix |

## Competition behaviour worth knowing

These are facts about the competition code that a reader might not expect:
- **No round order and no last question.** The question is `allSignIds[current % n]`, taken in key order.
  `current` grows without bound, so only a wrong answer ends the game (app/components/src/Competition.jsx:42, :60, :35).
- **Scores kept after a failed submission.** When posting the score fails, the failure is only logged.
  `scores` and `madeTop` keep their previous values (app/components/src/Competition.jsx:85-87).
- **No watched-clip guard.** The answer buttons are always enabled, whether or not the clip has been played
  (app/components/src/Competition.jsx:145-151).
- **Up to three distractors.** The distractors are at most three texts. They come from the labels listed for
  the target's word count and from all sign labels, so a small catalog gets fewer
  (app/components/src/Competition.jsx:44-48).
- **Replay reloads the page.** Playing again reloads the whole page (app/components/src/Competition.jsx:177),
  so replay is not an operation of the model.

## Left out

- **I/O.** The network (`fetch`), timers (`setTimeout`, delays), audio and video are parameters or left out.
  So are `window.location`, the file system (reads, atomic writes, `mkdir`, file copying), `print` and the
  process exit. Server replies, clock readings, directory listings and file-existence tests are parameters.
- **Concurrency.** The leaderboard lock and the interleaving of asynchronous handlers are left out. Each
  handler runs to its next wait as one step.
- **Floating point.** Scores are exact reals. The competition's float accumulation and Python's
  `round(score, 2)` are not modelled.
- Leaderboard.NewEntry: stores the score unrounded, where the source stores `round(score, 2)`, because
  floating point is left out.
- **Shuffle distribution.** `Math.random` shuffles are modelled as "some permutation chosen by picks". How
  likely each permutation is, is not modelled.
- **Text handling:**
  - Case mapping covers ASCII and Latin-1 letters only.
  - Whitespace for `trim`/`strip`/`split` is the ASCII whitespace set with the no-break space.
  - `isdigit` is restricted to ASCII digits.
  - JavaScript's default `sort()` compares UTF-16 code units; the model compares code points.
- **Collation.** `localeCompare` is a caller-given total order on labels.
- **JSON.**
  - Dict key order is not modelled, except where the code depends on it. The competition's `Object.keys`
    order is a given sequence; the admin form's field order is modelled.
  - JSON values of unexpected types appear only where the code branches on them: the dictionary's `signs`
    field, the validator's URL values and the leaderboard's arguments.
  - A settings reply without `activities` is not modelled. It makes the tracking log's load raise, and the
    raise is only logged.
  - A `null` focus is not distinguished from a string.
- Competition.Game.SetTag: keeps the first ten code points, where `slice(0, 10)` keeps the first ten UTF-16
  code units, because strings are sequences of code points here; a name with characters outside the
  Basic Multilingual Plane is cut differently.
- **Slider text.** The tracking log's slider reading (`parseInt`) is taken as already a number.
- AdminForm.AdminPage.HandleActivityChange: requires an index below six, because only the six rendered
  inputs call it.
- **Previous-session loading** in the admin page is not part of this model. It calls `useEffect`, which is not
  imported, and reads `previousSessions`, which is never declared, during render. As written, the page throws
  at its first render, so the modelled handlers describe the page once those names exist.
- **Repeated end handler.** Dictionary.DictionaryPage.OnEnded models one run of the video's end handler.
  The handler stays attached in the source, and an end after another sign was selected is not modelled.
- **Stepped pictogram timing.** The pictogram loop's per-frame waits are not modelled; only its final state
  is.
- ManifestBuilder.BuiltSigns: when two folders give the same key (`Hej` and `hej`), the model keeps the
  entry of the folder walked last, as `signs[sign_key] = ...` does, but the lemma says only that the entry
  comes from some folder with that key, not which one.
- **Symbolic links and path-shaped names in the tree.** Links in the directory tree are not modelled.
  Excluded names of the form `app/components/…` never match a listed name, as in the source.
- **Context and tooling files.** The training video page, the UI components, the video processors, the QR
  PDF generator, the database models and the configuration files are not part of this model.
