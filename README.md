# ENEM Arena server core, modelled in Dafny

ENEM Arena is a real-time quiz duel over questions from ENEM, the Brazilian
national exam. This project models the server's core and proves properties
about it:

- **Battle orchestrator** (`Arena`, arena.dfy). This is the state of
  `server/src/index.js`: per-topic matchmaking queues, live battles, the
  socket-to-battle index, pending timers and the events sent to sockets. Each
  socket event and each timer callback is one atomic method: enter
  matchmaking, submit an answer, disconnect, rebind on connection, the bot's
  turn, match timeout and grace expiry. `completeBattle` is the settlement
  method. Every such method is specified by the whole new state it leaves.
- **Settlement rules** (settlement.dfy). The winner's precedence chain,
  accuracy, the knowledge-point (kp) reward, Elo scores, win streaks and
  per-topic tallies.
- **Rating rules** (elo.dfy). The logistic expectation, the rounded rating
  update and the K-factor threshold.
- **Question adapter** (questions.dfy). Topic aliasing, the Markdown image
  scanner, conversion of an ENEM API question, the in-place answer cache, and
  what `fetchQuestion` yields once its six attempts are over.
- **CORS allow-list** (cors.dfy). `makeCorsOrigin`'s parsing of a
  comma-separated list with `*` wildcards, and its admit decision.
- **Economy routes**. The `/gacha/pull` draw with rerolls (gacha.dfy), and
  `/users/equip` and `/users/profile` (users.dfy).
- **Shared pieces**. The database records (models.dfy), the JavaScript string
  built-ins the server relies on (jsstring.dfy), and Option/Result
  (wrappers.dfy).

Several things are inputs to the methods rather than modelled:

- the clock (`now`);
- every random draw (the bot's 40% coin, its letter pick and its delay; the
  gacha draws);
- the outcome of each of a fetch's six HTTP attempts (a failure, or the page of
  questions plus the random index that picks one);
- `Math.pow(10, d / 400)`, given as an oracle whose exponential laws are
  stated by `Elo.ValidPow10`.

Where the source only tests a value for truthiness, the empty string stands
for a missing value (`undefined`, `null` or `''`).

Behaviour of the code worth noting:

- Matchmaking removes a user's stale entries only from the requested topic's
  queue, not from every queue.
- `submit_answer` has no "question already answered" guard.
  `currentQuestion` stays set while the next one is fetched, so every
  submission counts.
- A letter answer is compared after trimming and upper-casing. A text answer
  is compared after trimming only, so it is case-sensitive.
- When the bot misses its 40% draw, it picks uniformly among all the
  option letters, the correct one included.

## Model

| member | source | states |
|---|---|---|
| Elo.ExpectedScore | server/src/services/elo.js:1-3 | A side's expected score lies strictly between 0 and 1. |
| Elo.ExpectedScoresSumToOne | server/src/services/elo.js:1-3 | The two sides' expectations sum to exactly 1. |
| Elo.ExpectedScoreEqualRatings | server/src/services/elo.js:1-3 | At equal ratings the expectation is exactly 0.5. |
| Elo.ExpectedScoreIncreasing | server/src/services/elo.js:1-3 | The expectation grows strictly with one's own rating. |
| Elo.Round | server/src/services/elo.js:6 | `Math.round` gives the integer n with n - 0.5 <= x < n + 0.5, so halves round up. |
| Elo.RoundUnique | server/src/services/elo.js:6 | Only one integer meets that window, so the rounding is fully determined. |
| Elo.NewRating | server/src/services/elo.js:5-7 | The new rating is within half a point (halves up) of old + K·(score - expected). |
| Elo.NewRatingAtExpectation | server/src/services/elo.js:5-7 | A score equal to the expectation leaves an integer rating unchanged. |
| Elo.EqualRatingsExample | server/src/services/elo.js:1-7 | At 1200 against 1200 with K = 32, a win gives 1216 and a loss 1184. |
| Elo.KFactorForGames | server/src/services/elo.js:9-11 | K is 32 exactly when fewer than 25 games were played, and 16 otherwise. |
| Elo.KFactorThreshold | server/src/services/elo.js:9-11 | 24 games give 32 and 25 games give 16. |
| Cors.Items | server/src/index.js:48-51 | Allow-list items are non-empty, trimmed and free of commas. |
| Cors.Trimmed | server/src/index.js:50 | `map(s => s.trim())` gives one entry per piece, in order, each the trimmed piece. |
| Cors.NonEmpty | server/src/index.js:51 | `filter(Boolean)` keeps only non-empty strings of the list, and keeps every non-empty one. |
| Cors.NonEmptySingle | server/src/index.js:51 | A single string is kept exactly when it is not empty. |
| Cors.NonEmptyKeepsOrder | server/src/index.js:51 | Filtering a concatenation concatenates the filtered parts, so the items keep the order of the list. |
| Cors.OriginAllowed | server/src/index.js:44-65 | An empty or `*` list, or a missing origin, admits everything. Otherwise the origin is admitted exactly when the pattern of some non-empty trimmed comma-separated piece of the list matches it: a glob when the piece holds `*`, the piece itself otherwise. |
| Cors.GlobMatch | server/src/index.js:53-57 | The anchored pattern language: `*` matches any run without line terminators and every other character, being escaped, matches itself. So a glob without `*` matches exactly the string it spells. |
| Cors.StarMatchesLine | server/src/index.js:55 | The anchored glob `*` matches exactly the strings without line terminators. |
| Cors.StarPrefix | server/src/index.js:55 | A leading `*` matches any prefix without line terminators in front of whatever the rest of the glob matches. |
| Cors.ExactListAllowed | server/src/index.js:58-62 | When no comma-separated piece holds `*`, an origin is admitted exactly when it equals one of the trimmed pieces. |
| JsString.Split | server/src/index.js:48-49 | `split(',')` returns at least one piece, no piece holds the separator, and joining the pieces gives back the input. |
| JsString.Trim | server/src/index.js:50 | The result of `trim` is no longer than its input and neither starts nor ends with white space. |
| JsString.TrimKeepsMiddle | server/src/index.js:50 | `trim` keeps a contiguous middle of the string and removes only white space on each side. |
| JsString.TrimTakesFromInput | server/src/index.js:436-437 | The result of `trim` holds only characters of its input. |
| JsString.ToUpper | server/src/index.js:436 | `toUpperCase` keeps the length and maps each character by the ASCII case mapping. |
| JsString.TrimTrimmed | server/src/index.js:436-437 | Trimming a string that is already trimmed changes nothing. |
| JsString.NatToStringInjective | server/src/services/questions.js:59 | Distinct numbers print as distinct decimal strings. |
| Questions.TopicToDiscipline | server/src/services/questions.js:14-28 | A listed alias maps to its slug, an unlisted topic is kept, and a missing topic becomes `matematica`. The result is never empty. |
| Questions.TopicToDisciplineIdempotent | server/src/services/questions.js:14-28 | Aliasing a slug again leaves it unchanged. |
| Questions.TopicToDisciplineExamples | server/src/services/questions.js:14-28 | `Math` maps to `matematica`, `Humanas` to `ciencias-humanas`, the missing topic to `matematica`, and `quimica` to itself. |
| Questions.LinkAt | server/src/services/questions.js:32 | A match anchored at i starts at i, spans at least the six characters of `![](u)`, and ends inside the text. |
| Questions.LinkAtSound | server/src/services/questions.js:32 | Every match found spells `![alt](url)`: alt has no `]`, and url is non-empty and free of `)`. |
| Questions.LinkAtComplete | server/src/services/questions.js:32 | Every image link spelled at i is found there, with its url. |
| Questions.NextLink | server/src/services/questions.js:35 | One `exec` returns the leftmost match at or after `lastIndex`. When nothing is returned, nothing matches. |
| Questions.ImageUrls | server/src/services/questions.js:30-39 | Scanning from the end of the text collects nothing, and the matches do not overlap, so there is at most one url per six characters scanned. |
| Questions.ImageUrlsSound | server/src/services/questions.js:30-39 | Every collected url is non-empty, free of `)`, and the url of an image link spelled in the text. |
| Questions.NoImageWithoutBang | server/src/services/questions.js:30-39 | A text without `!` yields no urls. |
| Questions.ExtractImageUrlsFromMarkdown | server/src/services/questions.js:30-39 | The `exec` loop collects the urls of the successive non-overlapping matches, left to right. Empty input gives []. |
| Questions.QuestionIdInjective | server/src/services/questions.js:59 | Different (year, index) pairs give different `enem-<year>-<index>` ids. |
| Questions.OptionsOf | server/src/services/questions.js:61-65 | Options keep the alternatives' order, letter and text, with imageUrl = file or null. |
| Questions.FindLetter | server/src/services/questions.js:67 | `find` returns the first alternative carrying the letter, or none when no alternative does. |
| Questions.CorrectText | server/src/services/questions.js:67 | correctText is the non-empty text of the first alternative with the correct letter. It is null exactly when no alternative has that letter or its text is empty. |
| Questions.QuestionOf | server/src/services/questions.js:58-86 | The internal question has id `enem-<year>-<index>`. Its topic is the question's discipline, or the wanted one when that is empty, so never empty when the wanted discipline is not. Its text is the alternatives introduction, else the title, else empty. It keeps the context with its image urls. Its options are `OptionsOf` the alternatives: the same letter and text, and `imageUrl` from `file`. |
| Questions.EntryOf | server/src/services/questions.js:70-76 | The cached key has the options the players see, the question's correct letter, discipline and year, and a known correct text is the text of an option carrying the correct letter. |
| Questions.FilterDiscipline | server/src/services/questions.js:100 | The filter keeps exactly the page's questions of the wanted discipline. |
| Questions.FilterDisciplineKeepsOrder | server/src/services/questions.js:100 | Filtering a concatenation concatenates the filtered parts, so the page order is kept. |
| Questions.Chosen | server/src/services/questions.js:91-104 | The question the attempt loop picks is of the wanted discipline. |
| Questions.ChosenNoneIffNoFind | server/src/services/questions.js:91-104 | The loop picks nothing exactly when no attempt yields a page holding a question of the discipline. |
| Questions.ChosenIsFirstFind | server/src/services/questions.js:91-104 | A pick is `filtered[pick % filtered.length]` of the first attempt whose page holds a question of the discipline. |
| Questions.FallbackIdIsNotEnem | server/src/services/questions.js:114 | A `local-` fallback id never collides with an ENEM question id. |
| Questions.FallbackQuestion | server/src/services/questions.js:113-125 | The local question has the id `local-<now>`, the wanted discipline as topic, the text `Qual a derivada de x^2?`, no context and no images. Its four options are A `1`, B `x`, C `2x` and D `x^2`, none with an image. |
| Questions.FallbackEntry | server/src/services/questions.js:126 | Its cached key is answer `C` with text `2x`, the local question's options and no year. That text is the text of the option carrying letter `C`. |
| Questions.FetchOutcome | server/src/services/questions.js:88-128 | A fetch fails only in strict mode, and then with `ENEM_API_UNAVAILABLE`. A successful fetch has the discipline as its topic. |
| Questions.CacheAfterFetch | server/src/services/questions.js:88-128 | The cache keeps every id it had. A failed fetch leaves it as it was, and a successful one holds the returned question's id with the same options. |
| Questions.FetchOutcomeProperties | server/src/services/questions.js:88-128 | The fetch fails exactly in strict mode when no attempt yields a page holding a question of the discipline, and then caches nothing. A success leaves every other cache entry as it was. |
| Questions.FetchOutcomeChoice | server/src/services/questions.js:91-126 | When some attempt finds a question of the discipline, the fetch returns the pick of the first such attempt. When none does and the fetch is not strict, it returns the local question. |
| Questions.FirstFindIsChosen | server/src/services/questions.js:91-104 | The first attempt that finds a question of the discipline is the one the loop picks from. |
| Questions.CacheAfterFetchChoice | server/src/services/questions.js:91-126 | When some attempt finds a question, the fetch caches exactly `EntryOf` the first such attempt's pick under its exam id. When none does and the fetch is not strict, it caches exactly answer `C` with text `2x` under the local id. |
| Questions.QuestionService.constructor | server/src/services/questions.js:11 | `ANSWER_CACHE` starts empty. |
| Questions.QuestionService.GetAnswerDetail | server/src/services/questions.js:135-139 | An unknown id gives null. A known id gives its cached letter, text and options. |
| Questions.QuestionService.GetCorrectAnswer | server/src/services/questions.js:130-133 | Gives the cached correct text when it is known and non-empty, and null otherwise. |
| Questions.QuestionService.ToInternalQuestion | server/src/services/questions.js:58-86 | Returns the internal question, with text falling back from introduction to title to '' and topic from discipline to the wanted one. Caches the answer key under its id, so `getAnswerDetail(id)` then returns exactly that letter, text and options. |
| Questions.QuestionService.FetchQuestion | server/src/services/questions.js:88-128 | The six-attempt loop returns and caches the first question of the discipline that any attempt finds. Otherwise strict mode fails, and non-strict mode caches and returns the local question (answer `C`, text `2x`). |
| Models.GamesPlayed | server/src/index.js:192-197 | The number of logged battles the user took part in. It is 0 exactly when the user appears in none. |
| Models.GamesPlayedAppend | server/src/index.js:192-197 | Logging one's own match counts one more game. Logging others' matches changes nothing. |
| Settlement.Accuracy | server/src/index.js:188-190 | Accuracy is 0 with no answers, and otherwise is correct/total, between 0 and 1. |
| Settlement.DecideWinner | server/src/index.js:213-232 | A forfeiting side loses. Otherwise more correct answers win, then at equal counts the higher accuracy wins, then at equal accuracy the side whose last correct answer came first (a missing time counts as infinity) wins. |
| Settlement.DecideWinnerSymmetric | server/src/index.js:213-232 | Swapping the two sides' tallies (and the forfeiting side) swaps the winner. |
| Settlement.DrawExactlyOnFullTie | server/src/index.js:213-232 | A draw happens exactly when nobody forfeited and correct count, accuracy and last-correct time all tie (a missing time counts as infinity). |
| Settlement.FewerAnswersWinTie | server/src/index.js:219-223 | With equal non-zero correct counts, fewer answers and so higher accuracy win. |
| Settlement.AccuracyBonus | server/src/index.js:273-274 | The bonus is 50 exactly when 4·correct > 3·total (accuracy > 0.75). It is 25 exactly when 5·correct > 3·total but not above 0.75. It is 0 otherwise. |
| Settlement.KpRewardExample | server/src/index.js:267-280 | A winner with 8 of 10 earns 80 + 50 + 100 = 230. |
| Settlement.KpReward | server/src/index.js:267-280 | The kp reward lies between 10·correct and that plus 150. It reaches 100 above 10·correct exactly for the winner, so a draw pays the winner bonus to neither side. |
| Settlement.EloScore | server/src/index.js:291-293 | A win scores 1, a loss 0, and a draw 0.5. |
| Settlement.StatsAfter | server/src/index.js:302-307 | `stats[topic]` gains the correct answers in `correct` and the rest of the answers in `incorrect`. A missing entry starts at 0/0, and other topics are untouched. |
| Arena.RemoveUser | server/src/index.js:407-410 | The queue without the user's entries is no longer than before and holds no entry of that user. |
| Arena.RemoveUserKeepsOthers | server/src/index.js:407-410 | Removing a user's stale entries keeps every other user's entry and drops every one of theirs. |
| Arena.RemoveUserKeepsOrder | server/src/index.js:407-410 | Removing from a concatenation concatenates what each part keeps, so the queue order is kept. |
| Arena.WithoutUser | server/src/index.js:407-410 | The backward `splice` loop yields the queue without the user's entries, the others in order. |
| Arena.EnqueuedPairsDistinctUsers | server/src/index.js:406-416 | From a queue of at most one entry, entering gives the newcomer alone or a pair (the waiting user, the newcomer) of two different users. So queues hold at most one entry between events, and nobody is paired with themselves. |
| Arena.FirstBattleOf | server/src/index.js:367-370 | The earliest-created live battle that includes the user, if there is one. |
| Arena.LetterMatch | server/src/index.js:436 | `isLetterMatch` accepts the key letter itself, up to surrounding white space, and accepts only answers that trim to the key's trimmed length. |
| Arena.TextMatch | server/src/index.js:437 | `isTextMatch` accepts the exact non-empty correct text, and accepts nothing when no correct text is known. |
| Arena.IsCorrectAnswer | server/src/index.js:438 | `isCorrect` accepts the key letter, and accepts nothing for a question without an answer key. |
| Arena.AnswerIgnoresSurroundingSpace | server/src/index.js:436-438 | White space around an answer never changes its verdict. |
| Arena.UnknownQuestionAcceptsNothing | server/src/index.js:433-438 | Without a cached answer key, no answer is correct. |
| Arena.LetterMatchOnTrimmed | server/src/index.js:436 | For trimmed inputs, a letter answer matches when the letter is known and both agree after upper-casing. |
| Arena.TextMatchOnTrimmed | server/src/index.js:437 | For trimmed inputs, a text answer matches exactly when it equals the known non-empty correct text, case included. |
| Arena.AfterAnswer | server/src/index.js:439-443 | An answer adds one to the total. A correct one also adds one to the correct count, sets the score to it and records the time since the start. Nothing else changes, and correct <= total is kept. |
| Arena.Counted | server/src/index.js:429-443 | Only the answering side is updated, as above, and the other side and the battle's fields stay as they were. |
| Arena.ScoreNotice | server/src/index.js:444-445 | A correct answer sends the new correct count to the opponent's socket, and nothing when the opponent has no socket. A wrong one sends nothing. |
| Arena.WithQuestion | server/src/index.js:449 | The fetched question becomes that side's current question, and nothing else changes. |
| Arena.Letters | server/src/index.js:488 | The bot's letters are the non-empty option letters, and every non-empty option letter is among them. |
| Arena.LettersKeepOrder | server/src/index.js:488 | The letters of a concatenation of options are the letters of each part, one after the other, so the options' order is kept. |
| Arena.BotAnswer | server/src/index.js:487-492 | The bot answers nothing exactly when the 40% draw did not give a known key letter and the options carry no letters. Any answer it gives is the key letter or one of the option letters. |
| Arena.BotCoinAnswersKey | server/src/index.js:490-491 | With a known key, the 40% branch answers correctly. With no key, the bot is never right. |
| Arena.BotPickCoversLetters | server/src/index.js:492 | The other branch lands on the i-th letter for draw i, so every letter can be picked, the correct one included. |
| Arena.BotDelay | server/src/index.js:509 | The next bot delay lies between 3000 and 6999 ms. |
| Arena.FreshPlayer | server/src/index.js:133-157 | A new player has zero counters, the first question, and is connected with no grace timer. |
| Arena.NewBattle | server/src/index.js:124-158 | The registered battle ends 10 minutes after the start, holds both first questions and has consistent counters. |
| Arena.IsPractice | server/src/index.js:235 | A test battle, and every battle against the bot, is practice. |
| Arena.WinnerId | server/src/index.js:342 | The winner id is none exactly for a draw, and otherwise the winning side's user. |
| Arena.RecordOf | server/src/index.js:315-324 | The match record holds side one's and side two's users, correct counts and totals, the battle's topic, and the winning side's user, which is none exactly for a draw. |
| Arena.WithoutBattle | server/src/index.js:355-357 | Exactly the sockets mapped to the battle are dropped from the index. The others are kept unchanged. |
| Arena.SettledUser | server/src/index.js:283-310 | The new rating is `NewRating` of the old one, with the side's score, the expectation against the opponent's pre-battle rating, and K from the user's own game count. Settling adds the kp reward (between 10·correct and that plus 150). The streak grows by one on a win and is reset otherwise. The battle's answers are added to `stats[topic]`, and other topics are unchanged. No field other than elo, kp, streak and stats changes. |
| Arena.SettledStreaks | server/src/index.js:308-310 | From non-negative streaks, each side's streak is positive afterwards exactly when it won. So at most one side keeps a streak, and a draw resets both. |
| Arena.SettledEloDirection | server/src/index.js:289-299 | The winner's rating never drops and the loser's never rises. |
| Arena.Rebound | server/src/index.js:373-378 | Rebinding sets the new socket, clears `disconnected` and forgets the grace timer, leaving counters and question as they were. |
| Arena.Arena.constructor | server/src/index.js:87-89 | The queues, battles and socket index start empty. |
| Arena.Arena.CompleteBattle | server/src/index.js:199-360 | An unknown battle is left alone. Otherwise the battle is deregistered before settling and its timers cleared. A practice battle reports zero rewards and changes no user. A rated battle settles both users, logs the match and reports kp and elo changes. The battle's sockets are forgotten. Afterwards the battle is gone, so a second call changes nothing. |
| Arena.Arena.Settle | server/src/index.js:234-258 | A practice battle (test flag, or the bot as side two) reports zero rewards, persists nothing and forgets its sockets. Any other battle goes on to the rated settlement. |
| Arena.Arena.SettleRated | server/src/index.js:260-264 | A rated battle with a missing user stops with nothing more changed. Otherwise it is persisted. |
| Arena.Arena.PersistRated | server/src/index.js:266-357 | Both users get their new elo (K from their game count), kp, streak and stats. The match record is appended, the rewards are reported to the room, and the battle's sockets are forgotten. |
| Arena.Arena.StartBattle | server/src/index.js:104-186 | If either first-question fetch fails, both seats are told the API is unavailable and nothing is registered. Otherwise the battle is registered. |
| Arena.Arena.RegisterBattle | server/src/index.js:124-183 | The new battle is filed under a fresh id and both sockets are mapped to their sides. The 10-minute match timer (and the bot's 3.5 s first turn) become pending. `match_found` and then `battle_start` go to each seat. |
| Arena.Arena.FindBattleOf | server/src/index.js:393-400 | The scan returns the first battle the user takes part in, and none exactly when the user is in no battle. |
| Arena.Arena.EnterMatchmaking | server/src/index.js:389-421 | A user already in a battle is ignored, and the empty topic means `matematica`. A test request starts a practice battle against the bot. Otherwise the user's stale entries leave that topic's queue, the user is pushed, and two waiting users start a battle: the older one as side one, the newcomer as side two, two different users. |
| Arena.Arena.SubmitAnswer | server/src/index.js:423-454 | With no mapping, no live battle or no current question, nothing changes. Otherwise the answer is played. |
| Arena.Arena.PlayAnswer | server/src/index.js:433-453 | The answer is judged against the cached key and counted, and the opponent hears a new score. The next question is fetched: on success it becomes current and `answer_result` is sent back; on failure the battle completes with `api_unavailable`. |
| Arena.Arena.FetchNext | server/src/index.js:447-453 | The next question of the battle's topic becomes that side's, or a failed fetch completes the battle with `api_unavailable`. |
| Arena.Arena.CountAnswer | server/src/index.js:439-446 | The answering side's counters advance and the opponent is told the new score when correct. Nothing else changes. |
| Arena.Arena.Disconnect | server/src/index.js:456-469 | Only the socket's own side is marked disconnected, and a fresh grace timer naming that side is pending. An unmapped socket or a finished battle changes nothing. |
| Arena.Arena.Reconnect | server/src/index.js:362-387 | The first battle holding the user is rebound to the new socket, its grace timer cancelled, and the socket mapped. The current question and the opponent's correct count are resent. Counters stay as they were. |
| Arena.Arena.DurationElapsed | server/src/index.js:177-179 | The match timer completes the battle with reason `time`. |
| Arena.Arena.GraceElapsed | server/src/index.js:465-468 | The grace timer completes the battle with the side it names as forfeiting loser. |
| Arena.Arena.BotTurn | server/src/index.js:473-511 | A bot turn of a finished battle does nothing. Otherwise the bot plays. |
| Arena.Arena.BotPlays | server/src/index.js:478-510 | The bot answers (if it holds a question) and is counted like a player, and the human hears a new score. The next question is fetched: a failure completes the battle, and a success becomes the bot's question with the next turn pending after 3000–6999 ms. |
| Arena.Arena.BotAnswers | server/src/index.js:486-501 | A bot holding a question answers `BotAnswer` and is counted against the cached key. With no question, nothing changes. |
| Arena.Arena.Schedule | server/src/index.js:510 | `setTimeout` makes the timer pending under a fresh handle and changes nothing else. |
| Gacha.Draw | server/src/routes/gacha.js:35-39 | Each draw is an index into the pool. |
| Gacha.Rerolls | server/src/routes/gacha.js:37-41 | The loop rerolls at most 5 times, only while the drawn item is owned, and stops at an unowned item before the fifth reroll. |
| Gacha.AddIfAbsent | server/src/routes/gacha.js:44-46 | The item is added only if absent. The inventory grows by at most one and stays free of duplicates. |
| Gacha.Pull | server/src/routes/gacha.js:23-54 | A missing user gives 404, fewer than 100 sg gives 400, and an empty pool gives 500, each charging nothing. Otherwise the item after the rerolls is awarded, 100 sg are taken, and the item is added if absent. |
| Gacha.PullKeepsEconomyInvariants | server/src/routes/gacha.js:43-46 | A pull from a sufficient balance lowers sg by exactly 100 and stays at 0 or above. The inventory stays duplicate-free and grows by at most one. |
| UserRoutes.LeanDoc | server/src/models/User.js:7-20 | The lean document has one entry per modelled schema path, with `_id` and `password` holding the user's values. |
| UserRoutes.LeanDocLossless | server/src/models/User.js:7-18 | Two users with the same lean document are the same user: the lean document keeps every modelled field. |
| UserRoutes.GetProfile | server/src/routes/users.js:8-18 | An unknown user gives 404. Otherwise the response is the lean document without `password` and with every other modelled field. |
| UserRoutes.Equip | server/src/routes/users.js:20-36 | A missing slot or item gives 400, an unknown user 404, an item not owned 400 and an unknown cosmetic 404, each saving nothing. Otherwise only `equippedCosmetics[slot]` is set to the item, and every other slot is kept. |
| Models.UserStore.constructor | server/src/models/User.js:1-24 | The users and battles collections start empty. |

## Left out

- Socket.io and Express transport. Emits are recorded in `outbox` with their recipient. Socket lookups, connectivity, room joins and delivery are not modelled. An emit to a socket that is gone is still recorded.
- Database connection, bootstrap, the in-memory fallback server and SIGINT handling are I/O.
- Real timers are not modelled. `setTimeout` adds a pending handle and `clearTimeout` removes it. Timer delays are recorded but not ordered, and a firing is the event method, which may be called for any pending handle.
- Async interleaving is not modelled: each handler runs as one atomic step. The source awaits fetches and database calls, and other events may run in between.
- The ENEM HTTP calls and the random choice of year and offset are not modelled. Each of the six attempts is given as an outcome: failed, or a page of questions with the random index that picks one.
- `Math.random` is not modelled. Every draw is a parameter, and `Math.floor(Math.random() * n)` is a number reduced modulo n.
- `makeBattleId` is modelled as a counter, so battle ids are always fresh. Random-id collisions are not modelled.
- `Math.pow` is given as the oracle `pow10` on the integer rating difference. Its laws are assumed through `ValidPow10` where a lemma needs them.
- Floating point is not modelled. Accuracy and Elo arithmetic are exact reals, so rounding errors of doubles are not captured.
- `toUpperCase` is modelled on ASCII letters only. Unicode case mapping is not modelled.
- `ensureSampleCosmetics` is not modelled. The pool given to `Gacha.Pull` is what `Cosmetic.find()` returns after seeding.
- The catch-all 500 responses and `console.error` logging are not modelled. No modelled operation throws, except a missing user in settlement (see the next item).
- Arena.Arena.CompleteBattle: when a rated battle's user document is missing, the source throws an unhandled rejection after deregistering the battle. The model stops at the same point, so that battle's sockets stay mapped and nothing is reported.
- Mongoose change tracking and document identity are not modelled. `findById`/`save` are a read and write of `UserStore.users`, `Battle.create` appends to `UserStore.battles`, and `countDocuments` is `GamesPlayed`.
- Arena.Arena.CompleteBattle: the rewards object is keyed by user id, and the model reports both sides as separate fields. The two entries would only collide if both sides were the same user. That cannot happen in a rated battle: `EnqueuedPairsDistinctUsers` shows matchmaking never pairs a user with themselves, and bot battles are practice battles. The two `save` calls run under `Promise.all`, unordered. The model writes them one after the other, which is only observable in that unreachable case.
- UserRoutes.LeanDoc: the schema's `{ timestamps: true }` option also stores `createdAt` and `updatedAt`, and Mongoose adds a `__v` version key. These fields are not modelled, so the profile response omits them.
- Authentication (`routes/auth.js`, the auth middleware), the leaderboard route and the whole client are not part of this model.
