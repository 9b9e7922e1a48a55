# Deduplicating broadcast scheduler of the Telegram bot

This is a Dafny model of the two broadcasters in `plugins/facts.py` and `plugins/quiz.py`.

- **Facts loop.** Four times a day it posts one "useless fact".
- **Single-question trivia loop.** Four times a day it posts one quiz poll. This loop is the second module pasted after line 175 of `plugins/facts.py`.
- **Batch trivia loop.** Four times a day it posts a batch of quiz polls (`plugins/quiz.py`).

Each broadcaster keeps a history file of the ids it has already posted. It uses that history to avoid posting the same item again.

| file | module | what it models |
|---|---|---|
| `wrappers.dfy` | `Wrappers` | `Option` and `Result` |
| `json.dfy` | `Json` | decoded JSON values as Python sees them: a dict looks a key up by its last binding and iterates its distinct keys in first-occurrence order; `for a in v` over a list, a string or a dict |
| `history.dfy` | `History` | the history files: load (missing or corrupt reads as `[]`), save (keeps the last 200 or 300 ids) |
| `schedule.dfy` | `Schedule` | the next wake-up time on the Asia/Kolkata wall clock for the slots 8/12/16/20 and 9/13/17/21 |
| `text.dfy` | `Text` | Python's whitespace class, the question normalisation `re.sub(r'\s+', ' ', q).strip()`, the prefix slice `s[:n]`, the opaque library codecs |
| `options.dfy` | `Options` | answer-option assembly: `incorrect + [correct]`, shuffle, `options.index(correct)`, option texts cut to 100 characters |
| `dedup.dfy` | `Dedup` | the single-item re-fetch loop (1 fetch plus up to 5 retries) |
| `facts.dfy` | `Facts` | the validator of `fetch_trivia_question`, the poll it builds, its fallback, and one cycle of each of the four handlers of `plugins/facts.py` |
| `quiz.dfy` | `Quiz` | batch decoding and the fallback batch of `fetch_trivia_questions`, the poll request, `process_questions` with its replacement loop, one cycle of `send_scheduled_trivia` and `manual_trivia` |

How the outside world is modelled:

- **Time.** Time is whole seconds on the IST wall clock. IST has no daylight saving, so a day starts at a multiple of 86400.
- **HTTP responses.** A response is already-decoded JSON (`Json.Json`).
- **Sends.** A Telegram send is a success flag. In `process_questions` it is `sendOk(k)` for the k-th send.
- **Fetchers.** A fetcher is an oracle indexed by call number: `fetch(k)` is what the k-th call returns.
- **Shuffle.** `random.shuffle` is an oracle of type `Shuffler`. The property that it only reorders its list is the predicate `IsShuffler`, assumed as a hypothesis in the lemmas that need it.
- **Library functions.** `urllib.parse.unquote`, `html.unescape`, `str.title` and the SHA-256 hex digest are fields of a `Codec` value.
- **Timestamps.** The float timestamps in fallback ids are opaque `stamp` strings.
- **History file.** The file is a `History.HistoryLog` object, whose `file` field is `Missing`, `Corrupt` or `Stored(ids)`.

Points where the model follows what the code does rather than what its comments say:

- **Fetch count.** The comment at `plugins/facts.py:112` says "max 5 attempts", but the loop at `plugins/facts.py:113-116` makes up to six fetches: one before the loop, then up to five more while `retry < 5`. `Dedup.SelectUnique` is given a budget of five re-fetches after the first.
- **No in-batch reservation.** `process_questions` (`plugins/quiz.py:170-196`) never adds an accepted id to `sent_ids`; it only appends it to `new_ids`. Two equal fresh ids in one batch are therefore both posted and both recorded.
- **Replacement fetch.** The replacement fetch at `plugins/quiz.py:182` always raises, so the cycles `Quiz.SendScheduledTrivia` and `Quiz.ManualTrivia` never replace a duplicate; see "## Findings".
- **Dead type checks.** The type checks at `plugins/facts.py:262-266` can never fail. `urllib.parse.unquote` at `plugins/facts.py:255-259` already raises on every non-string field, and an answer list that is a string or a dict yields strings anyway. The validator models the raise that actually happens, as `UndecodableField`.

## Model

| member | source | states |
|---|---|---|
| `Json.Lookup` | plugins/facts.py:233-236 | a dict lookup finds a value exactly when some member has that key, and the value is the one of the last member with that key, as when Python parses a JSON object with a repeated key |
| `Json.HasKey` | plugins/facts.py:250 | `field in question_data`: true exactly when some member has that key, by the contract of `Json.Lookup`; `Facts.FirstMissing` and `Facts.AllRequiredPresent` are stated over it |
| `Json.IsPyZero` | plugins/facts.py:233 | Python's `== 0` on a decoded JSON value, negated for the `!= 0` header tests here and at quiz.py:84: true of the number zero and also of `false`, because `False == 0` in Python; false of `"0"`, `null` and every other value. So a response whose `response_code` is `false` passes the header check |
| `Json.Keys` | plugins/facts.py:257 | iterating a dict visits each key of the object exactly once, and only its keys |
| `Json.IterItems` | plugins/quiz.py:92 | `for a in v` works on lists (their items, in order), strings (their characters, one per step) and dicts (their distinct keys, as strings, in order), and raises on anything else |
| `History.Truncate` | plugins/facts.py:48-51 | the saved list is a suffix of the given one; it has at most `max` entries and is exactly the last `max`; a list that fits is saved unchanged |
| `History.TruncateExact` | plugins/facts.py:37 | the saved length is the full length or exactly the limit; a longer list loses exactly its oldest entries |
| `History.TruncateIdempotent` | plugins/facts.py:209-212 | truncating an already truncated history changes nothing |
| `History.TruncateAppend` | plugins/facts.py:123-124 | after one append and save, the new id is last, preceded by the most recent `max - 1` earlier ids in order |
| `History.TruncateAppendAll` | plugins/quiz.py:222-224 | after extending by a batch and saving, the batch ends the file, preceded by the most recent earlier ids that still fit, in order |
| `History.Loaded` | plugins/facts.py:39-46 | the ids a load returns: the stored list, or `[]` for a missing or unparsable file; its use is stated by `History.HistoryLog.Load` and `History.SaveThenLoad` |
| `History.HistoryLog.Load` | plugins/facts.py:201-207 | a stored list is returned as stored; a missing or unparsable file gives `[]`, as in `load_sent_facts` (facts.py:39-46) and `load_sent_trivia` |
| `History.HistoryLog.Save` | plugins/quiz.py:56-59 | the file is replaced by the last `capacity` ids of the list |
| `History.SaveThenLoad` | plugins/facts.py:201-212 | loading after saving returns exactly the last `capacity` ids of the saved list, in order |
| `Schedule.DayStart` | plugins/facts.py:95 | the day start is a midnight at or before now, less than a day earlier |
| `Schedule.Targets` | plugins/facts.py:94-99 | one target per slot, at that slot's hour past today's midnight |
| `Schedule.Later` | plugins/facts.py:101 | the kept targets are exactly those strictly after now |
| `Schedule.Min` | plugins/facts.py:102 | `min` returns an element that is at most every element |
| `Schedule.NextTrigger` | plugins/facts.py:94-102 | the earliest of today's targets after now, else the first target tomorrow; characterised by `Schedule.NextTriggerSpec` |
| `Schedule.NextTriggerIsSlotAhead` | plugins/facts.py:101-102 | the next trigger is strictly after now, at most one day later, and on a slot instant |
| `Schedule.NextTriggerIsFirst` | plugins/facts.py:101-102 | every slot instant strictly after now is at or after the next trigger |
| `Schedule.NextTriggerSpec` | plugins/facts.py:298-304 | the next trigger is after now, within a day, on a slot, and no slot instant lies strictly between now and it |
| `Schedule.NextTriggerStable` | plugins/quiz.py:203-210 | recomputing at any instant before the trigger gives the same trigger, so there is no drift |
| `Schedule.NextTriggerMonotone` | plugins/quiz.py:203-210 | a later now never gives an earlier trigger |
| `Schedule.NoDoubleFire` | plugins/facts.py:92-106 | waking at or after the trigger, the next trigger is strictly later, so a slot never fires twice |
| `Schedule.SlotAfterWithinDay` | plugins/facts.py:94-102 | if slot `j` is the first slot after the current offset in the day, the trigger is that slot today |
| `Schedule.SlotTablesValid` | plugins/quiz.py:206 | both slot tables are non-empty, strictly increasing hours below 24 |
| `Schedule.FactsAtHalfPastEight` | plugins/facts.py:94-102 | at 08:30 the next fact is at 12:00 the same day |
| `Schedule.FactsAtHalfPastEightPm` | plugins/facts.py:102 | at 20:30 the next fact is at 08:00 the next day |
| `Schedule.TriviaAtSlotSkipsIt` | plugins/facts.py:304 | exactly at 13:00 the 13:00 slot is skipped and the next trivia is at 17:00 |
| `Text.IsSpace` | plugins/facts.py:274 | the characters Python's `\s` and `str.strip` treat as whitespace in a `str`; `Text.NormalizeShape` and `Text.NormalizeKeepsText` are stated over it |
| `Text.Collapse` | plugins/facts.py:274 | `re.sub(r'\s+', ' ', ...)`: `Text.CollapseRun` shows that each whitespace run becomes exactly one blank, and `Text.CollapseWord` that non-whitespace passes through; `Text.CollapseCanonical`, `Text.CollapseOfCanonical` and `Text.NonSpaceCollapse` give the shape of the result |
| `Text.Strip` | plugins/facts.py:274 | `.strip()`; characterised by `Text.StripCanonical`, `Text.StripOfTrimmed` and `Text.NonSpaceStrip` |
| `Text.Normalize` | plugins/facts.py:274 | collapse, then strip; `Text.NormalizeIsJoinedWords` shows it equals Python's `' '.join(q.split())`, and `Text.NormalizeShape`, `Text.NormalizeIdempotent` and `Text.NormalizeKeepsText` give its shape |
| `Text.QuestionId` | plugins/facts.py:214-216 | the hex SHA-256 digest of the text; `Facts.SameNormalFormSameId` states what it identifies |
| `Text.LStrip` | plugins/facts.py:274 | `lstrip` removes exactly a leading run of whitespace and leaves a non-space first character |
| `Text.RStrip` | plugins/facts.py:274 | `rstrip` removes exactly a trailing run of whitespace and leaves a non-space last character |
| `Text.CollapseFirst` | plugins/facts.py:274 | the collapsed text is empty exactly when the input is, and starts with whitespace exactly when the input does |
| `Text.CollapseCanonical` | plugins/facts.py:274 | after `re.sub(r'\s+', ' ', ...)` the only whitespace is single blanks |
| `Text.CollapseOfCanonical` | plugins/facts.py:274 | collapsing text whose only whitespace is single blanks changes nothing |
| `Text.StripCanonical` | plugins/facts.py:274 | stripping keeps the text canonical and leaves no whitespace at either end |
| `Text.StripOfTrimmed` | plugins/facts.py:274 | stripping text with no whitespace at either end changes nothing |
| `Text.NormalizeShape` | plugins/facts.py:274 | the normalised question has no leading or trailing whitespace, no two consecutive whitespace characters, and no whitespace but the blank |
| `Text.NormalizeIdempotent` | plugins/facts.py:274 | normalising twice gives the same text as normalising once |
| `Text.NonSpaceStrip` | plugins/facts.py:274 | stripping keeps every non-whitespace character in order |
| `Text.NonSpaceCollapse` | plugins/facts.py:274 | collapsing whitespace runs keeps every non-whitespace character in order |
| `Text.NormalizeKeepsText` | plugins/facts.py:274 | normalisation only touches whitespace: the non-whitespace characters survive, in order |
| `Text.Word` | plugins/facts.py:274 | the leading run of non-whitespace characters: a prefix with no whitespace, followed by whitespace or the end, and non-empty when the text starts with a non-space character |
| `Text.Words` | plugins/facts.py:274 | `str.split()` with no argument: every word is non-empty and free of whitespace; a reference for the normal form |
| `Text.CollapseRun` | plugins/facts.py:274 | a whitespace run followed by a non-space character, or by the end, collapses to exactly one blank |
| `Text.CollapseWord` | plugins/facts.py:274 | a run of non-whitespace characters passes through the collapse unchanged |
| `Text.RStripCollapseWords` | plugins/facts.py:274 | for text that does not start with whitespace, the collapsed text less its trailing blank is the words joined by single blanks |
| `Text.NormalizeIsJoinedWords` | plugins/facts.py:274 | the normalised question equals `' '.join(q.split())`: its words, in order, separated by exactly one blank |
| `Text.SameWordsSameNormalForm` | plugins/facts.py:274-281 | two questions with the same words get the same normal form, so the same id, whatever whitespace separates the words |
| `Text.Take` | plugins/quiz.py:104 | `s[:n]` is the prefix of `s` of length `n`, or all of `s` when it is shorter |
| `Options.IndexOf` | plugins/facts.py:271 | `list.index` returns the first position holding the value |
| `Options.Locate` | plugins/facts.py:271 | `options.index(correct)` succeeds exactly when `correct` is among the options, and its position holds `correct` |
| `Options.Assemble` | plugins/facts.py:269-271 | concatenate, shuffle, locate the correct answer; characterised by `Options.AssembleSpec` |
| `Options.AssembleSpec` | plugins/facts.py:269-271 | with a real shuffle the options are a permutation of `incorrect + [correct]`, the index is in range, and it points at the correct answer |
| `Options.MapTake` | plugins/quiz.py:101 | each option is the first 100 characters of the answer at the same position |
| `Options.MapTakePermutation` | plugins/quiz.py:97-101 | cutting the answers of two permutations of one list gives permutations of each other |
| `Dedup.Chosen` | plugins/facts.py:114-116 | the kept fetch is the first fresh one, or the sixth; every fetch before it collided |
| `Dedup.SelectUnique` | plugins/facts.py:113-116 | the loop makes 1 to 6 fetches, stops at the first id not in history, and otherwise keeps the sixth result |
| `Dedup.ThirdFetchWins` | plugins/facts.py:143-145 | two colliding fetches then a fresh one keep the third |
| `Dedup.AllCollideKeepsLast` | plugins/facts.py:348-350 | when all six fetches collide, the sixth is kept instead of failing |
| `Facts.FirstMissing` | plugins/facts.py:248-251 | the required-fields loop reports nothing exactly when all fields are present; otherwise it reports the first absent one |
| `Facts.DecodeText` | plugins/facts.py:255 | decoding a field succeeds exactly when it is a string |
| `Facts.DecodeAll` | plugins/facts.py:257 | the answer list decodes exactly when every item is a string, element by element |
| `Facts.DecodeAnswers` | plugins/facts.py:257 | the comprehension over `incorrect_answers`: a list gives its items, a string its characters, a dict its keys (by `Json.IterItems`), each decoded by `Facts.DecodeAll`; any other value raises |
| `Facts.AllRequiredPresent` | plugins/facts.py:248-251 | the field check passes exactly when the five named keys are all present |
| `Facts.DecodeFields` | plugins/facts.py:254-260 | the decoded dict, or the raise of `unquote` on a non-string field; characterised by `Facts.DecodeText`, `Facts.DecodeAll` and `Facts.ValidateQuestionAccepts` |
| `Facts.ValidateQuestion` | plugins/facts.py:243-266 | the checks on the first result; characterised by `Facts.ValidateQuestionAccepts` |
| `Facts.ValidateResponse` | plugins/facts.py:233-266 | the checks on the whole response; characterised by `Facts.ValidateAcceptsWellFormed` |
| `Facts.ValidateQuestionAccepts` | plugins/facts.py:247-266 | a question dict is accepted exactly when it has the five fields, four of them strings and the answers an iterable of strings |
| `Facts.ValidateAcceptsWellFormed` | plugins/facts.py:233-266 | a response is accepted exactly when it is well formed: a dict with `response_code` 0, a non-empty `results` list, and a well-formed first question |
| `Facts.BuildPoll` | plugins/facts.py:268-281 | the poll built from decoded fields; characterised by `Facts.BuildPollSpec` |
| `Facts.PollFooter` | plugins/facts.py:275-279 | the text after the cleaned question: a blank line, `Category: ` and the category, a line break, `Difficulty: ` and the title-cased difficulty; `Facts.BuildPollSpec` states that the poll text is the cleaned question followed by it |
| `Facts.FallbackPoll` | plugins/facts.py:286-291 | the fixed fallback question; characterised by `Facts.FallbackPollSpec` |
| `Facts.FetchTriviaQuestion` | plugins/facts.py:223-291 | validation, then the poll, with the fallback on any raise; characterised by `Facts.FetchTriviaQuestionSpec` |
| `Facts.BuildPollSpec` | plugins/facts.py:269-281 | the poll is built; its options are a permutation of the answers, its index points at the correct one, its id is the hash of the normalised question, and its text is that question followed by the category and difficulty footer |
| `Facts.FallbackPollSpec` | plugins/facts.py:286-291 | the fallback's index 2 names "Japan" and its id starts with `fallback_` |
| `Facts.FetchTriviaQuestionSpec` | plugins/facts.py:223-291 | a malformed response yields the fallback question; a well-formed one yields the poll built from its decoded fields |
| `Facts.SameNormalFormSameId` | plugins/facts.py:274-281 | questions with equal normal forms get equal ids |
| `Facts.Dispatch` | plugins/facts.py:108-124 | the item sent is the one the retry loop keeps; after a successful send the history is `truncate(old + [id])`; after a failed send the file is unchanged |
| `Facts.SendScheduledFacts` | plugins/facts.py:92-124 | it wakes at the next fact slot, then dispatches, saving within 200 ids |
| `Facts.InstantFactsHandler` | plugins/facts.py:135-153 | it dispatches a fact and saves the history within 200 ids |
| `Facts.TriviaFetcher` | plugins/facts.py:309-314 | the `fetch_trivia_question()` calls of the trivia retry loops (also lines 344 and 349): the k-th call yields the poll `Facts.FetchTriviaQuestion` builds from the k-th response, paired with its id; `Facts.FetchTriviaQuestionSpec` characterises each call |
| `Facts.SendScheduledTrivia` | plugins/facts.py:297-329 | it wakes at the next trivia slot, then dispatches a trivia poll, saving within 300 ids |
| `Facts.InstantTriviaHandler` | plugins/facts.py:339-364 | it dispatches a trivia poll and saves the history within 300 ids |
| `Quiz.Unquoted` | plugins/quiz.py:90 | unquoting succeeds exactly on a present string field |
| `Quiz.UnquoteAll` | plugins/quiz.py:92 | the answer list decodes exactly when every item is a string; item `i` of the result is `unquote` of item `i`, so the length is kept |
| `Quiz.DecodeFields` | plugins/quiz.py:89-95 | the five unquoted fields of one result, or nothing when one raises; `Quiz.Unquoted` and `Quiz.UnquoteAll` state each field |
| `Quiz.BuildQuestion` | plugins/quiz.py:97-109 | one question tuple from decoded fields; characterised by `Quiz.BuildQuestionSpec` |
| `Quiz.DecodeQuestion` | plugins/quiz.py:88-110 | one pass of the decoding loop: decode the fields, then build the question, failing when a field access or `unquote` raises; characterised through `Quiz.DecodeBatchSpec` and `Quiz.BuildQuestionSpec` |
| `Quiz.BuildQuestionSpec` | plugins/quiz.py:97-109 | a built question fits the limits; with a real shuffle it is always built, its options are the cut answers in some order, the index points at the cut correct answer, and the id hashes the uncut question |
| `Quiz.DecodeBatch` | plugins/quiz.py:87-110 | a decoded batch has one question per result |
| `Quiz.DecodeBatchSpec` | plugins/quiz.py:87-112 | the batch decodes exactly when every result does, and then holds each result's question at its position |
| `Quiz.BatchResults` | plugins/quiz.py:84-85 | the results list of a response whose header passes, else nothing; used by `Quiz.TriviaBatchSpec` and `Quiz.TriviaBatchDecoded` |
| `Quiz.FallbackBatch` | plugins/quiz.py:117-150 | the four fixed fallback questions; characterised by `Quiz.FallbackBatchSpec` |
| `Quiz.TriviaBatch` | plugins/quiz.py:65-150 | what `fetch_trivia_questions` returns; characterised by `Quiz.TriviaBatchSpec`, `Quiz.TriviaBatchDecoded` and `Quiz.TriviaBatchWithinLimits` |
| `Quiz.FallbackBatchSpec` | plugins/quiz.py:117-150 | four fallback questions within the limits, with the right answers (Japan, Paris, Da Vinci, Water), with pairwise distinct `fallback_` ids |
| `Quiz.TriviaBatchSpec` | plugins/quiz.py:84-85 | a bad header, or any result that does not decode, gives the fallback batch |
| `Quiz.TriviaBatchDecoded` | plugins/quiz.py:87-112 | when every result decodes, the batch is the decoded questions, one per result, in order |
| `Quiz.TriviaBatchWithinLimits` | plugins/quiz.py:65-150 | whatever the response, the batch is never empty and every question fits the 255 and 100 character limits |
| `Quiz.DecodedWithinLimits` | plugins/quiz.py:101-104 | every question of a decoded batch has a question of at most 255 and options of at most 100 characters |
| `Quiz.DecodeResults` | plugins/quiz.py:87-112 | the appending loop computes exactly the decoded batch |
| `Quiz.FetchTriviaQuestions` | plugins/quiz.py:65-150 | the method returns exactly the batch the response determines |
| `Quiz.QuizPollRequest` | plugins/quiz.py:162 | the explanation is at most 200 characters |
| `Quiz.PollRequestWithinLimits` | plugins/quiz.py:155-162 | every requested poll has a question of at most 255, options of at most 100, and an explanation of at most 200 characters, with an index in range |
| `Quiz.RefetchAsWritten` | plugins/quiz.py:181-189 | every replacement fetch raises, as the call at line 182 does; `Quiz.RunAsWrittenKeepsQuestions` and `Quiz.AsWrittenDropsDuplicate` state its effect |
| `Quiz.RefetchCorrected` | plugins/quiz.py:181-186 | the replacement fetch as evidently intended: the k-th call offers the first question of a freshly fetched batch; characterised by `Quiz.CorrectedResolveExhausts` and `Quiz.CorrectedReplacesDuplicate` |
| `Quiz.ReplacementAvailable` | plugins/quiz.py:183 | a (working) replacement fetch always returns at least one question |
| `Quiz.Resolve` | plugins/quiz.py:179-189 | one question's retry loop makes no more replacement fetches than the retries left |
| `Quiz.ResolveStopsEarly` | plugins/quiz.py:187-189 | a fresh question is kept without fetching; a duplicate whose replacement fetch raises is kept after that one call |
| `Quiz.ResolveExhausts` | plugins/quiz.py:179-186 | with a fetch that never raises, a final candidate is still a duplicate only after all remaining retries were used |
| `Quiz.CorrectedResolveExhausts` | plugins/quiz.py:179-186 | with the corrected fetch, a duplicate is given up on only after three replacements |
| `Quiz.Step` | plugins/quiz.py:176-196 | one pass of the outer loop: resolve the question, send it if it is fresh, record its id if the send succeeded; characterised through `Quiz.Run` |
| `Quiz.Run` | plugins/quiz.py:170-198 | the whole outer loop; `Quiz.RunSpec`, `Quiz.RunAllSent`, `Quiz.RunNoneSent` and `Quiz.RunAsWrittenKeepsQuestions` state its properties, the exact ids for mixed send outcomes excepted (see "## Left out") |
| `Quiz.RunSpec` | plugins/quiz.py:170-198 | recorded ids are absent from the history passed in; there is one id per sent poll, in order; at most one send per question; at most 3 replacement fetches per question; as many ids as successful sends |
| `Quiz.RunAllSent` | plugins/quiz.py:191-195 | when every send succeeds, `new_ids` is the fresh final candidates' ids in input order |
| `Quiz.RunNoneSent` | plugins/quiz.py:193-195 | when every send fails, nothing is recorded |
| `Quiz.RunAsWrittenKeepsQuestions` | plugins/quiz.py:179-189 | as written, every question is its own final candidate |
| `Quiz.RepeatedFreshIdRecordedTwice` | plugins/quiz.py:191-195 | a fresh id occurring twice in one batch is posted and recorded twice |
| `Quiz.AsWrittenDropsDuplicate` | plugins/quiz.py:182-189 | as written, a question already in the history is dropped, not replaced |
| `Quiz.CorrectedReplacesDuplicate` | plugins/quiz.py:182-186 | with the corrected fetch, a duplicate is replaced by the fresh first question of the replacement batch, and that question is posted |
| `Quiz.ProcessQuestions` | plugins/quiz.py:170-198 | the loop computes exactly the batch run: its ids are not in the history and there is one per sent poll |
| `Quiz.PostBatch` | plugins/quiz.py:217-224 | the history is saved as `truncate(sent_ids + new_ids)` only when `new_ids` is non-empty, and otherwise left untouched |
| `Quiz.SendScheduledTrivia` | plugins/quiz.py:200-224 | it wakes at the next of 9/13/17/21, then runs the batch as written: every fetched question is its own final candidate, since the replacement fetch always raises; the history is saved within 300 ids only if something was sent |
| `Quiz.ManualTrivia` | plugins/quiz.py:249-261 | it runs the fetched batch as written, every fetched question being its own final candidate, and saves the history within 300 ids only if something was sent |

## Left out

- Telegram transport: `send_message`, `send_poll`, `reply` and `edit`, the command filters and admin checks, and the log-channel messages. A send is only a success flag.
- HTTP: `requests.get`, `raise_for_status` and the decoding of response bodies. A response is the decoded JSON value.
- File I/O through `aiofiles` beyond the three file states. A history file holding valid JSON that is not a list of strings is not modelled. A save that fails is not modelled either.
- `asyncio.sleep`, `create_task` and the `while True` loops. Each handler is modelled as one cycle: compute the wake-up time, then run the cycle.
- The race between a scheduled cycle and an admin command sharing one history file. This is concurrency.
- The bodies of `urllib.parse.unquote`, `html.unescape`, `str.title` and SHA-256. They are opaque fields of `Text.Codec`.
- `random.shuffle`, beyond being some permutation. That property is the hypothesis `IsShuffler`.
- `fetch_daily_fact` (`plugins/facts.py:53-86`), which is network access and text formatting. It is the fact oracle of `Facts.Dispatch`. Its ids may be any JSON value, but the model treats them as strings.
- Float timestamps: `time.time()`, `datetime.now().timestamp()`, `total_seconds()` and sub-second wake times. Each fallback id's stamp is an opaque string. The four `time.time()` calls of the quiz fallback batch share one stamp.
- Telegram objects: a `PollOption` is its text, and a sent poll is the question it was sent for. The facts trivia poll's `is_anonymous=False` and fixed explanation are not modelled. Neither are the Markdown parse mode or `is_closed` of the quiz poll.
- `Quiz.Refetch`: it has no "empty batch" outcome. `fetch_trivia_questions` never returns an empty list (`Quiz.ReplacementAvailable`), so the `if new_questions:` branch that would loop without counting cannot happen.
- `Quiz.RunSpec` connects the recorded ids to successful sends by count only. The exact list of ids is stated for the all-succeed case (`Quiz.RunAllSent`) and the all-fail case (`Quiz.RunNoneSent`).
- `Quiz.Run`: for a batch whose sends partly fail, no lemma names which ids are recorded, beyond their number and their freshness (`Quiz.RunSpec`).
- Lone surrogates. A Dafny `string` cannot hold an unpaired UTF-16 surrogate, but Python's `json.loads` can produce one (from `"\ud800"`). For such a question `str.encode()` in `generate_question_id` raises (`plugins/facts.py:216` via line 281, `plugins/quiz.py:63` via line 109), and the code falls back (`plugins/facts.py:283-291`, `plugins/quiz.py:114-150`). The model's `Text.QuestionId` never raises, so this path is not modelled.
- `History.Truncate`: for a limit of 0 Python's `ids[-0:]` keeps the whole list. The model does exactly this, and the bot only uses 200 and 300.

## Findings

| source | as written | input that shows it | evidently intended | confidence | as-written member | corrected member |
|---|---|---|---|---|---|---|
| plugins/quiz.py:182 | `fetch_trivia_questions(1)` passes an argument to a function defined without parameters (quiz.py:65). Every replacement fetch raises `TypeError`, which quiz.py:187-189 catches before breaking out of the loop. | a batch whose first question's id is already in `sent_ids`: that question is dropped and nothing replaces it, whatever the trivia service would return | fetch a replacement question and retry up to three times, posting the first fresh one | high (not executed) | `Quiz.AsWrittenDropsDuplicate` | `Quiz.CorrectedReplacesDuplicate` |
