# SparksAI agent worker, modelled in Dafny

This project models the core of the SparksAI agent worker. The worker polls a backend for pending analysis jobs. It gathers a team's or a program increment's (PI's) data from the backend and renders it as a text prompt. It sends that prompt to an LLM endpoint, splits the answer into prose and an embedded JSON payload, and stores the result. The result is an "AI card" that is upserted per day, plus at most two recommendations.

The model is organised as the program is:

- `text.dfy`, `json.dfy`, `seqs.dfy`, `wrappers.dfy`: the Python string operations the worker uses (ASCII only), decoded JSON values with Python truthiness, `dict.get`, `str()` and `int()`, and generic sequence facts.
- `backend.dfy`: the API client as a class. A fixed server function `respond` maps each request to a status and a decoded body. The client's `sent` field records every request in order. The recommendations saved are the creates in `sent` that the server answered below 300 (`Backend.Accepted`).
- `llm.dfy`: the LLM request body and the strict check of its success envelope.
- `extraction.dfy`: recommendation cleaning and segmentation, the text between line markers, the named JSON sections, and the three-strategy split of an answer into prose and JSON. `json.loads` is a parameter `parse`.
- `formatting.dfy`, `fetching.dfy`: the prompt renderers and the data-fetching helpers.
- `saving.dfy`, `jobs.dfy`: the card upsert, the capped recommendation loops, and what the processors share.
- `daily.dfy`, `sprintgoal.dfy`, `pisync.dfy`, `retro.dfy`: the four job processors.
- `router.dfy`, `agent.dfy`: dispatch on the job type, and the polling loop with its backoff.

Each operation that talks to the backend has two parts:

- a specification function that returns the requests it sends and its outcome (`Step(reqs, out)`);
- a method on the client that sends exactly those requests and returns that outcome.

The properties the source promises are proved as lemmas about the specification functions. These include the recommendation cap, the order of requests, the upsert rule and the fallbacks. Loops in the source are methods with loop invariants, each proved equal to a function of its inputs.

The functions `clean_recommendation_text`, `extract_recommendations`, `filter_columns_excluding_points` and `format_table` of `utils_processing.py` duplicate those of `utils_llm_processing_and_extraction.py` and `utils_formatting.py`. Each is modelled once.

## Model

| member | source | states |
|---|---|---|
| Text.EncodeSpaces | utils_data_fetching.py:42 | the encoded name has no space and is the name itself when it had none |
| Text.EncodeSpacesChanges | utils_data_fetching.py:42-47 | encoding changes the name exactly when it has a space, so the retry asks for a different name only then |
| Text.ParseInt | utils_data_fetching.py:325-329 | blank text does not convert |
| Text.ParseIntRoundTrip | utils_data_fetching.py:325-329 | `int()` of the decimal text of any integer gives that integer back |
| Text.ParseIntUnderscore | utils_data_fetching.py:325-329 | a single underscore between digit groups is ignored by `int()`, so "1_000" converts to 1000 |
| Text.ParseIntRejects | utils_data_fetching.py:325-329 | text whose stripped form has a character other than a digit or "_" after its first does not convert |
| Json.IntOfNumber | utils_llm_processing_and_extraction.py:445 | an integer converts to itself, given as a number or as its decimal text |
| Json.IntOfOthers | utils_llm_processing_and_extraction.py:445 | a bool converts to 1 or 0 while its text "True"/"False" does not; None, its text "None", lists and dicts do not convert |
| Backend.AcceptedAppend | utils_llm_processing_and_extraction.py:102-106 | the saved-recommendation count of a trace is the sum over its parts |
| Backend.AcceptedNone | utils_llm_processing_and_extraction.py:102-106 | requests that create no recommendation save none |
| Backend.AcceptedAfterOne | utils_llm_processing_and_extraction.py:102-106 | one request adds one to the count exactly when it creates a recommendation and is answered below 300 |
| Backend.ApiClient.Call | api_client.py:1-208 | sending a request appends it to the trace and returns the server's answer |
| Backend.ApiClient.PollNextPendingJob | agent.py:51-59 | the poll is sent on every cycle; its answer is missing exactly in the cycles the backend is unreachable |
| Extraction.DigitRun | utils_llm_processing_and_extraction.py:9 | the length of the leading run of ASCII digits that `^\d+` matches: every character before it is a digit and the one at it is not |
| Extraction.DropBullets | utils_llm_processing_and_extraction.py:10 | `lstrip('*-•◦')`: the result is no longer than the input and does not start with a bullet |
| Extraction.CleanRecommendationText | utils_llm_processing_and_extraction.py:7-11 | the cleaned text is in whitespace normal form: no leading or trailing whitespace and no run of two whitespace characters (the same function is utils_processing.py:43-47) |
| Extraction.CleanNumberedItem | utils_llm_processing_and_extraction.py:9-11 | a numbered item `12. text` whose text is already normal and does not start with a digit, bullet or period is cleaned to exactly that text |
| Extraction.CleanBulletItem | utils_llm_processing_and_extraction.py:10-11 | a bulleted item `- text` whose text is normal and starts with no digit or bullet is cleaned to exactly that text |
| Extraction.CleanStages | utils_llm_processing_and_extraction.py:9-11 | cleaning is strip, drop the number prefix, drop bullets, strip, then collapse whitespace, in that order |
| Extraction.NonBlankLines | utils_llm_processing_and_extraction.py:17 | the stripped non-blank lines: each one non-empty and trimmed, and no more of them than input lines |
| Extraction.SegmentsProperties | utils_llm_processing_and_extraction.py:18-32 | segmentation loses and reorders nothing: the items joined with spaces are the non-blank lines joined with spaces; every item is non-empty and trimmed; every item after the first starts with `1.`–`9.` or a bullet; an empty input gives no item, and a non-empty one gives one item plus one for every later line that starts with `1.`–`9.` or a bullet |
| Extraction.SegFoldCount | utils_llm_processing_and_extraction.py:18-28 | after a non-empty run of lines the loop has closed one item for every later item-start line, and the open item is non-empty and trimmed |
| Extraction.SegmentLines | utils_llm_processing_and_extraction.py:18-32 | the loop with the `current` accumulator computes the segmentation function `Segments` |
| Extraction.CleanAll | utils_llm_processing_and_extraction.py:36-37 | one cleaned text per item, in order |
| Extraction.CleanAllNormalized | utils_llm_processing_and_extraction.py:37 | every cleaned item is in whitespace normal form |
| Extraction.PickRecommendations | utils_llm_processing_and_extraction.py:34-43 | the `seen`-set loop returns a prefix of the distinct non-empty cleaned items in first-occurrence order, exactly `max_count` of them when there are that many and `max_count >= 1`, and at most one when `max_count <= 0` (the cap is checked only after the first append) |
| Extraction.CandidatesClean | utils_llm_processing_and_extraction.py:34-40 | the candidate recommendations are pairwise distinct, non-empty and in normal form |
| Extraction.ExtractRecommendations | utils_llm_processing_and_extraction.py:14-43 | empty text gives `[]`; the result is a prefix of the candidates; its length is `min(max_count, #candidates)` for `max_count >= 1` and at most 1 otherwise; items are distinct, non-empty and normal (also utils_processing.py:50-79) |
| Extraction.FirstLineWith | utils_llm_processing_and_extraction.py:151-155 | the first line containing the marker ignoring case, or -1 exactly when no line at or after the start contains it |
| Extraction.SkipBlankLines | utils_llm_processing_and_extraction.py:173-177 | the first non-blank line at or after the start, every line skipped on the way being blank |
| Extraction.FindMarkerLine | utils_llm_processing_and_extraction.py:150-166 | the `enumerate` scan with `break` finds `FirstLineWith(lines, marker, 0)` |
| Extraction.ExtractContentBetweenMarkers | utils_llm_processing_and_extraction.py:129-196 | the method computes `BetweenMarkers`, the three-outcome specification the next four lemmas characterise |
| Extraction.BetweenMarkersMissingStart | utils_llm_processing_and_extraction.py:157-159 | the result is `None` if and only if no line contains the start marker, ignoring case |
| Extraction.BetweenMarkersMissingEnd | utils_llm_processing_and_extraction.py:168-170 | with the start marker present and no line containing the end marker, the result is `""` |
| Extraction.BetweenMarkersEndFirst | utils_llm_processing_and_extraction.py:161-189 | the end marker is searched from line 0: when it first occurs at or before the start line the slice is empty and the result is `""` |
| Extraction.BetweenMarkersContent | utils_llm_processing_and_extraction.py:172-192 | a non-empty result is the trimmed join of lines `c..e`, where `c` is the first non-blank line after the start line and `e` the end line, with `s < c < e` |
| Extraction.ExtractReviewSection | utils_llm_processing_and_extraction.py:342-358 | the text between "dashboard summary" and "detailed analysis", the constants of lines 123-124 |
| Extraction.DashboardItems | utils_llm_processing_and_extraction.py:213-218 | a value is kept exactly when it is a dict element of the list with one of the three dashboard keys, in order |
| Extraction.FirstWithRecommendations | utils_llm_processing_and_extraction.py:219-222 | the index of the first dict element with a `Recommendations` key; none before it has one |
| Extraction.FirstRecommendations | utils_llm_processing_and_extraction.py:219-222 | the list payload's recommendations are absent exactly when no element is a dict with `Recommendations` |
| Extraction.Nonempty | utils_llm_processing_and_extraction.py:250-254 | `json.dumps(x) if x else ""`: a section is kept exactly when its value is truthy |
| Extraction.DashboardFirstVariantWins | utils_llm_processing_and_extraction.py:237-250 | on a dict the first present key among `Dashboard_Summary`, `Dashboard Summary`, `DashboardSummary` decides the dashboard, even when its value is empty; there is no merging |
| Extraction.DictSectionsTruthy | utils_llm_processing_and_extraction.py:250-254 | a dict payload's dashboard is its first variant's value when truthy; its recommendations are present exactly when `Recommendations` is a key with a truthy value |
| Extraction.ListRecommendationsKeepEmpty | utils_llm_processing_and_extraction.py:219-222 | on a list the recommendations are the first element's `Recommendations` value, even when that value is empty |
| Extraction.ScalarPayloadHasNoSections | utils_llm_processing_and_extraction.py:226-228 | a payload that is neither a dict nor a list yields `("", "")` |
| Extraction.Attempt | utils_llm_processing_and_extraction.py:286-292 | one `json.loads` attempt succeeds exactly when the parse oracle accepts the content, and keeps the decoded value |
| Extraction.TryMarkers | utils_llm_processing_and_extraction.py:279-292 | the BEGIN_JSON/END_JSON strategy splits at a position inside the text |
| Extraction.TryFence | utils_llm_processing_and_extraction.py:296-310 | a fence strategy splits at a position inside the text |
| Extraction.FirstOpen | utils_llm_processing_and_extraction.py:313-314 | the first `{` or `[`: no earlier character opens a bracket |
| Extraction.CloseFrom | utils_llm_processing_and_extraction.py:315-321 | the depth scan returns -1 or an index inside the text, after its start |
| Extraction.TryBracket | utils_llm_processing_and_extraction.py:313-331 | the bracket strategy splits at a position inside the text |
| Extraction.MarkersAttempt | utils_llm_processing_and_extraction.py:280-292 | no attempt without both markers; otherwise one attempt on the stripped text between them, the end marker searched from the start |
| Extraction.FenceAttempt | utils_llm_processing_and_extraction.py:297-310 | no attempt without the opener and a later closing fence; otherwise one attempt on the stripped text between them |
| Extraction.BracketAttempt | utils_llm_processing_and_extraction.py:313-331 | one attempt, on the span from the first opening bracket to the first depth-0 close, and none when the text ends first |
| Extraction.PayloadOrder | utils_llm_processing_and_extraction.py:279-331 | the payload is the first one found by markers, then ```` ```json ````, then ```` ``` ````; the bracket scan's only when none of those parses |
| Extraction.EarlyPayloadKeeps | utils_llm_processing_and_extraction.py:296-308 | once a strategy returns, the later fences are not tried |
| Extraction.FindPayload | utils_llm_processing_and_extraction.py:279-335 | the payload is absent exactly when the strategy used is "no JSON", and its split position lies inside the text |
| Extraction.PayloadLocated | utils_llm_processing_and_extraction.py:284-322 | the payload content parses and is the stripped text of a region of the trimmed answer that starts at or after the split position |
| Extraction.SplitWellFormed | utils_llm_processing_and_extraction.py:276-335 | either the whole trimmed answer is prose with no payload, or the raw JSON parses, the sections are `extract_json_sections` of it, the prose is the stripped text before the split and the raw JSON a stripped region after it |
| Extraction.BalancedSpan | utils_llm_processing_and_extraction.py:315-322 | the span the scan closes is balanced under one shared counter for both bracket kinds, and every proper non-empty prefix of it is still open |
| Extraction.BracketSpanBalanced | utils_llm_processing_and_extraction.py:313-331 | a bracket payload starts at the first `{` or `[` of the text and is a balanced span of it |
| Extraction.FencePreferredToBracket | utils_llm_processing_and_extraction.py:294-331 | when the markers fail and a ```` ```json ```` block parses, that block is the raw JSON, wherever brackets appear |
| Extraction.NothingParses | utils_llm_processing_and_extraction.py:333-335 | when nothing parses the result is `(trimmed, "", "", "")` |
| Extraction.ScanMarkers | utils_llm_processing_and_extraction.py:279-292 | the method computes `TryMarkers` |
| Extraction.ScanFence | utils_llm_processing_and_extraction.py:296-310 | the method computes `TryFence` for one opener |
| Extraction.ScanBracket | utils_llm_processing_and_extraction.py:313-331 | the nested loops with the `depth` counter compute `TryBracket` |
| Extraction.SearchPayload | utils_llm_processing_and_extraction.py:279-331 | the search computes `FindPayload` |
| Extraction.ExtractTextAndJson | utils_llm_processing_and_extraction.py:264-339 | the method computes `SplitTextAndJson` and its result is well formed in the sense of `SplitWellFormed` |
| Extraction.CollapseNormalized | utils_llm_processing_and_extraction.py:11 | collapsing whitespace is idempotent: text already in normal form is left unchanged |
| Extraction.FirstOccurrencesProperties | utils_llm_processing_and_extraction.py:34-40 | the `seen`-set filter keeps exactly the non-empty strings of its input, each once |
| Extraction.FirstOccurrencesPrefix | utils_llm_processing_and_extraction.py:41-42 | stopping early keeps a prefix: the first occurrences of a prefix are a prefix of those of the whole |
| Extraction.CloseFromBalanced | utils_llm_processing_and_extraction.py:316-321 | the inner loop's close is where one shared depth counter first returns to 0 |
| Llm.LlmBody | llm_client.py:26-35 | the body has `prompt` and `job_type` first; `job_id` is present exactly when one is given and carries it; `metadata` is present exactly when the metadata is non-empty and carries it |
| Llm.ReplyStrict | llm_client.py:39-45 | success exactly when the status is 200, the body is a dict with a truthy `success` and a dict `data`, and its `response` is a string with a visible character; on success the text is that response unchanged and the payload the body; on failure the text is `""` and the payload the body when it is a dict, else `{}` |
| Llm.CallAgentLlmProcess | llm_client.py:6-45 | the method sends exactly the one request of `LlmCall` and returns the reply that `ReplyStrict` characterises |
| Formatting.FilterColumns | utils_formatting.py:6-7 | a column survives exactly when its lower-cased name lacks "point" (also utils_processing.py:4-5) |
| Formatting.FilterColumnsAppend | utils_formatting.py:6-7 | filtering distributes over concatenation, so the survivors keep their original order |
| Formatting.FilterColumnsIdempotent | utils_formatting.py:6-7 | filtering twice is filtering once |
| Formatting.HeaderCell | utils_formatting.py:20 | a header cell is exactly `max_width` wide and starts with the column name cut to `max_width` |
| Formatting.CellText | utils_formatting.py:38-39 | a present value's cell is exactly `max_width` wide and starts with `str(v)` cut to `max_width`; a missing or None value renders `NULL`, padded to the width (four characters when the width is smaller) |
| Formatting.HeaderCells | utils_formatting.py:20 | one header cell per surviving column, in order |
| Formatting.CellsUpTo | utils_formatting.py:36-39 | one cell per column, in order |
| Formatting.RemainingIndex | utils_formatting.py:25-29 | the first column whose lower-cased name contains `remaining_issues`; none before it does |
| Formatting.BlankRemainingOfShow | utils_formatting.py:33-35 | the skip test is `val is None` or `str(val).strip().lower()` in `('', 'null')` |
| Formatting.RowSkipRule | utils_formatting.py:24-35 | a record is dropped exactly when some column names `remaining_issues`, and the record's value under the first such column is None, blank or "null" in any case |
| Formatting.KeptRecords | utils_formatting.py:31-35 | the records that produce a row: every one kept passes the rule, comes from the input, and every record passing the rule is kept |
| Formatting.FormatTable | utils_formatting.py:10-42 | the method computes `TableOf`, which the next lemmas characterise (also utils_processing.py:8-40) |
| Formatting.AddRows | utils_formatting.py:31-40 | the row loop raises exactly when some record is not a dict, and otherwise yields the rows of the kept records |
| Formatting.RowFor | utils_formatting.py:31-40 | one iteration: a skipped record adds nothing, a kept one adds its row line |
| Formatting.FindRemainingKey | utils_formatting.py:25-29 | the loop with `break` picks the first column naming `remaining_issues` |
| Formatting.BuildRow | utils_formatting.py:36-40 | the inner loop builds the row line: the cells joined by " \| " |
| Formatting.HeaderLength | utils_formatting.py:20-21 | the header of `n` columns is `n * max_width + 3 * (n - 1)` characters long |
| Formatting.RowAligned | utils_formatting.py:36-40 | with a width of at least 4 (the default is 20) every row is exactly as long as the header |
| Formatting.TableRowsOfKept | utils_formatting.py:31-40 | one row per kept record, in order, each that record's row line |
| Formatting.TableEmptyIff | utils_formatting.py:11-38 | the table is `""` exactly when there are no records or no column of the first record survives the filter; it raises exactly when, with columns to show, some record is not a dict (`rec.get` on a non-dict) |
| Formatting.TableShape | utils_formatting.py:19-42 | the lines are the header, a dash line as long as the header, then exactly one line per kept record, in order; no shown column mentions "point" |
| Formatting.FormatTranscript | utils_formatting.py:45-75 | the method computes `TranscriptText` |
| Formatting.TranscriptEnding | utils_formatting.py:67-75 | a dict's text ends with the label and `str(raw_text)` when that is truthy, and with "No transcript text found" otherwise |
| Formatting.TranscriptSentinelIff | utils_formatting.py:55-56 | "No transcript found" comes out exactly when the input is not a non-empty dict |
| Formatting.InBucket | utils_formatting.py:103-114 | a bucket's fields, in the dict's order |
| Formatting.InBucketMembers | utils_formatting.py:103-114 | a bucket holds exactly the fields the rule sends to it: a list value first, then a name containing date, time or day, then a number or numeric text, then the rest |
| Formatting.InBucketPartition | utils_formatting.py:103-114 | every field lands in exactly one bucket: the four buckets together are a permutation of the fields |
| Formatting.ClassifyFields | utils_formatting.py:96-114 | the loop that appends to the four lists yields the four buckets |
| Formatting.Cut | utils_formatting.py:135-159 | text of at most 200 characters is left alone; longer text becomes its first 200 characters followed by "..." |
| Formatting.FirstKeys | utils_formatting.py:129 | the first five keys of the sample record, in order |
| Formatting.FormatBurndown | utils_formatting.py:78-162 | the method computes `BurndownText`: list sections, dates, numbers, then other fields, in that order |
| Formatting.DictLines | utils_formatting.py:96-160 | the dict branch computes `BurndownLines` |
| Formatting.AddPlainBlock | utils_formatting.py:153-160 | the "Other Information" block is added only when that bucket has fields |
| Formatting.AddQuotedBlock | utils_formatting.py:141-151 | a titled block of `- key: ` lines (the value in backticks) and a blank line is added only when its bucket has fields |
| Formatting.ListSectionOf | utils_formatting.py:118-139 | one list field: a table of its dicts, or the count and sample when the table is empty, or the count and a 200-character preview for other lists |
| Formatting.AddListSections | utils_formatting.py:117-139 | the loop over list fields computes `ListSections` |
| Formatting.ListSectionsKeepRaise | utils_formatting.py:122 | once a table raises, the whole loop raises the same way |
| Formatting.AddQuotedLines | utils_formatting.py:143-150 | the loop prints one `- key: ` line per field, the value in backticks |
| Formatting.AddPlainLines | utils_formatting.py:155-160 | the loop prints one `- key: value` line per field, long values cut |
| Formatting.BurndownOfList | utils_formatting.py:86-90 | a list gives "No burndown data found" exactly when it is empty or its table is empty; otherwise it is the table |
| Formatting.ListSectionsFirst | utils_formatting.py:121-133 | a non-empty list section starts with a `**key:**` line |
| Formatting.BurndownDictSentinel | utils_formatting.py:93-162 | anything but a list gives the sentinel exactly when it is not a non-empty dict |
| Formatting.InsertByKey | utils_formatting.py:199 | insertion keeps the pairs and the order by key |
| Formatting.SortByKey | utils_formatting.py:199 | `sorted(d.items())`: ordered by key and a permutation of the pairs |
| Formatting.SortedPairwise | utils_formatting.py:199 | the order by key holds between any two positions, not only neighbours |
| Formatting.FormatPiStatus | utils_formatting.py:165-202 | the method computes `PiStatusText` |
| Formatting.PiStatusSentinel | utils_formatting.py:174-190 | the "no data" sentence comes out exactly when there is no status list, or it is empty |
| Formatting.PiStatusFirstOnly | utils_formatting.py:195-200 | only the first record is shown; later ones change nothing |
| Formatting.PiStatusOfDataList | utils_formatting.py:181-182 | a dict with a `data` list is shown as that list |
| Formatting.PiStatusOfRecord | utils_formatting.py:183-185 | a non-empty dict without a `data` list is shown as one record |
| Formatting.PiStatusLines | utils_formatting.py:193-202 | the preamble, then one `key = value` line per pair of the first record, sorted by key; the sorted pairs are a permutation of the record |
| Formatting.FormatPiAnalysisInput | utils_formatting.py:211-258 | the method computes `PiAnalysisText` |
| Formatting.AddBurndownSection | utils_formatting.py:250-258 | the burndown section, then the prompt when it is truthy |
| Formatting.PiAnalysisLayout | utils_formatting.py:233-258 | the text starts with the `===header===` line, then the transcript section when asked for and the status section otherwise; it ends with the prompt when one is given, and with the blank line closing the burndown section otherwise |
| Fetching.PromptRequests | utils_data_fetching.py:42-47 | one or two prompt requests, all for the given email address |
| Fetching.GetPromptWithErrorCheck | utils_data_fetching.py:13-94 | the method sends the requests of `PromptLookup` and returns its (prompt, error) pair |
| Fetching.PromptExactlyOne | utils_data_fetching.py:50-94 | exactly one of prompt and error is present; the prompt is present exactly when the final answer is a 200 dict whose description is a non-blank string, and then it is that string between the begin and end markers |
| Fetching.PromptLookupSavesNothing | utils_data_fetching.py:13-94 | a prompt lookup saves no recommendation |
| Fetching.PromptRetryOn404 | utils_data_fetching.py:42-47 | the name with spaces encoded as `%20` is asked for first; a second request, for the plain name, is sent exactly when the first answer is a 404 |
| Fetching.PromptDescriptionOrder | utils_data_fetching.py:64-78 | `data.prompt.prompt_description` wins when truthy; a non-dict `data` falls through to the root description; the result is truthy or the root one |
| Fetching.FetchPiDataForAnalysis | utils_data_fetching.py:97-142 | the method sends the requests of `PiDataFetch` and returns its three objects |
| Fetching.PiDataShape | utils_data_fetching.py:115-142 | three requests with the transcript flag and two without; without it the transcript is None; status and burndown are present only when their answer was a 200 dict |
| Fetching.BuildSection | utils_data_fetching.py:172-176 | the assembled parts equal the section text, or the fallback when formatting raised |
| Fetching.GetTeamSprintBurndownForAnalysis | utils_data_fetching.py:152-180 | one burndown request; the result is the section of its answer |
| Fetching.SprintBurndownShape | utils_data_fetching.py:167-180 | every outcome is the header line, one body and a final newline; the body is the fallback sentence unless the answer was a 200 dict with truthy data |
| Fetching.GetPiStatusForTodayForAnalysis | utils_data_fetching.py:505-533 | one PI summary request; the result is the section of its answer |
| Fetching.GetPiBurndownForAnalysis | utils_data_fetching.py:536-564 | one PI burndown request; the result is the section of its answer, or the error the burndown formatter raised |
| Fetching.PiSectionsFallback | utils_data_fetching.py:524-564 | the PI status section is the fallback exactly when the answer is not a 200 dict with truthy data, and otherwise starts with the header and the formatted status; the PI burndown section raises only when the burndown formatter raises on real data |
| Fetching.TranscriptList | utils_data_fetching.py:211-219 | a transcript list that is found is never empty |
| Fetching.FormatTranscripts | utils_data_fetching.py:226-249 | the loop over the transcripts builds `TranscriptsBlock`, numbering them from 1 |
| Fetching.EntryLines | utils_data_fetching.py:233-246 | one transcript's lines: number, date if truthy, raw text if truthy, a blank line; nothing for a non-dict |
| Fetching.GetTranscriptsForAnalysis | utils_data_fetching.py:183-249 | one transcripts request; the result is the block of its answer |
| Fetching.EntryHeaded | utils_data_fetching.py:233-241 | a dict transcript's lines start with `Transcript <n>`; a non-dict adds nothing |
| Fetching.TranscriptNumbering | utils_data_fetching.py:232-241 | transcript i (from 0) is announced as number i + 1 whenever it is a dict, whatever comes before it |
| Fetching.TranscriptsMarkers | utils_data_fetching.py:227-248 | the block starts with its begin marker and ends with its end marker |
| Fetching.TranscriptsPlural | utils_data_fetching.py:226-228 | the markers are plural exactly when there is more than one transcript |
| Fetching.TranscriptsFailure | utils_data_fetching.py:211-219 | the failure block comes back exactly when the answer holds no non-empty transcript list |
| Fetching.GetDailyTranscriptForAnalysis | utils_data_fetching.py:252-281 | one daily transcripts request; the result is the corrected section: the failure text only for the failure block, else the block under the header |
| Fetching.DailyTranscriptMisreported | utils_data_fetching.py:277-278 | a found transcript whose raw text is "No transcripts found" is reported as no transcript |
| Fetching.DailyTranscriptIntended | utils_data_fetching.py:252-281 | the corrected section is the failure text exactly when no transcript list was found, and otherwise wraps the block in the header |
| Fetching.GetSprintPredictabilityForAnalysis | utils_data_fetching.py:380-421 | one predictability request; the result is the section of its answer, or the error the table formatter raised |
| Fetching.BuildTableSection | utils_data_fetching.py:410-421 | the assembled parts equal `TableSection`: header, second line, the table or the empty sentence, final newline |
| Fetching.PredictabilityShape | utils_data_fetching.py:397-421 | every outcome starts with the header line; the section raises exactly when a returned predictability list makes the table formatter raise |
| Fetching.BuildIssue | utils_data_fetching.py:455-487 | the loop body builds `FormattedIssue` column by column |
| Fetching.FormatIssues | utils_data_fetching.py:453-489 | every issue is formatted, in order |
| Fetching.GetSprintIssuesWithEpicForAnalysis | utils_data_fetching.py:424-502 | one issues request; the result is the section of its answer |
| Fetching.IssueColumnsFixed | utils_data_fetching.py:455-487 | every formatted issue has the same eight columns in the same order |
| Fetching.IssueDefaults | utils_data_fetching.py:461-485 | a falsy flagged or dependency value becomes `"[]"`, a falsy description `''` |
| Fetching.IssuesRaiseOnlyOnBadAnswer | utils_data_fetching.py:441-502 | the section raises exactly when reading the answer raises; with no issues it is the header, the rule and "No issues found" |
| Fetching.MaxIssues | utils_data_fetching.py:319-335 | at least -1 and at least every summary's issues_at_start |
| Fetching.MaxIssuesAttained | utils_data_fetching.py:319-335 | the maximum is -1 or some summary's count |
| Fetching.FirstWith | utils_data_fetching.py:333-335 | the first summary whose count is m, or the length when there is none |
| Fetching.SelectedSprint | utils_data_fetching.py:319-337 | a selected position is within the summaries |
| Fetching.SelectedIsFirstMax | utils_data_fetching.py:319-337 | a sprint is selected exactly when some count is above -1; the selected one has the largest count and every earlier one a strictly smaller count |
| Fetching.SelectSprint | utils_data_fetching.py:319-335 | the loop's selection is `SelectedSprint` |
| Fetching.SelectStep | utils_data_fetching.py:333-335 | one round: the maximum grows to the new count, and the selection moves to i exactly when the count is strictly larger |
| Fetching.ShownFieldLines | utils_data_fetching.py:354-365 | the key/value loop yields the lines of the shown fields |
| Fetching.FormatSprintStatus | utils_data_fetching.py:342-371 | the joined parts are the status lines |
| Fetching.SummarizeSprints | utils_data_fetching.py:313-377 | the method's outcome is `SummaryOf` the summaries |
| Fetching.GetActiveSprintSummaryByTeamForAnalysis | utils_data_fetching.py:284-377 | one summaries request; the result is the summary of its answer |
| Fetching.StatusBlockHeader | utils_data_fetching.py:342-371 | the status block opens with its header line, so it is never the "no valid sprint" text |
| Fetching.StatusBlockFields | utils_data_fetching.py:354-355 | exactly the fields whose lower-cased name lacks "point" and is not sprint_goal are shown |
| Fetching.SummaryOutcome | utils_data_fetching.py:337-377 | no selection gives the "no valid sprint" text without id or goal; a selection gives its sprint_id, its sprint_goal (default "") and its status block |
| Saving.FirstTarget | utils_llm_processing_and_extraction.py:440-450 | the position of the first listed card that is a target, or the length when there is none |
| Saving.FindTarget | utils_llm_processing_and_extraction.py:440-452 | the loop over the listed cards yields the id of the first target, whose `int(id)` did not raise |
| Saving.TargetIsFirst | utils_llm_processing_and_extraction.py:440-450 | with no target before position i, a target at i (or the end of the listing) is the first |
| Saving.NotTargetSkipped | utils_llm_processing_and_extraction.py:440-452 | a card that is not a target does not stop the search |
| Saving.WriteCard | utils_llm_processing_and_extraction.py:446-459 | the method sends the patch and create of `WriteCardCall` and returns its outcome |
| Saving.UpsertCard | utils_llm_processing_and_extraction.py:433-484 | the method sends the requests of `UpsertCall` and returns its outcome |
| Saving.MatchedIsFirstTarget | utils_llm_processing_and_extraction.py:436-452 | a card is matched exactly when the listing holds a target; the id is that of the first, a dict card with today's date, the payload's team, card name (and pi for PI cards) |
| Saving.UpsertWritesOnce | utils_llm_processing_and_extraction.py:433-484 | the upsert lists the cards first, patches the matched card when there is one, and creates exactly when no patch went through; it creates no recommendation |
| Saving.UpsertWritesPayload | utils_llm_processing_and_extraction.py:446-479 | every card write goes to the card's own collection with the payload as its body |
| Saving.Description | utils_llm_processing_and_extraction.py:402-405 | the extracted section when non-empty, else a prefix of the answer of at most 2000 characters |
| Saving.ChooseDescription | utils_llm_processing_and_extraction.py:402-405 | the method picks `Description` |
| Saving.CardFieldsKeys | utils_llm_processing_and_extraction.py:412-422 | looking up a card payload finds the team, card name, card type, priority and source it was built with, and a description of at most 2000 characters |
| Saving.SaveSkip | utils_llm_processing_and_extraction.py:82-113 | an item without a payload is passed over and sends nothing |
| Saving.SaveOne | utils_llm_processing_and_extraction.py:102-111 | an item with a payload has its create sent; accepted with a log line that does not slice the loop ends raising, otherwise it stops once the count reaches max_count and goes on with the next item |
| Saving.SaveRecommendations | utils_llm_processing_and_extraction.py:75-117 | the loop sends the requests of `SaveLoop` and returns its count or its raise |
| Saving.Sendable | utils_llm_processing_and_extraction.py:82-83 | at most as many items with a payload as items |
| Saving.SaveLoopCounts | utils_llm_processing_and_extraction.py:75-117 | a count the saver returns is exactly the number of its creates the backend accepted |
| Saving.SaveLoopSendsPayloads | utils_llm_processing_and_extraction.py:82-113 | the saver sends nothing but creates of its items' payloads |
| Saving.SaveLoopCap | utils_llm_processing_and_extraction.py:75-117 | started below the cap the saver gets at most max_count creates accepted, raising or not, and when it returns below the cap it has sent every item with a payload |
| Saving.SaveLoopRaises | utils_llm_processing_and_extraction.py:102-115 | the saver raises only from the log line of its last create, an accepted one for an item whose header or text (the text itself in a text fallback) is neither a str nor a list; the `json.JSONDecodeError` handler does not catch it |
| Saving.SaveLoopNeverRaises | utils_llm_processing_and_extraction.py:102-108 | over items whose log lines all slice the saver never raises |
| Saving.SaveRecommendationsFromJson | utils_llm_processing_and_extraction.py:46-117 | the method sends the requests of the JSON saver's loop over the parsed list and returns its count or its raise; without a list it returns 0 |
| Saving.SharedRecordFields | utils_llm_processing_and_extraction.py:87-98 | looking up a JSON saver payload finds the values it was built with |
| Saving.SharedPayloadFields | utils_llm_processing_and_extraction.py:83-98 | an item has a payload exactly when it is a dict with "header" and "text"; the payload carries the owner, the text, the header as rational, the priority (default "Important"), status "Proposed" and the job and summary links |
| Saving.SaveFromJsonBound | utils_llm_processing_and_extraction.py:46-117 | with a positive cap the saver gets at most max_count creates accepted, each of a valid object of the list, and a returned count is that number; it raises only when some valid object's header or text does not slice, and never when all slice; without a JSON list it sends nothing and returns 0 |
| Saving.BuildSharedPayload | utils_llm_processing_and_extraction.py:412-430 | the method builds `SharedCardPayload` |
| Saving.ProcessLlmResponseAndSaveAiCard | utils_llm_processing_and_extraction.py:372-498 | the method sends the requests of `SaveCardCall` and returns its outcome |
| Saving.SaveCardTargets | utils_llm_processing_and_extraction.py:432-485 | the card goes to the collection its type names ("PI" or "Team") and only there; another type sends nothing and has no card id; no recommendation is created |
| Saving.SaveCardId | utils_llm_processing_and_extraction.py:433-484 | the card id reported: the matched one after a successful patch, else the `data.card.id` of an accepted create |
| Saving.SharedCardFields | utils_llm_processing_and_extraction.py:412-422 | the payload has the config's name and type, its priority or "Critical", its source or "PI", and a description of at most 2000 characters |
| Saving.SharedCardOptional | utils_llm_processing_and_extraction.py:424-430 | "pi" is present exactly when the config has it, "information_json" exactly when the raw JSON text is not empty |
| Saving.CardFieldsLackOptional | utils_llm_processing_and_extraction.py:412-422 | the base payload has neither "pi" nor "information_json" |
| Saving.InlineJsonPayloadFields | job_daily_agent.py:171-182 | the JSON loop written out in the daily and sprint-goal jobs sends exactly the dicts with a header and a text, under the team, with their text, priority "High" and status "Proposed" (also job_sprint_goal.py:193-204) |
| Saving.TeamTextPayloadFields | job_daily_agent.py:201-210 | the text fallback of those jobs sends every text under the team, with priority "High" and status "Proposed" (also job_sprint_goal.py:223-232) |
| Saving.PiTextPayloadFields | job_pi_sync.py:181-192 | the PI job's text fallback sends every text under the PI, with priority "High", status "Proposed" and the job link |
| Jobs.IntJobId | job_daily_agent.py:85 | `int(job_id)` raises exactly when the id is not None and does not convert; None, and only None, gives no id; a converted id is the one `IntOf` gives |
| Jobs.IntJobIdShown | job_daily_agent.py:85 | a numeric id converts to itself, given as a number or as its decimal text |
| Jobs.LatestTranscript | job_daily_agent.py:53-56 | not a 200 dict gives None; the lookup raises exactly when a truthy "data" is not a dict |
| Jobs.LatestTranscriptOrder | job_daily_agent.py:56 | the nested transcript wins, then a truthy "data" dict, then the whole answer |
| Jobs.PatchAndAskLlm | job_daily_agent.py:77-87 | the method sends the requests of `PatchAndAsk` and returns the LLM reply |
| Jobs.PatchBeforeAsk | job_daily_agent.py:77-87 | the job is patched with the input text before the LLM call, which carries that text and the job type; a job without an id is not patched |
| Jobs.FallbackTexts | job_daily_agent.py:201 | at most two texts, a prefix of the candidate recommendations |
| Jobs.ExtractFallback | job_daily_agent.py:201 | the texts are `FallbackTexts` and are distinct |
| Jobs.ExtractFallbackItems | job_daily_agent.py:201-202 | the method yields the fallback items |
| Jobs.FallbackItemsAreCandidates | job_daily_agent.py:201-202 | the fallback items are the first (at most two) candidate recommendations, as strings |
| Jobs.FallbackRecommendations | job_daily_agent.py:199-219 | the text loop sends the requests of `Fallback` and returns its count or its raise |
| Jobs.AsTexts | job_daily_agent.py:202-205 | each text becomes a string item, in order |
| Jobs.SaveAll | job_daily_agent.py:162-219 | the method sends the requests of `SaveWithFallback` and returns its count, or the JSON loop's raise with nothing sent after it |
| Jobs.SaveWithFallbackBound | job_daily_agent.py:162-219 | at most two creates are accepted and a returned count is that number; a raising JSON loop ends the saving; the text loop runs only when the JSON loop saved none, and then its requests follow; every create comes from one of the two item lists (also job_sprint_goal.py:184-241) |
| Jobs.SaveWithFallbackRaises | job_daily_agent.py:183-219 | the text fallback's items are str, whose log line always slices, so the saving raises exactly when the JSON loop does, from its log line (also job_sprint_goal.py:205-241) |
| Jobs.ParseLlmAnswer | job_daily_agent.py:100-128 | the method computes `ParseAnswer`: sections, description, card payload and fallback items |
| Jobs.BuildInlinePayload | job_daily_agent.py:113-128 | the method builds `InlineCardPayload` |
| Jobs.SaveCardAndRecommendations | job_daily_agent.py:130-219 | the method sends the requests of `InlineWrites` and returns its count or its raise |
| Jobs.InlineWritesShape | job_daily_agent.py:130-219 | the trace starts with the team-card upsert; at most two recommendations are accepted after it, and a returned count is that number (also job_sprint_goal.py:154-241) |
| Jobs.SaveInlineAnswer | job_daily_agent.py:95-219 | the method sends the requests of `InlineAfterAnswer` and returns its count or its raise |
| Jobs.AskInline | job_daily_agent.py:77-240 | the method sends the requests of `InlineAfterInput` and returns its outcome |
| Jobs.InlineAfterInputOutcome | job_daily_agent.py:81-240 | a failed LLM call ends the job as failed with nothing sent after it; after an answered one the job raises exactly when the JSON loop raises (from the log line at job_daily_agent.py:188), and otherwise succeeds with a report that starts with the title and ends with the whole answer |
| Jobs.InlineAtMostTwo | job_daily_agent.py:162-219 | at most two recommendations are saved once the input is built |
| Jobs.ReportShape | job_daily_agent.py:222-240 | the report opens with its title and closes with the whole answer under its heading |
| Jobs.InlinePayloadFields | job_daily_agent.py:114-128 | the team card carries the team and the job's fixed name, type, priority and source ("Daily Progress Review", "Daily Progress", "Critical", "Daily Agent"; for the sprint-goal job "Sprint Goal Analysis", "Sprint Goal", "High", "Sprint Goal"), a description of at most 2000 characters, and the dashboard JSON exactly when the answer had one (also job_sprint_goal.py:139-153) |
| Daily.DailyPromptRequests | job_daily_agent.py:69-71 | one or two prompt requests, the first for "Daily%20Insights" of "DailyAgent" |
| Daily.DailyPrompt | job_daily_agent.py:72-73 | an answer that is not a 200 dict gives no prompt; the lookup raises exactly when a 200 dict answer has a truthy "data" that is not a dict |
| Daily.DailyPromptOrder | job_daily_agent.py:72-73 | a truthy `data.prompt_description` wins; the top-level `prompt_description` is taken when "data" is a dict without a truthy one, or is falsy |
| Daily.GatherDailyData | job_daily_agent.py:52-73 | the method sends the requests of `Gather` and returns the transcript, burndown and prompt |
| Daily.FormatDailyInput | job_daily_agent.py:17-42 | the method builds `DailyInput` |
| Daily.DailyPartsStart | job_daily_agent.py:18-21 | the parts open with the context heading and the team, whatever follows |
| Daily.DailyInputShape | job_daily_agent.py:17-42 | the input raises exactly when a truthy prompt is not a string; otherwise it opens with the context heading and team, and a truthy string prompt closes it under its heading |
| Daily.AnalyzeDaily | job_daily_agent.py:75-240 | the method sends the requests of `Analyze` and returns its outcome |
| Daily.ProcessDailyJob | job_daily_agent.py:45-240 | the method sends the requests of `Process` and returns its outcome |
| Daily.DailyNeedsTeam | job_daily_agent.py:48-50 | a job fails at once with "Missing team_name in job payload" and sends nothing exactly when its team is not truthy |
| Daily.DailyRequestOrder | job_daily_agent.py:52-73 | with a team the job asks for the latest daily transcript, then the burndown, then the prompt with the encoded name |
| Daily.DailySavesAtMostTwo | job_daily_agent.py:45-240 | whatever the backend and the LLM answer, the job saves at most two recommendations |
| SprintGoal.ActiveSprint | job_sprint_goal.py:26-44 | an answer that is not a 200 dict gives no active sprint; a truthy "data" that is not a dict raises, and only then `NotADict`; with a dict "data", the name join raises exactly when `sprints` is a list whose dict sprints' names are not all str; otherwise the value is the first element of a non-empty sprints list, else None |
| SprintGoal.SprintNamesMembers | job_sprint_goal.py:35-38 | the collected names are exactly the `name` (default "Unknown") of the dict sprints, and there are no more of them than sprints |
| SprintGoal.NamesJoinIff | job_sprint_goal.py:35-44 | `', '.join(sprint_names)` raises exactly when some dict sprint's name is not a str |
| SprintGoal.CollectSprintNames | job_sprint_goal.py:35-38 | the loop appends the name of every dict sprint, in order |
| SprintGoal.ReadActiveSprint | job_sprint_goal.py:26-44 | the loop, the first-sprint choice and the name join compute `ActiveSprint` |
| SprintGoal.NullSprintNameRaises | job_sprint_goal.py:37-44 | a sprint whose name is None makes the reading raise, even with a usable goal |
| SprintGoal.SprintBurndown | job_sprint_goal.py:54-59 | the burndown is never a bare dict: a dict is wrapped in a one-element list |
| SprintGoal.StatusLines | job_sprint_goal.py:78-79 | one `key: value` line per field of the sprint, in order |
| SprintGoal.FormatSprintGoalInput | job_sprint_goal.py:74-96 | the method builds `SprintGoalInput` |
| SprintGoal.SprintGoalHeadShape | job_sprint_goal.py:74-81 | the input opens with its heading, a rule of fifty `=` and an empty line; a dict sprint follows under its heading, anything else goes straight to the date |
| SprintGoal.SprintGoalStatusLines | job_sprint_goal.py:75-80 | a dict sprint contributes one status line for every field, in order |
| SprintGoal.SprintGoalPromptShape | job_sprint_goal.py:83-96 | the input ends with the prompt block exactly when a non-empty prompt was found, and with the burndown block otherwise |
| SprintGoal.AskWithPrompt | job_sprint_goal.py:70-257 | the method sends the requests of `AfterPrompt` and returns its outcome |
| SprintGoal.AskSprintGoal | job_sprint_goal.py:61-257 | the method sends the requests of `AfterBurndown` and returns its outcome |
| SprintGoal.AnalyzeGoal | job_sprint_goal.py:53-257 | the method sends the requests of `AfterGoal` and returns its outcome |
| SprintGoal.ProcessSprintGoalJob | job_sprint_goal.py:18-257 | the method sends the requests of `Process` and returns its outcome |
| SprintGoal.GoalGate | job_sprint_goal.py:26-57 | the job first asks for the active sprints; if reading them raises (a non-dict "data" or a sprint name that is not a str), the job raises after that one request; without a usable goal it succeeds with "No sprint Goal found" after that one request; with one it asks for the burndown next |
| SprintGoal.UsableGoalComesFromFirstSprint | job_sprint_goal.py:30-50 | a usable goal belongs to the first sprint, a dict, of a non-empty list, and has at least ten characters once stripped |
| SprintGoal.PromptErrorStops | job_sprint_goal.py:62-71 | a failed prompt lookup ends the job as failed with its message; the job is not patched and the LLM not asked |
| SprintGoal.SprintGoalSavesAtMostTwo | job_sprint_goal.py:18-257 | the job saves at most two recommendations |
| SprintGoal.AfterGoalAtMostTwo | job_sprint_goal.py:53-257 | at most two recommendations are saved once the goal is accepted |
| SprintGoal.AfterBurndownAtMostTwo | job_sprint_goal.py:61-257 | at most two recommendations are saved once the burndown is read |
| SprintGoal.AfterPromptAtMostTwo | job_sprint_goal.py:70-257 | at most two recommendations are saved once the prompt is looked up |
| PiSync.ExtractPiSources | job_pi_sync.py:19-30 | a top-level string "pi" wins; else the "pi" string of the job data, whether a dict or a JSON text of one; a text that does not decode gives none; a PI found comes from one of those places |
| PiSync.FormatPiInput | job_pi_sync.py:33-48 | the method builds `PiSyncInput`, or the error the burndown formatter raised |
| PiSync.PiSyncPartsStart | job_pi_sync.py:34-36 | the input opens with its two headings |
| PiSync.PiSyncPartsEnd | job_pi_sync.py:40-48 | the input closes with the prompt under its heading when one was found, and with an empty line after the burndown otherwise |
| PiSync.BuildPiPayload | job_pi_sync.py:119-134 | the method builds `PiCardPayload` |
| PiSync.ParsePiLlmAnswer | job_pi_sync.py:105-134 | the method computes `ParsePiAnswer`: sections, description, card payload and fallback items |
| PiSync.SavePiCardAndRecommendations | job_pi_sync.py:135-201 | the method sends the requests of `PiWrites` and returns its count or its raise |
| PiSync.PiWritesShape | job_pi_sync.py:135-201 | the card write starts with listing the PI cards; at most two recommendations are accepted after it, a returned count is that number, and each is filed with the PI as its team name |
| PiSync.PiWritesRaise | job_pi_sync.py:165-201 | the PI writes raise exactly when the shared JSON loop raises, and only from its log line |
| PiSync.PiAfterInput | job_pi_sync.py:84-219 | once the input is built, the job raises only from a recommendation's log line |
| PiSync.AskPi | job_pi_sync.py:84-219 | the method sends the requests of `PiAfterInput` and returns its outcome |
| PiSync.AskWithPrompt | job_pi_sync.py:79-219 | the method sends the requests of `PiAfterPrompt` and returns its outcome |
| PiSync.AnalyzePi | job_pi_sync.py:70-219 | the method sends the requests of `PiAfterData` and returns its outcome |
| PiSync.GatherPiData | job_pi_sync.py:59-68 | the method sends the requests of `Gather` and returns the transcript and burndown |
| PiSync.ProcessPiSyncJob | job_pi_sync.py:51-219 | the method sends the requests of `Process` and returns its outcome |
| PiSync.PiNeeded | job_pi_sync.py:55-57 | the job fails at once with "Missing PI in job payload" and sends nothing exactly when no non-empty PI is found |
| PiSync.PiRequestOrder | job_pi_sync.py:59-68 | the job asks for the PI's latest transcript and then, unless reading that answer raised, for its burndown |
| PiSync.PiStopsBeforeAsking | job_pi_sync.py:70-83 | a failed prompt lookup, or a burndown that does not format, stops the job before it is patched or the LLM asked |
| PiSync.PiAfterInputAtMostTwo | job_pi_sync.py:84-219 | at most two recommendations are saved once the input is built |
| PiSync.PiAfterInputOutcome | job_pi_sync.py:88-201 | a failed LLM call ends the job as failed with nothing sent after it; a returned result is good exactly when the LLM answered; the job raises exactly when the LLM answered and the shared JSON loop raises |
| PiSync.PiAfterInputUnderPi | job_pi_sync.py:166-192 | every recommendation the job creates carries the PI as its team name |
| PiSync.PiAfterPromptAtMostTwo | job_pi_sync.py:79-219 | at most two recommendations are saved once the prompt is looked up |
| PiSync.PiAfterDataAtMostTwo | job_pi_sync.py:70-219 | at most two recommendations are saved once the data is gathered |
| PiSync.GatherSavesNothing | job_pi_sync.py:59-68 | gathering the data saves no recommendation |
| PiSync.PiSavesAtMostTwo | job_pi_sync.py:51-219 | whatever the backend and the LLM answer, the job saves at most two recommendations |
| PiSync.PiCardFields | job_pi_sync.py:119-134 | the PI card carries the PI and the job's team under the fixed name "PI Sync Review", a description of at most 2000 characters, and the raw JSON block exactly when the answer had one |
| Retro.GatherRetroData | job_team_retro_topics.py:27-44 | the method sends the requests of `Gather` and returns the three formatted sections |
| Retro.RetroRequestOrder | job_team_retro_topics.py:27-44 | the job asks for five daily transcripts of the team, then its sprint burndown, then three months of predictability, and fails exactly when the predictability section raises |
| Retro.GatherSavesNothing | job_team_retro_topics.py:27-44 | gathering the data saves no recommendation |
| Retro.FormatRetroInput | job_team_retro_topics.py:58-78 | the method builds `RetroInput` |
| Retro.RetroInputStart | job_team_retro_topics.py:59-60 | the input opens with its heading and the team line |
| Retro.RetroInputEndsWithPrompt | job_team_retro_topics.py:72-76 | a non-empty prompt closes the input, right after the predictability section |
| Retro.RetroInputEndsWithPredictability | job_team_retro_topics.py:72-76 | without a non-empty prompt the predictability section closes the input |
| Retro.SaveRetroCardAndRecommendations | job_team_retro_topics.py:100-135 | the method sends the requests of `RetroWrites` and returns its count or its raise |
| Retro.RetroCardSaves | job_team_retro_topics.py:100-113 | the card helper, called with type "Team", lists the team cards first and saves no recommendation |
| Retro.RetroCardTarget | job_team_retro_topics.py:100-113 | the card goes to the team collection before anything else is written |
| Retro.AfterCardCount | job_team_retro_topics.py:115-135 | after the card at most two recommendations are saved, and the count is what the backend accepted |
| Retro.RetroWritesCount | job_team_retro_topics.py:100-135 | the job's writes save at most two recommendations, and the count is what the backend accepted |
| Retro.AfterCardLinks | job_team_retro_topics.py:122-132 | every recommendation saved after the card is filed under the team and linked to the job and the card's id |
| Retro.RetroRecommendationsLinkCard | job_team_retro_topics.py:100-132 | every recommendation the job saves is filed under the team and linked to the job and the card just saved; none when the card helper raised |
| Retro.AskRetro | job_team_retro_topics.py:79-151 | the method sends the requests of `RetroAfterInput` and returns its outcome |
| Retro.AskWithPrompt | job_team_retro_topics.py:55-151 | the method sends the requests of `RetroAfterPrompt` and returns its outcome |
| Retro.AnalyzeRetro | job_team_retro_topics.py:46-151 | the method sends the requests of `RetroAfterData` and returns its outcome |
| Retro.LookupAndAsk | job_team_retro_topics.py:47-151 | the method sends the requests of `RetroAfterId` and returns its outcome |
| Retro.ProcessRetroJob | job_team_retro_topics.py:20-151 | the method sends the requests of `Process` and returns its outcome |
| Retro.RetroNeedsTeam | job_team_retro_topics.py:23-25 | the job fails at once with "Missing team_name in job payload" and sends nothing exactly when its team is not truthy |
| Retro.RetroPromptErrorStops | job_team_retro_topics.py:47-56 | a failed prompt lookup ends the job as failed with its message, before the job is patched or the LLM asked |
| Retro.RetroAfterInputOutcome | job_team_retro_topics.py:79-151 | a failed LLM call ends the job as failed with nothing sent after it; a returned result is good exactly when the LLM answered; the job raises exactly when the LLM answered and either the card helper raised or, after a saved card, the shared JSON loop raised |
| Retro.RetroAfterInputAtMostTwo | job_team_retro_topics.py:79-151 | at most two recommendations are saved once the input is built |
| Retro.RetroAfterPromptAtMostTwo | job_team_retro_topics.py:55-151 | at most two recommendations are saved once the prompt is looked up |
| Retro.RetroAfterIdAtMostTwo | job_team_retro_topics.py:47-151 | at most two recommendations are saved once the job id is converted |
| Retro.RetroAfterDataAtMostTwo | job_team_retro_topics.py:46-151 | at most two recommendations are saved once the data is gathered |
| Retro.RetroSavesAtMostTwo | job_team_retro_topics.py:20-151 | whatever the backend and the LLM answer, the job saves at most two recommendations |
| Router.RouteAndProcess | job_router.py:9-17 | the method sends the requests of `Route` and returns its outcome |
| Router.RouteDispatch | job_router.py:11-16 | "Daily Agent", "Sprint Goal" and "PI Sync" each reach their own processor |
| Router.RouteUnknown | job_router.py:10-17 | any other type fails with `"Unknown job type: " + job_type` and sends nothing; a missing `job_type` reads as `""` |
| Router.RouteSavesAtMostTwo | job_router.py:9-17 | whatever the job, routing it saves at most two recommendations |
| Agent.SelectPendingSupported | agent.py:17-23 | absent exactly when no job is pending (lower-cased `str(status)`) with a type in `JOB_TYPES`; otherwise the first such job |
| Agent.JobTypesAreRouted | agent.py:21 | the agent takes exactly the three types the router has a processor for |
| Agent.ExtractJobIdSources | agent.py:26-33 | a present `job_id` is used even when it is None, which gives None; a number is taken as is; `id` is consulted only when `job_id` is absent; a found id always comes from a number, a boolean or a numeric string |
| Agent.JobOfShape | agent.py:72-82 | the job is `data.data.job` when that is a dict, else `data.data` when that is a dict; anything else is not a job |
| Agent.FinalBodyFields | agent.py:113-117 | status `completed` exactly on success, with the result and no error; status `error` otherwise, with no result and the message, or "Unknown error" when it is empty |
| Agent.FinishJob | agent.py:111-126 | routes the job and sends the final update, as `AfterRoute` states |
| Agent.HandleClaimedJob | agent.py:104-117 | the input note, then the processor and the final update, as `AfterClaim` states |
| Agent.HandleJob | agent.py:93-102 | the claim; the rest only when it is answered with 200, as `AfterId` states |
| Agent.HandlePoll | agent.py:61-88 | the no-job, failed-poll, bad-format and missing-id exits, then the claim, as `AfterPoll` states |
| Agent.RunCycle | agent.py:49-133 | one cycle: the poll, then `AfterPoll`, with its sleep and the next backoff, as `Cycle` states |
| Agent.RunAgent | agent.py:36-133 | the `while` loop sends every request of `Run` over the given number of cycles and returns its outcomes and sleeps |
| Agent.CyclePollsFirst | agent.py:52-88 | every cycle starts with the poll; a cycle that is unreachable, finds no job, fails, or sees a bad format or no id sends nothing else |
| Agent.CycleBackoff | agent.py:53-62 | a network error sleeps the current backoff and doubles it up to the cap of 300 s; a poll that reaches the backend resets it to 2 |
| Agent.NoJobExactly | agent.py:63-66 | the cycle ends with "no job" exactly on a 204, or a 200 whose data is falsy |
| Agent.ClaimGuardsProcessing | agent.py:93-102 | the claim is the first request after the poll; a claim not answered with 200 ends the cycle with only the claim sent, and only then |
| Agent.FinalUpdateOnce | agent.py:111-133 | a processed job gets exactly one final update, the last request, carrying its result; a processor that raised gets none |
| Agent.AfterRouteSaves | agent.py:113-118 | updates to the job save no recommendation |
| Agent.AfterIdSaves | agent.py:93-111 | a cycle saves the recommendations its processor saves when the claim succeeds, and none otherwise |
| Agent.CycleSavesAtMostTwo | agent.py:49-126 | a processor that saves at most two recommendations a job keeps a cycle to at most two |
| Agent.ProcessorsSaveAtMostTwo | agent.py:111 | the router saves at most two recommendations a job, whatever the clock |
| Agent.RunBounds | agent.py:45-59 | one outcome and one sleep per cycle, and the backoff stays between 2 and the cap |
| Agent.RunSavesAtMost | agent.py:48-133 | with a processor that keeps to two a job, `n` cycles save at most `2n` recommendations |
| Agent.AgentSavesAtMostTwoPerCycle | agent.py:48-133 | the agent saves at most two recommendations per polling cycle |
| Agent.BackoffDoubles | agent.py:47-62 | after `k` unreachable cycles in a row the backoff is `min(2^(k+1), cap)` |
| Agent.RetryWait | agent.py:55-58 | the `k`-th unreachable cycle in a row sleeps `min(2^k, cap)` seconds: 2, 4, 8 and so on |

## Left out

- `api_client.py`: the HTTP transport, `_safe_json`, `retry_call` and its float sleeps are not modelled. Every client method is one request answered by `respond`. The only transport failure modelled is a poll that cannot reach the backend (`ApiClient.unreachable`).
- The client as a store: the backend is not a card list with a recommendation log. It is a fixed answer function plus the trace of requests sent. The worker never reads back what it wrote except through answers, so the recommendation log is the accepted creates of the trace (`Backend.Accepted`). `respond` is fixed for the whole run, so every request gets the same answer throughout it: a card an upsert creates in one cycle never shows up in a later cycle's listing. The results that span several cycles therefore hold for backends whose answers do not depend on what was written before.
- `config.py`: environment parsing is left out. `JOB_TYPES`, the polling intervals (10 s and 1 s) and the backoff cap (300 s) are constants in `agent.dfy`.
- `job_team_pi_insight.py`: a stub that always fails with "Not implemented yet". It is not routed and is not modelled.
- `job_team_retro_topics.py` is modelled, but the router has no entry for it and `JOB_TYPES` does not list it. In the source it is never reached, and the same holds in the model.
- `print` diagnostics are left out. `time.sleep` becomes the sleep length each cycle reports. `datetime.now` and `isoformat` become parameters: `today`, `timestamp`, `now` and the per-cycle `Clock`.
- JSON: the grammar of `json.loads` is not modelled; it is the oracle `parse`. A `json.dumps` text the worker stores or passes on is represented by the decoded value itself, which assumes `loads(dumps(x)) == x`. Numbers are integers; floats are not modelled.
- `str()` of containers follows Python's repr layout without escaping quotes inside strings. Datetime values do not occur, so the `isoformat`/`strftime` branches of the sprint status block are not modelled.
- `int()` of text: the sign, the surrounding whitespace and single underscores between digit groups are modelled (`Text.ParseInt`); digits outside ASCII are not.
- Unicode: `lower`, `strip` and `split` work on ASCII. Only 'A'..'Z' have a lower-case form, and whitespace is the ASCII whitespace Python recognises.
- Exceptions: catch-all handlers are modelled only where the source relies on them. Examples are the `try` around a card's `int(id)` and the burndown formatter's fallbacks. Every other exception the model knows of is the result `Raised`: a failing `int()`, `.get` on a value that is not a dict, `str.join` over a part that is not a str (a truthy prompt that is not a str, a sprint name that is not a str), and the log line after an accepted recommendation, whose `header[:60]` and `text[:120]` raise when the value is neither a str nor a list (`Saving.LogRaises`); the JSON loops catch only `json.JSONDecodeError`, so that raise ends the job. The agent turns it into the outcome `Crashed`, which waits the 30-second cooldown.
- JSON records are lists of key/value pairs, and `Json.Get` takes the first pair with a key. A Python dict never repeats a key and `json.loads` keeps the last one, so the model assumes the parse oracle and the backend give records with distinct keys. A record that repeats a key matches no Python value.
- `KeyboardInterrupt` and `sys.exit` are left out.
- `run_agent` loops forever. The model runs a given number of cycles (`Agent.RunAgent`), and every property is stated for every such number.
- Source inconsistencies modelled as intended rather than as crashes. `job_daily_agent.py` and `job_sprint_goal.py` import names from `utils_processing.py` that it does not define, and unpack three values from the four-value `extract_text_and_json`. The client methods `get_transcripts`, `post_agent_llm_process`, `get_active_sprint_summary_by_team` and the `team_name=` variants do not appear in `api_client.py`. The model uses the definitions in `utils_llm_processing_and_extraction.py` and `utils_data_fetching.py`, and a backend that answers every request.
- Formatting.RowAligned: stated for a `max_width` of at least 4. Below that, the `NULL` marker is wider than the cell and the row is not aligned; the source does the same.

## Findings

| source | as written | input that shows it | evidently intended | confidence | as-written member | corrected member |
|---|---|---|---|---|---|---|
| utils_data_fetching.py:277-278 | `get_daily_transcript_for_analysis` reports "No transcript found" whenever the formatted block contains the phrase "No transcripts found" | a 200 answer with one transcript whose `raw_text` is "No transcripts found" is reported as missing | report "No transcript found" only when the fetch found no transcript list, i.e. when the block is the failure block itself | medium, not executed | Fetching.DailyTranscriptMisreported | Fetching.DailyTranscriptIntended |
