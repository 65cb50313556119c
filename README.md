# machinefrontend: a verified model of the practice client's rules

machinefrontend is the web client of a Spanish sign-language practice tool.
The user picks a sign, performs it in front of the camera, and the client
captures 35 frames of hand landmarks. It sends them to a prediction service
and shows how well the sign was performed. It also keeps a history of
attempts, per-sign and global progress statistics, and a catalogue of signs.
When the service cannot be reached, the client answers with synthetic
"demo" data.

This project models, in Dafny, the deterministic rules under that interface:

- **The API client** (`Api`). Its parts are:
  - the bounded retry with exponential back-off;
  - the wrapper that never throws and falls back to demo data;
  - the demo prediction, the demo progress and the demo history generators;
  - the health check and the stored nickname.
- **Sequence capture**:
  - `CameraModule`: landmark normalisation, the 35-frame buffer, the
    countdown, stopping, and the guard and label normalisation before a
    prediction is sent;
  - `CameraHook`: the frame-rate throttle, camera start-up and the
    synthetic frame.
- **The prediction hook, the store and the labels hook**:
  - `PredictHook`: the default label, the request and the record;
  - `Store`: the array-coercing setters, prepending a record and the
    rehydration merge;
  - `LabelsHook`: the label cache and the mapping from names to labels.
- **History and statistics**:
  - `RecordsHook`: the conjunctive filters, their merge and clear, and
    paged fetching;
  - `HistoryPage`: the filter handlers;
  - `HistoryTable`: the sort toggle, the comparator and the friendly label;
  - `ProgressPage`: the statistics-source priority, the percentages, the
    pie, the per-sign statistics and the "most practised" and "best
    performance" tabs;
  - `ProgressChart`: the seven-day chart;
  - `DailyActivityHook`: the day cache and range iteration.
- **The catalogue**:
  - `PracticePage`: categories, search, URL selection and the next lesson;
  - `LabelsPage`: the level tabs and friendly names;
  - `LabelCard`: the 32-bit string hash behind the card colour, and the
    difficulty badge.
- **Small UI state machines**:
  - `PredictionResult`: the result card;
  - `AnimatedCards`: the carousel;
  - `ApiStatus`: the status badge and the nickname editor;
  - `ApiStatusHook`: health re-check throttling;
  - `DemoBanner`: the demo banner.

The helper modules are:

- `Types`: the records of `lib/api.ts`, days, and rounding;
- `Seqs`: filter, subsequence, an insertion sort, and de-duplication;
- `Text`: lower-casing, white space, trimming, label normalisation and
  decimal strings;
- `LabelNames`: the friendly-name table.

The environment is passed in:

- **Randomness.** Every `Math.random()` is a real draw in [0, 1).
- **Time.** The clock is a millisecond count, and a day is that count
  divided by 86 400 000.
- **Network.** Each `fetch` is an `Api.Attempt`, either a `Response(status)`
  or a `NetworkError`. A retried request is a function from the attempt
  number to its attempt. A service call that can reject is an `Outcome`,
  either `Returned(value)` or `Threw`.
- **Storage.** `localStorage` entries are fields of the class that reads
  and writes them.
- **Timers and animation frames.** Each is an event method, and classes
  count the timers still pending.
- **Untyped values.** A value that may or may not be an array is an `Arr`.

Components whose state the source updates through React state or the
zustand store are classes: the state is the fields and the handlers are the
methods. The computations done on each render are functions.

Two points where the code does something other than what its own comments
or data suggest; the model follows the code:

- **A 4xx response is retried.** The comment at lib/api.ts:270 says a 4xx is
  not retried, but that branch throws inside the same `try` as the 5xx
  branch, so the `catch` retries it. A 404 is asked three times
  (`Api.NotFoundIsRetried`); see "## Findings" for the intended loop.
- **The fallback confidence is a fraction.** The fallback prediction gives
  its confidence as a number below 1, while the result card shows
  `Math.round(confidence)` as a percentage. So a fallback answer always
  shows 0 % or 1 % with a red bar (`PredictionResult.FallbackShownAsFraction`).

## Model

| member | source | states |
|---|---|---|
| Api.DummyNames | lib/api.ts:82-166 | the demo catalogue's names, one per demo sign, in catalogue order |
| Api.DummyNamesDistinct | lib/api.ts:82-166 | no two demo signs share a name |
| Api.FetchWithRetry | lib/api.ts:256-289 | the loop's result, the number of fetches and the delays slept are exactly the retry trace `Api.Retry` of the attempts |
| Api.RetryBounds | lib/api.ts:259-289 | at most maxRetries + 1 fetches, at least one, and exactly one sleep between consecutive fetches |
| Api.RetryDelays | lib/api.ts:280-284 | the k-th sleep lasts 2^k · 1000 ms, and there is none after the last attempt |
| Api.RetryFirstOk | lib/api.ts:266-288 | the first ok attempt is returned and no later attempt is made; on failure no attempt was ok and the error is that of the last attempt |
| Api.RetryCorrect | lib/api.ts:256-289 | for any retry count: 1 to maxRetries + 1 fetches, back-off sleeps between them, and a response is delivered iff some attempt within the count is ok, in which case it is the first ok one and the last fetch |
| Api.RetryIgnoresStatusClass | lib/api.ts:270-285 | two attempt sequences with the same ok pattern give the same number of fetches and the same delays, whatever their status classes |
| Api.NotFoundIsRetried | lib/api.ts:270-285 | a service that always answers 404 is asked three times, with sleeps of 1000 and 2000 ms, and the 404 error is rethrown |
| Api.RetryIntendedStopsOnClientError | lib/api.ts:270-285 | with the 4xx branch as its comment intends, the loop asks again only after a 5xx or a transport error, stops at the first 4xx with its error, and with no 4xx behaves exactly like the loop as written |
| Api.NotFoundAskedOnce | lib/api.ts:270-272 | with the intended branch, a service that always answers 404 is asked once, with no sleep |
| Api.FetchWithFallback | lib/api.ts:291-309 | never throws: a failed retry or undecodable body gives the fallback, otherwise the decoded body |
| Api.FallbackWhenUnreachable | lib/api.ts:297-308 | when no attempt is ok the caller gets its fallback value unchanged |
| Api.OtherNames | lib/api.ts:329 | the demo names other than the expected one, never empty |
| Api.PickOther | lib/api.ts:329-330 | the random pick is a demo name different from the expected one |
| Api.PredictFallback | lib/api.ts:314-347 | draw > 0.6 is correct and draw in (0.3, 0.6] doubtful, both predicting the expected sign; otherwise incorrect with a different demo sign; confidence, success rate and average confidence in their bands; observation keyed by the evaluation |
| Api.Predict | lib/api.ts:312-358 | the backend's decoded answer when a response is delivered and its body decodes; otherwise, including when every attempt fails, the fallback prediction for the request's sign |
| Api.TimeClip | lib/api.ts:239 | `new Date(x)` keeps the integral part: within one of x, truncated toward zero |
| Api.DummyProgress | lib/api.ts:225-241 | one demo progress entry: 1 ≤ total ≤ 20, the three counts are non-negative and sum to the total, the success rate is 100 · correct / total, the confidences in their bands, the last practice within the past week |
| Api.CorrectCount | lib/api.ts:227 | the correct count is below the total |
| Api.DoubtfulCount | lib/api.ts:228 | the doubtful count does not exceed what the correct count leaves |
| Api.SuccessRate | lib/api.ts:240 | the success rate is in [0, 100) and equals 100 · correct / total |
| Api.LastPractice | lib/api.ts:239 | the last-practice time is within the week before now |
| Api.GenerateDummyProgress | lib/api.ts:224-243 | one valid entry per demo sign, in catalogue order, so the final filter keeps all twelve |
| Api.Pick | lib/api.ts:178 | a random pick lands in the list |
| Api.NameAt | lib/api.ts:178 | the expected sign of a demo record is a demo name |
| Api.RecordEvaluation | lib/api.ts:185-201 | the demo evaluation is one of the three, and incorrect exactly when the draw is at most 0.4 |
| Api.RecordTimestamp | lib/api.ts:172-176 | a demo timestamp lies between 13 days 23 hours before now and now |
| Api.UnsortedRecords | lib/api.ts:171-219 | one demo record per draw, the i-th built from the i-th draw |
| Api.RedrawOther | lib/api.ts:195-198 | the do/while re-draw ends on the first pick that differs from the expected sign |
| Api.GenerateDummyRecords | lib/api.ts:170-221 | the generated list is the demo records sorted newest first |
| Api.BuildRecord | lib/api.ts:172-218 | one record built step by step, redrawing the wrong sign, is exactly the demo record for its draws |
| Api.BuildRecords | lib/api.ts:171-219 | the records built in index order are the demo records before sorting |
| Api.UnsortedRecordsSnoc | lib/api.ts:171 | extending the draws by one adds exactly the record for that index at the end |
| Api.UnsortedRecordsOk | lib/api.ts:172-218 | every unsorted demo record names demo signs, is incorrect exactly when the labels differ, carries its evaluation's observation and is at most 13 days 23 hours old |
| Api.DummyRecordFacts | lib/api.ts:178-216 | every demo record satisfies the record invariants below |
| Api.FirstOtherFacts | lib/api.ts:195-198 | the re-drawn prediction is a demo name different from the expected one |
| Api.DummyRecordsCorrect | lib/api.ts:170-221 | count records, newest first, a permutation of the drawn records, incorrect exactly when predicted ≠ expected, timestamps within two weeks |
| Api.DailyActivityFallback | lib/api.ts:390-397 | the fallback activity is for the asked day, with counts in the ranges of the random draws |
| Api.CheckHealth | lib/api.ts:425-437 | online exactly when the health request answers with a 2xx status |
| Api.UserNickname | lib/api.ts:462-465 | the stored nickname when it is not empty, else a non-empty default |
| CameraModule.Xs | components/camera-module.tsx:23-26 | the x coordinates: half the input |
| CameraModule.Ys | components/camera-module.tsx:23-26 | the y coordinates: half the input |
| CameraModule.NormalizeLandmarks | components/camera-module.tsx:19-43 | the push loops compute exactly the standardised, re-interleaved vector |
| CameraModule.Interleaved | components/camera-module.tsx:36-40 | a vector built pairwise from the standardised x and y values is the normalised vector |
| CameraModule.NormalizedShape | components/camera-module.tsx:19-43 | the output has the input's length, and position 2j comes from x_j while 2j+1 comes from y_j |
| CameraModule.ZeroSpread | components/camera-module.tsx:37-38 | when the spread of the x (or y) values is zero every output x (or y) is exactly 0 |
| CameraModule.SubmitPrediction | components/camera-module.tsx:126-161 | sends iff exactly 35 valid frames remain; the sequence is those frames in order; the label is present iff a sign is selected and is its normalised slug |
| CameraModule.SubmitValidBuffer | components/camera-module.tsx:127-131 | a buffer of 35 valid frames is sent unchanged |
| CameraModule.CaptureSession.constructor | components/camera-module.tsx:46-51 | camera off, not recording, not counting down, countdown 3, empty buffer, no timers |
| CameraModule.CaptureSession.OnFrame | components/camera-module.tsx:64-83 | a frame is appended only while recording and only when valid; the 35th frame stops recording and the camera and triggers submission; the buffer never exceeds 35 |
| CameraModule.CaptureSession.Append | components/camera-module.tsx:71-81 | a valid frame is appended to the buffer; at 35 frames recording and the camera stop and the buffer is submitted unchanged, otherwise recording goes on |
| CameraModule.AllValidAppend | components/camera-module.tsx:69-72 | appending a valid frame keeps every buffered frame valid |
| CameraModule.CaptureSession.Start | components/camera-module.tsx:86-115 | callable whenever the Comenzar button is shown; with no sign nothing changes; otherwise the buffer is emptied, the camera on, the countdown 3 and counting down, with one more interval running; the session invariant is kept from a state with no timer |
| CameraModule.CaptureSession.CountdownTick | components/camera-module.tsx:102-114 | each tick decrements; the tick from at most 1 clears the interval, stops counting down and schedules recording |
| CameraModule.CaptureSession.RecordingTimeout | components/camera-module.tsx:107-110 | the scheduled start turns recording on and changes nothing else |
| CameraModule.CaptureSession.StopAsWritten | components/camera-module.tsx:117-124 | as written: the flags and buffer reset while the countdown interval and the scheduled start survive |
| CameraModule.CaptureSession.Stop | components/camera-module.tsx:117-124 | idempotent reset of flags and buffer that also cancels the countdown and the scheduled start |
| CameraModule.CancelDuringCountdownAsWritten | components/camera-module.tsx:102-124 | cancelling mid-countdown still ends with recording on and the camera off |
| CameraModule.CancelDuringCountdown | components/camera-module.tsx:102-124 | with the corrected stop, cancelling mid-countdown leaves nothing recording and no timer |
| CameraModule.RestartInStartWindow | components/camera-module.tsx:86-115 | Comenzar pressed in the 200 ms before a scheduled start: recording switches on while the new countdown is still shown |
| CameraHook.ProcessedAreSpaced | hooks/use-camera.ts:67-89 | processed ticks are at least one frame interval apart |
| CameraHook.DeliveredWithinProcessed | hooks/use-camera.ts:70-86 | frames reach the consumer at most once per tick, only from processed ticks with ready video |
| CameraHook.EarlyTickDropped | hooks/use-camera.ts:71 | a tick earlier than one interval after the last processed one changes nothing |
| CameraHook.FrameLoop.constructor | hooks/use-camera.ts:67-93 | the interval is 1000/frameRate, no frame yet, the loop scheduled |
| CameraHook.FrameLoop.ProcessFrame | hooks/use-camera.ts:70-89 | the throttle passes at one interval; the last-frame time moves even with unready video; the consumer is called iff it passes and the video is ready; the loop stays scheduled |
| CameraHook.CameraDevice.constructor | hooks/use-camera.ts:12-14 | no stream, no error, not loading |
| CameraHook.CameraDevice.Init | hooks/use-camera.ts:20-37 | disabled does nothing; a granted camera gives a stream and no error; a refusal sets the error text |
| CameraHook.PreprocessFrame | hooks/use-camera.ts:105-110 | exactly 42 values, each in [0, 1) |
| PredictHook.ResolveLabelAsWritten | hooks/use-predict.ts:20-29 | as written: a truthy label is kept, otherwise the first store entry (an object) or the default name |
| PredictHook.AsWrittenSendsObject | hooks/use-predict.ts:23 | with a falsy label and a non-empty catalogue, a label object is substituted, not its id |
| PredictHook.ResolveLabel | hooks/use-predict.ts:20-29 | a truthy label is kept; otherwise the first sign's id or "me_duele_la_cabeza"; the warning is raised iff the label was falsy |
| PredictHook.ResolveLabelAgrees | hooks/use-predict.ts:20-29 | the corrected resolution agrees with the written one whenever that one yields a string |
| PredictHook.ResolveLabelStable | hooks/use-predict.ts:21 | resolving a resolved label keeps it and raises no warning |
| PredictHook.MakeRequest | hooks/use-predict.ts:20-35 | the sequence is unchanged, the label is the one `ResolveLabel` gives (the corrected reading of line 23), the nickname is the current one |
| PredictHook.MakeRecord | hooks/use-predict.ts:48-58 | the record carries the request's label and the response's fields, with the given id and time |
| PredictHook.Predictor.constructor | hooks/use-predict.ts:8 | bound to the store, not loading |
| PredictHook.Predictor.Predict | hooks/use-predict.ts:13-74 | with the corrected label resolution: loading during the call and not after; on success the record is prepended and the response returned; on a throw nothing is added and no response is returned |
| Store.AsArray | store/use-store.ts:45-46 | an array is kept, anything else becomes [] |
| Store.Merge | store/use-store.ts:62-72 | persisted fields override current ones; labels and records are coerced to arrays |
| Store.MergeIdempotent | store/use-store.ts:62-72 | rehydrating twice equals rehydrating once |
| Store.MergeNothing | store/use-store.ts:62-72 | nothing persisted leaves the state as it is |
| Store.MergeEverything | store/use-store.ts:62-72 | a fully persisted state replaces the current one, with its arrays coerced |
| Store.AppStore.constructor | store/use-store.ts:22-28 | empty labels and records, no current sign, not loading, no error |
| Store.AppStore.SetLabels | store/use-store.ts:45 | only the labels change, to the coerced argument |
| Store.AppStore.SetRecords | store/use-store.ts:46 | only the records change, to the coerced argument |
| Store.AppStore.SetCurrentLabel | store/use-store.ts:47 | only the current sign changes |
| Store.AppStore.AddRecord | store/use-store.ts:48-51 | the record goes first, the old records follow in order, and nothing else changes |
| Store.AppStore.SetLoading | store/use-store.ts:52 | only the loading flag changes |
| Store.AppStore.SetError | store/use-store.ts:53 | only the error changes |
| Store.AppStore.Rehydrate | store/use-store.ts:62-72 | the state becomes the merge of the persisted and the current state |
| LabelsHook.GetLabels | lib/api.ts:361-363 | a failed retry gives the demo label objects; a delivered body that decodes gives its names; a delivered body that does not decode gives the demo label objects |
| LabelsHook.ToLabel | hooks/use-labels.ts:31-35 | the id is the name, the name has every "_" turned into a space, the description is empty |
| LabelsHook.ToLabelNameRoundTrip | hooks/use-labels.ts:31-35 | for a backend string without spaces, turning the name's spaces back into "_" gives the string again |
| LabelsHook.MapLabels | hooks/use-labels.ts:31-35 | one label per name, same length and order |
| LabelsHook.MapLabelsIds | hooks/use-labels.ts:32 | the ids of the mapped labels are the fetched names |
| LabelsHook.MapPayload | hooks/use-labels.ts:26-35 | names map cleanly; the demo label objects make the mapping throw |
| LabelsHook.UnreachableMeansError | hooks/use-labels.ts:26-51 | when the service is unreachable the mapping throws, so the error path is taken |
| LabelsHook.LabelsLoader.constructor | hooks/use-labels.ts:9 | bound to the store, not loading |
| LabelsHook.LabelsLoader.FetchLabels | hooks/use-labels.ts:13-55 | cached labels are returned without a call; otherwise the mapped labels are stored and the error cleared, or the error text is set and [] returned; never loading afterwards |
| RecordsHook.FilterIfSet | hooks/use-records.ts:89-105 | filtering by one optional condition after the others is filtering by their conjunction |
| RecordsHook.ApplyFiltersIsConjunction | hooks/use-records.ts:84-108 | the filter chain keeps exactly the records meeting every set condition |
| RecordsHook.ApplyFiltersCorrect | hooks/use-records.ts:84-108 | the result is an order-preserving subsequence, every kept record passes, and every passing record is kept |
| RecordsHook.NoFiltersKeepAll | hooks/use-records.ts:87-107 | with no filters the output is the input |
| RecordsHook.MergeFilters | hooks/use-records.ts:110-112 | keys given by the update override, the others keep their values |
| RecordsHook.MergeFiltersLaws | hooks/use-records.ts:111 | an empty update is neutral and merging the same update twice equals merging it once |
| RecordsHook.RecordsLoader.constructor | hooks/use-records.ts:16-22 | page 1, more to load, nothing filtered, no filters |
| RecordsHook.RecordsLoader.FetchRecords | hooks/use-records.ts:24-74 | cached records are reused when not appending; otherwise old ++ fetched on append or fetched alone, and more to load iff 50 came back; a `null` body throws into the catch, which returns [] and leaves the records, the list and `hasMore` as they were; loading ends in every case |
| RecordsHook.RecordsLoader.LoadMoreRecords | hooks/use-records.ts:76-82 | nothing when nothing more or loading; otherwise the page advances by one and the fetch appends, or changes nothing when its body is `null` |
| RecordsHook.RecordsLoader.UpdateFilters | hooks/use-records.ts:110-135 | the filters become the merge and the filtered list is recomputed from the store |
| RecordsHook.RecordsLoader.ClearFilters | hooks/use-records.ts:117-121 | no filters and every record shown |
| HistoryPage.SelectFilter | app/history/page.tsx:41-49 | "all" clears the filter, any other value sets it |
| HistoryPage.History.constructor | app/history/page.tsx:21-22 | no local dates |
| HistoryPage.History.FromDateChange | app/history/page.tsx:27-32 | a date sets the from-filter; clearing the picker leaves the filter in place |
| HistoryPage.History.ToDateChange | app/history/page.tsx:34-39 | a date sets the to-filter; clearing the picker leaves the filter in place |
| HistoryPage.History.LabelChange | app/history/page.tsx:41-43 | the sign filter becomes the selection and the list is re-filtered |
| HistoryPage.History.EvaluationChange | app/history/page.tsx:45-49 | the evaluation filter becomes the selection and the list is re-filtered |
| HistoryPage.History.ClearFilters | app/history/page.tsx:51-55 | every filter and both local dates are cleared |
| HistoryTable.NextSort | components/history-table.tsx:25-32 | the same field flips the direction; another field is selected descending |
| HistoryTable.SortTwice | components/history-table.tsx:25-32 | two clicks on the current header restore the sort |
| HistoryTable.SortState.constructor | components/history-table.tsx:20-21 | sorted by time, descending |
| HistoryTable.SortState.HandleSort | components/history-table.tsx:25-32 | the new sort is the toggle of the old one |
| HistoryTable.AscendingReversesDescending | components/history-table.tsx:34-50 | ascending is descending with the records swapped; numbers negate; text uses the string order |
| HistoryTable.SortRecordsCorrect | components/history-table.tsx:34-50 | the sorted copy is a permutation of the records, of the same length, ordered by the comparator |
| HistoryTable.DefaultOrderNewestFirst | components/history-table.tsx:20-50 | the initial order puts the newest record first |
| HistoryTable.FriendlyLabel | components/history-table.tsx:88 | the friendly name when there is one, the label itself otherwise, "-" only when there is no label |
| HistoryTable.EmptyLabelStaysEmpty | components/history-table.tsx:88 | an empty label is shown empty, not as "-" |
| HistoryTable.View | components/history-table.tsx:90-100 | loading shows the message even with records; no records shows the placeholder; rows only otherwise |
| HistoryTable.ViewShowsEveryRecord | components/history-table.tsx:94-141 | the table shows every record exactly once, in the chosen order |
| ProgressPage.CountEvaluation | app/progress/page.tsx:36-39 | a count never exceeds the number of records |
| ProgressPage.Percent | app/progress/page.tsx:41-43 | the rounded share of 100, 0 when there are no records, within 0..100 |
| ProgressPage.EvaluationCounts | app/progress/page.tsx:36-39 | the three counts sum to at most the total, and to the total when every evaluation is known |
| ProgressPage.SumIgnoresNonNumbers | app/progress/page.tsx:72-75 | a sum equals the sum over the entries whose field is a number |
| ProgressPage.SumNonnegative | app/progress/page.tsx:72-75 | sums of non-negative counts are non-negative |
| ProgressPage.DisplaySource | app/progress/page.tsx:58-118 | global stats when usable, else progress data when there is some, else local records when there are any, else zeros; exactly one |
| ProgressPage.Share | app/progress/page.tsx:77-82 | the percentage of the total, 0 when the total is not positive |
| ProgressPage.DisplayStats | app/progress/page.tsx:58-118 | the shown totals and rates are those of the chosen source |
| ProgressPage.PieEntries | app/progress/page.tsx:141-145 | only positive slices, in the order Correctos, Dudosos, Incorrectos, each present iff its value is positive |
| ProgressPage.SliceOfTotal | app/progress/page.tsx:125-127 | the rounded share of the total; 0 for a missing percentage |
| ProgressPage.PieData | app/progress/page.tsx:121-179 | the pie uses global stats only with a positive total, else progress sums, else local counts; every slice positive |
| ProgressPage.ZeroGlobalTotal | app/progress/page.tsx:58-122 | global stats with zero attempts are shown in the figures but not in the pie |
| ProgressPage.MatchingLabel | app/progress/page.tsx:200-209 | the first catalogue sign matching the progress entry, or none iff none matches |
| ProgressPage.ProgressStat | app/progress/page.tsx:198-227 | keyed by the entry's sign, named with every "_" as a space, the entry's four counts, the success rate to the nearest tenth, and the matching sign's category and difficulty, or "Médico" and "default" |
| ProgressPage.RoundTenth | app/progress/page.tsx:218 | the nearest tenth, within 0.05, halves upward |
| ProgressPage.LocalStat | app/progress/page.tsx:231-246 | the attempts expecting that sign, the correct ones among them, their rounded percentage in 0..100 as the success rate, and the sign's category or "Sin categoría" |
| ProgressPage.CountPositive | app/progress/page.tsx:233-234 | a sign with a record expecting it has a positive count |
| ProgressPage.LocalStatsArePractised | app/progress/page.tsx:231-248 | the local statistics are exactly the practised signs, in catalogue order |
| ProgressPage.LabelStats | app/progress/page.tsx:194-249 | one full statistic per progress entry when there are entries, else the local statistics |
| ProgressPage.MorePracticedTotal | app/progress/page.tsx:252 | the order by total compares any two statistics |
| ProgressPage.SortedLabelStatsCorrect | app/progress/page.tsx:252-255 | the sorted statistics are a permutation, highest total first, of the same length |
| ProgressPage.PractisedSignsCount | app/progress/page.tsx:255 | the number of signs practised is the number of progress entries, or at most the catalogue size |
| ProgressPage.TopTen | app/progress/page.tsx:412 | the first ten rows, or all of them when there are fewer |
| ProgressPage.MostPractisedTab | app/progress/page.tsx:406-412 | the "Más practicadas" tab shows a prefix of the sorted rows, each one of the statistics, highest total first |
| ProgressPage.BestPerformanceCorrect | app/progress/page.tsx:470-480 | the "Mejor rendimiento" tab shows the first ten of the rows with at least two attempts, ranked by success rate in descending order, a ranking that is a permutation of those rows |
| ProgressPage.FormatPercentage | app/progress/page.tsx:51-55 | "0" for a missing, NaN or negative value, otherwise the digits of its rounding |
| ProgressPage.FormatNumber | app/progress/page.tsx:46-49 | "0" for a missing, NaN or negative value, otherwise the formatted rounding |
| ProgressChart.BucketDays | components/progress-chart.tsx:27-29 | bucket i is the day today − 6 + i |
| ProgressChart.BucketFor | components/progress-chart.tsx:47-52 | a bucket is for its day |
| ProgressChart.ProcessData | components/progress-chart.tsx:26-61 | seven buckets, oldest first, each summing exactly the items of its day; fails iff an item has no date |
| ProgressChart.FindDay | components/progress-chart.tsx:42-44 | the first bucket of the day, or -1 iff there is none |
| ProgressChart.WeekTotalIsWindowTotal | components/progress-chart.tsx:39-53 | the chart's totals equal the sum over the items inside the seven days |
| DailyActivityHook.NoActivity | hooks/use-daily-activity.ts:41-53 | the day with all counts zero |
| DailyActivityHook.RangeLength | hooks/use-daily-activity.ts:59-70 | the number of days from start to end inclusive, 0 when start is after end |
| DailyActivityHook.RangeCount | hooks/use-daily-activity.ts:59-70 | only one day count fits the range |
| DailyActivityHook.ActivityTracker.constructor | hooks/use-daily-activity.ts:14 | an empty cache |
| DailyActivityHook.ActivityTracker.GetDailyActivity | hooks/use-daily-activity.ts:16-57 | a cached day is returned without a call; otherwise the service's answer is returned and cached, or zeros are returned and nothing cached |
| DailyActivityHook.ActivityTracker.GetActivityRange | hooks/use-daily-activity.ts:59-70 | one activity per day from start to end, in order, [] when start is after end |
| PracticePage.CategoryOf | app/practice/page.tsx:32 | the category of every sign, in order |
| PracticePage.CategoriesCorrect | app/practice/page.tsx:29-32 | "all" first, every sign's category present, and no entry repeated unless a sign's category is literally "all" |
| PracticePage.FilterLabelsCorrect | app/practice/page.tsx:35-52 | the signs kept, in order, are those matching the search in name or description and the category |
| PracticePage.NextLesson | app/practice/page.tsx:85-105 | none iff the catalogue is empty |
| PracticePage.NextLessonCycles | app/practice/page.tsx:85-105 | the next lesson after sign i is sign i + 1, wrapping to the first |
| PracticePage.FindOwnIndex | app/practice/page.tsx:89 | with unique ids, the index search for a sign's id finds that sign's own position |
| PracticePage.Practice.constructor | app/practice/page.tsx:22-26 | nothing selected, no result, empty search, category "all" |
| PracticePage.Practice.Search | app/practice/page.tsx:35-52 | the search term changes and the list is re-filtered |
| PracticePage.Practice.SelectCategory | app/practice/page.tsx:47-52 | the category changes and the list is re-filtered |
| PracticePage.Practice.SelectFromUrl | app/practice/page.tsx:55-63 | the sign with the URL's id is selected when it exists; otherwise nothing changes |
| PracticePage.Practice.LabelSelect | app/practice/page.tsx:65-70 | the sign is selected, the result cleared and its id put in the URL |
| PracticePage.Practice.PredictionComplete | app/practice/page.tsx:72-74 | the result is stored |
| PracticePage.Practice.ClearPrediction | app/practice/page.tsx:76-83 | the result is cleared and the selection kept |
| PracticePage.Practice.NextLessonSelect | app/practice/page.tsx:85-105 | with a selection the next lesson is selected and the result cleared; without one nothing changes |
| LabelsPage.LevelCode | app/labels/page.tsx:14 | the difficulty code of a level tab, present iff the tab is one of the three |
| LabelsPage.FilterLabelsCorrect | app/labels/page.tsx:23-36 | the shown signs, in order, are those at the level whose name contains the search |
| LabelsPage.CodeIsNoTab | app/labels/page.tsx:26 | no demo difficulty, lower-cased, equals a Spanish tab name |
| LabelsPage.DummyCatalogueHiddenAsWritten | app/labels/page.tsx:23-27 | as written, no tab ever shows a demo sign |
| LabelsPage.EachLabelUnderOneTab | app/labels/page.tsx:23-27 | with tab names mapped to codes, a sign shows under the tab of its difficulty and no other |
| LabelsPage.UnknownLevelSelectsNothing | app/labels/page.tsx:25-27 | a level that is none of the three shows nothing |
| LabelsPage.FriendlyName | app/labels/page.tsx:86-87 | the friendly name when there is one, otherwise the name with "_" turned into spaces |
| LabelsPage.FallbackNameHasNoUnderscore | app/labels/page.tsx:86-87 | a fallback display name has no underscore |
| LabelsPage.View | app/labels/page.tsx:72-93 | skeletons when loading, the empty message when nothing matches, else one card per sign |
| LabelsPage.Catalogue.constructor | app/labels/page.tsx:17-20 | no search, level "principiante", the list filtered, with the corrected level test of `FilterLabels` |
| LabelsPage.Catalogue.SelectLevel | app/labels/page.tsx:44-47 | the tab changes and the list is re-filtered, with the corrected level test of `FilterLabels` |
| LabelsPage.Catalogue.Search | app/labels/page.tsx:60-69 | the search changes and the list is re-filtered, with the corrected level test of `FilterLabels` |
| LabelsPage.Catalogue.LabelsLoaded | app/labels/page.tsx:23-36 | new labels re-filter the list, with the corrected level test of `FilterLabels` |
| LabelCard.ToInt32 | components/label-card.tsx:27-30 | the unique 32-bit signed value congruent to the input |
| LabelCard.ShiftLeft5 | components/label-card.tsx:27-30 | `<< 5`: 32 times the 32-bit value, wrapped to 32 bits |
| LabelCard.HashAppend | components/label-card.tsx:27-30 | the hash of a name plus a character is one more step of the loop |
| LabelCard.Rem360 | components/label-card.tsx:34 | the remainder keeps the sign of the hash, is below 360 in size and differs from it by a multiple of 360 |
| LabelCard.IntToString | components/label-card.tsx:35 | the decimal form of the hue, with a minus sign when negative |
| LabelCard.BackgroundColour | components/label-card.tsx:25-36 | the hue is the JavaScript remainder of the hash, and the colour is a function of the name |
| LabelCard.OneLetterHash | components/label-card.tsx:27-30 | a one-letter name hashes to its code |
| LabelCard.DifficultyBadge | components/label-card.tsx:44-48 | "Principiante", "Intermedio", otherwise "Avanzado" |
| LabelCard.DifficultyClass | components/label-card.tsx:17-21 | a colour class exactly for the three known difficulties |
| LabelCard.CardFooter | components/label-card.tsx:69-88 | a select button showing the selection when selectable, otherwise links to the sign's page and to practice |
| PredictionResult.EvaluationDetails | components/prediction-result.tsx:29-60 | the title, description and colour of each evaluation, a neutral card for any other value |
| PredictionResult.BorderColour | components/prediction-result.tsx:73 | the colour class without its "bg-" prefix |
| PredictionResult.ConfidencePercent | components/prediction-result.tsx:63 | the confidence rounded, unscaled |
| PredictionResult.ConfidenceColour | components/prediction-result.tsx:98-102 | green above 80, amber above 50, red otherwise |
| PredictionResult.ColourMonotone | components/prediction-result.tsx:101 | more confidence never gives a worse colour |
| PredictionResult.Feedback | components/prediction-result.tsx:106-111 | the feedback when truthy, else the observation, hidden when both are empty |
| PredictionResult.StatBoxes | components/prediction-result.tsx:114-129 | a box per defined value, success rate first |
| PredictionResult.Buttons | components/prediction-result.tsx:131-151 | repeat and next lesson only when offered, "Continuar practicando" always last |
| PredictionResult.View | components/prediction-result.tsx:27-151 | nothing without a result; otherwise the card shows the expected and detected signs, the evaluation's texts and colours, the rounded confidence with its bar colour, the feedback, the statistics boxes and the buttons of that result |
| PredictionResult.FallbackShownAsFraction | components/prediction-result.tsx:63 | the fallback answer shows 0 % or 1 % with a red bar |
| AnimatedCards.CardRoles | components/animated-cards.tsx:41-53 | exactly the active card is active, and the next one cyclically is next |
| AnimatedCards.Advance | components/animated-cards.tsx:24 | the new index stays below the number of cards |
| AnimatedCards.AdvanceMod | components/animated-cards.tsx:24 | advancing from a remainder is the remainder of the advance |
| AnimatedCards.AdvanceByIsSum | components/animated-cards.tsx:20-29 | k advances move the index k places round the cycle |
| AnimatedCards.FullRound | components/animated-cards.tsx:20-29 | one advance per card returns to the start |
| AnimatedCards.Carousel.constructor | components/animated-cards.tsx:16-17 | first card, not animating |
| AnimatedCards.Carousel.NextCard | components/animated-cards.tsx:20-29 | ignored while animating; otherwise the next card, animating, with one release scheduled |
| AnimatedCards.Carousel.DotClick | components/animated-cards.tsx:72-77 | ignored while animating; otherwise that card, animating |
| AnimatedCards.Carousel.TransitionEnd | components/animated-cards.tsx:26-28 | the release ends the animation and keeps the card |
| ApiStatus.BadgeText | components/api-status.tsx:72-86 | "API Conectada", "Modo Demo" or "Verificando..." |
| ApiStatus.BadgeVariant | components/api-status.tsx:72-86 | the badge style of each status |
| ApiStatus.ConnectionText | components/api-status.tsx:125-135 | the dialog's status and description of each status |
| ApiStatus.TextsDistinguishStates | components/api-status.tsx:72-135 | different statuses never show the same text |
| ApiStatus.StatusPanel.constructor | components/api-status.tsx:22-36 | the stored nickname in both fields, status unknown |
| ApiStatus.StatusPanel.CheckApiStatus | components/api-status.tsx:38-55 | online iff the health request succeeds in time |
| ApiStatus.StatusPanel.EditNickname | components/api-status.tsx:111 | only the edited text changes |
| ApiStatus.StatusPanel.SaveNickname | components/api-status.tsx:57-67 | a non-blank nickname is stored trimmed, shown and the dialog closes; a blank one changes nothing |
| ApiStatus.StatusPanel.SetDialogOpen | components/api-status.tsx:148 | only the dialog flag changes |
| ApiStatus.SavedNicknameIsTrimmed | components/api-status.tsx:57-62 | a saved nickname has no surrounding white space and is what the API is sent |
| ApiStatusHook.StatusMonitor.constructor | hooks/use-api-status.ts:7-8 | status and last check unknown |
| ApiStatusHook.StatusMonitor.CheckStatus | hooks/use-api-status.ts:10-17 | the status is the health result and the check time is recorded |
| ApiStatusHook.StatusMonitor.Focus | hooks/use-api-status.ts:30-40 | a focus re-checks iff there was no check or the last is over a minute old |
| ApiStatusHook.FocusDebounce | hooks/use-api-status.ts:32-35 | the first focus checks; later ones only after strictly more than 60 000 ms |
| DemoBanner.Banner.constructor | components/demo-mode-banner.tsx:10-19 | hidden, dismissed iff the stored flag says so |
| DemoBanner.Banner.Sync | components/demo-mode-banner.tsx:14-19 | on a status change, visible iff offline and not dismissed |
| DemoBanner.Banner.Poll | components/demo-mode-banner.tsx:14-19 | a check updates the status and the visibility follows it |
| DemoBanner.Banner.Dismiss | components/demo-mode-banner.tsx:21-25 | hidden and the dismissal stored as "true" |
| DemoBanner.Banner.Retry | components/demo-mode-banner.tsx:27-33 | online hides the banner and removes the stored dismissal; offline keeps it |
| Text.NormalizeLabel | app/progress/page.tsx:183-191 | the slug has only lower-case letters, digits and underscores |
| Text.NormalizeLabelIdempotent | app/progress/page.tsx:183-191 | normalising twice is normalising once |
| Text.AccentDropped | app/progress/page.tsx:185-187 | an accented letter becomes its base letter |
| Text.WhitespaceRun | app/progress/page.tsx:189 | a run of white space between two letters becomes one "_" |
| Text.SlugChars | components/camera-module.tsx:140-146 | a normalised label has no white space |
| Text.Lower | components/camera-module.tsx:141 | lower-casing is character by character and leaves no capital |
| Text.LowerIdempotent | components/camera-module.tsx:141 | lower-casing twice is lower-casing once |
| Text.Trim | components/api-status.tsx:58 | the result is a slice of the text with only white space cut before and after it, and it neither starts nor ends with white space |
| Text.ReplaceChar | hooks/use-labels.ts:33 | every occurrence of one character is replaced, nothing else changes |
| Text.IncludesAt | app/practice/page.tsx:42 | a search matches iff the term occurs at some position |
| Text.OccursShift | app/practice/page.tsx:42 | an occurrence in the tail of a string is exactly an occurrence one position further in the string |
| Text.ParseNatToString | app/progress/page.tsx:51-55 | the decimal form of a number reads back as that number |
| Text.NatToStringInjective | lib/api.ts:210 | different numbers have different decimal forms |
| Types.DayShift | components/progress-chart.tsx:28 | moving k days of milliseconds moves the day by k |
| Types.Floor | lib/api.ts:172 | the largest integer not above the real |
| Types.Round | components/prediction-result.tsx:63 | `Math.round`: the integer within one half, halves upward |
| Types.DrawIndex | lib/api.ts:178 | a random index lands within the list |
| Seqs.DistinctFirstOccurrenceOrder | app/practice/page.tsx:32 | de-duplication keeps each value once, in order of its first occurrence |
| Seqs.SortByCorrect | lib/api.ts:220 | the sort is a permutation, of the same length, ordered by the relation |
| Seqs.FilterIsSubsequence | hooks/use-records.ts:84-107 | a filter keeps an order-preserving subsequence |

## Left out

- CameraModule.CaptureSession.Start: the session invariant is promised only for a start from a state with no timer; a start in the 200 ms window before a scheduled start, or after a cancel that left an interval running, adds a second timer, and the other event methods then promise only their field updates.
- Floating point: the mean and standard deviation of `normalizeLandmarks` are uninterpreted functions, and division by a zero deviation is not modelled beyond its zero branch. Confidence and rate values are exact reals. `Math.round` is exact rounding, and NaN appears only as the "not a number" case of the formatters and sums.
- Time zones and daylight saving: `setDate`, `setHours` and `Date.now()` arithmetic are fixed millisecond offsets, and days are UTC days. `toISOString` renderings are day numbers. An invalid date appears only as the failure result of `ProgressChart.ProcessData`.
- Unicode and locale: `toLowerCase` is modelled on ASCII and Latin-1 letters, NFD decomposition on the Spanish accented letters, and `localeCompare` in the history table is a parameter. `Intl.NumberFormat` is a parameter, and `charCodeAt` is the character's code point.
- React's stale closures (`isRecording` inside `onFrame`, `filters` inside `updateFilters`, the `activityCache` seen by `getActivityRange`) and re-render timing: each handler sees the current state.
- RecordsHook.RecordsLoader.FetchRecords: the `catch` block is reached only through a `null` or `undefined` body, whose `.length` throws (hooks/use-records.ts:42); its toast is not modelled.
- MakeRequest (PredictHook.MakeRequest): it uses `ResolveLabel`, the corrected reading of hooks/use-predict.ts:23. The request as written can carry a Label object, and the model's request label is a string, so that case exists only as `PredictHook.ResolveLabelAsWritten` and `PredictHook.AsWrittenSendsObject`.
- Predict (PredictHook.Predictor.Predict): it builds its request with `MakeRequest`, so it too sends the corrected label.
- constructor (LabelsPage.Catalogue.constructor): the class invariant keeps the list filtered with the corrected level test of `LabelsPage.FilterLabels`. The page as written shows no sign under any tab (`LabelsPage.DummyCatalogueHiddenAsWritten`).
- SelectLevel (LabelsPage.Catalogue.SelectLevel): it re-filters with the corrected level test.
- Search (LabelsPage.Catalogue.Search): it re-filters with the corrected level test.
- LabelsLoaded (LabelsPage.Catalogue.LabelsLoaded): it re-filters with the corrected level test.
- Retry (Api.Retry): the service functions and everything built on them use the loop as written (lib/api.ts:258-288), which retries a 4xx. The intended loop is `Api.RetryIntendedFrom`.
- LabelStats (ProgressPage.LabelStats): these fields of a progress entry are not modelled: the doubtful and incorrect rates, the average, maximum and minimum confidences, and the last attempt. Nor is the confidence line they feed. The counts are the entry's fields read as numbers, a non-number as 0. The "Todas las señas" tab sorts with `localeCompare` and is not modelled.
- SortByCorrect (Seqs.SortByCorrect): the sort keeps equal elements in input order by construction, but that stability is not proved.
- DummyRecord (Api.DummyRecord): every generated record is dated from one `now`, where the source reads the clock once per record.
- Toasts and console output are not modelled, except the texts the model records: the nickname toast and the camera error. The 1500 ms delay in the prediction hook is not modelled.
- Stopping camera tracks, `cancelAnimationFrame` and the router are not modelled. The router push is the field `pushedLabel`.
- `getRecords`, `getProgress` and `getGlobalStats` in lib/api.ts are each `Api.FetchWithFallback` applied to their endpoint and demo data. They have no members of their own, and the query strings are not modelled. `getUserInfo` and `setUserNickname` are not part of this model; the stored nickname is a field of `ApiStatus.StatusPanel`.
- The HTTP proxy routes under pages/api and lib/server-config.ts are not part of this model: they only forward requests.
- The presentational components are not part of this model: the landing page, layout, navigation, bento grid, marquee, gradients, beams and floating icons. The same holds for the mock usage statistics, `use-progress` (a thin fetch wrapper) and `cn` in lib/utils.ts (a foreign call).
- The tests under __tests__ expect a different predict URL, or test a component of their own against a mocked API; the model follows lib/api.ts.
- The five-minute status interval and the window focus listener are not modelled as timers or events of their own; each run is a call to `CheckStatus`, `Focus` or `DemoBanner.Banner.Poll`.
- The card visuals are the strings of `AnimatedCards.RoleClass`, the hue string of `LabelCard.HslColour` and the icons of `PredictionResult`; the icons are not modelled.

## Findings

| source | as written | input that shows it | evidently intended | confidence | as-written member | corrected member |
|---|---|---|---|---|---|---|
| components/camera-module.tsx:117-124 | `stopEverything` resets the flags and the buffer but neither clears the countdown interval, which is local to `startCountdownAndRecord`, nor cancels the 200 ms recording start | start with a sign, one countdown tick, cancel, two more ticks, then the scheduled start: recording is on while the camera is off | cancelling stops the countdown and the pending start, so nothing records afterwards | not executed | CameraModule.CancelDuringCountdownAsWritten | CameraModule.CancelDuringCountdown |
| hooks/use-predict.ts:23 | `labels?.[0] \|\| "me_duele_la_cabeza"` substitutes the first Label object, not a string, as the expected label | `expected_label` undefined with a non-empty label store: the request carries an object | the id of the first sign (the default is an id) | not executed | PredictHook.AsWrittenSendsObject | PredictHook.ResolveLabel |
| app/labels/page.tsx:24-26 | the lower-cased difficulty ("beginner", "intermediate", "advanced") is compared with the Spanish tab names ("principiante", "intermedio", "avanzado") | the demo catalogue under any tab and any search: no sign is shown | each tab shows the signs of its difficulty | not executed | LabelsPage.DummyCatalogueHiddenAsWritten | LabelsPage.EachLabelUnderOneTab |
| lib/api.ts:270-275 | the 4xx branch throws inside the `try`, so the `catch` retries it like a 5xx, against the comment "no reintentar" | a service that always answers 404: three fetches with sleeps of 1000 and 2000 ms | a 4xx is rethrown after one fetch | not executed | Api.NotFoundIsRetried | Api.NotFoundAskedOnce |
