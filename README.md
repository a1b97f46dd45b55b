# FraudGuard in Dafny

FraudGuard is a fraud-screening web application. It has three parts:

- **The upload page** (`fraud-detection-app.tsx`). The user chooses a CSV file of card transactions and submits it. The page then shows how many rows were flagged, and lists every row with:
  - a colour tier for its fraud probability;
  - a Fraud/Legitimate badge.
- **The Next.js route** `POST /api/predict` (`app/api/predict/route.ts`). It forwards the upload once to the backend and normalises the answer into a JSON response.
- **The FastAPI backend** (`api/app.py`). It:
  - checks the file name and the required columns;
  - fills in defaults for absent columns;
  - builds the feature frame (`src/features.py`);
  - label-encodes it and scores it with the loaded model ensemble;
  - returns one record per row, flagged as fraud when the probability is above 0.1.

The project models each part in the form its source takes:

- **`UploadClient.UploadForm`** is a class. It holds the page's four state fields, plus methods for choosing a file and for submitting.
- **`Relay.Post`** is a total function. It maps what the route's awaits settle to onto the route's response.
- **`predict_file` and `score_frame`** are methods, proved against specification functions:
  - `Backend.PredictFile` and `Backend.ScoreFrame`;
  - their column-filling, encoder and record-building loops (`FillExpectedColumns`, `ApplyEncoders`, `BuildRecords`).
- **`build_base_frame` and `add_frequency_encodings`** are `Features.BuildBaseFrame` (with its rename loop and derivation steps) and `Features.AddFrequencyEncodings`.

How values are represented:

- A pandas DataFrame is a map from column name to a column of cells, together with a row count.
- Cells are text, integers, floats or missing.
- Python exceptions keep their class and message.

Things the model takes as parameters instead of computing:

- **Model artefact:** the loaded model, FEATS, the encoder columns, and one function standing for the label encoders.
- **Float transforms:** `log1p`, the cents rounding, and Python's float `repr`.
- **Upstream results:** the parsed upload, the settled `fetch`, and the route's JSON parser.

`Pipeline` follows a backend outcome through the route to what the page shows.

## Model

| member | source | states |
|---|---|---|
| UploadClient.UploadForm.constructor | fraud-detection-app.tsx:24-27 | A mounted page has no file, is not loading, has no rows and no error. |
| UploadClient.UploadForm.SelectFile | fraud-detection-app.tsx:29-38 | A first file of type exactly "text/csv" is stored and the error is cleared. Anything else, an empty selection included, clears the file and sets "Please select a valid CSV file". `loading` and `results` are untouched. |
| UploadClient.UploadForm.BeginSubmit | fraud-detection-app.tsx:43-59 | Without a file only the error changes, to "Please select a CSV file to upload", and no request is issued. With a file the request carries it, loading is set, the error is cleared and the rows are emptied, so the button is disabled and no results are shown. |
| UploadClient.UploadForm.Settle | fraud-detection-app.tsx:61-71 | Loading always ends, even when JSON parsing throws. A settled error replaces the error text. Only a successful response replaces the rows, and then by the response rows in order. |
| UploadClient.UploadForm.Submit | fraud-detection-app.tsx:40-72 | A whole submission. Without a file nothing is sent. With one, loading ends false and the error equals `SubmitError(outcome)`. Either no error and `results` equals the response rows, or an error and no rows shown. The button is enabled again. |
| UploadClient.SubmitError | fraud-detection-app.tsx:61-68 | A non-ok status gives "HTTP error! status: " followed by the decimal status. A rejected `fetch`, or a body that fails to parse after an ok status, shows the text of what was thrown. There is no error exactly when the status is ok and the body parses. |
| UploadClient.ThrownText | fraud-detection-app.tsx:67 | A thrown Error shows its own message; any other thrown value shows "An error occurred while processing the data". |
| UploadClient.FraudCount | fraud-detection-app.tsx:85 | The fraud count never exceeds the number of rows. |
| UploadClient.LegitimateCount | fraud-detection-app.tsx:86 | The legitimate count is a natural number no larger than the number of rows. |
| UploadClient.FraudCountIsFlaggedRows | fraud-detection-app.tsx:85 | The fraud count equals the number of row positions whose `is_fraud` holds. |
| UploadClient.RowsSplit | fraud-detection-app.tsx:85-86 | Flagged and unflagged positions together account for every row. |
| UploadClient.CountsPartition | fraud-detection-app.tsx:85-86 | The two counts sum to the number of rows. The legitimate count is the number of unflagged rows. Empty results give 0 and 0. |
| UploadClient.FraudCountAppend | fraud-detection-app.tsx:85 | Counting is additive over concatenated result lists. |
| UploadClient.Tier | fraud-detection-app.tsx:355-359 | A bar leaves green exactly when the probability is above 0.4, and is red only above 0.7. |
| UploadClient.TierIntervals | fraud-detection-app.tsx:355-359 | Red holds iff p > 0.7, yellow iff 0.4 < p <= 0.7, green iff p <= 0.4. The cuts are the binary64 values of the literals. Exactly one tier holds. |
| UploadClient.TierMonotone | fraud-detection-app.tsx:355-359 | A higher probability never gets a lower tier. |
| UploadClient.Badge | fraud-detection-app.tsx:374-379 | The badge reads "Fraud" exactly when `is_fraud` holds. |
| UploadClient.BadgeIndependentOfTier | fraud-detection-app.tsx:355-379 | The badge ignores the tier: a red row can read "Legitimate" and a green row can read "Fraud". |
| UploadClient.IdHeaderAndCellsCanDisagree | fraud-detection-app.tsx:328-346 | The id header looks at the first row only, so it can be shown while a row's id cell is not, and the reverse. |
| UploadClient.IdHeaderMatchesCells | fraud-detection-app.tsx:164-346 | When every row has a non-empty id, the header shows exactly when results show, and every row shows its id cell. |
| Relay.Post | app/api/predict/route.ts:3-30 | The route forwards once to the fixed backend address, unless reading the form already failed. It logs exactly when it answers with the generic 500 body. A non-ok backend status is passed through only when `NextResponse.json` can build a response with it: 200 to 599, and not a null-body status such as 304. |
| Relay.Constructible | app/api/predict/route.ts:15-18 | Every error status from 400 to 599, and every ok status other than 204 and 205, can be relayed; 304 never can. |
| Relay.NotModifiedIsInternal | app/api/predict/route.ts:13-29 | A backend 304 is not passed through. Building the JSON error response throws, so the route answers with its logged 500. |
| Relay.BackendErrorNotInternal | app/api/predict/route.ts:16-26 | A relayed backend error body never equals the route's own "Internal server error" body. |
| Relay.NotOkPassesStatusThrough | app/api/predict/route.ts:13-19 | A backend error status that a JSON response can carry (200 to 599, not a null-body status) is passed through unchanged, with body `{error: "Backend error: " + text}`. |
| Relay.OkRelaysData | app/api/predict/route.ts:21-22 | An ok backend answer is relayed exactly as parsed, always with status 200. |
| Relay.FailuresAreInternal | app/api/predict/route.ts:4-29 | These all give the logged 500 `{error: "Internal server error"}`: an unreadable form, a rejected fetch, an unreadable body, or malformed JSON. |
| Relay.ThreeOutcomes | app/api/predict/route.ts:3-30 | Relayed data, the backend's error status and the route's own 500 are exhaustive and exclusive. Data is relayed iff the backend is ok and its JSON parses. The backend's status is passed through iff it is not ok, lies in 200 to 599 and is not a null-body status such as 304. |
| Backend.FallbackFrame | api/app.py:54-61 | The fallback fails exactly when TransactionDT or TransactionAmt is missing or cannot be bucketed or log-transformed; a missing TransactionDT is named first, then a missing TransactionAmt. On success it keeps the rows and every upload column it does not write, adds exactly its seven columns, and both flags are 0. |
| Backend.FallbackDerivations | api/app.py:55-58 | The fallback's buckets and log1p are those of the upload's TransactionDT and TransactionAmt. |
| Backend.PreparedBase | api/app.py:44-61 | The base frame keeps the row count whichever way it was built. |
| Backend.PreparedBaseSpec | api/app.py:44-61 | Without a derivation error the base frame is the derived frame of `build_base_frame`, with `_tld` as line 48 of src/features.py computes it; otherwise it is the fallback. An upload with no rows always takes the fallback. On success DT_D, DT_W, DT_M and the amount transforms come from TransactionDT and TransactionAmt. In the fallback has_id and is_email_match are 0. |
| Backend.Zeros | api/app.py:72 | The default encoding is one 0 per row. |
| Backend.EncodeStep | api/app.py:65-72 | One encoder round keeps the frame rectangular. |
| Backend.EncodeStepSpec | api/app.py:65-72 | An absent column is first set to 'NA'. A ValueError (unseen label) makes the column all 0. Another exception stops the loop. Other columns are untouched. |
| Backend.EncodeAll | api/app.py:64-72 | The encoder loop keeps the frame rectangular. |
| Backend.EncodeAllSpec | api/app.py:64-72 | After the loop every encoder column exists and every other column keeps its cells. |
| Backend.ApplyEncoders | api/app.py:64-72 | The in-place loop computes exactly the encoder fold, stopping at the first exception it does not handle. |
| Backend.FillFeatures | api/app.py:77-82 | The feature fill keeps the frame rectangular. |
| Backend.FillFeaturesSpec | api/app.py:77-82 | The fill only adds. Present columns keep their cells, and every absent FEATS column becomes 0.0 in every row. |
| Backend.Prepared | api/app.py:43-85 | The frame handed to the models exists only when the upload has TransactionID; it has exactly the FEATS columns, each with one cell per row. |
| Backend.Score | api/app.py:36-92 | A score exists only with a loaded model and a prepared frame, and has one probability per row; every failure is a 500. |
| Backend.ScoreFrame | api/app.py:36-92 | The loop-based `score_frame` computes exactly the specified outcome, on the features `build_base_frame` computes as written. |
| Backend.ScoreOutcome | api/app.py:38-92 | Success gives one probability per row. Every failure is a 500. "Model not loaded" occurs exactly when there is no model. Any other failure is "Model prediction error: …". |
| Backend.PredictionErrorShape | api/app.py:92 | A prediction error is a 500 with its prefix and never the no-model error. |
| Backend.ScoredColumns | api/app.py:45-58 | Scoring succeeds only on a frame with a TransactionID column and a numeric TransactionAmt. |
| Backend.Absent | api/app.py:111 | A name is reported missing iff it is required and absent, and no more names are reported than were required. |
| Backend.AbsentAppend | api/app.py:111 | The filter keeps the order of the required list. |
| Backend.ExpectedColumnsHaveRules | api/app.py:119-137 | Every expected column matches a named rule, so the final `else` is unreachable. The six card columns default to 0. |
| Backend.WithDefaults | api/app.py:124-137 | Default filling keeps the frame rectangular. |
| Backend.WithDefaultsSpec | api/app.py:124-137 | Exactly the absent expected columns are added, each with its rule's default. Present columns are never overwritten. |
| Backend.FillExpectedColumns | api/app.py:119-137 | The in-place loop over the expected columns computes exactly the default fill. |
| Backend.NumberedLetter | api/app.py:143-146 | Every generated batch name starts with its family letter. |
| Backend.BatchDefaults | api/app.py:143-149 | Each family keeps its own default after the dict merge: C 0, D 0.0, V 0.0, M 'NA'. |
| Backend.BatchFillSpec | api/app.py:143-151 | After the batch fill every name in C1-C14, D1-D15, V1-V339 and M1-M9 exists with its family's default. Pre-existing columns keep their cells. |
| Backend.Completed | api/app.py:119-151 | The completed frame keeps the row count. |
| Backend.CompletedSpec | api/app.py:119-151 | The upload keeps every column. Every expected column it lacked holds its default in every row. Every C, D, V or M column it lacked (and that is not an expected column) holds its family's default: 0 for C, 0.0 for D and V, 'NA' for M. |
| Backend.Records | api/app.py:160-171 | There are min(rows, probabilities) records, each carrying its probability and flagged exactly when that probability is above 0.1. |
| Backend.AmountOf | api/app.py:163 | An amount is NaN exactly when the cell is missing; an integer amount keeps its value. |
| Backend.RecordsSpec | api/app.py:160-171 | There are min(rows, probabilities) records, in row order. Each has the id's `str`, the row's amount and the probability, and is flagged iff the probability is above 0.1. |
| Backend.BuildRecords | api/app.py:160-171 | The append loop computes exactly the record list. |
| Backend.Admitted | api/app.py:97-116 | An admitted request is the parsed upload itself. |
| Backend.AdmittedHasRequired | api/app.py:110-116 | An admitted upload has all four required columns. |
| Backend.Respond | api/app.py:153-173 | The handler fails after admission exactly when scoring fails; otherwise it returns one record per row. |
| Backend.PredictOutcome | api/app.py:94-181 | An upload without a file name fails on `endswith`; a successful response needs a parsed upload and has one record per row. |
| Backend.PredictFile | api/app.py:94-181 | The handler computes exactly the specified response. |
| Backend.CompleteAndScore | api/app.py:118-173 | Filling, scoring and record building of an admitted upload compute exactly the specified response. |
| Backend.PredictFailuresAre500 | api/app.py:97-181 | Every failure of `predict_file` is a 500 whose detail starts with "Processing error: Error processing file: ". This includes its own 400s. |
| Backend.NonCsvRejected | api/app.py:97-100 | A name without the case-sensitive ".csv" suffix is answered, through the catch-all of line 181, with the 500 "Processing error: Error processing file: 400: File must be a CSV". |
| Backend.MissingRequiredReported | api/app.py:110-116 | The upload is refused iff a required column is absent. The message then lists exactly the absent names, in the fixed order, as a Python list. |
| Backend.MissingRequiredExample | api/app.py:110-111 | An upload lacking TransactionDT and TransactionAmt is reported as missing exactly those two, in that order. |
| Backend.PredictSuccessSpec | api/app.py:153-173 | A successful response has one record per uploaded row, in row order. Each record has the uploaded id's `str`, its amount and its probability, and is flagged iff the probability is above 0.1. |
| Backend.PredictFlags | api/app.py:161-169 | In a successful response every record is flagged exactly when its probability is above 0.1. |
| Features.IdName | src/features.py:32 | A renamed column never starts with "id-". |
| Features.IdNameIdempotent | src/features.py:30-33 | Renaming is idempotent. |
| Features.IdColumns | src/features.py:30 | The selected columns are exactly those starting with "id-", in order, and distinct when the input's are. |
| Features.RenameColumn | src/features.py:33 | A renamed column moves to its new name with its cells, and no other name appears. |
| Features.RenameAllKeys | src/features.py:31-33 | Renaming distinct "id-" columns replaces exactly those names by their renamed forms. |
| Features.RenameAllKeeps | src/features.py:31-33 | An "id-" column outside the loop keeps its cells. |
| Features.RenameAllUnclaimed | src/features.py:31-33 | A column that nothing else is renamed onto ends up under its new name with its own cells. |
| Features.RenameIdColumns | src/features.py:30-33 | The in-place rename loop computes exactly the fold of single renames over the "id-" columns. |
| Features.RenameIdColumnsKeys | src/features.py:30-33 | Afterwards the identity frame's names are exactly the renamed names, and none starts with "id-". |
| Features.RenameIdColumnsCells | src/features.py:30-33 | A column that nothing collides with keeps its cells under its new name. |
| Features.RenameIdColumnsNoop | src/features.py:30-33 | A frame without "id-" columns is unchanged. |
| Features.IdColumnsNone | src/features.py:30 | No "id-" names means nothing to rename. |
| Features.FirstMatch | src/features.py:35 | The merge finds the first identity row with a matching key, or proves there is none. |
| Features.JoinColumn | src/features.py:35 | A joined identity column has one cell per transaction row. |
| Features.LeftJoin | src/features.py:35 | The left merge keeps the transaction rows and columns and adds the identity columns. |
| Features.Int32 | src/features.py:37-39 | The int32 cast lands in range and is the identity on in-range values. |
| Features.DayColumn | src/features.py:37 | One day index per row. |
| Features.WeekColumn | src/features.py:38 | One week index per row. |
| Features.MonthColumn | src/features.py:39 | One month index per row. |
| Features.TimeBuckets | src/features.py:37-39 | Over the whole int32 day range, negative timestamps included, DT_D is the number of whole days at or below the timestamp (86400·DT_D <= DT < 86400·(DT_D+1)). DT_D = ⌊DT/86400⌋, DT_W = ⌊DT_D/7⌋ and DT_M = ⌊DT_D/30⌋. For non-negative input DT_M <= DT_W <= DT_D. |
| Features.TimeBucketsMonotone | src/features.py:37-39 | All three buckets are non-decreasing in TransactionDT. |
| Features.FloatColumn | src/features.py:42-43 | The amount transforms give one cell per row and keep missing amounts missing. |
| Features.ProvColumn | src/features.py:47 | One provider cell per row. |
| Features.ProvColumnSpec | src/features.py:47 | A text value's provider is its text before the first '.', or all of it. A missing value stays missing. |
| Features.MaxPieces | src/features.py:48 | The width of the split frame is the largest number of pieces of any value. |
| Features.TldColumnAsWritten | src/features.py:48 | The last split column has one cell per row. |
| Features.TldColumnAsWrittenSpec | src/features.py:48 | As written, a value gets a domain only when it has the column's largest dot count, and then it is its last piece. |
| Features.TldColumn | src/features.py:48 | One domain cell per row. |
| Features.TldColumnSpec | src/features.py:48 | A text value's domain is its dot-free tail after the last '.'. |
| Features.TldAsWrittenDropsShorterDomains | src/features.py:48 | With "gmail.com" beside "yahoo.co.jp", the code as written gives a missing domain for "gmail.com"; the intended value is "com". |
| Features.FillNAColumn | src/features.py:51-52 | `fillna('NA')` maps every cell and replaces only missing ones. |
| Features.DeviceNameColumn | src/features.py:51 | One device name per row. |
| Features.DeviceNameSpec | src/features.py:51 | A device name is never missing. It is the text before the first '/', or "NA" for a missing DeviceInfo. |
| Features.VersionAt | src/features.py:52 | A match at a position is a '/' followed by a non-empty, whitespace-free tail reaching the end. |
| Features.SearchVersionSpec | src/features.py:52 | The search returns the match at the leftmost position that matches, or nothing when no position matches. |
| Features.DeviceVersionSpec | src/features.py:52 | A device version is the non-empty whitespace-free tail after the earliest '/' that matches, and is missing when no '/' matches. |
| Features.DeviceVersionExamples | src/features.py:52 | "NA" has no version; "Build/NRD90M" has "NRD90M". |
| Features.DeviceVersionColumn | src/features.py:52 | One device version per row. |
| Features.HasIdColumn | src/features.py:55-58 | One flag per row. |
| Features.HasIdSpec | src/features.py:55-58 | has_id is 0 or 1. It is 1 iff id_01 exists and the row's id_01 is present, and all 0 without an id_01 column. |
| Features.EmailMatchColumn | src/features.py:59 | One flag per row. |
| Features.EmailMatchSpec | src/features.py:59 | is_email_match is 1 iff both domains are present and equal. A missing domain gives 0. |
| Features.DerivedFrame | src/features.py:37-59 | The derived frame keeps the rows of the merged frame. |
| Features.DerivedFrameColumns | src/features.py:37-59 | The derived frame has the merged frame's columns plus exactly the thirteen derived ones. |
| Features.Derivable | src/features.py:37-52 | A frame on which no derivation raises has both e-mail domain columns, each with at least one row. |
| Features.StrAccessorOk | src/features.py:47-51 | A column the split goes through has at least one row. |
| Features.DayIndex | src/features.py:37 | A day index is an int32 value. |
| Features.DerivedFrameKeeps | src/features.py:37-61 | Columns not derived keep their cells. |
| Features.DerivedTime | src/features.py:37-39 | DT_D, DT_W and DT_M are the buckets of TransactionDT. |
| Features.DerivedAmount | src/features.py:42-43 | The amount transforms come from TransactionAmt. |
| Features.DerivedEmailSplits | src/features.py:46-48 | Each domain column gets its provider column and its `_tld` column as written: the last column of the widest split, missing for values with fewer dots. |
| Features.DerivedDeviceSplits | src/features.py:51-52 | DeviceName and DeviceVersion come from DeviceInfo. |
| Features.DerivedFlags | src/features.py:55-59 | has_id and is_email_match are the flags of the merged frame. |
| Features.SplitError | src/features.py:47-51 | A split over a column with no rows raises `KeyError: 0`; any other column without text raises the accessor's AttributeError. |
| Features.NoRowsNotDerivable | src/features.py:47 | A frame with no rows never gets through the e-mail split; it raises `KeyError: 0`. |
| Features.DeriveBaseFeatures | src/features.py:37-59 | The column assignments succeed iff no derivation raises; they give the first error, or the derived frame. |
| Features.RenameAll | src/features.py:31-33 | Renaming introduces no column other than the new names of the renamed ones. |
| Features.RenameAllRectangular | src/features.py:31-33 | Renaming keeps every column's length. |
| Features.RenameKeepsKey | src/features.py:31-35 | Renaming keeps the TransactionID column that the merge needs. |
| Features.KeyNotIdColumn | src/features.py:30-32 | TransactionID is not an "id-" column and renames to itself. |
| Features.BuildBaseFrame | src/features.py:27-61 | Rename, merge and derive compute exactly the specified base frame or exception. |
| Features.BaseFrame | src/features.py:27-61 | A base frame exists only when both frames have TransactionID, and it has the transaction frame's rows. |
| Features.BaseFrameSpec | src/features.py:27-61 | Without TransactionID in both frames the merge raises KeyError. Otherwise the result is the derived frame of the merge, or the first derivation error. |
| Features.BaseFrameKeyOnly | src/features.py:27-61 | With an identity frame holding only the key, the merged frame is the transaction frame itself. |
| Features.FreqColumn | src/features.py:81-82 | Each row's frequency is the count of its value's key. |
| Features.FreqAtLeastOne | src/features.py:80-81 | Every train value is counted at least once. |
| Features.ValueCounts | src/features.py:80 | The counts cover every row exactly once, and integers are counted together with equal floats. |
| Features.ValueCountsSpec | src/features.py:78-80 | A value's frequency is the number of positions in train ++ test that hold an equal value, NaN included. |
| Features.FreqEncoded | src/features.py:79-82 | The encoded frame keeps its rows and its columns. |
| Features.FreqEncodedKeys | src/features.py:79-82 | Exactly the "_freq" columns are added. |
| Features.FreqEncodedKeeps | src/features.py:79-82 | Every other column, the categories themselves included, is untouched. |
| Features.FreqEncodedValues | src/features.py:77-83 | Each category's "_freq" column holds, per row, the count over both frames. |
| Features.AddFrequencyEncodings | src/features.py:77-83 | The in-place loop raises (None) iff a category is missing from either frame. Otherwise both frames become their specified encodings. |
| Pipeline.ToTransactions | api/app.py:160-173 | The page receives one row per record. |
| Pipeline.ErrorBodiesAreNotOk | app/api/predict/route.ts:13-29 | The route never sends an error body with an ok status, so the page never reads one as rows. |
| Pipeline.PageErrorFor500 | fraud-detection-app.tsx:61-62 | A 500 shows "HTTP error! status: 500". |
| Pipeline.ErrorStatusReachesPage | app/api/predict/route.ts:13-19 | A backend error status reaches the page unchanged in its message. |
| Pipeline.BackendFailureReachesPage | api/app.py:175-181 | Every `predict_file` failure shows on the page as "HTTP error! status: 500", with no rows. |
| Pipeline.MissingAmountReachesPage | api/app.py:163-173 | Records with a missing amount cannot be rendered as JSON, so the page shows "HTTP error! status: 500". |
| Pipeline.RecordsReachPage | fraud-detection-app.tsx:65-85 | Renderable records reach the page intact with no error, and the page counts exactly the flagged records. |
| Pipeline.BackendSuccessReachesPage | api/app.py:161-169 | A successful scoring shows one row per uploaded row, in order. The fraud count is the number of rows with probability above 0.1. |
| Pipeline.FlaggedAboveThreshold | api/app.py:169 | The flagged positions are exactly those above the threshold. |
| Pipeline.TierImpliesBadge | fraud-detection-app.tsx:355-379 | Every yellow or red row reads "Fraud". A green row can also read "Fraud" (p = 0.25). |
| Common.ParseNatToString | api/app.py:166 | Decimal rendering of a number reads back to the number. |
| Common.NatToStringInjective | fraud-detection-app.tsx:62 | Distinct statuses give distinct messages. |
| Common.JoinSplit | src/features.py:47-51 | Joining the pieces of a split restores the string. |
| Common.SplitShape | src/features.py:47-51 | A split has one more piece than there are separators, and no piece holds one. |
| Common.SplitHead | src/features.py:47 | The first piece is the text before the first separator. |
| Common.SplitLast | src/features.py:48 | The last piece is the text after the last separator. |
| Common.ReplaceAll | src/features.py:32 | Every '-' is replaced and nothing else changes. |

## Left out

- The page's rendering: JSX, styling, tooltips, the spinner, `formatCurrency`, `formatProbability` and the bar width. These are presentation and locale-dependent float formatting.
- React state batching and concurrency. A submission is modelled as its synchronous part (`BeginSubmit`) followed by its settled part (`Settle`). A file re-selected while a request is pending is not modelled.
- A response body that parses but is not a list of rows. The page's `json` outcome is either rows or a thrown value.
- `fetch`, `FormData`, `request.formData()` and the backend's body text are not performed. They are the settled outcomes given to `UploadForm.Submit` and `Relay.Post`.
- The route answers every ok backend status with 200, not the backend's own 2xx. The model follows the code here.
- Model loading (`joblib.load`), LightGBM prediction and the average over the ensemble. These are one `predict` function of the artefact, which may fail.
- `label_encode_apply` and sklearn's `LabelEncoder`. These are one `encode` function, which gives codes, an unseen-label ValueError, or another exception.
- `reduce_mem` dtype narrowing, `np.log1p`, the cents rounding and Python's float `repr`. These are floating-point steps passed in as functions. The float32 narrowing does not change which columns exist, which is what the contracts state.
- Backend.AmountOf: does not model float64 rounding of large integer amounts; an integer amount is taken at its exact value. A `Num` cell holds a finite real, so an infinite amount is not modelled: like NaN, it makes the JSON rendering raise and FastAPI answer a plain 500 "Internal Server Error".
- `pd.read_csv` and UTF-8 decoding. The parsed frame, or the text of the error, is an input.
- The exact messages of pandas and numpy for exceptions other than KeyError and the length mismatch. They are carried as opaque text.
- Features.LeftJoin: assumes the upload's TransactionIDs are distinct (and not a repeated NaN). With duplicates, pandas multiplies rows, and the response pairs ids with other rows' probabilities. The model takes the first matching identity row. It also does not model the suffixes pandas gives clashing column names.
- Features.RenameAll: when two identity columns rename to the same name, pandas keeps both columns; the map keeps one. The contracts state the collision-free case.
- Features.DayIndex: TransactionDT values are integers or floats taken as exact reals, and float floor division is not rounded. A float day index outside the int32 range is cast by numpy to a platform-dependent value (INT_MIN on x86), not wrapped; the model wraps it like an integer one.
- `add_group_stats`, training (`src/train.py`) and `src/infer.py` are not part of this model. They are statistics and model fitting outside the request path.
- CORS, `/health`, uvicorn and all logging. The route's log entry is kept only as the `logged` flag.
- An empty-string TransactionID is rendered by `str` like any other text. Its falsy effect on the page's id header is covered by `IdHeaderAndCellsCanDisagree`.

## Findings

| source | as written | input that shows it | evidently intended | confidence | as-written member | corrected member |
|---|---|---|---|---|---|---|
| src/features.py:48 | `str.split('.', expand=True).iloc[:, -1]` takes the column at the widest split. Values with fewer dots get a missing domain there. | `P_emaildomain` = ["gmail.com", "yahoo.co.jp"]: row 0's `_tld` is missing instead of "com" | each value's text after its last '.'; the scoring path keeps the code as written | not executed | Features.TldAsWrittenDropsShorterDomains | Features.TldColumnSpec |
