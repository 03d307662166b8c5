# Log-anomaly analysis service: a verified Dafny model

The service takes a Grafana panel's identity (org, dashboard, panel title,
metric name) and an anomaly time window. It fetches per-template log counts
for that window and for the equally long window just before it, from a
ClickHouse database. It scores every log template by its contribution to the
KL divergence between the two windows and by its relative change in
frequency. Then it keeps the ten highest-scoring templates and returns their
representative log lines. When the database cannot be used, the HTTP
handler still answers with one of three fallback payloads. Two of them are
fixed texts, and the generic one quotes the error.

This project models five parts of that service in Dafny and proves
properties of them:

- `Strings`, `SqlSplit` (`strings.dfy`, `sqlsplit.dfy`): the hand-written
  string helpers of the ClickHouse client. These are substring search,
  prefix and suffix tests, ASCII whitespace trimming, line splitting and the
  schema-file statement splitter.
- `ClickHouse` (`clickhouse.dfy`): the client's two queries over an abstract
  database (`Store`). It adds the missing-table error rewrite and the
  empty-ID-list guard.
- `Scoring` (`scoring.dfy`): window totals, the union of template IDs,
  smoothed probabilities, the per-template KL term and the relative change.
- `Analyzer` (`analyzer.dfy`): baseline window, ranking, the top-10 cutoff,
  the empty short-circuit and the assembly of log groups.
- `Api` (`api.dfy`): request validation, the choice of fallback payload by
  substring tests, and projection to the API shape.

`Wrappers` (`wrappers.dfy`) holds `Option` (Go's nil) and `Result` (Go's
`(value, err)`).

Loops stay loops. A Go loop over a map becomes a loop that takes any
remaining key, so the proofs hold for every iteration order. The Go
slice that `sort.Slice` sorts in place becomes an `array` sorted in place.
Each method is proved against a specification function or predicate,
among them `IsSubstring`, `CountTotal`, `EntriesOf`, `Descending`,
`CountsResult`, `RepresentativesResult`, `FallbackGroups`, `Project`,
`GoLines`, `Statements`, `Trimmed`, `KLDivergence`, `RelativeChanges`,
`IsTopK`, `BuildGroups`, `Analyzed` and `Served`. The properties are then
proved about that specification.

The database is a value of type `Store`. It holds two functions that give
the driver's answer to each query (`DbAnswer`). The answer is the rows, an
error from `QueryContext` itself, or an error met while reading the rows
(from `rows.Scan` or `rows.Err()`). Only the first kind of error gets the
missing-table rewrite, as in the Go code. `AnalyzeLogs` and
`QueryLogs` also return the queries they sent. This makes statements such as
"no representatives are fetched" and "the analyzer is not consulted"
provable.

`sort.Slice` is not stable. The analyzer's result is therefore specified
relationally, as the outcome of *some* valid top-10 selection (`IsTopK`).
`AnalyzedDeterminedByQueries` shows that this is the only freedom.

Two points of the behaviour are easy to misread, and the model follows the
code on both:

- `AnalyzeLogs` fetches the baseline window's counts first and the current
  window's second, as its doc comment lists them
  (internal/analyzer/log_analyzer.go:43-50). So when both fetches would
  fail, the baseline error is the one reported.
- The code keeps a selected template when its ID is a *key* of the
  representatives map. So "every returned group has at least one log"
  holds only when the store never maps an ID to an empty list
  (`GroupsHaveLogsWhenStoreDoes`).

## Model

| member | source | states |
|---|---|---|
| Strings.ContainsMiddle | internal/clickhouse/client.go:220-227 | the offset scan returns true exactly when `sub` occurs in `s` at some offset; `findSubstring` in internal/api/handler.go:218-225 is the same loop and is modelled by this member too |
| Strings.Contains | internal/clickhouse/client.go:214-218 | the length, equality, prefix and suffix shortcuts, then the middle scan, give true exactly when `sub` occurs in `s` |
| Strings.EmptyIsSubstring | internal/clickhouse/client.go:214-218 | the empty string occurs in every string, the empty one included |
| Strings.LongerIsNotSubstring | internal/clickhouse/client.go:215 | a string never contains a longer one |
| Strings.ContainsError | internal/clickhouse/client.go:207-212 | a nil error contains nothing; otherwise the result is whether `sub` occurs in the error text |
| Strings.HasPrefix | internal/clickhouse/client.go:292-294 | true exactly when `s` is at least as long as `prefix` and agrees with it character by character |
| Strings.HasSuffix | internal/clickhouse/client.go:296-298 | true exactly when `s` ends with `suffix`, character by character |
| Strings.HasPrefixIsConcat | internal/clickhouse/client.go:292-294 | the prefix test holds exactly when `s == prefix + rest` for some `rest` |
| Strings.HasSuffixIsConcat | internal/clickhouse/client.go:296-298 | the suffix test holds exactly when `s == rest + suffix` for some `rest` |
| Strings.TrimLeftShape | internal/clickhouse/client.go:281-283 | the left trim keeps a suffix of `s`, removes only whitespace, and does not start with whitespace |
| Strings.TrimRightShape | internal/clickhouse/client.go:285-287 | the right trim keeps a prefix, removes only whitespace, and does not end with whitespace |
| Strings.TrimmedIsCoreSlice | internal/clickhouse/client.go:277-290 | the trimmed string is a contiguous slice `s[lo..hi]` with only space, tab, CR or LF outside it, and it neither starts nor ends with one |
| Strings.TrimOfCore | internal/clickhouse/client.go:277-290 | a string without whitespace at either end is left unchanged by trimming |
| Strings.TrimmedIdempotent | internal/clickhouse/client.go:277-290 | trimming twice equals trimming once |
| Strings.TrimmedIgnoresNewline | internal/clickhouse/client.go:241-245 | appending a '\n' does not change the trimmed text |
| Strings.TrimSpace | internal/clickhouse/client.go:277-290 | the two index loops return exactly the trimmed string |
| SqlSplit.PiecesJoin | internal/clickhouse/client.go:261-268 | the byte-preserving pieces between newlines hold no '\n', and joining them with '\n' gives the text back |
| SqlSplit.LinesRoundTrip | internal/clickhouse/client.go:257-275 | for the byte-preserving split the loop evidently intends: no line holds '\n', and joining the lines with '\n', plus a final '\n' when the text ended with one, gives the text back |
| SqlSplit.Widen | internal/clickhouse/client.go:266 | `string(b)` of a byte keeps a byte below 0x80 and turns any other byte into two bytes, each 0x80 or above |
| SqlSplit.ReencodeFixesExactlyAscii | internal/clickhouse/client.go:266 | the byte-by-byte rebuilding leaves a line unchanged exactly when it is ASCII, and gives the empty line exactly from the empty line |
| SqlSplit.ReencodeLength | internal/clickhouse/client.go:266 | the rebuilt line is never shorter, and strictly longer whenever the line holds a byte of 0x80 or above |
| SqlSplit.ReencodeNoNewline | internal/clickhouse/client.go:266 | the rebuilding adds no '\n' |
| SqlSplit.AsciiPiecesUnchanged | internal/clickhouse/client.go:257-275 | on ASCII text every piece comes out of the rebuilding unchanged |
| SqlSplit.GoLinesHaveNoNewline | internal/clickhouse/client.go:257-275 | no line returned by `splitLines` holds a '\n' |
| SqlSplit.GoLinesRoundTripOnAscii | internal/clickhouse/client.go:257-275 | on ASCII text `splitLines` returns the byte-preserving lines, so joining them gives the text back |
| SqlSplit.SplitLinesMangles | internal/clickhouse/client.go:266 | the UTF-8 text "é\n" (bytes C3 A9 0A) comes back as the single line C3 83 C2 A9, so the round trip fails |
| SqlSplit.SplitLines | internal/clickhouse/client.go:257-275 | the byte loop returns exactly `GoLines(s)`: the lines of `s`, each rebuilt by the byte-to-string conversion |
| SqlSplit.StatementsOnAscii | internal/clickhouse/client.go:229-255 | on an ASCII schema the statements are those of the byte-preserving line split |
| SqlSplit.ClosedStatementsKeepSemicolon | internal/clickhouse/client.go:241-246 | every statement closed inside the loop is non-empty, trimmed and still ends with ';': the slice removes only the appended '\n' |
| SqlSplit.StatementsWellFormed | internal/clickhouse/client.go:229-255 | every statement is non-empty and trimmed, and every statement but the last ends with ';' |
| SqlSplit.KeptLines | internal/clickhouse/client.go:236-239 | the kept lines come from the input, and none is blank or a `--` comment |
| SqlSplit.SkippedLinesContributeNothing | internal/clickhouse/client.go:236-239 | dropping all blank and comment lines first leaves the splitter's state unchanged |
| SqlSplit.GroupStatements | internal/clickhouse/client.go:233-254 | the statement loop, with the pending text as a last statement, returns exactly `Finish(Run(lines))`, the state that `Step` builds one line at a time |
| SqlSplit.SplitSQL | internal/clickhouse/client.go:229-255 | the line loop over the output of `splitLines`, non-ASCII bytes rebuilt as written, returns exactly `Statements(schema)`, whose statements are well formed (`StatementsWellFormed`) |
| ClickHouse.MissingTableMessage | internal/clickhouse/client.go:147 | the replacement error text starts with "table '" |
| ClickHouse.MissingTableMessageSaysDoesNotExist | internal/clickhouse/client.go:187 | the replacement text names the table at offset 7 and contains "does not exist" right after it |
| ClickHouse.ReportedError | internal/clickhouse/client.go:145-149 | a driver error mentioning UNKNOWN_TABLE becomes the missing-table message; any other error is passed on unchanged |
| ClickHouse.GetTemplateCounts | internal/clickhouse/client.go:128-163 | exactly one counts query is sent; it succeeds exactly when the driver read rows, which are returned as read; a failed query mentioning UNKNOWN_TABLE gives the missing-table message; a read error is returned unchanged |
| ClickHouse.GetRepresentativeLogs | internal/clickhouse/client.go:165-203 | an empty ID list gives an empty map and sends no query; otherwise exactly one query is sent, with the same outcomes as for the counts query |
| Scoring.TotalCount | internal/analyzer/kl_divergence.go:12-18 | the loop returns the sum of the window's counts, which is 0 exactly when every count is 0 |
| Scoring.TemplateUniverse | internal/analyzer/kl_divergence.go:25-32 | the two loops return exactly the union of both windows' template IDs |
| Scoring.Probability | internal/analyzer/kl_divergence.go:42-43 | every smoothed probability is strictly positive |
| Scoring.Denominator | internal/analyzer/kl_divergence.go:42-43 | the smoothed denominator total + ε·\|U\| is strictly positive, so the division is defined |
| Scoring.MassIsQuotient | internal/analyzer/kl_divergence.go:42-43 | the sum of smoothed probabilities over any set of templates is (their count sum + ε per template) / denominator |
| Scoring.ProbabilitiesSumToOne | internal/analyzer/kl_divergence.go:42-43 | over a template set holding every key of the window, the smoothed probabilities sum to exactly 1 |
| Scoring.Frequency | internal/analyzer/kl_divergence.go:86-87 | a raw frequency is non-negative, and at most 1 when the count is at most the total |
| Scoring.CalculateKLDivergence | internal/analyzer/kl_divergence.go:10-51 | returns `KLDivergence`: empty when either total is 0, otherwise one KL term per template of the union |
| Scoring.CalculateRelativeChanges | internal/analyzer/kl_divergence.go:54-96 | returns `RelativeChanges`: empty when either total is 0, otherwise one relative change per template of the union |
| Scoring.RelativeChangeSign | internal/analyzer/kl_divergence.go:89-91 | a relative change is positive, negative or zero exactly when the current frequency is above, below or equal to the baseline frequency, and it is always above -1 |
| Scoring.RelativeChangesTrackFrequency | internal/analyzer/kl_divergence.go:81-93 | in the result map, each template of the union has a change whose sign is that of its frequency difference |
| Scoring.NewTemplateRises | internal/analyzer/kl_divergence.go:86-91 | a template counted only in the current window has a positive relative change |
| Scoring.IdenticalWindowsScoreZero | internal/analyzer/kl_divergence.go:42-46 | for identical windows every relative change is 0, and every KL term is 0 when ln(1) = 0 |
| Scoring.AbsentCountsAsZero | internal/analyzer/kl_divergence.go:38-39 | a template of either window that the other lacks is scored as if counted 0 there: padding the baseline (for a new template) or the current window (for a vanished one) with count 0 changes neither result map |
| Scoring.PadWithZero | internal/analyzer/kl_divergence.go:12-18 | adding a template with count 0 changes neither the window total nor any count |
| Analyzer.BaselineWindow | internal/analyzer/log_analyzer.go:53-55 | the baseline window ends at the requested start and has the same duration |
| Analyzer.BaselineAdjacent | internal/analyzer/log_analyzer.go:53-55 | for start < end the baseline starts strictly earlier; under the half-open counts query the two windows are disjoint and together cover [baseline start, end) |
| Analyzer.CollectScores | internal/analyzer/log_analyzer.go:85-88 | the loop lists every entry of the KL map exactly once |
| Analyzer.MaxFrom | internal/analyzer/log_analyzer.go:90-92 | returns a position of a largest KL term at or after `from` |
| Analyzer.SortByKLDescending | internal/analyzer/log_analyzer.go:90-92 | the array ends as a permutation of itself with non-increasing KL terms |
| Analyzer.EntriesOfPermutation | internal/analyzer/log_analyzer.go:90-92 | any permutation of a listing of the map's entries still lists each entry exactly once |
| Analyzer.OmittedScoresLower | internal/analyzer/log_analyzer.go:94-98 | in a sorted listing, a template outside the first n scores at most each of the first n |
| Analyzer.TopOfSorted | internal/analyzer/log_analyzer.go:94-98 | the first min(\|kl\|, 10) entries of a sorted listing form a valid top-10 selection |
| Analyzer.RankTopTemplates | internal/analyzer/log_analyzer.go:85-98 | the result has min(\|kl\|, 10) distinct entries of the KL map in non-increasing order, and no omitted template scores above a kept one |
| Analyzer.SelectedPositions | internal/analyzer/log_analyzer.go:119-120 | the positions of IDs with representatives: strictly increasing, and exactly those positions |
| Analyzer.BuildGroupsSelects | internal/analyzer/log_analyzer.go:117-131 | group i is built from the ID at the i-th selected position, carrying its logs, relative change and KL term |
| Analyzer.GroupsHaveLogsWhenStoreDoes | internal/analyzer/log_analyzer.go:119-129 | when the store maps no ID to an empty list, every group has at least one log |
| Analyzer.AssembleGroups | internal/analyzer/log_analyzer.go:117-131 | the append loop returns exactly `BuildGroups` |
| Analyzer.GroupsRanked | internal/analyzer/log_analyzer.go:117-131 | groups built from a top-10 selection number at most 10, have distinct IDs and non-increasing KL terms, carry their map entries, and exist exactly for the selected IDs with representatives |
| Analyzer.RankAndAssemble | internal/analyzer/log_analyzer.go:79-131 | with no scores, the result is empty and sends no query; otherwise one representatives query for a valid top-10 selection, with its error or groups returned |
| Analyzer.AnalyzeLogs | internal/analyzer/log_analyzer.go:51-136 | baseline counts are fetched first, then current counts, and either error is returned unchanged; otherwise the scores are ranked and assembled as `Ranked` states |
| Analyzer.AnalyzedGroupsRanked | internal/analyzer/log_analyzer.go:94-131 | a successful analysis returns at most 10 groups with distinct IDs, ranked by non-increasing KL term, each carrying its template's KL term and relative change |
| Analyzer.AnalyzedEmptyWindow | internal/analyzer/log_analyzer.go:100-103 | when either window counted nothing, the result is empty with no error, and no representatives query is sent |
| Analyzer.AnalyzedFetchesTopIds | internal/analyzer/log_analyzer.go:105-112 | when both windows counted something, the third query asks for min(\|templates\|, 10) IDs, all taken from the two windows |
| Analyzer.NonEmptyWhenCounted | internal/analyzer/kl_divergence.go:12-23 | a window with a positive total has at least one template |
| Analyzer.AnalyzedDeterminedByQueries | internal/analyzer/log_analyzer.go:112-131 | two analyses that sent the same queries return the same result; tie-breaking is the only freedom |
| Api.NewHandler | internal/api/handler.go:42-57 | exactly one of analyzer and creation error is set, and a creation error is kept |
| Api.Rejection | internal/api/handler.go:66-89 | a rejection is a 400 or 405 error body; a request passes exactly when it is a POST with a decoded body, four non-empty identity fields and start < end |
| Api.ContainsStr | internal/api/handler.go:214-225 | true exactly when `sub` occurs in `s`; the empty string is contained in every string |
| Api.FallbackGroupsMarked | internal/api/handler.go:113-179 | every fallback has at least one group; every group ID is "error" or starts with "mock_"; "error" groups score 0 on both measures; the generic group quotes "Error details: " plus the error |
| Api.MissingTableNeverGeneric | internal/api/handler.go:153-154 | the client's missing-table message never selects the generic fallback |
| Api.ChooseFallback | internal/api/handler.go:113-179 | the handler's substring tests select exactly `FallbackGroups(err)`: connectivity words first, then missing-table words, then the generic payload |
| Api.ProjectGroups | internal/api/handler.go:182-189 | the index loop gives one API group per analyzer group, in the same order, copying its logs and relative change |
| Api.QueryLogs | internal/api/handler.go:66-194 | rejections are answered before the analyzer is consulted; otherwise the answer is 200 with the groups of some permitted analysis outcome, or with the fallback for its error |
| Api.ServedStatus | internal/api/handler.go:66-89 | every response is 405, 400 or 200; it is 200 exactly when validation passes, 405 exactly for a non-POST method, and a rejection sends no query |
| Api.NoAnalyzerFallsBack | internal/api/handler.go:97-100 | with no analyzer, a handler built by `NewHandler` answers a valid request with 200 and at least one fallback group, without any query |
| Api.AnalysisErrorFallsBack | internal/api/handler.go:113-193 | an analysis error yields 200 with the projected fallback groups for that error, at least one |

## Left out

- Database I/O is not part of this model: `NewClient`, `Close`, `VerifyTables`, `createTables`, the SQL text of the two queries, and the row-by-row scan loop. A `Store` gives each query's rows, its query error, or its read error directly. A read error partway through is modelled as that error; the partial map that Go builds and drops is not.
- `LogAnalyzer.NewLogAnalyzer`, `Close` and `VerifyTables` only forward to the database. `Handler.VerifyTables` returns the stored creation error when there is no analyzer and otherwise forwards to the analyzer; it holds no other logic. `NewHandler` takes the outcome of creating the analyzer as a parameter.
- JSON decoding and encoding, `writeJSON`, `http.ResponseWriter`, routing, CORS and the Grafana adapter are not modelled. A request carries the decoder's outcome, and a response is a status with the body that would be encoded.
- Logging is left out; it does not affect a result.
- Context cancellation is not modelled as such. A cancelled request makes the database call fail with an error such as "context canceled". That reaches the model as a `Store` error, and the handler then answers 200 with the generic fallback.
- Go's nil and empty slices are not distinguished. Both are answered as an empty list of API groups.
- A model string holds one character per byte of the Go string, for every string an operation searches, trims or splits. Substring search, prefix and suffix tests and trimming compare bytes, and model them exactly.
- Api.MockGroups, Api.MissingTablesGroup, Api.GenericErrorGroup: the fixed fallback texts are written as Unicode text, one character per code point. So "⚠️" is two characters here and six bytes in Go. No operation searches, trims or measures these texts; they are only passed on in the response.
- SqlSplit.SplitLines: the model follows the code as written, byte-to-string conversion included, so lines and statements holding bytes of 0x80 or above come out re-encoded (see Findings). The round trip is proved for ASCII text only (`GoLinesRoundTripOnAscii`).
- SqlSplit.SplitSQL: follows `splitLines` as written, so a statement holding a non-ASCII byte is re-encoded as Go's does; its statements equal those of the byte-preserving split only for ASCII schemas (`StatementsOnAscii`).
- Scoring.CalculateKLDivergence: `float64` arithmetic is modelled by exact reals, so NaN, infinities and rounding are not modelled. `math.Log` is the parameter `ln`, constrained only by ln(1) = 0 where a lemma needs it. Gibbs's inequality (KL terms summing to at least 0) is not proved.
- Scoring.CalculateRelativeChanges: exact reals as above; the conversion of counts to `float64` is exact here.
- Scoring.TotalCount: does not model uint64 wrap-around of the totals; counts are unbounded naturals.
- Analyzer.BaselineWindow: does not model the saturation of `time.Duration` at the int64 bounds; times are unbounded integers in nanoseconds.
- Analyzer.SortByKLDescending: specifies a non-increasing permutation, which is what `sort.Slice` promises, not the order the Go library gives tied entries. The sort itself is a selection sort.
- Analyzer.AnalyzeLogs: specifies some valid top-10 selection rather than the one Go's unstable sort happens to produce.

## Findings

| source | as written | input that shows it | evidently intended | confidence | as-written member | corrected member |
|---|---|---|---|---|---|---|
| internal/clickhouse/client.go:266 | `current += string(s[i])` turns each byte into the UTF-8 encoding of that byte's value as a code point, so every byte of 0x80 or above becomes two bytes | the UTF-8 text "é\n" (bytes C3 A9 0A) gives the line C3 83 C2 A9 ("Ã©") instead of C3 A9; a schema statement with a non-ASCII literal is sent mangled | append the byte itself, so the lines joined by '\n' give the text back | high, proved on the model; not executed | SqlSplit.SplitLinesMangles | SqlSplit.LinesRoundTrip |
