# socol collector, modelled in Dafny

socol looks up how often a URL was shared on a set of social platforms.
The model covers the collector package:

- `New` normalises the platform selection and resolves the origin URL through its redirects.
- It dispatches one request per admitted platform.
- It joins the answers as they arrive.
- `aggregateAndCombine` builds the report: the data of every platform, a grand total under `meta`, and the error messages under `errors`.
- Six of the platform parsers are modelled:
  - the JSON parsers of Facebook, Reddit, StumbleUpon and Tumblr, from the decoded document;
  - the regex scanners of Google+ and Pocket, from the body text;
  - the JSONP unwrapping helper.

The model takes the source's own form:

- Code that loops over state is a `method` with loop invariants, proved against a specification function. This covers `canRunPlatform`, the dispatch loop, the join loop, the Facebook key copy, the Reddit child sum, the total in `aggregateAndCombine` and the redirect hook of `resolveAndOpenGraph`.
- Code that only computes is a `function` with lemmas.
- Go's dynamic JSON values are the datatype `Values.Value`.
- float64 is `real`.
- Go's 64-bit `int` is an unbounded `int`. The wrap-around is written out where it can occur.

Files, with one module each:

| file | module | models |
|---|---|---|
| wrappers.dfy | Wrappers | `Option`, `Result` |
| values.dfy | Values | dynamic JSON values, `map[string]interface{}` |
| numeric.dfy | Numeric | `strconv.Atoi`, `FormatFloat(f,'f',0,64)`, 64-bit wrap |
| scanner.dfy | Scanner | the two regexes, leftmost match, count extraction |
| google_plus.dfy, pocket.dfy | GooglePlus, Pocket | the scanner parsers |
| jsonp.dfy | Jsonp | `parseJSONP` |
| facebook.dfy, reddit.dfy, stumbleupon.dfy, tumblr.dfy | one each | the JSON parsers after decoding |
| platforms.dfy | Platforms | the platform table, `canRunPlatform`, selection, `Sprintf` of the template, request headers |
| dispatch.dfy | Dispatch | `doRequest` emissions, `resolveAndOpenGraph` |
| aggregate.dfy | Aggregate | `aggregateAndCombine` |
| collector.dfy | Collector | the join loop and `New` |
| collector_properties.dfy | CollectorProperties | what a whole run reports; the double-message finding |

Concurrency is replaced by the order in which messages reach the join. `New` takes the platform table, the lookup URL and the selection, and besides them:

- `origin`, what the origin fetch did;
- `arrivals`, the messages in the order they reach the join.

`New` itself does not relate `arrivals` to any HTTP answer. The lemmas of CollectorProperties do. They take `answers`, an `Exchange` per platform name: what that platform's HTTP round trip returned, either a failure or a status with the parser's result and the two timings. They require `arrivals` to be a reordering of the messages those answers produce: `FixedMessages` under the intended rule, `DoRequest` of each dispatch as written.

## Model

| member | source | states |
|---|---|---|
| Numeric.Atoi | pkg/google_plus.go:25 | The result is always in int64. A string whose leading digits after the sign pass 2^64 - 1 gives a range error with the int64 bound of its sign, whatever follows them. Otherwise a syntax error happens exactly when the text is not an optionally signed digit string, and its value is 0. Any optionally signed digit string, leading zeros included, gives its signed decimal value when that fits in int64; otherwise it gives the int64 bound nearest to that value, with a range error. |
| Numeric.AtoiOfIntToString | pkg/stumbleupon.go:33 | Atoi reads back every int64 written in decimal, with no error. |
| Numeric.AtoiOfNatDigits | pkg/collector.go:232 | Atoi reads a non-negative number back from its digits, saturating at MaxInt64 with a range error. |
| Numeric.AtoiOfNegDigits | pkg/collector.go:232 | Atoi reads a negative number back from its sign and digits, saturating at MinInt64 with a range error. |
| Numeric.RoundHalfEven | pkg/collector.go:232 | The result is a nearest integer to x, and a tie goes to the even neighbour, as FormatFloat with 0 decimals rounds. |
| Numeric.FloatToCountRounds | pkg/collector.go:231-233 | A float64 count contributes its half-even rounding, clamped to int64, because of FormatFloat followed by Atoi. |
| Numeric.Wrap64 | pkg/collector.go:230 | Two's-complement wrap-around: the result is in int64, differs from the input by a multiple of 2^64, and leaves int64 values unchanged. |
| Numeric.WrapAdd | pkg/collector.go:226-240 | Wrapping after every addition equals wrapping once at the end, which justifies a running 64-bit total. |
| Scanner.GroupIsDigitRun | pkg/google_plus.go:23 | A digit group followed by a non-digit is the longest digit run there. So the lazy `(\d+?)` captures the same group as a greedy one would. |
| Scanner.MatchGroupUnique | pkg/google_plus.go:23 | At a given position a match has only one possible group. |
| Scanner.MatchAtDigitRun | pkg/pocket.go:23 | A match at `i` exists exactly when the head matches, the digit run after it is non-empty, and the tail follows the run. |
| Scanner.MatchHereCorrect | pkg/pocket.go:23 | Trying one position is sound and complete: it returns the group of the match there if one exists, and none otherwise. |
| Scanner.Find | pkg/google_plus.go:23 | The scan returns a match at or after `from`, and no match starts earlier. |
| Scanner.FindLeftmost | pkg/pocket.go:23 | Every leftmost match is the one the scan returns. |
| Scanner.ParseCount | pkg/google_plus.go:16-34 | A failed body read is passed on. Without a match the count is `Int(0)`. With a leftmost match the count is its decimal value, or the Atoi range error when it exceeds int64. A success has `count` as its only key. |
| GooglePlus.GooglePlus | pkg/google_plus.go:15-35 | A failed body read is passed on. A body with no match of `\s\{c:\s(\d+?)\.` counts `Int(0)`. The leftmost match counts its digits as an int, or gives the Atoi range error beyond int64. A success has `count` as its only key. |
| GooglePlus.GooglePlusPatternMeaning | pkg/google_plus.go:23 | The pattern matches at `i` exactly when the text there is whitespace, `{c:`, whitespace, a non-empty digit run and `.`. |
| GooglePlus.GooglePlusExample | pkg/google_plus.go:21-34 | The body ` {c: 7.0}` gives count 7 as an int. |
| Pocket.Pocket | pkg/pocket.go:15-37 | A failed body read is passed on. A body with no match of `\sid="cnt">(\d+)</em>` counts `Int(0)`. The leftmost match counts its digits as an int, or gives the Atoi range error beyond int64. A success has `count` as its only key. |
| Pocket.PocketPatternMeaning | pkg/pocket.go:23 | The pattern matches at `i` exactly when the text there is whitespace, `id="cnt">`, a non-empty digit run and `</em>`. |
| Jsonp.IndexOf | pkg/collector.go:54 | The result is the first `(` or none, and no earlier position holds one. |
| Jsonp.LastIndexOf | pkg/collector.go:55 | The result is the last `)` or none, and no later position holds one. |
| Jsonp.ParseJSONP | pkg/collector.go:52-62 | For a body whose first `(` precedes its last `)`, the result fails exactly when a parenthesis is missing, with the source's message. Otherwise it is the text strictly between the first `(` and the last `)`. |
| Jsonp.ParseJSONPExample | pkg/collector.go:52-62 | `cb(7)` unwraps to `7`. |
| Jsonp.ClosingBeforeOpening | pkg/collector.go:54-61 | The slice panics, which is outside the precondition, exactly when both parentheses occur and the first `(` comes after the last `)`. A missing parenthesis is reported as an error instead. |
| Facebook.Facebook | pkg/facebook.go:15-38 | A decoding failure is passed on. An empty array gives `No data`. Otherwise the six count keys are copied from the first object, with missing keys as null, and `count` equals `total_count`. No other key is present. |
| Reddit.SumLinksAppend | pkg/reddit.go:27-34 | The link sum over a concatenation is the sum of the parts, so the sum follows the children in order. |
| Reddit.SumLinksNoLinks | pkg/reddit.go:29 | Children without kind `t3` add nothing. |
| Reddit.Reddit | pkg/reddit.go:14-44 | A decoding failure is passed on. Otherwise `ups` and `downs` are the sums over the `t3` children, and `count` is their sum. |
| Stumbleupon.Stumbleupon | pkg/stumbleupon.go:16-45 | A decoding failure is passed on. `count` is the only key. It is 0 unless `in_index` is true. A string `views` counts through Atoi, and a number counts as it is. |
| Stumbleupon.UnparsableViewsCountZero | pkg/stumbleupon.go:33-34 | A `views` string that is not an integer, and whose leading digits do not overflow, counts 0, because the Atoi error is ignored. |
| Stumbleupon.OverflowingViewsSaturate | pkg/stumbleupon.go:33-34 | A `views` string whose leading digits pass 2^64 - 1 counts as the int64 bound of its sign, whatever characters follow. |
| Stumbleupon.DigitViewsCount | pkg/stumbleupon.go:33-34 | A digit string `views` counts its value, clamped to MaxInt64 when it does not fit in int64. |
| Tumblr.Tumblr | pkg/tumblr.go:15-38 | A non-200 status gives `Int(0)` without reading the body. On 200, a decoding failure is passed on, and a decoded body gives `note_count` as a number. |
| Platforms.TableOriginLast | pkg/collector.go:39-50 | The origin descriptor is the table's last entry and the only one named `origin`. |
| Platforms.TableNamesOk | pkg/collector.go:39-50 | The table's names are distinct, and none is `meta` or `errors`. |
| Platforms.Normalize | pkg/collector.go:272-277 | `origin` is always appended. A nil selection or `[""]` leaves only it. Any other selection is kept in front. |
| Platforms.CanRunPlatform | pkg/collector.go:201-223 | The result is `Admitted`: not origin, enabled, and either the selection has length one or it names the platform. |
| Platforms.ApplicableMembers | pkg/collector.go:295-300 | A platform is dispatched exactly when it is in the table and admitted. |
| Platforms.EmptySelectionRunsAll | pkg/collector.go:211-213 | An absent or empty selection dispatches exactly the enabled platforms other than origin. |
| Platforms.NamedSelectionRunsNamed | pkg/collector.go:215-220 | A non-empty selection dispatches exactly the enabled platforms it names, never origin. |
| Platforms.DispatchAll | pkg/collector.go:295-300 | The loop dispatches the admitted platforms in table order, and the task count is their number. |
| Platforms.FirstVerb | pkg/collector.go:88 | The result is the first `%s` at or after `k`, or none. |
| Platforms.Substitute | pkg/collector.go:88 | With a `%s` in the template, the request URL is the text before the first `%s`, then the URL, then the rest of the template. Without one, the template is kept in front and Go's extra-argument note follows it. |
| Platforms.SubstituteRoundTrip | pkg/collector.go:88 | For a template with a `%s`, the URL can be read back from the request URL. |
| Platforms.RequestFor | pkg/collector.go:97-102 | The request URL is the substituted template, which Platforms.SubstituteRoundTrip reads back to the looked-up URL. The User-Agent is `Mozilla/5.0 (socol)`, two spaces, then the random suffix. Content-Type is set exactly when the format is non-empty, and it is the format name. |
| Dispatch.Stamped | pkg/collector.go:128-137 | A stat carries the platform's name and the parser's data plus `fetched_in` and `completed_in`, which overwrite any parser keys of those names. |
| Dispatch.DoRequest | pkg/collector.go:86-140 | One dispatch sends one or two messages, and two exactly when a response had a non-200 status. The first is then the status error. The last is the stamped stat exactly when the parse succeeded; otherwise it is the parse error. Client and transport failures send their error. |
| Dispatch.DoRequestFixed | pkg/collector.go:115-118 | The intended dispatch sends one message, and it is a stat exactly when the status is 200 and the parse succeeded. |
| Dispatch.FixedAgreesOnOk | pkg/collector.go:115-126 | Without a non-200 status, the source and the intended dispatch send the same single message. |
| Dispatch.Chain | pkg/collector.go:146-160 | The URL chain starts with the requested URL. |
| Dispatch.ResolvedIsLastHop | pkg/collector.go:293 | The URL the platforms are dispatched against is the last redirect target, or the requested URL when there was no redirect. |
| Dispatch.OriginData | pkg/collector.go:187-196 | The origin data is the metadata plus `fetched_in` and `completed_in` with the two timings, plus `urls`, which holds the whole chain. No other key is present. |
| Dispatch.OriginDataKeepsMetadata | pkg/collector.go:187-196 | Every metadata key other than the three the stat sets keeps its value. |
| Dispatch.ResolveAndOpenGraph | pkg/collector.go:142-199 | The returned chain is the URL followed by the redirects in order. There is no error exactly when a 200 answer parsed, and the origin stat is then returned. Each failure returns its own error, and a non-200 status names the original URL. |
| Aggregate.ContributionCounts | pkg/collector.go:228-239 | An int count adds itself. A float count adds its half-even rounding, clamped to int64. Any other value, or no count, adds 0. |
| Aggregate.SumOverRemove | pkg/collector.go:227-240 | The total does not depend on the order in which the map is visited. |
| Aggregate.SumOverIgnoresUncounted | pkg/collector.go:237-239 | An entry whose count is neither an int nor a float adds nothing. |
| Aggregate.Combine | pkg/collector.go:225-251 | The report keeps every entry, adds `meta` with the 64-bit total and adds `errors` with the messages in order. |
| Aggregate.AggregateAndCombine | pkg/collector.go:225-251 | The loop over the map in any order, and the copy of the errors, produce `Combine`. |
| Collector.StoreAll | pkg/collector.go:304-306 | Storing the stats never removes an entry that was already there. |
| Collector.ErrorsOf | pkg/collector.go:307-309 | The errors collected are at most one per message. |
| Collector.ErrorsOfAppend | pkg/collector.go:307-309 | The errors list keeps arrival order: the errors of two consecutive runs of arrivals are the first run's errors followed by the second's. |
| Collector.Join | pkg/collector.go:302-316 | The join consumes exactly the task count of messages. Stats are stored by name with later ones winning, and errors are appended in arrival order. |
| Collector.StoreAllKeys | pkg/collector.go:305 | The stored names are the initial ones plus the names of the stats received. |
| Collector.StoreAllLastWins | pkg/collector.go:305 | A name holds the data of the last stat carrying it. |
| Collector.StoreAllUntouched | pkg/collector.go:286 | An entry that no stat names, such as the origin, survives the join. |
| Collector.StoreAllConsistent | pkg/collector.go:305 | When each name occurs in at most one stat, every stat's data is stored. |
| Collector.StoreAllPermutation | pkg/collector.go:302-316 | Such messages store the same map in any arrival order. |
| Collector.ErrorsOfCounts | pkg/collector.go:307-309 | Each error message occurs among the errors as often as it arrived. |
| Collector.ErrorsOfPermutation | pkg/collector.go:307-309 | Reordering the arrivals only reorders the errors. |
| Collector.OriginPart | pkg/collector.go:282-287 | The origin part holds the single key `origin`, with the origin data, exactly when resolution succeeded, and is empty otherwise. |
| Collector.RequestUrlsReadBack | pkg/collector.go:88 | One request URL per dispatched platform, in dispatch order. Every request URL built from a template with a `%s` can be read back against that template to give the looked-up URL exactly. |
| Collector.New | pkg/collector.go:269-317 | Every platform requests its template filled with the resolved URL, the last URL of the redirect chain. The report is `Collect`: the combination of the origin part and the first task-count arrivals. |
| CollectorProperties.ApplicableNamesOk | pkg/collector.go:295-300 | Dispatching keeps the names distinct. |
| CollectorProperties.FixedMessages | pkg/collector.go:115-118 | The intended rule sends one message per dispatched platform. |
| CollectorProperties.AsWrittenMessages | pkg/collector.go:86-140 | As written, each dispatch sends one or two messages. |
| CollectorProperties.AsWrittenOnOk | pkg/collector.go:109-126 | When no dispatch meets a non-200 status, the messages as written are exactly the intended ones. So every property proved of the intended run, including ReportWithOneMessageEach, holds of the source in that case. |
| CollectorProperties.ReportWithOneMessageEach | pkg/collector.go:302-316 | With one message per dispatch, in any order, the report has exactly `meta`, `errors`, `origin` when resolution succeeded, and every dispatched platform that succeeded with its stamped data. The errors are the others' errors, so a resolution error, which is only logged, never appears among them. |
| CollectorProperties.ArrivalOrderIrrelevant | pkg/collector.go:302-316 | With one message per dispatch, two arrival orders give the same report up to the order of the errors. |
| CollectorProperties.TumblrNon200Parses | pkg/tumblr.go:16-20 | Every non-200 Tumblr answer still parses, to a zero count. |
| CollectorProperties.JoinFilledByTwo | pkg/collector.go:302-316 | With two dispatches, if an error and a stat arrive first, they end the join. The report then holds that stat besides the origin part, `meta` and `errors`, and `errors` holds only the first message's error. Nothing that arrives later is reported. |
| CollectorProperties.TumblrPocketDispatched | pkg/collector.go:39-50 | On the program's table the selection `tumblr,pocket` dispatches exactly Pocket and then Tumblr, in table order rather than selection order. |
| CollectorProperties.SecondCrowdedOut | pkg/collector.go:115-118 | With two dispatches in either table order, a dispatch whose answer has a non-200 status and still parses, and whose two messages arrive first, keeps any other name out of the report, whatever arrives after. |
| CollectorProperties.DoubleMessageDropsResult | pkg/collector.go:115-118 | As written, on the program's table with the selection `tumblr,pocket`: Pocket is dispatched first and Tumblr second. A non-200 Tumblr answer sends two messages, and when they arrive first they crowd Pocket's result out of the report. |
| CollectorProperties.FixedKeepsResult | pkg/collector.go:115-118 | Corrected, on the same table and selection: under the intended rule the same answers keep Pocket's result in every arrival order. |

## Left out

- The Pinterest descriptor is listed in the table of pkg/collector.go, but its definition is not part of this model. The modelled table holds the other nine entries in their order.
- Some descriptors set a field `statsURL` while the struct declares `statsUrl` (pkg/collector.go:27). Both are taken as the one template field.
- HTTP is not modelled: the client and transport (`buildClientAsync`, TLS, the proxy, the timeout) and `client.Do`. Their outcomes are the `Exchange` and `OriginExchange` parameters.
- Goroutines and channels are not modelled. The join reads the `arrivals` sequence. Go's `select` takes its `default` branch only when no message is waiting on either channel, so a message already waiting once the counter reaches 0 is still received, and the counter goes below 0. The model covers only the schedules in which no message is waiting at that point, so exactly the task count of messages is consumed and later messages stay unread.
- Timing (`time.Now`) and the `rand.Intn(1000)` User-Agent suffix are parameters (`fetchedIn`, `completedIn`, `suffix`).
- Logging and the `init` that selects the loggers are not modelled.
- `ioutil.ReadAll` and `json.Unmarshal` are not modelled. The JSON parsers start from the decoded document or from the decoding failure.
- The parsers of pkg/origin.go (OpenGraph), pkg/bufferapp.go and pkg/linkedin.go are not part of this model. Their results enter as `Exchange.parsed`.
- The CLI and the HTTP server are outside the collector.
- Go panics are preconditions:
  - a failed `http.NewRequest`, whose nil request is dereferenced before the error check (pkg/collector.go:98 and :163);
  - the type assertions of the Reddit, StumbleUpon and Tumblr parsers;
  - StumbleUpon's `panic` for a `views` of another type;
  - the `parseJSONP` slice when the last `)` precedes the first `(`.
- Numeric.FloatToCount: float64 is exact `real`, so rounding of float sums (Reddit's `ups + downs`), NaN and infinities are not modelled. The value of a count beyond 2^53 is therefore exact in the model where Go would round it.
- Aggregate.Contribution: the `Float32` branch of pkg/collector.go:234-236 cannot be taken, because decoded JSON and the parsers never produce float32. It is left out.
- Platforms.Substitute models only the first `%s` of a template and Go's `%!(EXTRA …)` suffix when there is none. Other verbs do not occur in the templates.
- A nil map and an empty map are the same value. This matters only for the origin parser, which is not part of this model.
- Behaviours of the code the model keeps, which a reader might expect otherwise:
  - Float counts are rounded half to even, not truncated.
  - The origin's `urls` is set on every success, not only after a redirect.
  - Platforms are dispatched against the end of the redirect chain even when resolution failed.
  - A resolution error is only logged and does not appear in `errors`.

## Findings

| source | as written | input that shows it | evidently intended | confidence | as-written member | corrected member |
|---|---|---|---|---|---|---|
| pkg/collector.go:115-118 | A non-200 status sends an error and then carries on, so a parser that still succeeds (Tumblr always does with a non-200 status) sends a second message for the same dispatch. The join counts messages, not dispatches. | The program's table with the selection `tumblr,pocket`, which dispatches Pocket and then Tumblr; Tumblr answers with status 500; Tumblr's two messages arrive before Pocket's stat, and Pocket's send is not yet waiting when the join next polls. The join ends after two messages, and `pocket` is missing from the report. | Return after reporting the non-200 status, so each dispatch sends exactly one message | not executed | CollectorProperties.DoubleMessageDropsResult | CollectorProperties.FixedKeepsResult |
