# FSY-V2 core, modelled in Dafny

This project models the sequential decision logic of three Go programs. **Ai_flood.go** is a proxy-rotating HTTP load generator. **solve.go** is a browser-driven challenge solver. **quantum_hulk.go** is a plain multi-worker request loop. Network results, clock readings and every random draw become explicit inputs. Each draw's range is stated as a precondition predicate (`ValidAttempt`, `ValidProfileDraws`, `ValidUrlDraws`, `ValidSwaps`, `ValidIteration`, `ValidPick`). Time is an integer clock in milliseconds.

Modules, one per file:

- `Wrappers`: `Option` and `Result`.
- `Text`: the Go `strings`/`strconv` behaviour the programs rely on:
  - `TrimSpace` over the `unicode.IsSpace` set;
  - `HasPrefix`, `Contains`, `SplitN(…, 2)`, `Split`, `TrimSuffix`;
  - ASCII `ToLower`/`ToUpper`;
  - `%d` printing and decimal parsing.
- `LineFilter`: trim each line, keep the accepted ones, keep their order. All three list loaders share this shape.
- `FloodOutcomes`: the outcome of one burst request (`TransportError | Status(code)`), how it is classified, the counters, and the lazily filled status map (`statusCounter`).
- `FloodPause`: the per-proxy pause/resume state machine.
- `FloodProfile`: `generatePolymorphicProfile`, the forwarded-address chain loop, and `shuffleUint16`/`shuffleCurveID` as an in-place shuffle of a fresh array.
- `FloodRequest`: URL building (`randomString`, query and fragment) and header construction (`headerMap`, the `headerOrder` filter, the `"Name: Value"` upgrade lines).
- `FloodEngine`:
  - the `Proxy` and `Engine` classes, whose fields the worker updates in place;
  - setup (`NewKRTechSigmaUltra`);
  - one worker iteration: loop-top check, rotation, URL, headers, burst;
  - `truncateAddr` and `loadProxies`.
- `Solver`: solve.go's `loadProxies`, the proxy-URL prefixing, `detectCaptcha`, the `cf_clearance` lookup, the acceptance test and the path from `solveWithProxy` to `verifyWithCookie`.
- `Hulk`: quantum_hulk.go's `Atoi` thread clamp, `loadFile`, the mode switch, cookie-line splitting, proxy selection, the transport's sticky proxy and the sent/success/error counters.
- `ProxyLists`: how the three loaders' filters nest.

Where the code and the prose description of the system differ, the model follows the code:

- A pause lasts 10 to 34 seconds, from `10 + rng.Intn(25)`, not up to 35.
- A paused proxy is probed only when `PauseUntil` is strictly before now.
- Only status 403 pauses a proxy.
- `X-Forwarded-For` goes into the header map but is never sent, because it is not in `headerOrder`. A profile's upgrade line can still add it.
- Ai_flood.go's loader also requires a `:` in each line.
- The shuffled cipher and curve lists go only into the proxy's TLS settings. Profile rotation never reshuffles them.

## Model

| member | source | states |
|---|---|---|
| Text.TrimLeftSpec | Ai_flood.go:602 | TrimLeft drops exactly the leading white space: the result is a suffix, starts with no space, and everything dropped is space |
| Text.TrimRightSpec | Ai_flood.go:602 | TrimRight drops exactly the trailing white space: the result is a prefix, ends with no space, and everything dropped is space |
| Text.TrimSpaceSpec | Ai_flood.go:602 | strings.TrimSpace yields the infix between the leading and trailing white space, with no space at either end |
| Text.TrimSpaceIdempotent | solve.go:80 | trimming a trimmed line changes nothing |
| Text.ContainsIff | solve.go:93 | strings.Contains holds iff the needle occurs at some offset |
| Text.ContainsChar | Ai_flood.go:350 | containing a one-character string is membership of that character |
| Text.ContainsTransitive | solve.go:389-395 | a text that contains t contains every substring of t |
| Text.IndexOf | Ai_flood.go:398 | the index of the first occurrence, None iff the character is absent |
| Text.SplitOnce | Ai_flood.go:398 | SplitN(s, c, 2): two parts iff c occurs; the first has no c; the parts and c rebuild s |
| Text.Split | solve.go:77 | strings.Split: no part contains the separator |
| Text.SplitJoin | solve.go:77 | joining the parts of a split with the separator gives back the input |
| Text.TrimSuffix | Ai_flood.go:266 | strings.TrimSuffix removes the suffix when present and otherwise returns the input |
| Text.TerminatedIsJoinBy | Ai_flood.go:263-266 | appending "x, " per item equals joining by ", " plus one trailing ", " |
| Text.JoinBySnoc | Ai_flood.go:264 | joining one more item adds the separator and the item |
| Text.JoinByEndsWithLast | Ai_flood.go:266 | a join ends with its last item |
| Text.TrimSuffixTerminated | Ai_flood.go:266 | trimming the trailing separator of the loop's chain gives the separator-joined items |
| Text.ToLower | solve.go:208 | lower-casing maps each character, length kept |
| Text.LowerForgetsCase | solve.go:208 | lower-casing an upper-cased text equals lower-casing the text; lower-casing is idempotent |
| Text.Decimal | Ai_flood.go:348 | "%d": non-empty, all digits, no leading zero |
| Text.DecimalRoundTrip | Ai_flood.go:348 | parsing the printed number gives the number |
| LineFilter.Kept | Ai_flood.go:601-606 | the kept lines are never more than the input lines |
| LineFilter.KeptMembers | Ai_flood.go:601-606 | a string is kept iff it is the trimmed form of some input line and is accepted |
| LineFilter.KeptAppend | Ai_flood.go:601-606 | filtering distributes over concatenation, so input order is preserved |
| LineFilter.KeptAreTrimmed | Ai_flood.go:602-603 | every kept line is trimmed and accepted |
| LineFilter.KeptTwice | solve.go:80-81 | filtering twice with p then q equals filtering once with "p and q" |
| FloodOutcomes.Count | Ai_flood.go:408-446 | the number of outcomes satisfying a class is at most the log length |
| FloodOutcomes.CountSnoc | Ai_flood.go:408-446 | one more outcome adds one to each class it belongs to |
| FloodOutcomes.CountersSnoc | Ai_flood.go:409-445 | one more outcome adds one to success iff it is a 200, to fail iff it is a transport error or a status of 400 or more, to RPS iff it is a response |
| FloodOutcomes.CountAppend | Ai_flood.go:406-450 | counts over two logs add up |
| FloodOutcomes.CountPartition | Ai_flood.go:409-445 | every outcome is exactly one of success, failure and neutral |
| FloodOutcomes.CountResponses | Ai_flood.go:416-445 | responses plus transport errors equal successes plus failures plus neutral outcomes |
| FloodOutcomes.WithEntry | Ai_flood.go:456-463 | statusCounter adds a zero entry only for an unseen code and leaves every other entry unchanged |
| FloodOutcomes.TallySnoc | Ai_flood.go:412-418 | counting one more outcome bumps exactly its key |
| FloodOutcomes.CountKey | Ai_flood.go:412-418 | the per-code count is at most the log length |
| FloodOutcomes.TallyCounts | Ai_flood.go:412-418 | the status map has an entry exactly for the codes seen (0 for transport errors), holding their number |
| FloodOutcomes.MapSumBump | Ai_flood.go:412-418 | bumping an entry adds one to the map's sum |
| FloodOutcomes.TallyTotal | Ai_flood.go:412-418 | the status map sums to the number of outcomes counted |
| FloodOutcomes.StatusMapBalance | Ai_flood.go:408-446 | the status map sums to success + fail + the responses below 400 other than 200 |
| FloodPause.ProbePasses | Ai_flood.go:465-481 | checkProxyHealth passes iff the probe completed without error and returned 200 |
| FloodPause.AtLoopTop | Ai_flood.go:326-338 | a paused proxy resumes iff its deadline is strictly before now and the probe passes; the deadline never changes here |
| FloodPause.AfterAttempt | Ai_flood.go:420-445 | a 200 clears the pause; a 403 pauses an active proxy for 10 to 34 s and leaves a paused one, deadline included, unchanged; other codes change nothing |
| FloodPause.BurstTransitions | Ai_flood.go:405-450 | over a burst, the deadline moves only inside some 403's window; it ends paused only if paused before or after a 403; it resumes only after a 200 |
| FloodProfile.ChainFrom | Ai_flood.go:263 | the chain loop, with its bound redrawn at each test, appends between 2 and 5 tokens |
| FloodProfile.ChainLength | Ai_flood.go:263 | the number of tokens is 2 to 5 |
| FloodProfile.ChainFromFirstFailure | Ai_flood.go:263 | the loop stops at the first test it fails, and every earlier test held |
| FloodProfile.QuadTexts | Ai_flood.go:264 | one "%d.%d.%d.%d" text per quad |
| FloodProfile.ForwardedChain | Ai_flood.go:262-266 | the chain is the first ChainLength dotted quads joined by ", ", non-empty, with no trailing separator |
| FloodProfile.ChainPrefixTerminated | Ai_flood.go:263-265 | after i rounds the loop's text is the first i dotted quads, each followed by ", " |
| FloodProfile.ChainFinished | Ai_flood.go:263-266 | when the loop's test first fails, trimming the trailing ", " leaves the ChainLength quads joined by ", ", non-empty and with no trailing separator |
| FloodProfile.QuadTextEndsInDigit | Ai_flood.go:264 | a dotted quad ends in a digit |
| FloodProfile.ChainEndsInDigit | Ai_flood.go:266 | a joined chain ends in a digit, so never in ", " |
| FloodProfile.GenerateProfile | Ai_flood.go:233-269 | the profile is `Generated` from the draws: the chosen base's fields and lists copied; custom headers, TE, priority, Sec-GPC and signature empty; the user agent is the base's plus the Edg suffix of the draws iff mut < 0.3, and the base's otherwise; X-Forwarded-For non-empty iff mut < 0.25, and then the joined chain of the drawn quads |
| FloodProfile.Swap | Ai_flood.go:224 | exchanging two positions keeps the length |
| FloodProfile.Shuffled | Ai_flood.go:224 | the state of rand.Shuffle after k swaps keeps the length |
| FloodProfile.SwapPermutes | Ai_flood.go:224 | one swap keeps the multiset |
| FloodProfile.ShuffledPermutes | Ai_flood.go:222-231 | a shuffle is a permutation: same multiset as the input |
| FloodProfile.ShuffleCopy | Ai_flood.go:222-231 | shuffleUint16/shuffleCurveID return a fresh array holding the shuffled copy, a permutation of the input |
| FloodRequest.LetterAt | Ai_flood.go:272 | no letter of randomString's alphabet is '#', '?', '&' or '=' |
| FloodRequest.RandomString | Ai_flood.go:271-278 | one alphabet letter per draw, so the fragment holds no URL punctuation |
| FloodRequest.Fragment | Ai_flood.go:353-355 | nothing when no fragment is drawn; otherwise "#" followed by the 16 letters the draws select, with no further "#" |
| FloodRequest.QuerySeparator | Ai_flood.go:349-352 | '&' iff the URL already has a '?' |
| FloodRequest.BuildUrl | Ai_flood.go:345-357 | the target alone when no query is drawn; otherwise the target, the separator, the drawn name, "=", the value's decimal digits and the `Fragment` of the draws |
| FloodRequest.SplitOnceAt | Ai_flood.go:353 | splitting at the first c of a + c + b, with no c in a, gives a and b |
| FloodRequest.QueryReadsBack | Ai_flood.go:347-355 | the query reads back: the first '=' separates the parameter name, and the text before '#' parses to the value |
| FloodRequest.HeaderMap | Ai_flood.go:365-389 | every headerOrder name has a value; X-Forwarded-For is present iff the profile has a chain or a custom entry for it |
| FloodRequest.OrderHeaders | Ai_flood.go:391-395 | exactly the headerOrder names present in the header map are set, with the map's values |
| FloodRequest.UpgradeFieldSplits | Ai_flood.go:397-399 | a line is split at its first ':' and both halves are trimmed |
| FloodRequest.UpgradeNamesSpec | Ai_flood.go:396-401 | a name is added iff some line with ':' names it |
| FloodRequest.UpgradedKeeps | Ai_flood.go:396-401 | upgrade lines add exactly their names; other headers keep their values |
| FloodRequest.UpgradedLastWins | Ai_flood.go:396-401 | a name's value is that of the last line naming it |
| FloodRequest.ApplyUpgrades | Ai_flood.go:396-401 | the loop applies the lines in order |
| FloodRequest.BuildHeaders | Ai_flood.go:312-317 | the header set is the headerOrder entries of the header map with every upgrade line applied in order; so exactly the 17 headerOrder names plus the upgrade names, X-Forwarded-For only if an upgrade line names it, and the header map's value for every name no line overrides |
| FloodRequest.BuildRequest | Ai_flood.go:345-401 | the request's URL is the bare target or the full query URL with its fragment, and its headers are the ordered header map with the upgrade lines applied |
| FloodEngine.NormalizeTarget | Ai_flood.go:131-134 | "https://" is prepended iff the target does not start with "http" |
| FloodEngine.TruncateAddr | Ai_flood.go:586-591 | at most 20 characters; a longer address keeps its first 18 plus ".." |
| FloodEngine.LoadProxies | Ai_flood.go:593-608 | an open error is passed on; otherwise the trimmed non-empty, non-comment lines containing ':' are kept, in order |
| FloodEngine.LoadedProxiesWellFormed | Ai_flood.go:601-606 | every loaded entry is trimmed, non-empty, not a comment and contains ':' |
| FloodEngine.Outcomes | Ai_flood.go:406-408 | a burst's outcomes, one per attempt, in order |
| FloodEngine.Proxy.Record | Ai_flood.go:409-445 | the proxy's counters keep counting what it sent, and its pause state follows AfterAttempt; nothing else changes |
| FloodEngine.Proxy.CountResult | Ai_flood.go:409-444 | per proxy: RPS counts the responses, success the 200s, fail the transport errors, 403s and other codes of 400 or more |
| FloodEngine.Proxy.PauseAfter | Ai_flood.go:421-439 | the pause state becomes AfterAttempt of the old one; only the pause fields change |
| FloodEngine.Engine.StatusCounter | Ai_flood.go:456-463 | the map becomes WithEntry of the old map |
| FloodEngine.Engine.AddStatus | Ai_flood.go:412-418 | statusCounter(code).Add(1): the entry for code is created if missing and raised by one |
| FloodEngine.Engine.CountOutcome | Ai_flood.go:408-446 | success, fail and the status map keep counting the logged outcomes |
| FloodEngine.Engine.RecordAttempt | Ai_flood.go:408-450 | one request is counted in the engine and the proxy, and applies its pause effect |
| FloodEngine.Engine.Burst | Ai_flood.go:405-450 | every attempt is sent and counted even after a pause; success and fail grow by the burst's counts; the pause follows AfterBurst |
| FloodEngine.Engine.LoopTop | Ai_flood.go:326-338 | the pause follows AtLoopTop; the worker proceeds iff the proxy is then active; nothing is counted |
| FloodEngine.Engine.Rotate | Ai_flood.go:340-343 | PolymorphCnt rises by one; iff the count is a multiple of 30 + the draw, JA3Drift rises by one and the new profile is `Generated` from the draws; otherwise drift and profile stay; no rotation before the 30th iteration |
| FloodEngine.Engine.Iterate | Ai_flood.go:319-453 | a paused proxy sends nothing and changes neither its log, PolymorphCnt, JA3Drift, profile nor pause state; an active one advances PolymorphCnt, rotates exactly as `Rotate` says, sends its whole burst and returns the request built from the current profile |
| FloodEngine.Engine.ActiveIteration | Ai_flood.go:340-450 | an active proxy rotates as `Rotate` says, logs and counts every burst outcome, ends in the AfterBurst pause state, and sends the full query URL and the upgraded ordered headers of its current profile |
| FloodEngine.NewEngine | Ai_flood.go:131-220 | fails iff the target does not parse or there are no addresses; otherwise a fresh engine with one fresh, distinct, set-up proxy per address, in order |
| FloodEngine.SetUpProxies | Ai_flood.go:168-213 | one proxy per address, in order; every proxy is fresh, no two are the same object, and each satisfies `ProxySetUp` for its address and draws |
| FloodEngine.SetUpProxy | Ai_flood.go:169-212 | a fresh proxy with the address, a profile `Generated` from its draws, cipher and curve lists that are permutations of the profile's, its ALPN list, server cipher preference iff the draw is below 0.5, and clean counters and pause state |
| Solver.LoadProxies | solve.go:71-86 | keeps the trimmed lines split at "\n" that are non-empty and not comments, in order; a read error is passed on |
| Solver.ProxyUrl | solve.go:92-95 | unchanged iff it contains "://", else "http://" is prepended; the result always names a scheme |
| Solver.DetectCaptcha | solve.go:207-217 | true iff the lower-cased body contains one of the eight markers |
| Solver.MarkersFound | solve.go:209-216 | each of the eight tests is one of the listed markers |
| Solver.DetectCaptchaIgnoresCase | solve.go:208 | detection gives the same answer for upper- and lower-cased versions of the body |
| Solver.ClearanceOfSpec | solve.go:350-359 | the clearance is the value of the first cf_clearance cookie, or "" when there is none |
| Solver.FindClearance | solve.go:350-356 | the loop with break returns the first cf_clearance value |
| Solver.RejectsFound | solve.go:391-395 | each of the five rejection tests is one of the listed markers |
| Solver.Accepted | solve.go:389-395 | status 200, a Server header containing "cloudflare", and none of the five markers in the lower-cased body |
| Solver.AcceptedPageHasNoChallengeForm | solve.go:389-395 | an accepted page can still be detected as a challenge, but only through "turnstile", "hcaptcha" or "uam" |
| Solver.VerifyWithCookie | solve.go:344-401 | succeeds iff cookies were read, a non-empty clearance exists, the proxy URL parses, a response came and it is accepted; returns the clearance on success, otherwise (false, "") |
| Solver.SolveWithProxy | solve.go:200-204 | a failed or unpassed run gives (false, "") without verification; otherwise the verification's result through ProxyUrl(proxy) |
| Hulk.Atoi | quantum_hulk.go:42 | strconv.Atoi with its error ignored: always in int64 range; an integer's text gives its value clamped to int64; a leading digit run past the uint64 maximum gives the bound of its sign even when other text follows; any other text gives 0 |
| Hulk.ScanDigitsDecided | quantum_hulk.go:42 | ParseUint's left-to-right scan is decided by the leading digit run: a range error iff that run passes the uint64 maximum, otherwise a syntax error iff other text follows, otherwise the value |
| Hulk.AtoiDecimal | quantum_hulk.go:42 | every int64 printed in decimal, with or without a sign, reads back |
| Hulk.AtoiOverflowFirst | quantum_hulk.go:42 | a number past the uint64 maximum followed by a non-digit reads as MaxInt64, or MinInt64 with a minus sign, not as 0 |
| Hulk.ThreadCount | quantum_hulk.go:42-43 | never below 1000; a parsed count of at least 1000 is kept; any smaller value, and text that is not an integer and does not overflow, gives 80000; an overflowing digit run gives MaxInt64, or 80000 when negative |
| Hulk.LoadFile | quantum_hulk.go:108-120 | an empty path gives []; otherwise every trimmed non-empty line, in order |
| Hulk.Configure | quantum_hulk.go:61-73 | "proxy" loads the proxy list, "cookie" the cookie list, "raw" neither; any other mode is an error |
| Hulk.SplitCookieLine | quantum_hulk.go:134-137 | "http://" plus the text before the first space; the cookie is the rest, or "" without a space |
| Hulk.Selection | quantum_hulk.go:131-143 | a proxy URL is chosen iff the mode is proxy or cookie and its list is non-empty; proxy mode gives "http://" + the picked entry and no cookie; cookie mode splits the picked line; only cookie mode yields a cookie |
| Hulk.Worker.Step | quantum_hulk.go:130-165 | sent rises by one and exactly one of errors and success does, so sent = success + errors is kept; the transport's proxy becomes the selected URL iff it is non-empty and parses, and otherwise stays; a Cookie header iff the cookie is non-empty; the request goes to the target with exactly User-Agent, Accept "*/*" and that optional Cookie |
| ProxyLists.SolveListRefinesHulkList | solve.go:79-84 | solve.go's list is quantum_hulk.go's list without the comment lines |
| ProxyLists.FloodListRefinesSolveList | Ai_flood.go:601-606 | Ai_flood.go's list is solve.go's list without the lines lacking ':' |
| ProxyLists.ListsNest | quantum_hulk.go:114-118 | every Ai_flood.go entry is a solve.go entry, and every solve.go entry a quantum_hulk.go entry |

## Left out

- Network I/O is not modelled: `http.Client.Do`, the transport, TLS and HTTP/2 configuration, proxy dialing, the cookie jar, response bodies. The outcome of each request, of the health probe and of the final verification is an input. `url.Parse` is an input too: whether a URL parses, and the request's host.
- Header-name canonicalisation by `req.Header.Set` is not modelled. Header maps are keyed by the names exactly as written.
- Concurrency is not modelled: goroutines, `WaitGroup`, context cancellation, signals, mutexes and atomics. One proxy's worker, or one hulk worker, is a sequential object. solve.go's `execute` fan-out and its success list depend on goroutine order.
- Floating point is not modelled: the chaos value's logistic-map update and the `rng.Float64()` comparisons. `mut` is a `real` input; the 0.85 query and 0.3 fragment decisions are boolean inputs.
- Randomness and clocks are not modelled: each draw, with its range, and the current time are inputs. Sleeps are left out.
- FloodEngine.Proxy: `PolymorphCnt` (uint64) and `JA3Drift` (int32) are unbounded integers. `PolymorphCnt` wraps only after 2^64 increments, one per active iteration. `JA3Drift` overflows only after 2^31 - 1 rotations, and a rotation takes at least 30 iterations.
- Hulk.Atoi: strconv.Atoi's fast path for texts shorter than 19 bytes is not a separate branch. It gives the same result as the scan, because 18 digits stay below the uint64 maximum. Text is scanned by code point, while Go scans bytes; either way a non-digit stops the scan.
- Text.ToLower: only ASCII letters change case. Go's full Unicode case mapping is not modelled.
- Text.TrimSpace: strings are sequences of code points. Invalid UTF-8 is not modelled.
- FloodEngine.TruncateAddr: counts characters, while Go counts bytes. The two agree on ASCII addresses.
- Line reading: `bufio.Scanner`'s line splitting and its 64 KiB token limit are not modelled. The file's lines are an input, and a scanner error is not modelled.
- The base profile catalog is a parameter. Its two entries are data, not logic.
- FloodEngine.Proxy: the profile is a value, so the fresh-copy (no aliasing) guarantee for the copied slices holds by construction.
- solve.go's chromedp browser run is not modelled: the stealth and entropy scripts, the challenge-solving loop, `randomUA`, and writing results to the output file. The run's success and its `passed` flag are inputs.
- Printing is not modelled: the dashboard, the final report, logging, and quantum_hulk.go's stats printer.
- Command-line handling is not modelled, apart from quantum_hulk.go's thread clamp and mode switch.
