# A verified model of the Fileee MCP server's shared state

The server lets many callers use a few Fileee accounts. What must not go wrong when they do so at
the same time is kept in a few small components, and this project models those in Dafny:

- the **client pool** and the **self_check** throttle: one login per account, one client for ever,
  no keepalive after `Close`, whatever the interleaving;
- the **issued-ID store** and the tool calls that write to it: an ID may be used only by a caller
  who has just fetched it;
- the **tool-call limiter**: two token buckets and a number of slots;
- the **framing of foreign text** and the **redaction of log attributes**;
- the **upload limits** in 64-bit arithmetic, and the **account index** that is built twice.

`dafny verify dfyconfig.toml` checks everything. No proof relies on Dafny's automatic induction
(`--manual-lemma-induction` may be added).

## How it is laid out

| files | source | form |
|---|---|---|
| `PoolProtocol` | `clientpool/pool.go`, `tools/ops.go` | transition system; any number of calls, each with a program counter; one step is one critical section, one access to a singleflight group, one change of a login mutex, or the start or end of a login |
| `PoolInvariant`, `PoolSteps`, `PoolTheorems`, `PoolLiveness`, `PoolOutcomes`, `PoolProbes`, `PoolLogins`, `PoolAnswers`, `PoolResults`, `PoolReuse`, `PoolCheckResults` | | the inductive invariant in rely-guarantee form, its preservation, and the theorems |
| `PoolPlay`, `PoolStaleRun`, `PoolCloseLogins`, `PoolLateAnswer` | | three runs, state by state, that show what does not hold |
| `PoolSections` | `clientpool/pool.go` | the critical sections as methods of a class |
| `IssuedSpec`, `IssuedErasure`, `IssuedRanking`, `IssuedStore` | `issued/issued.go` | relations and history; erasure with a free and with a fixed map order; the store as a class |
| `ToolRecords` | `tools/read*.go` | the handlers that record, and runs of tool calls |
| `TokenBucket`, `ToolLimiter`, `LimiterRuns` | `server/ratelimit.go` | the bucket over exact rationals; the limiter as a class; interleaved runs |
| `Wrappers`, `Sets`, `Identity` | | small helpers |
| `Text`, `Framing`, `UntrustedResults` | `tools/read.go`, `tools/read_generic.go` | the template, and what reaches the client |
| `Redaction` | `diag/diag.go` | recursion over attribute trees |
| `Base64`, `SizeLimits` | `tools/write_documents.go`, `config/config.go` | a 64-bit `newtype` |
| `ConfigLists`, `AccountConfig`, `AccountIndex` | `config/config.go`, `server/server.go`, `accounts/accounts.go` | loops against declarative well-formedness |

## Where the code and its words differ

- **Joined failures can be stale.** Each execution that a call joins overlaps that call, but a call
  that joins an execution for its *subject* may be handed the failure of a login that was over
  before the call began. `PoolStaleRun.StaleFailure` is such a run; `PoolOutcomes` says exactly
  when it happens.
- **self_check spaces recorded starts, not logins.** `ops.go` promises at most one real login
  attempt per account and interval. The interval is kept between the clock readings that are
  recorded; the login itself starts after the wait for the account's mutex. In
  `PoolCloseLogins.LoginsTooClose` two logins are a second apart. What the code would have to test is
  the time since the previous *login*: `PoolLogins.IntervalIsSettled` proves that the next login keeps
  the interval in every continuation if and only if, when its start has been recorded, that time is a
  full interval. Without that test a window of length W holds at most W/interval + 2 logins.
- **A cached self_check answer can be handed out late.** It is younger than the interval when the
  executing call decides on it; a call that joins may be handed one that was too old before it began
  (`PoolLateAnswer.OldAnswer`). `PoolAnswers` proves that this happens exactly if, when the call
  began, the call it joins was already about to leave with such an answer.
- **Rate checks are not stateless.** A call refused by its subject's bucket or for want of a slot
  keeps the token it took from the global bucket.
- **Line breaks defeat the length gate.** Go's decoder skips CR and LF, so a string longer than
  `base64EncodedLenFor(limit)` may still decode to at most `limit` bytes. It is refused.
- **A repeated allowlist entry** is loaded in single mode and then refused by `buildResolver`.
- **Who calls `Check`.** In this commit only tests call the store's `Check` for tool input; the
  provenance theorem is about what `Check` would answer.

## Model

| member | source | states |
|---|---|---|
| PoolTheorems.AtMostOneLoginInFlight | internal/clientpool/pool.go:217-273 | in every reachable state at most one call has a real login in flight for an account, whether it comes from `For`, `ProbeLogin` or self_check |
| PoolTheorems.ClientForever | internal/clientpool/pool.go:261-264 | along every run the client map and the table of login mutexes only grow: an entry once made is never changed or removed |
| PoolTheorems.OneClientPerAccount | internal/clientpool/pool.go:149-194 | any two `For` calls for one account that are answered with a client, at any two times, are answered with the same one; it is the account that the resolver names for the caller, and account and client have had exactly one successful `EnsureSession`. That a login leads to such an answer is `PoolResults` |
| PoolTheorems.AtMostOneSuccess | internal/clientpool/pool.go:4-11 | an account never has more than one successful pooled login, and has exactly one once it is in the map |
| PoolTheorems.OnlySuccessIsCached | internal/clientpool/pool.go:217-249 | a step that changes the map is the publication by a build that has just logged in, so errors are never cached and leave the map unchanged |
| PoolTheorems.CustodyIsTaken | internal/clientpool/pool.go:251-273 | a client somebody still has to stop is in the hands of an unfinished call that has that `stop` ahead |
| PoolTheorems.NoKeepaliveOutlivesClose | internal/clientpool/pool.go:279-291 | once `Close` has run and no call has a `stop` left, no keepalive runs and each one ever started was stopped, exactly once if `Close` ran once |
| PoolTheorems.NothingStoppedBeforeClose | internal/clientpool/pool.go:251-273 | before `Close` no client's keepalive is stopped |
| PoolTheorems.LeadersAreLive | internal/clientpool/pool.go:154-194 | a group's executing call is an unfinished call that is executing for that key |
| PoolTheorems.NoStaleOutcome | internal/clientpool/pool.go:61-67 | a joiner of any of the three groups takes the outcome of an execution for its own key that left the group after the joiner began |
| PoolResults.AttemptIsRecorded | internal/clientpool/pool.go:239-249 | the history of ended logins gains one entry where a client cannot be built or a login ends, saying how, the first for that call, and changes in no other step |
| PoolResults.OutcomesAreReal | internal/clientpool/pool.go:239-249 | over every run, a failure that is held, returned or left in a group names a call whose own pooled login has ended without success and was never counted as one; a client likewise names one whose login succeeded |
| PoolResults.ForIsAnswered | internal/clientpool/pool.go:149-194 | `For` returns no account exactly if the resolver has no user name for the caller, and otherwise the pooled client of just that user name or the failure of a login against just that account, and nothing else |
| PoolResults.OwnLoginDecides | internal/clientpool/pool.go:217-273 | a `For` whose own login succeeded returns that client, pooled for its caller's account, and one whose login failed that failure; a probe and a self_check return how their own login ended |
| PoolReuse.PooledClientIsReturned | internal/clientpool/pool.go:168-194 | a `For` whose account has a client when it begins, and that executes for its subject itself, makes no login and returns exactly that client |
| PoolReuse.JoinersShareTheAnswer | internal/clientpool/pool.go:149-194 | a call that waits for another in any of the three groups returns nothing but the answer that the other returns |
| PoolReuse.PooledClientsAreKeptAlive | internal/clientpool/pool.go:251-273 | with `WithKeepalive` every pooled client has had its keepalive started and keeps it until `Close`; without it none is started |
| PoolOutcomes.LeadersFailuresAreFresh | internal/clientpool/pool.go:168-194 | a call that executes for its subject never ends with the failure of a login execution that had left its group before the call began |
| PoolOutcomes.JoinedFailureIsFreshExactly | internal/clientpool/pool.go:149-194 | for a call that joins another's execution for its subject and is handed a failure: the failed login execution left its group no earlier than the call began if and only if, in the state in which it began, the call it would join was not there yet or did not yet depend on a finished execution |
| PoolStaleRun.StaleFailure | internal/clientpool/pool.go:149-194 | a run in which a call is handed a failure whose login execution had ended before the call began |
| PoolProbes.ProbesSpaced | internal/tools/ops.go:518-543 | the recorded starts of one account's real probes are at least the minimum interval apart under any concurrency |
| PoolProbes.ProbesPerWindow | internal/tools/ops.go:518-543 | a window of length W holds at most W/interval + 1 recorded starts |
| PoolProbes.LoginIsRecorded | internal/clientpool/pool.go:401-434 | where a probe's login starts, its time enters the history of logins, once, under the number of the probe in flight |
| PoolProbes.LoginsFollowTheirProbes | internal/tools/ops.go:518-543 | the login of a probe starts between its own recorded start and the next one |
| PoolProbes.SuccessiveLogins | internal/tools/ops.go:347-364 | the gap between two successive logins is no shorter than from the first to the second probe's recorded start, and falls short of the interval by no more than the first probe waited |
| PoolLogins.IntervalIsSettled | internal/tools/ops.go:347-364 | once a probe has recorded its start, its login is a full interval after every earlier one in every continuation if and only if the previous probe had no login or its login started a full interval ago |
| PoolLogins.LoginCanStartNow | internal/clientpool/pool.go:401-434 | from every state that keeps the invariant, a probe on its way can start its login before any time passes, by steps of calls that have begun |
| PoolProbes.LoginsTwoApart | internal/tools/ops.go:347-364 | the logins of probes that are not successive keep the interval, once per probe in between, whatever they waited |
| PoolProbes.LoginsPerWindow | internal/tools/ops.go:347-364 | a window of length W holds at most W/interval + 2 real logins of self_check for one account |
| PoolCloseLogins.LoginsTooClose | internal/tools/ops.go:347-364 | a run in which a pooled login holds the mutex for 59 seconds and two logins of self_check start one second apart |
| PoolProbes.CachedAnswersWereYoung | internal/tools/ops.go:524-529 | an answer marked cached was younger than the interval when it was decided on, and a probe in flight is the latest recorded start |
| PoolAnswers.JoinedAnswerWasYoungExactly | internal/tools/ops.go:518-543 | a cached answer handed to a call that joined was younger than the interval when that call began if and only if the joined call was not then already about to leave with a cached answer that was older |
| PoolAnswers.OwnAnswerWasYoung | internal/tools/ops.go:518-543 | a cached answer that a call decides on itself was always younger than the interval when the call began |
| PoolLateAnswer.OldAnswer | internal/tools/ops.go:518-543 | a run in which a joiner is returned a cached answer that was older than the interval when the joiner began |
| PoolResults.ChecksAreAnswered | internal/tools/ops.go:518-543 | a probe and a self_check return no account exactly if the resolver has none; otherwise a probe tells how its own login ended and a self_check how the login of a probe of that account with that start ended |
| PoolCheckResults.CacheHoldsTheOutcome | internal/tools/ops.go:537-539 | the cached result is the outcome of the one login that belongs to the recorded start stored with it |
| PoolCheckResults.AnswerIsTheOutcome | internal/tools/ops.go:518-543 | and so is the result of every answer of self_check, whether its own probe's, a joined one's or a cached one |
| PoolLiveness.NoDeadlock | internal/clientpool/pool.go:401-434 | from every reachable state with an unfinished call some call can step |
| PoolLiveness.BlockerIsCloser | internal/clientpool/pool.go:217-232 | whoever a blocked call waits for is unfinished and strictly lower in the order groups, account, login mutex |
| PoolLiveness.CallsFinish | internal/tools/ops.go:518-543 | the calls that have begun take a bounded number of steps however interleaved, and when none can step all have returned |
| PoolSections.Pool.AccountLock | internal/clientpool/pool.go:322-334 | hands out the account's one mutex, created on first use, leaves every other entry alone, and is the protocol's step |
| PoolSections.Pool.Publish | internal/clientpool/pool.go:261-272 | inserts the client, stops its own keepalive exactly if the pool is closed, and ends where the protocol's steps end |
| PoolSections.Pool.Close | internal/clientpool/pool.go:279-291 | closes the pool, stops the keepalives of exactly the clients in the map, and ends where the protocol's steps end, whatever order these take |
| IssuedSpec.RunAgrees | internal/issued/issued.go:318-343 | after every run the bucket is what cap and TTL leave of the unbounded history of recordings |
| IssuedSpec.BucketIsBounded | internal/issued/issued.go:335-356 | after every run a bucket that holds anything is no larger than the setting `maxPerIdentity`, so that a setting of zero or less leaves it empty; its times are those of the last recordings; an ID it lacks is expired or was followed by that many others |
| IssuedSpec.HistoryIsExact | internal/issued/issued.go:318-333 | the history holds exactly the non-empty IDs that a call recorded for the subject, each with the time of the last such call |
| IssuedSpec.CheckRefinesHistory | internal/issued/issued.go:441-498 | two sides, in the two settings themselves: what passes was recorded at most `ttl` ago, with `ttl` positive, and fewer than `maxPerIdentity` others strictly later; what is that young with fewer than `maxPerIdentity` others at the same time or later passes |
| IssuedSpec.CheckIsExact | internal/issued/issued.go:441-498 | with distinct recording times `Check` passes if and only if `ttl` is positive, the ID was recorded at most `ttl` ago, and fewer than `maxPerIdentity` others were recorded later |
| IssuedSpec.TiesAreOpen | internal/issued/issued.go:369-380 | with equal times either survivor is possible, so the gap between the two sides is real |
| IssuedErasure.EraseRun | internal/issued/issued.go:318-343 | wherever a run leads, a run of the subject's own recordings alone can lead as well, as far as the subject's unexpired entries go, with the map order free at every eviction |
| IssuedErasure.InsertRun | internal/issued/issued.go:318-343 | and wherever those alone lead, a run with all checks and all other subjects' operations inserted can lead |
| IssuedErasure.ChecksAndOthersAreInvisible | internal/issued/issued.go:400-463 | if a subject made the same recordings in two histories, then for every run of the first there is one of the second that gives it the same answer for every ID |
| IssuedRanking.KeepTrims | internal/issued/issued.go:335-343 | for every ranking of IDs, keeping the newest max entries is an outcome the eviction loop allows |
| IssuedRanking.RunIsARun | internal/issued/issued.go:318-343 | with ties broken by a fixed ranking a history has one outcome, which is that of a run of the store |
| IssuedRanking.FixedOrderErasure | internal/issued/issued.go:400-463 | with ties broken by a fixed ranking, two histories with the same recordings of a subject answer it alike |
| IssuedStore.EvictionCandidate | internal/issued/issued.go:369-380 | an entry with the smallest recording time, or "" for an empty bucket |
| IssuedStore.Evict | internal/issued/issued.go:335-342 | leaves at most max entries, none of those evicted newer than one that stays, and counts them |
| IssuedStore.Store.constructor | internal/issued/issued.go:157-165 | an empty store with the given limits |
| IssuedStore.Store.RecordLocked | internal/issued/issued.go:318-356 | stamps the non-empty IDs, trims to the setting `maxPerIdentity` (to nothing if it is negative) and only then evicts, touches no other subject, returns the number evicted |
| IssuedStore.Store.Record | internal/issued/issued.go:276-304 | the same through the nil store and for a caller without an identity, which record nothing |
| IssuedStore.Store.Check | internal/issued/issued.go:441-463 | the answer, and the deletion of exactly an entry found expired: an ID that passes changes nothing, one that is refused is not in the bucket afterwards |
| ToolRecords.GetFromService | internal/tools/read_generic.go:639-653 | records the requested ID if and only if the get succeeds, framing included |
| ToolRecords.DocumentFromService | internal/tools/read.go:904-918 | the same for a document, whose own ID field and tag IDs go into the answer |
| ToolRecords.BoxFromService | internal/tools/read_boxes.go:254-262 | the same for a box and its document IDs |
| ToolRecords.OnlyTheNamedID | internal/tools/read.go:868-903 | whatever is replied, no bucket gains or renews an ID other than the one named in the call: not a differing ID field, not a nested ID |
| ToolRecords.ReadLimited | internal/tools/read_binary.go:137-147 | the whole body or an error, never a truncated one; too large is told apart from a failed read |
| ToolRecords.DocumentPDFFromService | internal/tools/read_binary.go:254-272 | records only after the whole PDF was read within the limit |
| ToolRecords.ListFromService | internal/tools/read_generic.go:526-551 | returns every row, or an error exactly when the service failed or foreign text could not be framed, and has no store to record into |
| ToolRecords.Handle | internal/tools/read_generic.go:565-586 | a handler ends as `Outcome` says of the call's data, in every case, and records the named ID exactly when that is success |
| ToolRecords.SucceedsExactly | internal/tools/read_binary.go:214-272 | a call succeeds if and only if its ID is not blank, the mode is one of three, a client is found, the service replies, foreign text in the reply can be framed, and a PDF arrives whole within 8 MiB |
| ToolRecords.ErrorsInOrder | internal/tools/read.go:830-849 | each error has its exact condition: the input is judged before a client is looked for, and that before anything is fetched |
| ToolRecords.Serve | internal/tools/read.go:830-849 | any list of tool calls and questions, run through the handlers and `Check` on an empty store: every call ends as its data say, the store goes through a run of the operations read off the events, every question is answered by the store as it then is, and every ID accepted was fetched before by that subject |
| ToolRecords.AcceptedIDsWereFetched | internal/issued/issued.go:276-343 | an ID that passes `Check` was named by a single-entity get which the same subject completed without error at most `ttl` ago |
| ToolRecords.FetchedIDPasses | internal/issued/issued.go:500-521 | the way out the refusal names: an ID just fetched, later than everything before, passes for the next `ttl` |
| TokenBucket.GrantedExactlyWhenItFits | internal/server/ratelimit.go:129-135 | a bucket grants a request if and only if afterwards every window up to now holds at most burst plus rate times its length |
| TokenBucket.TightestRoom | internal/server/ratelimit.go:83-91 | the tokens left equal the room of the tightest window of past grants |
| ToolLimiter.ToolCallLimiter.constructor | internal/server/ratelimit.go:83-91 | full buckets, no running calls |
| ToolLimiter.ToolCallLimiter.LimiterFor | internal/server/ratelimit.go:99-108 | one bucket per subject, full when first asked for, the others untouched |
| ToolLimiter.ToolCallLimiter.Acquire | internal/server/ratelimit.go:129-140 | the three gates in order, each refusal with its kind and with what the earlier gates took |
| ToolLimiter.ToolCallLimiter.Middleware | internal/server/ratelimit.go:158-186 | only tools/call is limited; an uninterrupted call gives its slot back |
| LimiterRuns.AcquireIsARun | internal/server/ratelimit.go:129-140 | an uninterrupted acquire is the run of its three gates, with the same state and the same refusal |
| LimiterRuns.GlobalWindow | internal/server/ratelimit.go:129-140 | over every interleaving, the calls admitted in a window of length w are at most burst + rate * w |
| LimiterRuns.SubjectWindow | internal/server/ratelimit.go:99-108 | the same per subject, by the subject's own limit |
| LimiterRuns.SlotsAreRunningCalls | internal/server/ratelimit.go:136-140 | slots taken equal the running calls, at most `MaxInflight`; a slot is refused exactly when all are taken |
| LimiterRuns.ReleasedOnce | internal/server/ratelimit.go:179-185 | an ended call has released once, any other call never |
| LimiterRuns.GatesAreExact | internal/server/ratelimit.go:129-135 | a call passes a rate gate if and only if the windows allow it, those of all passes at the first gate, of its own subject's alone at the second |
| LimiterRuns.RefusedCallsSpentTheirToken | internal/server/ratelimit.go:129-135 | the passes at the global gate are those of every call not refused by it, whatever became of the call later |
| LimiterRuns.SubjectsDoNotInterfere | internal/server/ratelimit.go:99-108 | another subject's calls change neither a subject's bucket nor its history |
| Framing.FramingIsParseable | internal/tools/read.go:646-667 | the first closing tag is the block's last line, and the framed text is recovered exactly, if and only if that tag does not occur in the text |
| Framing.BlockDetermines | internal/tools/read.go:646-667 | the opening tag names the boundary, and two blocks are equal if and only if boundary and text are, whatever the text |
| Framing.OpenTagFirst | internal/tools/read_generic.go:727-737 | behind a prefix without '<' the first opening tag is the block's own, however many the body forges |
| UntrustedResults.CollectNonBlank | internal/tools/read_generic.go:673-680 | the lines that carry text, in order |
| UntrustedResults.NonBlankExactly | internal/tools/read_generic.go:673-680 | these are the lines at the increasing positions of exactly those that are not blank |
| UntrustedResults.NewUntrustedBoundary | internal/tools/read.go:634-640 | 32 hexadecimal characters, or an error |
| UntrustedResults.BoundariesDiffer | internal/tools/read.go:634-640 | two boundaries are equal only if all the random bytes behind them are, so nothing of their randomness is lost |
| UntrustedResults.WrapUntrustedLines | internal/tools/read_generic.go:673-688 | frames the non-blank lines; no frame and no boundary when there are none; fails exactly on a boundary error that matters |
| UntrustedResults.WrapUntrustedLinesWithBoundary | internal/tools/read_generic.go:774-786 | the same with a given boundary |
| UntrustedResults.EscapeReplaces | internal/tools/read.go:593-599 | an escaped title is the title's lines, unchanged, with a backslash and an n in place of each line break |
| UntrustedResults.RowIsReadable | internal/tools/read.go:593-599 | a row's line begins with its ID, and two rows have one line if and only if they agree in ID and escaped title |
| UntrustedResults.ListIsReadable | internal/tools/read.go:484-505 | the lines of a list are one for each row, in order, and tell the rows' IDs and escaped titles |
| UntrustedResults.SummaryTells | internal/tools/read.go:606-608 | the summary tells the number returned, first, and the total |
| Text.DecimalReadsBack | internal/tools/read.go:607-607 | a number is written in digits with its own value |
| UntrustedResults.AttachUntrustedStructured | internal/tools/read_generic.go:727-746 | moves exactly the framed part into the field and keeps the original text as second block; changes nothing when there is no frame |
| UntrustedResults.FramedPartOfLines | internal/tools/read_generic.go:774-786 | what it finds in a wrapped result is the whole block |
| UntrustedResults.FramedPartOfList | internal/tools/read.go:606-616 | what it finds in a rendered list is the block without the summary, whatever the titles |
| UntrustedResults.FrameLines | internal/tools/read_generic.go:774-786 | wrapping and attaching together: the field is the block, and its text is recovered if and only if the closing tag is not in it |
| UntrustedResults.ListDocumentsResult | internal/tools/read.go:484-505 | every row gets a line, the field is the framed block alone, the second block the summary followed by it |
| Redaction.FragmentAnywhere | internal/diag/diag.go:188-196 | a key in which a forbidden fragment is spelt out, in any mixture of cases and whatever stands before and after it, is forbidden |
| Redaction.ForbiddenExactly | internal/diag/diag.go:188-196 | a key is forbidden if and only if a listed fragment is spelt out in it, each letter as it is or as its capital, with the Kelvin sign for k and the dotted capital I for i |
| Redaction.RedactIsLow | internal/diag/diag.go:170-184 | two attributes are redacted alike if and only if they differ only at or below forbidden keys |
| Redaction.Noninterference | internal/diag/diag.go:135-164 | through any chain of With and WithGroup and any record, the base handler's input is equal if and only if the originals differ only at or below forbidden keys, or in groups with nothing to show |
| Redaction.LinesAreMaskedExactly | internal/diag/diag.go:135-184 | values with no forbidden key on their path arrive unchanged and in order; all else that arrives is a mask at the first forbidden key; level and message arrive as they are |
| SizeLimits.MaxRequestBodyBytesFor | internal/config/config.go:862-881 | min(MaxInt64, floor(4n/3) + 65536) for every n, no intermediate value leaving 64 bits |
| SizeLimits.Base64EncodedLenFor | internal/tools/write_documents.go:224-233 | min(MaxInt64, 4 * ceil(n/3)), likewise |
| SizeLimits.BodyLimitCoversUpload | internal/config/config.go:862-881 | the body limit is monotone and never below the encoded upload limit |
| SizeLimits.GateIsExact | internal/tools/write_documents.go:287-311 | without line breaks the gates accept exactly the valid strings within the limit, for every limit; with them exactly those whose whole length passes as well |
| SizeLimits.RefusalsAreExact | internal/tools/write_documents.go:287-311 | each of the three refusals has its exact condition on the length, the decoding and the decoded length |
| SizeLimits.RefusedByLengthAlone | internal/tools/write_documents.go:195-233 | content within the limit is refused by length exactly when its line breaks exceed the slack of the encoded limit |
| SizeLimits.LineBreaksCanRefuse | internal/tools/write_documents.go:287-292 | four line breaks before three bytes, at a limit of three, are refused |
| SizeLimits.EveryContentFits | internal/tools/write_documents.go:195-233 | any content up to the limit is accepted once encoded, comes out unchanged, and fits the body limit |
| Base64.RoundTrip | internal/tools/write_documents.go:294-299 | decoding an encoding gives the bytes back, and its length is the formula's |
| Base64.SextetsAreTheNumber | internal/tools/write_documents.go:294-299 | four letters' values and the three bytes they decode to are one number, most significant first |
| Base64.BreaksAreSkipped | internal/tools/write_documents.go:294-299 | a line break anywhere changes nothing about what is decoded |
| Base64.DecodableIffPadded | internal/tools/write_documents.go:294-299 | exactly the padded strings of RFC 4648 section 4 decode, left-over bits ignored |
| ConfigLists.SplitListe | internal/config/config.go:792-800 | the trimmed non-empty parts, in order |
| ConfigLists.ListsHoldItems | internal/config/config.go:792-800 | no list holds an empty entry, one with a comma or one with space around it |
| ConfigLists.ListRoundTrip | internal/config/config.go:792-800 | a joined list of such entries is read back as it was |
| ConfigLists.TrimTakesOffSpace | internal/config/config.go:792-800 | space on both sides of an item is taken off, and nothing else |
| ConfigLists.WrittenListIsRead | internal/config/config.go:792-800 | however a list is spaced out, and whatever blank entries it has, its items are read in order |
| AccountConfig.CheckKey | internal/config/config.go:744-770 | passes a key exactly as it should be, and otherwise names what is wrong with the environment |
| AccountConfig.LoadAccounts | internal/config/config.go:741-783 | accounts in order of the keys, index exact, or a justified error |
| AccountConfig.LadeKonten | internal/config/config.go:704-783 | accepts if and only if the environment is well-formed, with exactly its accounts and assignments; every error is justified. What these accounts and conditions are, variable by variable, is `AccountIndex` |
| AccountIndex.BuildResolver | internal/server/server.go:388-408 | builds if and only if no subject is assigned twice (and single mode has one account), with exactly the assignments |
| AccountIndex.MultiAgrees | internal/config/config.go:704-783 | whatever loads in multi mode also builds, and for every subject: index says account k, list k names the subject, and the resolver gives k's credentials, or none and no account |
| AccountIndex.SingleAgrees | internal/server/server.go:388-408 | in single mode it builds, and then agrees, if and only if the allowlist has no repeated entry |
| AccountIndex.RepeatedEntryLoadsButDoesNotBuild | internal/server/server.go:398-402 | the allowlist "a,a" loads with any login, and no resolver comes of it |
| AccountIndex.ResolverAnswers | internal/accounts/accounts.go:68-96 | a subject in account k's list gets k's credentials |
| AccountIndex.MultiGivesOwnCredentials | internal/config/config.go:741-782 | from the environment to the caller: a subject in the list of `FILEEE_ACCOUNT_<KEY>_SUBJECTS` is given exactly the user name, password and TOTP seed of that account's own variables, and the index names that key |
| AccountIndex.MultiGivesNothingElse | internal/server/server.go:388-408 | and whoever is given credentials is in such a list and given those of its account |
| AccountIndex.SingleGivesTheLogin | internal/config/config.go:707-725 | in single mode exactly the subjects of the allowlist are given the credentials of `FILEEE_USERNAME`, `FILEEE_PASSWORD` and `FILEEE_TOTP_SEED` |
| AccountIndex.MultiLoadsExactly | internal/config/config.go:727-782 | multi mode loads if and only if it is not combined with a static token, names accounts, each key is proper and has both variables of a login, no two keys differ at most in hyphen against underscore, and no subject has two places |
| AccountIndex.AccountsReadTheirOwnVariables | internal/config/config.go:754-767 | two accounts that load together never read the same variable |
| AccountIndex.PrefixesClashExactly | internal/config/config.go:754-759 | two keys read the same variables exactly if they differ at most in hyphen against underscore |

## Left out

- Mutexes and memory: every critical section is one step; data races inside one are not modelled.
- singleflight's own code: at most one execution per key, a joiner gets that execution's outcome. Panics, Goexit, cancelled contexts and `Forget` are not modelled.
- The resolver is an unchanging map from subjects to user names; a resolver error and an empty user name are one outcome.
- ToolRecords.Handle: what list, search and sync tools check of their own parameters (cursors, filters, document IDs) is not modelled; whatever they end in, they have no store to record into.
- UntrustedResults.ListIsReadable: asks for IDs without line breaks, which Fileee assigns; the code escapes titles only.
- go-fileee: building a client succeeds or fails, `EnsureSession` ends in success, rejection or no answer; fetches return an abstract result.
- Account status, whoami, session files and `ResolveAccountKey`: easy members.
- self_check's output text beyond its three outcomes.
- The clock never runs backwards, in the pool, the store and the limiter. The library bucket reads the clock before it takes its lock, so that two readings can in fact be handled in reverse; floating point rounding, infinite rates and NaN are not modelled either.
- UntrustedResults.NewUntrustedBoundary: does not model that nobody can predict the boundary, because the random bytes are a parameter; that they all show in it is `BoundariesDiffer`.
- The prose of the framing template stands for any two texts without '<'; the tags, the line breaks and the places of the boundary are exact.
- `attachUntrustedStructured` clears the field before it marshals; every caller passes an output whose field is still empty, so that this shows only in the function itself.
- TTL conversion: seconds are turned into a duration without saturation in `internal/server/server.go`; the model starts from the duration.
- Subtraction of times saturates in Go after some 292 years; here it does not.
- Map order is an arbitrary choice at every eviction; only `IssuedRanking` fixes it, to an arbitrary ranking of IDs.
- `GetDocumentPDF`'s and other handlers' output formatting, and JSON: marshalled text is a parameter.
- `%q` and `strconv.Quote`: exact for the hexadecimal boundary, a parameter for titles.
- Unicode: strings are sequences of characters, not bytes in UTF-8; lower case is exact where the result is an ASCII letter. `contentBase64` is read as one character per byte.
- slog: levels, formatting, the limit on nested LogValuers and panics in them.
- Names given to WithGroup are not tested by the code; the theorems say so by looking at attribute keys only.
- HTTP, OIDC, MCP sessions, schemas, the write tools besides the upload gates, cursors, patch helpers, provider URLs and the rest of the environment.
- AccountConfig.LadeKonten: `FILEEE_MODE` and `MCP_AUTH_MODE` are taken as parsed, and upper case is exact for proper keys only, which is where it is used.
