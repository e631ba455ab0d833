# Sober front end: a verified model of its control logic

Sober is a browser front end for sobriety journeys recorded on a chain with
homomorphic encryption (FHE). A user starts a journey, records daily progress
as an encrypted value, decrypts their own progress count and claims badges.
The cryptography lives in SDKs the front end only calls. This project models
the logic around those calls and proves properties of it:

- the journey hook (`useSoberJourneyFHE`) as a class over its React state
  slots (`message`, `isDecrypting`, `isRecording`, `handle`, `clear`,
  `progressLogs`). Its callbacks are methods: reading the encrypted handle,
  rebuilding the progress history (filter by journey and signer, then a stable
  sort by block), decrypting, and recording progress with one
  refresh-and-retry on a relayer fault;
- the relayer SDK loader, as a class over the document's script tags, the
  cached SDK on the window and the shared loading promise (local bundle first,
  then the CDN; never a second tag per source; a single flight that is never
  reset);
- the chain-id to contract-address lookups;
- the new-journey page: its uploads, the time window, the submission, and
  the search for the new journey's id in the receipt or at the receipt's
  block;
- the journey list: the `JourneyStarted` logs turned into items and reversed
  in place;
- the rewards page: the check-in count, the claim buttons, and badge flags
  set only once a claim is confirmed;
- the Pinata helper: the choice of credentials and the handling of the
  response.

Every call to the outside world goes through `Backend.Chain`. This class keeps
a log of the calls made, and each call's answer comes from a `Script` indexed
by the call's position in the log. Any sequence of answers, including
failures, can therefore be expressed. Each state-changing method is proved
equal to a pure specification function (`RefreshSpec`, `DecryptSpec`,
`RecordSpec`, `CreateSpec`, `LoadSpec`, `ClaimSpec`, ...). It returns the new
state, the calls made and what was thrown. The lemmas prove the source's
promises about those functions.

Where the documentation and the code differ, the model follows the code:

- The retry matches the literal text "Relayer didn't response correctly",
  with its grammar error. The correctly spelled message is not matched
  (`CorrectlySpelledMessageIsNotMatched`).
- Re-reading the handle does not reset `clear`. A decrypted value stays shown
  after the handle changes (`RefreshOnlyReads`).
- The hook returns `isDecrypted` as `typeof clear !== "undefined"`
  (`useSoberJourneyFHE.tsx:205`). The `isDecrypted` constant computed at
  line 33, which also compares handles, is never used.

## Model

| member | source | states |
|---|---|---|
| Addresses.SepoliaOrZero | frontend/config/addresses.ts:8-14 | the Sepolia result always starts with "0x"; it is the variable exactly when that is set and starts with "0x", and otherwise it is the zero address |
| Addresses.SoberJourneyAddress | frontend/config/addresses.ts:1-16 | a falsy chain id gives none; 31337 gives the local variable unchanged (possibly unset); 11155111 gives the Sepolia variable when it starts with "0x" and the zero address otherwise; only those two chains give an address |
| Addresses.BadgeAddress | frontend/config/addresses.ts:18-30 | the same cases over the badge variables, with the zero address as the Sepolia fallback |
| Addresses.BadgeMirrorsJourney | frontend/config/addresses.ts:18-30 | the badge lookup equals the journey lookup applied to the badge variables |
| Addresses.OnlyKnownChainsHaveAddresses | frontend/config/addresses.ts:15 | every chain other than 31337 and 11155111 maps to no address for both lookups |
| Pinata.Or | frontend/utils/pinata.ts:13-14 | `a \|\| b`: the option when it is truthy, else the environment value |
| Pinata.SelectHeaders | frontend/utils/pinata.ts:13-33 | API-key headers with both values trimmed iff both untrimmed values are truthy; otherwise Bearer headers with the trimmed token iff it is non-empty; otherwise the missing-credentials error (exactly when the JWT is unset or all whitespace) |
| Pinata.OptionsTakePriority | frontend/utils/pinata.ts:13-22 | an API key and secret given in the options decide the headers whatever the environment holds |
| Pinata.EnvKeyPairBeatsOptionsToken | frontend/utils/pinata.ts:13-25 | the choice is per credential: with no key pair in the options, a key pair in the environment wins over a token in the options |
| Pinata.BlankKeyPairIsStillChosen | frontend/utils/pinata.ts:18-22 | the key-pair test is on untrimmed strings: a blank pair beats a usable JWT and is sent as two empty values |
| Pinata.FailureMessage | frontend/utils/pinata.ts:43-51 | the error text starts with "Pinata upload failed: " followed by the status and a space |
| Pinata.HandleResponse | frontend/utils/pinata.ts:42-55 | a non-ok response throws the failure message; an ok one gives `IpfsHash` as the cid, or the error from reading or parsing the body |
| Pinata.FailedUploadNamesStatus | frontend/utils/pinata.ts:42-51 | every non-ok response fails with an `Error` whose message starts with the prefix and the status |
| JsErrors.AsString | frontend/app/journeys/new/page.tsx:113 | `String(e)`: "name: message" for an `Error`, the name alone when the message is empty, the message alone when the name is empty, the rendering of any other value |
| JsErrors.MessageOrString | frontend/hooks/useSoberJourneyFHE.tsx:171 | `String(e?.message \|\| e)`: the message when non-empty, else `String(e)` |
| JourneySession.IsTransientFault | frontend/hooks/useSoberJourneyFHE.tsx:173 | the retry test: either relayer text occurs in the message (stated by `TransientFaultIffOccurs`) |
| JourneySession.TransientFaultIffOccurs | frontend/hooks/useSoberJourneyFHE.tsx:173 | the retry test holds exactly when one of the two relayer texts starts at some position of the message |
| Text.ContainsIffWindow | frontend/hooks/useSoberJourneyFHE.tsx:173 | `includes` holds exactly when the pattern occurs at some offset |
| Text.ContainsInfix | frontend/hooks/useSoberJourneyFHE.tsx:173 | a text that has the pattern inside it contains the pattern |
| Text.TrimStart | frontend/utils/pinata.ts:20-21 | removes exactly the leading JavaScript whitespace |
| Text.TrimEnd | frontend/utils/pinata.ts:20-21 | removes exactly the trailing JavaScript whitespace |
| Text.TrimIsWindow | frontend/utils/pinata.ts:26 | `trim()` is a contiguous slice with only whitespace trimmed away on either side, and it starts and ends with a non-whitespace character |
| Text.TrimEmptyIffBlank | frontend/utils/pinata.ts:26-27 | the trimmed token is empty exactly when the input is all whitespace |
| Text.TrimIdempotent | frontend/utils/pinata.ts:26 | trimming twice is trimming once |
| Text.ToLower | frontend/hooks/useSoberJourneyFHE.tsx:102 | `toLowerCase` keeps the length and lowers each ASCII letter |
| Text.SameAddressIsEquivalence | frontend/hooks/useSoberJourneyFHE.tsx:102 | the case-insensitive address comparison is reflexive, symmetric and transitive |
| Text.CaseOnlyDifference | frontend/hooks/useSoberJourneyFHE.tsx:102 | addresses differing only in letter case are the same participant |
| Text.NatToString | frontend/utils/pinata.ts:44 | the decimal rendering of the status is non-empty, all digits, with a leading zero only for 0 |
| Text.NatToStringValue | frontend/utils/pinata.ts:44 | the digits printed for a number denote that number |
| Text.NatToStringInjective | frontend/utils/pinata.ts:44 | different numbers print differently |
| Text.IntToString | frontend/hooks/useSoberJourneyFHE.tsx:142 | the rendering of a decrypted number is "-" followed by the digits of its magnitude for negatives and the digits alone otherwise, and those digits denote the magnitude |
| ProgressHistory.Collect | frontend/hooks/useSoberJourneyFHE.tsx:95-112 | the map-then-filter keeps at most as many records as there were logs |
| ProgressHistory.Matches | frontend/hooks/useSoberJourneyFHE.tsx:98-102 | the per-log test: the log decodes to `ProgressRecorded` (see `CollectMembership` under "Left out") for the current journey and, up to letter case, the signer (stated by `CollectMembership`) |
| ProgressHistory.RecordOf | frontend/hooks/useSoberJourneyFHE.tsx:103-109 | the entry built from a log (stated by `ProjectedRecord`) |
| ProgressHistory.Project | frontend/hooks/useSoberJourneyFHE.tsx:96-111 | the `map` callback: a record or `undefined` (stated by `ProjectedRecord`) |
| ProgressHistory.ProjectedRecord | frontend/hooks/useSoberJourneyFHE.tsx:96-111 | a log gives a record exactly when it matches; the record carries the log's hash and block and the event's fields unchanged, the participant in its own letter case and equal to the signer up to case |
| ProgressHistory.CollectMembership | frontend/hooks/useSoberJourneyFHE.tsx:95-112 | a record is collected iff some log decodes to `ProgressRecorded` with the current journey id and the signer as participant (case-insensitively) and yields it; logs whose decoding throws or gives null are skipped |
| ProgressHistory.InsertKeepsOrder | frontend/hooks/useSoberJourneyFHE.tsx:113 | inserting a record into a block-sorted sequence keeps it block-sorted |
| ProgressHistory.SortByBlockSpec | frontend/hooks/useSoberJourneyFHE.tsx:113 | the sort orders by ascending block and is a permutation of its input |
| ProgressHistory.SortIsStable | frontend/hooks/useSoberJourneyFHE.tsx:113 | within each block the sorted records keep their input order |
| ProgressHistory.StableSortIsUnique | frontend/hooks/useSoberJourneyFHE.tsx:113 | two block-sorted sequences that agree block by block are equal, so the model's sort gives what any stable sort gives |
| ProgressHistory.HistoryIsSortedCollect | frontend/hooks/useSoberJourneyFHE.tsx:95-113 | the history is the filtered records, stably sorted by block |
| ProgressHistory.HistorySpecification | frontend/hooks/useSoberJourneyFHE.tsx:95-114 | the history has at most as many entries as logs, is sorted by block, holds exactly the records of matching logs, and keeps query order within a block |
| ProgressHistory.HistoryExcludesOthers | frontend/hooks/useSoberJourneyFHE.tsx:101-102 | no record of another participant appears |
| JourneySession.RefreshCalls | frontend/hooks/useSoberJourneyFHE.tsx:176 | `refreshFhevm?.()` makes one call with a hook and none without |
| JourneySession.CanWrite | frontend/hooks/useSoberJourneyFHE.tsx:35 | `canWrite`: an address, an instance and a signer (stated by `WriteFlagsMatchGuards`) |
| JourneySession.CanRead | frontend/hooks/useSoberJourneyFHE.tsx:36 | `canRead`: an address and a read-only provider (stated by `ReadFlagMatchesGuards`) |
| JourneySession.CanDecrypt | frontend/hooks/useSoberJourneyFHE.tsx:37 | `canDecrypt`: `canWrite`, a handle and no decryption running (stated by `WriteFlagsMatchGuards`) |
| JourneySession.CanReadAsSigner | frontend/hooks/useSoberJourneyFHE.tsx:48-52 | the `contractRO && ethersSigner` guard of the two reads (stated by `ReadFlagMatchesGuards`) |
| JourneySession.WriteFlagsMatchGuards | frontend/hooks/useSoberJourneyFHE.tsx:35-37 | `canWrite` holds exactly when `recordProgress` would make calls; `canDecrypt` holds exactly when `decryptProgressDays` would make calls and no decryption is running |
| JourneySession.ReadFlagMatchesGuards | frontend/hooks/useSoberJourneyFHE.tsx:36 | `canRead` with a signer holds exactly when the handle read and the history read make calls |
| JourneySession.HoldsClear | frontend/hooks/useSoberJourneyFHE.tsx:205 | `isDecrypted`: a clear value is held (stated by `IsDecryptedFollowsDecryption`) |
| JourneySession.IsDecryptedFollowsDecryption | frontend/hooks/useSoberJourneyFHE.tsx:205 | only decryption moves `isDecrypted`: a successful one sets it exactly when the answer has an entry for the handle; every other outcome, the reads and `recordProgress` leave it as it was |
| JourneySession.RefreshSpec | frontend/hooks/useSoberJourneyFHE.tsx:75-86 | the effect of `refreshEncryptedProgressDays` (stated by `RefreshOnlyReads`) |
| JourneySession.HistorySpec | frontend/hooks/useSoberJourneyFHE.tsx:88-118 | the effect of `loadProgressHistory` (stated by `HistoryOnlyReads`) |
| JourneySession.DecryptSpec | frontend/hooks/useSoberJourneyFHE.tsx:120-144 | the effect of `decryptProgressDays` (stated by the `Decrypt...` lemmas) |
| JourneySession.AttemptSpec | frontend/hooks/useSoberJourneyFHE.tsx:147-163 | the effect of one `tryOnce` (stated by the `Attempt...` lemmas) |
| JourneySession.RecordSpec | frontend/hooks/useSoberJourneyFHE.tsx:146-190 | the effect of `recordProgress` (stated by the `Record...` lemmas) |
| JourneySession.AttemptsThenCatch | frontend/hooks/useSoberJourneyFHE.tsx:168-186 | the attempts are the first attempt, then on a throw the `catch` from where it stopped |
| JourneySession.TransientFaultsRecognised | frontend/hooks/useSoberJourneyFHE.tsx:173 | either relayer substring anywhere in the message makes it a retryable fault |
| JourneySession.CorrectlySpelledMessageIsNotMatched | frontend/hooks/useSoberJourneyFHE.tsx:173 | "Relayer didn't respond correctly" is not recognised: the literal match includes the source's misspelling |
| JourneySession.RefreshOnlyReads | frontend/hooks/useSoberJourneyFHE.tsx:75-86 | re-reading the handle never throws, only reads, changes only `message` and `handle`, replaces the handle only with what the node returned for the signer and journey, and calls nothing without a provider and a signer |
| JourneySession.HistoryOnlyReads | frontend/hooks/useSoberJourneyFHE.tsx:88-118 | rebuilding the history never throws, only reads, changes only `message` and `progressLogs`, and either keeps the list or replaces it with the projection of the queried logs |
| JourneySession.AttemptStopsEarly | frontend/hooks/useSoberJourneyFHE.tsx:147-159 | an attempt that does not get its receipt changes no state, throws exactly when it ran, and makes at most its first four calls |
| JourneySession.AttemptGetsReceipt | frontend/hooks/useSoberJourneyFHE.tsx:147-163 | an attempt that gets its receipt does not throw, only reads after its fourth call, and changes only the message, the handle and the history |
| JourneySession.SubmitReaches | frontend/hooks/useSoberJourneyFHE.tsx:148-159 | up to the receipt the calls are: the address, the encryption of [1] for the contract and the signer, `recordProgress(journeyId, reportCID ?? "", handle, proof)`, then `wait` |
| JourneySession.ReloadOnlyReads | frontend/hooks/useSoberJourneyFHE.tsx:161-162 | the two reloads after the receipt never throw, only read, and change only the message, the handle and the history |
| JourneySession.AttemptCallsAt | frontend/hooks/useSoberJourneyFHE.tsx:147-163 | every call of an attempt is the expected one at its position, and anything beyond the fourth needs the receipt |
| JourneySession.AttemptCounts | frontend/hooks/useSoberJourneyFHE.tsx:147-163 | one attempt submits at most one transaction, builds at most one encrypted input, and never refreshes |
| JourneySession.AttemptEncryptsOne | frontend/hooks/useSoberJourneyFHE.tsx:150-162 | every encrypted input holds exactly the value 1 for the contract and the signer; the handle and the history are read only after the receipt |
| JourneySession.AttemptFrame | frontend/hooks/useSoberJourneyFHE.tsx:147-163 | a failed attempt changes no state; no attempt touches the busy flags or `clear` |
| JourneySession.AttemptAfterReceipt | frontend/hooks/useSoberJourneyFHE.tsx:147-163 | an attempt that gets its receipt is its four calls followed by the reload from the "Progress recorded" notice with the receipt's hash |
| JourneySession.RecoverFrame | frontend/hooks/useSoberJourneyFHE.tsx:168-186 | the `try`/`catch` never throws and keeps the busy flags and `clear` when its attempts do |
| JourneySession.AttemptsFrame | frontend/hooks/useSoberJourneyFHE.tsx:168-186 | the attempts never throw and keep the busy flags and `clear` |
| JourneySession.RecordNeverThrows | frontend/hooks/useSoberJourneyFHE.tsx:165-189 | `recordProgress` never throws, ends with `isRecording` false when it ran, keeps `isDecrypting` and `clear`, and does nothing without `canWrite` |
| JourneySession.RecordFailureMessages | frontend/hooks/useSoberJourneyFHE.tsx:170-186 | a failure that is not a relayer fault ends as "recordProgress failed: <msg>", and a failed retry as "recordProgress failed after refresh: <e>", with nothing else changed |
| JourneySession.RefreshCallsCount | frontend/hooks/useSoberJourneyFHE.tsx:176 | the refresh contributes one refresh call with a hook, and no transaction or encryption |
| JourneySession.AttemptsCalls | frontend/hooks/useSoberJourneyFHE.tsx:168-186 | the attempts' calls are the first attempt's calls, followed on a relayer fault by the refresh and the retry's calls |
| JourneySession.RecordCalls | frontend/hooks/useSoberJourneyFHE.tsx:165-190 | the calls of `recordProgress` are the first attempt's, then on a relayer fault the refresh and exactly one more attempt |
| JourneySession.RecordRefreshesOnlyOnFault | frontend/hooks/useSoberJourneyFHE.tsx:173-177 | the instance is refreshed once exactly when the first attempt threw a relayer fault and a hook was given, never otherwise |
| JourneySession.AttemptsRefreshes | frontend/hooks/useSoberJourneyFHE.tsx:168-183 | the attempts refresh once exactly on a relayer fault of the first attempt, given a hook |
| JourneySession.RecoverRefreshes | frontend/hooks/useSoberJourneyFHE.tsx:170-183 | the `catch` adds exactly the one refresh on a relayer fault to attempts that never refresh |
| JourneySession.RecordRetriesOnce | frontend/hooks/useSoberJourneyFHE.tsx:173-183 | on a relayer fault the second attempt starts right after the first attempt's calls and the refresh, begins with `getAddress`, and is the last thing done |
| JourneySession.AttemptsRetry | frontend/hooks/useSoberJourneyFHE.tsx:173-183 | after a relayer fault the calls are the first attempt's, the refresh, then the retry's, which begins with `getAddress` |
| JourneySession.AttemptStartsWithAddress | frontend/hooks/useSoberJourneyFHE.tsx:148-149 | an attempt that runs begins with `getAddress` |
| JourneySession.DecryptRunsIffReady | frontend/hooks/useSoberJourneyFHE.tsx:121 | decryption makes calls exactly when there are an instance, a signer, an address and a handle; otherwise it changes nothing |
| JourneySession.DecryptFrame | frontend/hooks/useSoberJourneyFHE.tsx:122-143 | once it ran `isDecrypting` is false whatever happened; handle, history and `isRecording` are untouched; it starts with `loadOrSign`; a rejection changes nothing else |
| JourneySession.DecryptWithoutSignature | frontend/hooks/useSoberJourneyFHE.tsx:130 | a null signature keeps `clear`, sets the signature notice, and decrypts nothing |
| JourneySession.DecryptSetsClear | frontend/hooks/useSoberJourneyFHE.tsx:131-142 | with a signature the handle is decrypted under it; no throw iff `userDecrypt` succeeds; then `clear` is `res[handle]` and the notice shows it |
| JourneySession.DecryptClearOnlyOnSuccess | frontend/hooks/useSoberJourneyFHE.tsx:141 | `clear` changes only through a successful decryption |
| JourneySession.SubmitProgress | frontend/hooks/useSoberJourneyFHE.tsx:148-159 | the method makes the calls of `Submit` and returns its receipt outcome |
| JourneySession.Session.constructor | frontend/hooks/useSoberJourneyFHE.tsx:25-42 | the first render: empty slots, the memoised address for the chain, and `journeyIdRef` starting at `journeyId ?? 1` |
| JourneySession.Session.Rerender | frontend/hooks/useSoberJourneyFHE.tsx:32-42 | a later render changes no state slot and moves the ref only to a truthy `journeyId` |
| JourneySession.Session.IsDecrypted | frontend/hooks/useSoberJourneyFHE.tsx:205 | `isDecrypted` of the current state, as `HoldsClear` |
| JourneySession.Session.RefreshEncryptedProgressDays | frontend/hooks/useSoberJourneyFHE.tsx:75-86 | the new state and calls are those of `RefreshSpec` |
| JourneySession.Session.LoadProgressHistory | frontend/hooks/useSoberJourneyFHE.tsx:88-118 | the new state and calls are those of `HistorySpec` |
| JourneySession.Session.DecryptProgressDays | frontend/hooks/useSoberJourneyFHE.tsx:120-144 | the new state, the calls and the rejection are those of `DecryptSpec` |
| JourneySession.Session.TryOnce | frontend/hooks/useSoberJourneyFHE.tsx:147-163 | one attempt, as `AttemptSpec` |
| JourneySession.Session.ReloadAfterReceipt | frontend/hooks/useSoberJourneyFHE.tsx:161-162 | the two reloads in sequence, as `Reload` |
| JourneySession.Session.Catch | frontend/hooks/useSoberJourneyFHE.tsx:170-186 | the `catch` clause, as `CatchSpec` |
| JourneySession.Session.RefreshAndRetry | frontend/hooks/useSoberJourneyFHE.tsx:174-183 | the refresh, whose failure is ignored, then the second attempt, whose failure becomes the notice |
| JourneySession.Session.Attempts | frontend/hooks/useSoberJourneyFHE.tsx:168-186 | the `try` and `catch`, as `AttemptsSpec` |
| JourneySession.Session.RecordProgress | frontend/hooks/useSoberJourneyFHE.tsx:146-190 | the new state and calls are those of `RecordSpec` |
| RelayerLoader.FindTag | frontend/fhevm/internal/RelayerSDKLoader.ts:10 | `querySelector` finds the first tag with that source, and finds nothing exactly when there is none |
| RelayerLoader.WithTag | frontend/fhevm/internal/RelayerSDKLoader.ts:10-31 | the tags already present are kept; afterwards a tag for the source exists; one fresh unloaded tag is appended exactly when none existed |
| RelayerLoader.MarkSettled | frontend/fhevm/internal/RelayerSDKLoader.ts:26-30 | the event's tag becomes settled, marked loaded exactly on `load`; every other tag is unchanged, and no source or tag count changes |
| RelayerLoader.Finished | frontend/fhevm/internal/RelayerSDKLoader.ts:52-57 | the sequence ends with the bundle as the SDK, or with the missing-bundle error exactly when there is no bundle |
| RelayerLoader.WithTagKeepsSrcsUnique | frontend/fhevm/internal/RelayerSDKLoader.ts:10-31 | `loadScript` never adds a second tag for a source |
| RelayerLoader.WithTagIdempotent | frontend/fhevm/internal/RelayerSDKLoader.ts:10-20 | loading a source that already has its tag changes no tag |
| RelayerLoader.MarkSettledKeepsSrcs | frontend/fhevm/internal/RelayerSDKLoader.ts:26-30 | an event keeps the sources unique and each source's tag where it was |
| RelayerLoader.FindTagInPrefix | frontend/fhevm/internal/RelayerSDKLoader.ts:31 | appending tags does not move a tag that was already found |
| RelayerLoader.MarkSettledFits | frontend/fhevm/internal/RelayerSDKLoader.ts:26-30 | an event on a tag the sequence does not wait for keeps the loader's invariant on the tags |
| RelayerLoader.Flight.constructor | frontend/fhevm/internal/RelayerSDKLoader.ts:45-48 | a new loading promise first waits for the local bundle |
| RelayerLoader.Loader.constructor | frontend/fhevm/internal/RelayerSDKLoader.ts:35 | a page starts with no loading promise and its given tags and cached SDK, and satisfies the invariant |
| RelayerLoader.Loader.LoadScript | frontend/fhevm/internal/RelayerSDKLoader.ts:4-33 | rejects outside a browser; else the tags become `WithTag`, and the promise resolves at once for an existing loaded tag and waits otherwise |
| RelayerLoader.Loader.Finish | frontend/fhevm/internal/RelayerSDKLoader.ts:52-57 | the flight settles as `Finished(bundle)`, and the SDK is cached exactly when there is a bundle |
| RelayerLoader.Loader.LoadRelayerSDK | frontend/fhevm/internal/RelayerSDKLoader.ts:37-61 | rejects outside a browser; returns a cached SDK with no load; returns the same in-flight promise unchanged to every later caller, so a failed load stays the rejected promise every later call gets; otherwise starts one flight with the local URL |
| RelayerLoader.Loader.Fire | frontend/fhevm/internal/RelayerSDKLoader.ts:26-51 | a `load` marks its tag loaded; a failed local load falls back to the CDN; a CDN failure rejects the flight; an event the flight does not wait for leaves it as it was; a settled flight never changes; the SDK is cached only when this event finishes the flight with a bundle; the invariant (nothing cached while a flight is unfinished or failed) holds throughout |
| RelayerLoader.Loader.FallBackToCdn | frontend/fhevm/internal/RelayerSDKLoader.ts:49-51 | after the local failure the CDN tag is loaded; the flight waits for it, or finishes at once if it is already loaded, and only then caches a bundle |
| NewJourney.DaysFromInput | frontend/app/journeys/new/page.tsx:171 | `Number(v) \|\| 30`: a non-number or 0 becomes 30, any other number is kept |
| NewJourney.TimeWindow | frontend/app/journeys/new/page.tsx:60-62 | the start and end of the journey (stated by `TimeWindowFromClock`) |
| NewJourney.TimeWindowFromClock | frontend/app/journeys/new/page.tsx:60-62 | with `now` the clock in whole seconds rounded down, start is `now + 10` and end is `now + days * 86400` |
| NewJourney.WindowNonEmptyIffDays | frontend/app/journeys/new/page.tsx:60-62 | the window ends after it starts exactly when days is at least 1 |
| NewJourney.FirstStarted | frontend/app/journeys/new/page.tsx:80-89 | the position of the first log that decodes as `JourneyStarted`, none exactly when there is no such log |
| NewJourney.FirstStartedIsUnique | frontend/app/journeys/new/page.tsx:80-87 | the first match is the one found; logs whose decoding throws are skipped |
| NewJourney.LaterLogsIgnored | frontend/app/journeys/new/page.tsx:84-86 | logs after a match do not change the id found |
| NewJourney.FindJourneyId | frontend/app/journeys/new/page.tsx:79-90 | the loop with `break` returns the first match's id, and an id exactly when some log matches |
| NewJourney.UploadNeedsCredentials | frontend/app/journeys/new/page.tsx:37-57 | without usable credentials nothing is uploaded and the credentials error is raised |
| NewJourney.UploadOrder | frontend/app/journeys/new/page.tsx:36-58 | the cover is uploaded first and only with a file; the metadata upload follows and names the cover's cid ("" without a file); a success ends with the metadata upload |
| NewJourney.SearchFallsBackOnlyWhenNeeded | frontend/app/journeys/new/page.tsx:91-106 | the query runs exactly when the receipt gave no id and is bounded to the receipt's block; an id in the receipt wins; a failed query finds nothing |
| NewJourney.SearchSpec | frontend/app/journeys/new/page.tsx:78-106 | the id search and its calls (stated by `SearchFallsBackOnlyWhenNeeded`) |
| NewJourney.CreateSpec | frontend/app/journeys/new/page.tsx:32-117 | the effect of `onCreate` (stated by `CreateEndsIdle`, `CreateSubmitsWindow`, `SubmitNavigatesIffFound` and `SubmitFailure`) |
| NewJourney.AfterUploadEndsIdle | frontend/app/journeys/new/page.tsx:112-116 | whatever happens after the uploads, `creating` ends false |
| NewJourney.CreateEndsIdle | frontend/app/journeys/new/page.tsx:33-116 | without a signer or an address nothing happens; otherwise `creating` is false at the end whatever the outcome |
| NewJourney.AfterUploadSubmits | frontend/app/journeys/new/page.tsx:58-75 | after a successful upload the next call is `startJourney` with the metadata URI and the clock's window |
| NewJourney.CreateSubmitsWindow | frontend/app/journeys/new/page.tsx:36-75 | `onCreate` makes the uploads and then submits that `startJourney` |
| NewJourney.SubmitNavigatesIffFound | frontend/app/journeys/new/page.tsx:107-111 | once the receipt is in, the page navigates exactly when an id was found, to that id; otherwise it shows the fixed "couldn't parse JourneyId" message |
| NewJourney.SubmitFailure | frontend/app/journeys/new/page.tsx:65-113 | a failed submission or wait shows `String(e)`, navigates nowhere and makes no later call |
| NewJourney.PinFile | frontend/utils/pinata.ts:13-55 | the upload makes the calls of `PinSpec` and returns its result |
| NewJourney.UploadAll | frontend/app/journeys/new/page.tsx:36-58 | the two uploads, as `UploadSpec` |
| NewJourney.Search | frontend/app/journeys/new/page.tsx:78-106 | the search in the receipt, then the fallback, as `SearchSpec` |
| NewJourney.CreatePage.constructor | frontend/app/journeys/new/page.tsx:27-28 | the page starts idle with an empty message |
| NewJourney.CreatePage.OnCreate | frontend/app/journeys/new/page.tsx:32-117 | the new state and calls are those of `CreateSpec` |
| NewJourney.CreatePage.SubmitUploaded | frontend/app/journeys/new/page.tsx:58-116 | the rest of `onCreate` after the uploads, as `AfterUpload` |
| NewJourney.CreatePage.Submit | frontend/app/journeys/new/page.tsx:60-116 | from `startJourney` on, as `SubmitSpec` |
| NewJourney.CreatePage.AwaitReceipt | frontend/app/journeys/new/page.tsx:77-116 | from `tx.wait()` on, as `ReceiptSpec` |
| JourneyList.StartedAt | frontend/app/journeys/page.tsx:28-38 | the positions of exactly the `JourneyStarted` logs, increasing |
| JourneyList.ItemOf | frontend/app/journeys/page.tsx:32-35 | the item of a `JourneyStarted` log (stated by `OnlyStartedLogsGiveItems`) |
| JourneyList.ItemsFollowLogs | frontend/app/journeys/page.tsx:28-38 | the k-th item comes from the k-th `JourneyStarted` log |
| JourneyList.OnlyStartedLogsGiveItems | frontend/app/journeys/page.tsx:29-37 | every `JourneyStarted` log gives an item with its id, creator and cid; the others are skipped; there are at most as many items as logs; start and end are 0 |
| JourneyList.Reversed | frontend/app/journeys/page.tsx:39 | the reversal keeps the length and puts element `i` at the mirrored position |
| JourneyList.ReversedTwice | frontend/app/journeys/page.tsx:39 | reversing twice gives the original order |
| JourneyList.ListIsNewestFirst | frontend/app/journeys/page.tsx:27-39 | row k of the list is the item of a `JourneyStarted` log, and the log positions decrease down the list |
| JourneyList.DecreasingWhenReversed | frontend/app/journeys/page.tsx:39 | increasing positions read backwards decrease |
| JourneyList.CollectItems | frontend/app/journeys/page.tsx:27-38 | the `for` loop pushes exactly the items of `StartedItems`, in query order |
| JourneyList.ReverseInPlace | frontend/app/journeys/page.tsx:39 | `Array.prototype.reverse` in place: the array becomes the reversal of its old contents |
| JourneyList.ListPage.constructor | frontend/app/journeys/page.tsx:15-16 | no items, not loading |
| JourneyList.ListPage.Load | frontend/app/journeys/page.tsx:18-46 | with an address and a provider, one query of all `JourneyStarted` logs from block 0; the items become the reversed parsed items, or stay on failure; `loading` ends false either way |
| Rewards.ClaimButtons | frontend/app/rewards/page.tsx:88-93 | the first claim is enabled iff count >= 1, not minted and connected; the thirty-day claim iff count >= 30, not minted and connected |
| Rewards.ClaimEnabled | frontend/app/rewards/page.tsx:88-93 | a button is enabled without `!(count >= threshold) \|\| minted \|\| !connected` (stated by `ClaimButtons`) |
| Rewards.LoadSpec | frontend/app/rewards/page.tsx:20-42 | the effect of the page's load (stated by `LoadCountsParticipantLogs`, `LoadReadsFlags` and `LoadFailure`) |
| Rewards.ClaimSpec | frontend/app/rewards/page.tsx:44-66 | the effect of a claim (stated by `ClaimSetsFlagOnlyWhenConfirmed` and `ClaimNeedsSignerAndBadge`) |
| Rewards.ClaimEnabledMonotone | frontend/app/rewards/page.tsx:88-93 | more check-ins never disable a claim |
| Rewards.LoadCountsParticipantLogs | frontend/app/rewards/page.tsx:24-29 | the count is the number of `ProgressRecorded` logs returned for the participant over all journeys from block 0 |
| Rewards.LoadReadsFlags | frontend/app/rewards/page.tsx:31-35 | with a badge contract both flags are read, and a failed read leaves its flag unchanged; without one neither is read |
| Rewards.LoadFailure | frontend/app/rewards/page.tsx:36-37 | a failed address or log read shows "Error: <message>" and changes nothing else |
| Rewards.ClaimSetsFlagOnlyWhenConfirmed | frontend/app/rewards/page.tsx:44-66 | a claim sets its flag exactly when the transaction was submitted and confirmed; otherwise the flags stay and the message is the error; the other flag and the count never change |
| Rewards.ClaimNeedsSignerAndBadge | frontend/app/rewards/page.tsx:44-57 | without a signer or a badge contract a claim makes no call and changes nothing |
| Rewards.RewardsPage.constructor | frontend/app/rewards/page.tsx:15-18 | count 0, no flags, empty message |
| Rewards.RewardsPage.Load | frontend/app/rewards/page.tsx:20-42 | the new state and calls are those of `LoadSpec` |
| Rewards.RewardsPage.Claim | frontend/app/rewards/page.tsx:44-66 | `claimFirst`/`claimThirty`: the new state and calls are those of `ClaimSpec` |

## Left out

- `startSampleJourney`, `enrollInSampleJourney` and `uploadToIPFS` of the hook are demonstration helpers with no rule to state. They lie outside the modelled core.
- The FHE SDK (`createEncryptedInput`, `add32`, `encrypt`, `userDecrypt`), `FhevmDecryptionSignature.loadOrSign` and the `useFhevm` refresh are foreign code. They are answers of the `Script`, and the model records only how they are called.
- The node, the contracts, `queryFilter`, `tx.wait` and the Pinata `fetch` are answers of the `Script`. Where the source only counts the answer, the model does not constrain it to match its filter: the rewards count is the number of logs the node returns for the participant filter, whatever they are. Where the source reads the logs' arguments, the model assumes the filter was honoured (see `CollectMembership` below).
- Promises that never settle are not modelled: every scripted call answers or fails. The one wait that can last forever is kept: a loader waiting on a pre-existing tag whose load has already failed. Its flight stays `AwaitingLocal`, because no further event comes.
- React scheduling, state batching and re-entrancy are not modelled. Operations run one at a time to completion, and overlapping `recordProgress` calls are not modelled.
- `Date.now()` is the parameter `nowMs`. The clock is read once for the window, and the metadata's `createdAt` is not modelled.
- The metadata document's descriptive fields (title, tagline, description, category, difficulty, name, `createdAt`) and its JSON and `Blob` encoding are not modelled. The payload carries only the cover cid and the days.
- `NewJourney.DaysFromInput`: only whole-number and non-number inputs are modelled. Fractional numbers and `Infinity` are not.
- `Number(...)` on event ids and block numbers is modelled as exact integers. Rounding of ids beyond 2^53 is not modelled.
- `JsErrors.MessageOrString`: a thrown non-`Error` object that has a `message` property is not distinguished. Any non-`Error` value is given by its `String(...)` rendering.
- CollectMembership: only logs that decode to `ProgressRecorded` give records. The source does not test the event's name; it reads the arguments of whatever event `parseLog` returns by position (`useSoberJourneyFHE.tsx:100`). The model assumes the node honours the query's topic filter (line 94), which asks only for `ProgressRecorded` logs of the journey. The projection drops a log of another event, where the source would read that event's arguments by position; such a log is therefore not modelled faithfully.
- ProgressHistory.Matches: tests the event's name, which the source does not; it is the topic-filter assumption of `CollectMembership` made explicit.
- HistorySpecification: "exactly the matching records" rests on the same assumption about the history query as `CollectMembership`.
- `Text.ToLower` lowers ASCII letters only, while `toLowerCase` covers all of Unicode. This is exact on the hexadecimal addresses it is applied to, and is not modelled for other text.
- `Pinata.HandleResponse`: an ok response whose body is the JSON `null` makes reading `IpfsHash` throw a `TypeError`. The model's parsed body always has an optional `IpfsHash` field, so that case is not modelled.
- `console.error` in the list and rewards pages is output only, and is not modelled.
- `Pinata.HandleResponse`: the pretty-printed JSON body is taken as an opaque string. `JSON.stringify` is not modelled.
- The FHE mock instance, the ABIs, the visual components and the button gating in `ActionPanel.tsx` are not part of this model.
