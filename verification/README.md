# A verified model of proxy_mock

proxy_mock serves configurable HTTP mocks. A mock answers with a static response, with rules, with a
response sequence, by proxying, or by recording and replaying an upstream. Requests suspend in the
middle (request body, configured delay, upstream call), and administrative operations run between
their steps. This project models the record/replay and sequence engine, the lifecycle of mocks and
the snapshot codec, and proves what they promise over every input, every state and every run.

## How the model is built

Values first, objects beside them.

- `Store`, `Sequences` and `Lifecycle` describe a recording store, a cursor and the whole application
  as values: the configuration storage, the cursors and stores of every path, the route list, and a
  heap of all cursors and stores ever created, because handlers of replaced generations keep theirs.
- `Admin` and `Snapshot` are the administrative operations on such values, `Machine` the steps of a
  request. Bodies of PUT and PATCH arrive as dictionaries and go through the configuration parser. A
  run is a list of labels: administrative operations, arrivals, resumptions, cancellations. Every
  list is a run, so a theorem about all lists is a theorem about all interleavings.
- `Store.RecordingStore`, `Sequences.ResponseSequence`, `Runtime.MockApp`, `AdminHandlers`,
  `ApplyMocks` and `Server` are the imperative form: dictionaries, a route list and counters updated in
  place, and objects shared by reference. Each method is proved to do to the objects what the
  function does to the value; `Server.MockServer.Serve` carries this to whole runs, so what is proved
  of runs holds of the objects.

Atomic steps are what runs between two suspension points: a locked section of a store or cursor, an
administrative operation under its lock, and a stretch of a request handler. The suspension points
are the request body, every configured delay and every upstream call.

What the environment decides is a parameter (`Lifecycle.Env`): the administrative prefix, whether a
path compiles as a route, the digest and the size of a recording, the configuration parser, the proxy
allowlist and the id of the instance. Of the parser two things are asked, where they are needed:
that what it accepts meets the cross-field rules (`Mocks.SoundSchema`), and, for the round trip only,
that it reads back what it has accepted (`Mocks.StableSchema`). It may refuse anything else;
`Mocks.StrictWorks` gives such a parser for every class of configurations, for instance those
whose methods are HTTP methods.

What an operation does is also said without the functions that compute it: over raw header lists,
query pairs, dictionaries, characters and bits (`Rules.MatchesIff`, `ReplyHeaders.ReplyHeadersIff`,
`Admin.MergeIff`, `Outcomes`, `SnapshotAcceptance.DocumentIff`, `Base64.EncodeIsBitwise`), and over whole
runs by what happened in them (`StoreRuns.EntryIsStable`, `LateWrites.OutcomeIff`,
`Answers.AnswerExplained`, `Delays.DelaysAreKept`).

A store has a life of its own (`StoreRuns`), and `StoreProjection.ServerRunsProject` shows every run
of the server to be, seen from any store, a run of that store.

## Where the code and its documentation differ

- `normalize_mock_path` is not idempotent when whitespace stands before a trailing slash
  (`Paths.IdempotentIff`), and it is applied again and again on the way into storage and runtime state.
  `AdminEffects.KeysAgreeIffSettled` says exactly when storage and runtime state end up under the same
  path, `AdminEffects.PutKeepsAgreementIff` and `SnapshotProofs.ImportKeepsAgreementIff` when a PUT and
  an import keep all four structures in agreement: exactly if whatever they install lands on a settled
  path that may be mocked. Over a run that is the exact condition too (`Reachable.RunOkIff`). Every path
  without whitespace lands so (`Admin.WhitespaceFreeIsGood`, `SnapshotProofs.GoodPathsSuffice`); four
  layers of whitespace and slash do not (`AdminEffects.PutCanDisagree`). PATCH and DELETE need no such
  condition.
- The documentation promises that an import is checked completely before anything changes.
  `SnapshotProofs.ImportIsAllOrNothing` says for every document exactly when that is so: a refused
  document changes nothing, and a validated one goes through to the end unless a path, normalized once
  more, may not be mocked. `SnapshotProofs.ReplaceCanLoseEverything` gives documents that break after
  a replacing import has removed every mock, `SnapshotProofs.TrapAtDefaultPrefix` a concrete one.
  Going through is still not importing every mock: "/a" and "/a /" pass the check for duplicates and
  land on one path, where the second replaces the first (`ImportEffects.TwoOnOnePath`).
  `ImportEffects.ImportedWholeIff` is the exact condition for a document to be imported as a whole.
- A snapshot restores configuration and recordings, but puts routes into the order in which mocks were
  created, while the route list has them in the order in which they were last updated
  (`RouteRuns.RunOrders`): an update makes a mock yield to all others
  (`RoutePrecedence.UpdatedMockYields`). That goes for a replacing import and for merging one's own
  export alike. Which route answers a URL survives exactly if no two routes that cover it in the open
  belong to mocks last updated in one order and created in the other (`RouteRuns.RunPrecedenceIff`);
  `RouteRuns.RoundTripChangesAnswer` gives runs after which it does not.
- A store is not the longest fitting suffix of everything ever written: shrinking an entry does not
  bring back what its larger version evicted (`Store.SaveRetainsMaximally` per step,
  `StoreRuns.OverwriteDoesNotRestore` for the counterexample).

## Model

| member | source | states |
|---|---|---|
| Base64.DecodeEncode | proxy_mock/services/recordings.py:92 | decoding an encoded body gives back the bytes, for all byte strings (section 4 of RFC 4648) |
| Base64.EncodeInjective | proxy_mock/services/recordings.py:105 | different bodies have different encodings |
| Base64.ValidBodyIsImage | proxy_mock/domain/models.py:68-77 | the body validator accepts exactly the encodings of byte strings |
| Base64.CanonicalIffSpareBitsZero | proxy_mock/domain/models.py:75-76 | of what the decoder takes, the validator accepts exactly the texts whose unused bits are zero (section 3.5 of RFC 4648) |
| Base64.StrayBits | proxy_mock/domain/models.py:75-76 | a text that decodes but is refused as not canonical |
| Base64.EncodeIsBitwise | proxy_mock/services/recordings.py:92 | encoding, said of the bits: each three bytes are the four symbols of their 24 bits in the alphabet of the standard, and the last one or two are filled with zero bits and padded (section 4 of RFC 4648) |
| Paths.Normalize | proxy_mock/client/migration.py:18-27 | the result is absolute and ends in a slash only if it is the root |
| Paths.NormalizeIff | proxy_mock/client/migration.py:18-27 | normalization, said of the characters: a path without a core is refused; otherwise the core between the whitespace, with a slash in front, loses the slashes at its end and nothing else |
| Paths.ValidateIff | proxy_mock/services/mock_service.py:13-28 | a path may be mocked exactly if what it normalizes to compiles, is not the administrative prefix and is not under it |
| Paths.FixedIffSettled | proxy_mock/client/migration.py:18-27 | the fixed points of normalization are exactly the settled paths |
| Paths.IdempotentIff | proxy_mock/client/migration.py:22-27 | normalizing twice is normalizing once exactly when the stripped text has no whitespace right before its trailing slashes |
| Paths.WhitespaceFreeIsSettled | proxy_mock/client/migration.py:18-27 | every path without whitespace settles in one normalization |
| Paths.WhitespaceLayer | proxy_mock/client/migration.py:22-27 | each space and slash at the end costs another round of normalization |
| Paths.WhitespaceBeforeSlash | proxy_mock/client/migration.py:22-27 | a concrete path that takes three rounds to settle |
| Paths.CandidatesDisjoint | proxy_mock/services/mock_service.py:23-28 | no path claims a route of a mock at another settled path |
| Http.SplitJoin | proxy_mock/services/proxy_service.py:38-39 | splitting what was joined gives the parts back if none contains the separator |
| ProxyChain.ParseJoin | proxy_mock/services/proxy_service.py:38-45 | parsing after joining is the identity on non-empty ids without commas |
| ProxyChain.IsLoopIff | proxy_mock/services/proxy_service.py:42-45 | a request is refused exactly if its first chain header has the id of the instance between commas, whitespace apart |
| ProxyChain.LoopIffVisited | proxy_mock/utils.py:79-82 | along any journey the guard refuses a request at an instance exactly if the initial chain named it or the request was there before |
| ProxyChain.ForwardedIff | proxy_mock/services/proxy_service.py:70-102 | of the other headers of a request an upstream gets the last value of each, except host, content-length, transfer-encoding and connection |
| ProxyChain.ForwardAppends | proxy_mock/services/proxy_service.py:99-102 | forwarding appends exactly the forwarding instance to the chain, whatever the incoming header was |
| ProxyChain.ChainRecordsJourney | proxy_mock/services/proxy_service.py:99-102 | at every hop the chain is the initial chain followed by the instances visited |
| ProxyChain.ForwardsOncePerInstance | proxy_mock/services/proxy_service.py:42-45 | no instance forwards the same request twice |
| ProxyChain.NamingShrinks | proxy_mock/services/proxy_service.py:101-102 | each forwarding names one more instance: the measure behind termination |
| ProxyChain.ForwardingTerminates | proxy_mock/utils.py:79-82 | in any network of instances, under any proxy configuration and any initial chain header, a request is forwarded at most once per instance |
| Recordings.ReplayIsLive | proxy_mock/services/recordings.py:41-61 | replaying the stored form of any upstream reply gives the live response without its marker: status, body and header pairs in order; which headers these are is stated with ReplyHeaders.ReplyHeadersIff |
| Recordings.ReplayedLength | proxy_mock/services/recordings.py:43-46 | a replayed HEAD response repeats the upstream length exactly when it describes the identity form (section 8.6 of RFC 9110); other replays carry the length of their body |
| ReplyHeaders.ReplyHeadersIff | proxy_mock/services/recordings.py:25-61 | over the raw header list and with the ten names spelled out: live and replayed responses have status and body of the reply, the length of that body unless the reply tells it, and then, in order and with their values, exactly the headers whose lower-case name is none of the ten and in no `Connection` value, `content-length` passing only for HEAD with an empty or identity coding; the live one ends with its marker |
| ReplyHeaders.ReplayOfAny | proxy_mock/services/recordings.py:56-61 | the replay of any stored reply, imported ones included, has its headers, body and status, with a length in front if it has none of its own |
| ReplyHeaders.DecimalDenotes | proxy_mock/services/recordings.py:56-61 | a length is written in the decimal digits that denote it, without leading zeros |
| Recordings.PassedIff | proxy_mock/services/snapshot.py:130-162 | the loop of the validator accepts exactly the collections whose entries are valid, have distinct ids and fit in total |
| Recordings.Scan | proxy_mock/services/snapshot.py:130-163 | the loop over a set of ids and a running total decides that property and returns the entries unchanged |
| Recordings.ValidateRecordings | proxy_mock/services/snapshot.py:122-163 | accepts exactly the importable collections of a recording mock and returns them unchanged |
| Recordings.SavedIsImportableIff | proxy_mock/services/recordings.py:98-107 | an entry built by `save` passes the import validator exactly when the request and the upstream reply themselves were importable |
| Recordings.SameIdentityIff | proxy_mock/services/recordings.py:87-95 | two requests have one identity exactly if they agree on method, raw target, body and every selected header list |
| RecordingRules.IdentityDescribes | proxy_mock/services/recordings.py:87-95 | an identity holds method, raw path and query, the body in base64 and, for exactly the selected names, all values of that header in order |
| RecordingRules.EntryIff | proxy_mock/services/snapshot.py:130-155 | the import validator accepts an entry exactly if it meets the rules on request, reply and digest, stated one by one |
| Store.Trimmed | proxy_mock/services/recordings.py:80-83 | trimming ends within both limits and never pops an empty store |
| Store.TrimmedIsLongest | proxy_mock/services/recordings.py:80-83 | trimming leaves a suffix, and every longer suffix breaks a limit |
| Store.TrimComposition | proxy_mock/services/recordings.py:64-83 | trimming under two pairs of limits in turn is trimming once under the pointwise minimum |
| Store.SaveRetainsMaximally | proxy_mock/services/recordings.py:108-120 | a write is stored exactly if the store is active, has the captured revision and the entry fits alone; it is then the last one, and what remains of the others, its own key taken out, is their longest suffix that fits beside it; any other write changes nothing |
| Store.DeletionPops | proxy_mock/services/recordings.py:129-141 | deleting one recording takes out its slot and nothing else: every other slot stays, in order, every other key is looked up as before, and the revision moves exactly if the key was there |
| Store.ImportedIsNeverEvicted | proxy_mock/services/recordings.py:68-74 | a collection the validator accepts is taken over whole and in order |
| Store.NewStoreOk | proxy_mock/services/recordings.py:65-74 | a new store keeps both limits and distinct keys, wherever its entries come from |
| Store.SavedOk | proxy_mock/services/recordings.py:98-120 | saving keeps both limits and distinct keys |
| Store.DeletedOk | proxy_mock/services/recordings.py:129-141 | deleting keeps both limits and distinct keys |
| Store.LookUpIff | proxy_mock/services/recordings.py:122-126 | reading a key gives an entry exactly if the store holds it under that key |
| Store.RecordingStore.constructor | proxy_mock/services/recordings.py:65-74 | a new object is the new store value, its byte counter equal to the sum of sizes |
| Store.RecordingStore.Retire | proxy_mock/services/recordings.py:76-78 | only the active flag changes |
| Store.RecordingStore.Trim | proxy_mock/services/recordings.py:80-83 | the loop over the running counter computes the longest suffix that fits and keeps the counter exact |
| Store.RecordingStore.Save | proxy_mock/services/recordings.py:98-120 | builds the entry and saves it as the store value prescribes, with the same outcome |
| Store.RecordingStore.Put | proxy_mock/services/recordings.py:108-120 | the locked section: superseded, too large or stored, counter kept exact |
| Store.RecordingStore.Delete | proxy_mock/services/recordings.py:129-141 | all entries go, or exactly the one under the given id with every other one in place and in order; success means that it was there; the revision moves with it and the counter stays exact; an unknown id changes nothing |
| StoreRuns.LateWriteIsSuperseded | proxy_mock/services/recordings.py:109-111 | in every run of one store, a save identified before a deletion or made after retirement is superseded and changes nothing |
| StoreRuns.NoEntryOutlivesItsDeletion | proxy_mock/services/recordings.py:129-134 | in every run of one store, every present entry was there from the start or was identified after the last deletion of its key |
| StoreRuns.RetainedAreTheNewest | proxy_mock/services/recordings.py:80-83 | in every run the retained entries are a suffix of what an unbounded store would hold |
| StoreRuns.DistinctWritesRetainMaximally | proxy_mock/services/recordings.py:114-119 | for logs with distinct keys and no deletions the store is the longest suffix of all admitted writes that fits |
| StoreRuns.OverwriteDoesNotRestore | proxy_mock/services/recordings.py:114-119 | a log with an overwrite for which that fails |
| StoreRuns.StoredIsFound | proxy_mock/services/recordings.py:114-126 | after "stored", reading the key gives the entry just written |
| StoreRuns.EntryIsStable | proxy_mock/services/recordings.py:98-141 | in every run without overwrites of a key its entry stays as it is, and is gone exactly if some event has deleted it or evicted it by a stored write that needed the room |
| StoreRuns.OnlyDeletionTakes | proxy_mock/services/recordings.py:114-141 | where every write fits beside what is held, an entry is gone exactly if a deletion of its own key, or of all, has happened |
| StoreRuns.SaveOutcomeIff | proxy_mock/services/recordings.py:98-120 | in every run a save is superseded exactly if the store was retired at identification or has been cut off since, too large exactly if the entry alone exceeds the limit, and stored otherwise |
| SnapshotCodec.SectionRoundTrip | proxy_mock/services/snapshot.py:45-66 | decoding undoes encoding of a section exactly when its `body_b64` field was free; no bytes are left as a body |
| SnapshotCodec.ConvertMockBack | proxy_mock/services/snapshot.py:69-102 | mapping a mock there and back restores it exactly when each of its sections is restored |
| SnapshotCodec.CodecRoundTripIff | proxy_mock/services/snapshot.py:45-102 | the codec is invertible on a mock exactly when no section in any of the five places uses `body_b64` |
| SnapshotCodec.EncodedIsJson | proxy_mock/services/snapshot.py:45-50 | no section of an encoded mock has a bytes body |
| SnapshotCodec.DecodingOkIff | proxy_mock/services/snapshot.py:53-102 | decoding accepts a mock exactly if each section in the five places either has no `body_b64` or has it as valid base64 text and no `body` |
| Mocks.DumpReads | proxy_mock/repositories/mock_storage.py:29-39 | reading the stored dictionary under its field names, with their texts spelled out, gives the configuration back |
| Mocks.DumpInjective | proxy_mock/repositories/mock_storage.py:29-39 | so the stored dictionary determines the configuration |
| Mocks.DumpedSections | proxy_mock/domain/models.py:13-16 | a stored configuration never uses the field that the codec needs |
| Mocks.ExportDecodes | proxy_mock/services/snapshot.py:105-113 | exported configuration decodes to the stored dictionary |
| Mocks.StrictWorks | proxy_mock/api/schemas.py:71-87 | for every class of valid configurations that ignores the path there is a sound and stable parser that reads back exactly that class |
| Rules.SortedRanked | proxy_mock/services/rule_engine.py:34-38 | the reverse stable sort is a permutation ordered by priority, then timestamp, then submitted index |
| Rules.SelectIsArgmax | proxy_mock/services/rule_engine.py:34-71 | the first match in sorted order is the matching rule with the greatest priority and timestamp, ties to the lowest submitted index, and that index names its cursor |
| Rules.SelectedIffWins | proxy_mock/services/rule_engine.py:34-71 | a rule is selected exactly when it wins, so at most one does |
| Rules.MatchesIff | proxy_mock/services/rule_engine.py:40-64 | a rule matches exactly if its methods are empty or name the verb, its body condition is falsy or equals the raw or the parsed body, the first header of each required name has the required value, and so has the last query pair of each required key |
| Rules.SelectIff | proxy_mock/services/rule_engine.py:30-64 | the selected rule is the one that decides by priority, timestamp and submitted order among those that ask for the request in this sense; none is selected exactly if none asks |
| Rules.FindRule | proxy_mock/services/rule_engine.py:40-64 | the loop with `continue` finds the rule that decides, in terms of the raw headers and query pairs, or shows that none asks for the request |
| Sequences.TakeIsReservation | proxy_mock/services/sequences.py:17-28 | the k-th reservation after a reset gets response k, then the last one or the exhausted error |
| Sequences.BuildShape | proxy_mock/services/sequences.py:46-59 | exactly the keys with a sequence get a cursor: the old one if preserved and unchanged, else a new one at zero |
| Sequences.BuildInjective | proxy_mock/services/sequences.py:46-59 | no two keys share a cursor |
| Sequences.ReportTells | proxy_mock/services/sequences.py:30-43 | after k reservations the report has the position and length, says exhausted exactly if all responses have been reserved, and with the policy tells whether the next one fails |
| Sequences.ResponseSequence.constructor | proxy_mock/services/sequences.py:12-15 | a new cursor stands at zero |
| Sequences.ResponseSequence.Take | proxy_mock/services/sequences.py:17-28 | the object reserves what the cursor value prescribes and moves by at most one |
| Sequences.ResponseSequence.State | proxy_mock/services/sequences.py:30-43 | reports position, length, exhaustion and policy, after an optional restart |
| Sequences.BuildSequences | proxy_mock/services/sequences.py:46-59 | the loop over submitted positions keeps the preserved objects and creates the others, as the value says |
| Lifecycle.SetMockShape | proxy_mock/repositories/mock_storage.py:41-43 | assignment changes one path and keeps paths distinct |
| Lifecycle.RemoveMockShape | proxy_mock/repositories/mock_storage.py:64-67 | removal drops one path and keeps the others |
| Lifecycle.DropRoutesShape | proxy_mock/services/mock_service.py:38-40 | the routes of a set of paths go, all others stay, distinct as before |
| Admin.WhitespaceFreeIsGood | proxy_mock/client/migration.py:18-27 | a path parameter without whitespace addresses and installs one and the same settled path |
| Admin.MergesCompose | proxy_mock/api/routes/admin.py:149-155 | merging is associative, one level deeper for `mock_data`: two patches in turn ask for what the second merged into the first asks for |
| Admin.MergeIff | proxy_mock/api/routes/admin.py:149-155 | field by field: what a patch mentions has its value, any other field the saved one, and within `mock_data` likewise; it fails exactly if `mock_data` is mentioned as something else than an object |
| Admin.PatchSetsFields | proxy_mock/api/routes/admin.py:142-175 | through the parser: if a configuration that reads back differs from the stored one as the patch says, field by field, the patch succeeds and stores exactly that configuration |
| Admin.WholePatchReplaces | proxy_mock/api/routes/admin.py:142-175 | so a patch with the whole dictionary of a configuration that covers the saved `mock_data` stores just this configuration |
| Outcomes.PutOutcomeIff | proxy_mock/api/routes/admin.py:130-138 | PUT is refused exactly if the body names another path, is no configuration or the path may not be mocked, fails late exactly if only the path normalized once more may not be, and else answers 200 or 201 as a mock is stored or not |
| Outcomes.PatchOutcome | proxy_mock/api/routes/admin.py:142-175 | PATCH finds only stored mocks, never fails late, and succeeds exactly if the body does not name another path and what it asks for, field by field, is a valid configuration |
| Outcomes.DeleteOutcome | proxy_mock/api/routes/admin.py:179-190 | DELETE succeeds exactly for stored mocks, after one normalization for the identity and one for storage |
| Outcomes.DeleteRecordingsOutcome | proxy_mock/api/routes/admin.py:307-322 | deleting recordings succeeds exactly for a stored mock that records, and for one id only if it is held |
| Outcomes.ResetOutcome | proxy_mock/api/routes/admin.py:258-265 | a restart succeeds exactly for a sequence that the stored mock or one of its rules has, and sets its cursor to zero and no other |
| Admin.EmptyPatchAsksForTheSame | proxy_mock/api/routes/admin.py:149-157 | a patch that mentions nothing asks for the stored configuration |
| AdminEffects.PutStartsAfresh | proxy_mock/api/routes/admin.py:130-138 | a successful PUT, at whatever path, leaves exactly the parsed body there, with new cursors at zero and without recordings, whatever was there before, and every other mock untouched |
| Admin.PatchEffect | proxy_mock/api/routes/admin.py:142-175 | a successful PATCH installs the merged configuration with the cursors and recordings it preserves; any other changes nothing |
| Admin.PatchOk | proxy_mock/api/routes/admin.py:142-175 | PATCH keeps the invariant, for every path parameter |
| Admin.DeleteEffect | proxy_mock/api/routes/admin.py:187-190 | DELETE removes exactly the mock that its parameter addresses |
| Admin.DeleteOk | proxy_mock/api/routes/admin.py:187-190 | DELETE keeps the invariant, for every path parameter |
| Admin.CleanupOk | proxy_mock/services/mock_service.py:52-61 | clearing leaves no mock, cursor, store or route, and every store retired |
| Admin.DeleteRecordingsOk | proxy_mock/api/routes/admin.py:315-322 | deleting recordings keeps the invariant |
| Admin.ResetOk | proxy_mock/api/routes/admin.py:258-265 | restarting a cursor keeps the invariant |
| AdminEffects.GenerationHeap | proxy_mock/services/mock_service.py:91-99 | a new generation at any path moves no cursor and retires exactly the store filed under its path, normalized once more |
| AdminEffects.OtherMocksUntouched | proxy_mock/services/mock_service.py:31-40 | a new generation at any path leaves every mock filed elsewhere its configuration, cursors and store |
| AdminEffects.OtherRoutesStay | proxy_mock/services/mock_service.py:38-40 | ... and every route of it, with its handler |
| AdminEffects.OwnGeneration | proxy_mock/services/mock_service.py:88-106 | the path itself has the given configuration, one normalization further, and, if it records, a new store |
| AdminEffects.OwnCursors | proxy_mock/services/mock_service.py:92-102 | a cursor is carried over exactly when its key is preserved and its definition unchanged; else it is new and at zero |
| AdminEffects.Handover | proxy_mock/api/routes/admin.py:162-174 | a PATCH after which both configurations record, with the same matching headers and the same upstream, moves exactly the entries of the retired store, in order, trimmed to the new limits, and every request keeps its key; after any other the store starts empty |
| AdminEffects.PatchCarriesCursors | proxy_mock/api/routes/admin.py:158-162 | after a PATCH each sequence, of the mock or of a rule, is served from the cursor it had, if the patch does not mention the field it is in and its definition is unchanged, and from a new one at zero otherwise |
| AdminEffects.DeletionTakesOneKey | proxy_mock/api/routes/admin.py:307-322 | deleting one recording changes no store but that of the addressed mock and there no lookup but that of its key, and succeeds exactly if that store holds the key |
| AdminEffects.GenerationFiles | proxy_mock/repositories/mock_storage.py:27-42 | storage files a mock one normalization later than the runtime state |
| AdminEffects.GenerationOkIff | proxy_mock/services/mock_service.py:80-106 | a new generation of a valid configuration keeps the invariant exactly if it lands on a settled path that may be mocked |
| AdminEffects.KeysAgreeIffSettled | proxy_mock/services/mock_service.py:88-102 | from a state in agreement, storage and runtime state are filed under the same paths afterwards exactly when the path has settled by the time the runtime state is filed |
| AdminEffects.PutKeepsAgreementIff | proxy_mock/api/routes/admin.py:130-138 | PUT keeps the invariant exactly if it fails or lands on a settled path that may be mocked |
| AdminEffects.PutCanDisagree | proxy_mock/api/routes/admin.py:130-138 | a PUT behind four layers of whitespace and slash succeeds and breaks the agreement |
| AdminEffects.PutCanFailLate | proxy_mock/services/mock_service.py:88 | a PUT that passes validation and fails since its path is normalized once more |
| Snapshot.ParseDocument | proxy_mock/services/snapshot.py:166-218 | the loop with its set of seen paths computes the validated document, stopping at the first error |
| SnapshotAcceptance.DocumentIff | proxy_mock/services/snapshot.py:166-218 | a document is accepted exactly if its envelope and each of its mocks meet the rules, stated one by one and without the order of the checks, and no two give one path; what is read is what each dictionary says |
| SnapshotProofs.DocumentWell | proxy_mock/services/snapshot.py:187-212 | the mocks of an accepted document are valid, have importable recordings and distinct paths, and each comes from the document |
| SnapshotProofs.ImportIsAllOrNothing | proxy_mock/services/snapshot.py:221-240 | for every document: a refused import changes nothing, refusal means invalidity, and a validated import goes through to the end exactly if none of its paths, normalized once more, becomes one that may not be mocked |
| SnapshotProofs.ImportInstalls | proxy_mock/services/snapshot.py:228-239 | for every document: an import is one new generation after the other, for each validated mock where it lands, up to the first that may not be mocked |
| SnapshotProofs.ImportKeepsAgreementIff | proxy_mock/services/snapshot.py:221-240 | an import keeps the invariant, whether it goes through or breaks, exactly if everything it installs lands on a settled path that may be mocked |
| SnapshotProofs.GoodPathsSuffice | proxy_mock/services/snapshot.py:166-233 | that is so of every document whose paths are refused or land so |
| SnapshotProofs.MutationFailsIff | proxy_mock/services/snapshot.py:230-239 | an import breaks after mutation has begun exactly when a validated path, normalized once more, may not be mocked |
| SnapshotProofs.ReplaceCanLoseEverything | proxy_mock/services/snapshot.py:235-239 | a document that passes validation and leaves an empty application behind an error |
| SnapshotProofs.TrapAtDefaultPrefix | proxy_mock/services/snapshot.py:230-239 | under the default prefix a document of one mock with nothing but a path is such a document |
| ImportEffects.ImportEffect | proxy_mock/services/snapshot.py:237-239 | after an import every path holds exactly the configuration and recordings that came last for it, with cursors at zero, and every other mock is untouched |
| ImportEffects.ImportedWholeIff | proxy_mock/services/snapshot.py:221-240 | an import succeeds with every mock of the document in place exactly if both checks pass, no path is trapped by one more normalization, and no two different mocks land on one path |
| ImportEffects.TwoOnOnePath | proxy_mock/services/snapshot.py:194-239 | a document that names one path in two ways passes the check for duplicates, is imported to the end and leaves only its second mock |
| ImportEffects.MergeKeepsOmitted | proxy_mock/services/snapshot.py:221-240 | for every document, a merge leaves configuration, cursors and store of every mock untouched under whose path nothing is filed |
| RoundTrip.ExportNeverFails | proxy_mock/services/snapshot.py:105-119 | export finds a store for every recording mock |
| RoundTrip.ImportOfExport | proxy_mock/services/snapshot.py:166-240 | validation of an exported document accepts it and yields exactly what was exported |
| RoundTrip.SnapshotRoundTrip | proxy_mock/services/snapshot.py:105-240 | a replacing import of an export restores every configuration and recording list in order with cursors at zero, into any application, and exports to an equal document |
| RoundTrip.MergeOfOwnExport | proxy_mock/services/snapshot.py:221-240 | merging one's own export succeeds, keeps every configuration and recording list, sets every cursor to zero and exports to an equal document; the order of routes it leaves is stated with RouteOrder.RoundTripPutsRoutesInStorageOrder |
| RouteOrder.UpdateMovesRoutes | proxy_mock/services/mock_service.py:94-106 | every update, by PUT, PATCH or import, moves the routes of a mock to the end while storage keeps its order |
| RouteOrder.UpdateLeavesStorageOrder | proxy_mock/services/mock_service.py:94-106 | every update of a mock that is not the last in storage leaves routes out of storage order |
| RouteOrder.ImportedRoutes | proxy_mock/services/snapshot.py:237-239 | an import puts the routes it installs behind what is left of the others, in the order of the document |
| RouteOrder.RoundTripPutsRoutesInStorageOrder | proxy_mock/services/snapshot.py:235-239 | an import of an export puts routes into storage order: a replacing one on any server, a merging one on any server without other mocks, such as the exported one |
| RoutePrecedence.SamePrecedenceIff | proxy_mock/services/mock_service.py:101-106 | for any covering relation, reordering routes changes no answer exactly if it inverts no pair of routes that cover a common URL and are first to cover it |
| RoutePrecedence.RoundTripKeepsPrecedenceIff | proxy_mock/services/snapshot.py:235-239 | a round trip, replacing or merging, changes no answer exactly if storage order inverts no such pair |
| RoutePrecedence.UpdatedMockYields | proxy_mock/services/mock_service.py:94-106 | a mock updated in any way answers exactly the URLs that no other mock covers |
| RouteRuns.RunOrders | proxy_mock/services/mock_service.py:94-106 | in every run the routes are those of the live mocks in the order of their last updates, and storage holds them in the order of their creation |
| RouteRuns.RouteOrderIff | proxy_mock/services/mock_service.py:94-106 | a route of one mock stands before a route of another exactly if the last update of the one precedes that of the other; in storage order exactly if its creation does |
| RouteRuns.RunPrecedenceIff | proxy_mock/services/snapshot.py:221-240 | after any good run a round trip changes no answer exactly if no two routes that cover a common URL in the open belong to mocks last updated in one order and created in the other |
| RouteRuns.RoundTripChangesAnswer | proxy_mock/services/snapshot.py:235-239 | a run of three PUTs after which a round trip changes which mock answers a URL |
| LateWrites.LateWriteIsSuperseded | proxy_mock/utils.py:117-127 | in every interleaving, a reply that arrives after its store lost entries to a deletion or was retired is passed on as superseded and leaves the whole application unchanged |
| LateWrites.OutcomeIff | proxy_mock/services/recordings.py:98-120 | in every interleaving the reply to a recording is answered as superseded exactly if its store was retired or a step since the capture has deleted from it or retired it, as too large exactly if the entry alone exceeds the limit, and as stored otherwise |
| LateWrites.DeletionInvalidates | proxy_mock/services/recordings.py:133-134 | a successful deletion of recordings is such an event |
| LateWrites.UpdateInvalidates | proxy_mock/services/mock_service.py:31-37 | so is every successful PUT, PATCH or DELETE of the mock, every clear, and every accepted import that replaces all mocks or files one there, at whatever paths and even if it breaks later |
| LateWrites.StepKeepsCapture | proxy_mock/services/recordings.py:85-96 | a request keeps the store and revision it captured until it uses them or ends |
| CursorRuns.StepReserves | proxy_mock/services/rule_engine.py:68-73 | a step moves exactly the cursor that configuration selects, by one reservation, carries the reserved response, and an exhausted rule never falls through |
| CursorRuns.StepChangesOnlyItsCursor | proxy_mock/utils.py:137-146 | apart from a save, a step changes nothing else |
| CursorRuns.AtMostOneReservation | proxy_mock/utils.py:79-147 | in every run a request reserves at most once in all |
| CursorRuns.CursorCountsReservations | proxy_mock/services/sequences.py:17-28 | between resets the position of a cursor counts the reservations made on it by handlers of any generation |
| CursorRuns.ReservationInOrder | proxy_mock/services/sequences.py:17-28 | the i-th reservation after a reset gets response i, then the last response or the error, in every interleaving |
| CursorRuns.ReservationAfterReset | proxy_mock/services/sequences.py:39-43 | after a reset the count starts again, whatever ran before it |
| CursorRuns.ServedInOrder | proxy_mock/services/rule_engine.py:72-97 | a request that made the i-th reservation and is answered with configured data at last, after whatever delays and operations, is answered with response i |
| CursorRuns.ReplacedCursorIsIndependent | proxy_mock/services/mock_service.py:92-102 | a reservation on a replaced cursor never moves its successor |
| CursorRuns.AdminKeepsCursors | proxy_mock/services/mock_service.py:92-102 | no administrative operation other than a reset moves an existing cursor |
| Reachable.RunOk | proxy_mock/services/mock_service.py:23-106 | the invariant over the four structures and all tickets holds after every run of good labels |
| Reachable.RunOkIff | proxy_mock/services/mock_service.py:23-106 | it holds all along a run exactly if every PUT fails or lands, and every imported mock lands, on a settled path that may be mocked |
| Reachable.ReachableAgreement | proxy_mock/services/mock_service.py:23-106 | in every reachable state cursors are kept for exactly the stored paths, stores for exactly the recording mocks, the routes are the path of each stored mock and that path with a slash, with its current handler, and exactly the owned stores are active |
| Reachable.NoRouteUnderPrefix | proxy_mock/services/mock_service.py:13-28 | no route of a reachable server is the administrative prefix, a settled path other than the root, or under it |
| Reachable.RunValid | proxy_mock/services/snapshot.py:122-163 | with well-formed traffic every entry of every store is importable in every reachable state |
| Reachable.RunAccepted | proxy_mock/services/snapshot.py:199-206 | in every run storage holds only configurations that the parser reads back |
| Reachable.StoreIsImportable | proxy_mock/services/snapshot.py:122-163 | the content of a well-kept store is an importable collection |
| Reachable.AnyServerCanBeRestored | proxy_mock/services/snapshot.py:105-240 | any reachable server can be exported and restored into any other one |
| Provenance.EntriesHaveOrigins | proxy_mock/services/recordings.py:98-120 | every entry held after a run was saved in it, installed in it by an accepted import, or there at the start |
| Provenance.ImportedIsListed | proxy_mock/services/snapshot.py:187-239 | an imported entry is listed in the document, under a path that lands where the entry is installed |
| Provenance.ReplayRepeatsALiveReply | proxy_mock/utils.py:93-101 | in every run a replayed response repeats a live response given earlier to a request with the same identity, up to a collision of digests, or was installed by an accepted import |
| StoreHistory.CaptureOrigin | proxy_mock/services/recordings.py:85-86 | the revision a request carries is the one its store had when the request began to identify, before its body was awaited |
| StoreHistory.OwnedSince | proxy_mock/services/mock_service.py:93-100 | a path that owns a store has owned it since the store exists |
| StoreProjection.ServerRunsProject | proxy_mock/services/recordings.py:64-141 | every run of the server is, for each store, a run of that store: identifications, saves, deletions, retirement |
| StoreProjection.ServerRetainsTheNewest | proxy_mock/services/recordings.py:80-83 | every store of every server retains a suffix of what an unbounded one would hold |
| StoreProjection.ServerEntryIsStable | proxy_mock/services/recordings.py:98-141 | in every run of the server, an entry of any store stays until its key is saved again, and is gone exactly if the run has deleted or evicted it |
| Deletions.DeletedStaysDeleted | proxy_mock/services/recordings.py:129-134 | across all generations of a mock, every entry it owns was identified after every deletion of its key from the mock, with no deletion before its save, or an accepted import installed it for this very mock after them |
| Transparency.StepRemembers | proxy_mock/services/mock_service.py:91-99 | a mock goes on having nothing else under a recorded key through every step that spares it, including PATCH with handover and imports that carry the entry |
| Transparency.LineageKeeps | proxy_mock/services/mock_service.py:91-99 | so does every store the mock has owned during a run, current or retired |
| Transparency.RecordingHasOwner | proxy_mock/services/recordings.py:109-120 | a save that answers "stored" goes into the store of some mock |
| Transparency.RecordingIsRemembered | proxy_mock/services/recordings.py:114-120 | after it the mock has exactly the saved entry under its key |
| Transparency.ReplayServesTheLiveReply | proxy_mock/utils.py:92-129 | record, switch to replay, replay: after any run that spares the mock, a request with the same method, raw target, body and selected headers gets the live reply without its marker, or "not found" if the entry has been evicted or deleted |
| Transparency.ReplayFromMemory | proxy_mock/utils.py:92-101 | the same from any state in which a mock remembers an entry |
| Transparency.BackupSpares | proxy_mock/services/snapshot.py:105-113 | an import of an export that remembers the entry spares the mock |
| Transparency.ReplayAfterRestore | proxy_mock/services/snapshot.py:221-240 | what a mock remembers when exported is replayed on any server that has imported the export, through every sparing run there |
| Guards.UpstreamsAreGuarded | proxy_mock/utils.py:79-113 | in every run a request waiting for an upstream, of its mock or of the winning rule, has passed the loop guard and the method filter, goes to an allowed host, and does not belong to a replaying mock |
| Answers.AnswerExplained | proxy_mock/utils.py:67-157 | in every run every answer is the one called for: data served are the output, or the draw from the cursor in the state of that step, of the rule that decides, or else of the default; a proxied or live answer is the reply that ended the wait, from the allowed host of the mock or of that rule; a replay is what the look-up found; refusals, failures and exhaustion likewise |
| Answers.ModesDoNotMix | proxy_mock/api/schemas.py:76-87 | in every run a recording mock answers with replies of its upstream alone, live or replayed as its mode says, other mocks never do so, and what forwards a request has no sequence |
| Answers.EveryRequestIsAnswered | proxy_mock/utils.py:67-157 | whatever else runs, at most five suitable resumptions lie between the arrival of a request and its answer, and until then some input suits |
| Delays.DelaysAreKept | proxy_mock/utils.py:131-151 | in every run a served response has waited for the delay of the mock and for that of the rule that decides, zero delays apart, forwarding by a rule for the first alone, and every other answer for none |
| Delays.ComesOnce | proxy_mock/utils.py:67-82 | a request arrives once, so what explains its answer and what delayed it speak of one handler and one request |
| Runtime.MockApp.constructor | proxy_mock/repositories/mock_storage.py:11-13 | a new application is empty |
| Runtime.MockApp.DropMatching | proxy_mock/services/mock_service.py:38-40 | the loop over a copy of the route list, removing first equal elements, drops exactly the matching routes |
| Runtime.MockApp.RemoveRuntimeRoutes | proxy_mock/services/mock_service.py:31-40 | the objects end up as the value says: cursors and store popped, store retired, routes dropped |
| Runtime.MockApp.AddRoutes | proxy_mock/services/mock_service.py:102-106 | a path and its trailing-slash variant are appended |
| Runtime.MockApp.CreateStore | proxy_mock/services/mock_service.py:97-100 | a fresh store object becomes the store of the path |
| Runtime.MockApp.CreateCursors | proxy_mock/services/mock_service.py:101-102 | kept and fresh cursor objects become the cursors of the path |
| Runtime.MockApp.MockInitialization | proxy_mock/services/mock_service.py:80-106 | does to dictionaries, routes and objects what the value operation says, or changes nothing |
| Runtime.RetirementKeepsEntries | proxy_mock/services/mock_service.py:93-99 | handing over a store that has just been retired hands over the same entries |
| AdminHandlers.PutMock | proxy_mock/api/routes/admin.py:130-138 | the handler refines the value operation, with the same status |
| AdminHandlers.PatchMock | proxy_mock/api/routes/admin.py:142-175 | the handler refines the value operation, with the same status |
| AdminHandlers.DeleteMock | proxy_mock/api/routes/admin.py:179-190 | the handler refines the value operation, with the same status |
| AdminHandlers.CleanupStorage | proxy_mock/services/mock_service.py:52-61 | the loop over stored paths refines clearing |
| AdminHandlers.DeleteRecordings | proxy_mock/api/routes/admin.py:307-322 | the handler refines the value operation, with the same status |
| AdminHandlers.ResetSequence | proxy_mock/api/routes/admin.py:258-265 | the handler refines the value operation, with the same status |
| AdminHandlers.ValidateSnapshot | proxy_mock/services/snapshot.py:228-234 | both validation passes, neither of which touches the application |
| AdminHandlers.ImportSnapshot | proxy_mock/services/snapshot.py:221-240 | validation, optional clearing and the mutation loop refine the import of a value, with the same result |
| AdminHandlers.ExportSnapshot | proxy_mock/services/snapshot.py:105-119 | the loop over storage refines export, including its failure on a missing store |
| ApplyMocks.ServeDefault | proxy_mock/utils.py:137-149 | the default cursor or the static response, as the state machine says |
| ApplyMocks.ServeRule | proxy_mock/services/rule_engine.py:66-84 | the chosen rule reserves from its cursor unless it is proxied |
| ApplyMocks.Identified | proxy_mock/utils.py:92-101 | replay, or go on to record |
| ApplyMocks.Answered | proxy_mock/utils.py:117-129 | save under the captured revision and pass the reply on with its marker |
| ApplyMocks.Resume | proxy_mock/utils.py:75-155 | resuming a request does to cursors and stores what a step of the state machine does, and suspends alike |
| Server.MockServer.Take | proxy_mock/api/routes/admin.py:130-324 | every step of the server object is a step of the state machine |
| Server.MockServer.Serve | proxy_mock/utils.py:67-157 | every run of the server object is a run of the state machine |

## Left out

- HTTP transport, route matching and path compilation: "compiles" is a predicate of the environment, and a request may be dispatched to any route.
- Parsing of configuration (pydantic coercions, unknown fields, MessagePack and JSON): a function of the environment. That the real parser is sound and stable in the sense above is assumed of it.
- Header and query values in rule conditions are strings, as they are once serialized.
- Digest and size of recordings: functions of the environment. No digest is assumed to be injective; where a collision matters the statement says so.
- The key order of JSON objects; object equality ignores it, as the digest does.
- Durations: a delay is only a suspension, which Delays.DelaysAreKept counts. A cancelled request can be dropped at any suspension.
- Traffic history, settings, listing of mocks, OpenAPI and logging, with the suspensions they cause before a handler begins.
- Deep copies: values cannot be aliased, cursors and stores can.
- The `asyncio` locks: a locked section is one step. A locked section has no suspension inside, so waiting for the lock adds no behaviour.
- Response headers of plain proxying, URL building and upstream timeouts: an upstream answers or does not.
- The lenient base64 decoder used for replay: recorded bodies are canonical, on which both decoders agree, and the strict one is modelled.
- Entries with malformed header pairs or wrong field types: imported entries are typed, and their values are checked.
- Rules compare bodies of one type: a rule body equal to a number of another numeric type is not modelled, and rule timestamps are real numbers.
- The allowlist is fixed for a process; host names are not parsed.
- Texts of error messages, and the `mode` check of an import from the command line.
- The path inside the configuration that a route handler closes over: no handler reads it, and it is taken to be the path of the route.
- Reachable.RunOk: labels are required to be good; Reachable.RunOkIff shows that the invariant fails after any other. The same condition stands in the theorems on runs that rest on the invariant.
- ImportEffects.ImportEffect: stated for documents that keep the agreement, by SnapshotProofs.ImportKeepsAgreementIff; SnapshotProofs.ImportInstalls says what every other document installs.
- RoundTrip.SnapshotRoundTrip: recordings are required to be importable, as the import checks; Reachable.AnyServerCanBeRestored removes the premise for servers that recorded well-formed traffic.
