# BrandAssoc storage protocol, modelled in Dafny

BrandAssoc is a single React component (`frontend/web/src/App.tsx`) that records
"brand association" entries in a contract that only offers `getData(key)`,
`setData(key, bytes)` and `isAvailable()`. To keep a collection in that flat
key-value store, the component keeps one index key, `"association_keys"`. It
holds a JSON array of ids. Each record sits under `"association_" + id`. This
project models that protocol and the views computed from it:

- **Reload** (`loadAssociations`). It reads the index and then each record. It
  skips any record that cannot be read or parsed, sorts the rest newest first,
  and replaces the collection. It leaves the collection alone when the contract
  is missing or unavailable.
- **Add** (`addAssociation`). It writes the record first. It then reads the
  index, appends the id and writes the index back. The status notification goes
  to pending, then to success or to a classified error. After a success the
  collection is reloaded.
- **View**. The search-and-tab filter (`filteredAssociations`) and the
  statistics panel (count, average, high and low counts).
- **Form guard** (`ModalAdd.handleSubmit`). Brand and platform must both be
  filled in.

Modules, one per file: `Wrappers` (Option/Outcome), `Strings` (ASCII
lower-casing, substring search), `Codec` (the blob format), `KeyValue` (store,
keys, injected faults), `Collection` (the association record and the stable
newest-first sort), `Sync` (reload and the two-phase write), `View` (filter and
statistics) and `App` (component state and transitions).

The backend is an immutable `map<string, Blob>`. An absent key reads as the
empty blob. Faults are inputs:

- `reader` says whether `getContractReadOnly`/`isAvailable` let a reload through.
- `signer` is what `getContractWithSigner` yields.
- `getErrors` and `setErrors` list the keys whose `getData` or `setData` throws,
  each with its message.

Every operation is a pure function of the store, the faults and its inputs. The
outputs are a new store, the list of contract calls issued (so that write
ordering can be stated), and the statuses shown.

Behaviour of the code worth noting:

- The index append does not de-duplicate: a repeated id is listed twice.
- Add checks for a connected provider, not for a non-empty account.
- A failed record write and a failed index update both end in the error status,
  with the message built the same way from the error that was thrown. The status
  does not say which step failed; only the calls issued and the store left behind do.
- Add does not call `isAvailable`.
- The score is not validated. The form starts at score 0.

## Model

| member | source | states |
|---|---|---|
| Codec.IndexCodecIff | frontend/web/src/App.tsx:184-197 | an index blob parses to a list of ids exactly when it is that list's serialisation (round trip both ways) |
| Codec.RecordFieldRoundTrip | frontend/web/src/App.tsx:166-179 | every field of a serialised record (platform, brand, score, data, timestamp, owner) parses back unchanged |
| Codec.RecordRoundTrip | frontend/web/src/App.tsx:105-116 | parsing a written record yields the five fields reload reads from it |
| Codec.MembersRoundTrip | frontend/web/src/App.tsx:108 | parsing a serialised object body gives back its members in order |
| KeyValue.IdsIn | frontend/web/src/App.tsx:90-99 | a non-empty id list read from the index is exactly what the blob encodes; an empty or unparseable blob lists no ids |
| KeyValue.IdsInEncoded | frontend/web/src/App.tsx:181-197 | reading back a written index lists exactly the ids written |
| KeyValue.RecordKeyInjective | frontend/web/src/App.tsx:105 | two ids share a record key exactly when they are equal |
| KeyValue.DashedIdAvoidsIndex | frontend/web/src/App.tsx:164-177 | an id containing `-` never yields the index key as its record key |
| KeyValue.GeneratedIdAvoidsIndex | frontend/web/src/App.tsx:164 | the `<millis>-<suffix>` id form never collides with the index key |
| Collection.Insert | frontend/web/src/App.tsx:126 | inserting into a newest-first list keeps it newest first and adds exactly the one element |
| Collection.SortNewestFirst | frontend/web/src/App.tsx:126 | the sort's result is newest first and a permutation of its input |
| Collection.InsertKeepsTies | frontend/web/src/App.tsx:126 | an inserted element goes in front of every element that has the same timestamp |
| Collection.SortIsStable | frontend/web/src/App.tsx:126 | elements with equal timestamps keep their original relative order |
| Sync.Resolve | frontend/web/src/App.tsx:103-123 | a record resolves exactly when its read does not throw and its blob parses; the association carries the index id, and its platform, brand, score, data and timestamp are the parsed record's fields |
| Sync.CollectedMembers | frontend/web/src/App.tsx:101-124 | an association is collected exactly when some index id resolves to it |
| Sync.CollectedIds | frontend/web/src/App.tsx:101-124 | the collected ids are the index ids whose records resolve, in index order, repeats kept |
| Sync.CollectedSkipsOnly | frontend/web/src/App.tsx:103-124 | a record that stops resolving removes only itself; every other record is collected as before |
| Sync.CorruptRecordDropsOnlyItself | frontend/web/src/App.tsx:106-119 | overwriting one record with an unparseable blob drops that record and nothing else |
| Sync.FailedReadDropsOnlyItself | frontend/web/src/App.tsx:104-123 | a throwing read of one record drops that record and nothing else |
| Sync.LoadAssociations | frontend/web/src/App.tsx:77-134 | reload produces a collection exactly when the contract is present and available and the index read does not throw; that collection is newest first, with the same members as the resolved records |
| Sync.ReloadMembership | frontend/web/src/App.tsx:101-127 | after reload, an association is listed exactly when an index id equal to its id resolves to it |
| Sync.ReloadIsStable | frontend/web/src/App.tsx:126 | reload keeps index order among associations with equal timestamps |
| Sync.BrokenIndexReloadsEmpty | frontend/web/src/App.tsx:90-99 | an empty or unparseable index reloads as the empty collection instead of failing |
| Sync.WriteAssociation | frontend/web/src/App.tsx:149-203 | the calls are always a prefix of: write the record, read the index, write the index, and a successful add issues all three; the contract is called exactly when encryption and the signer lookup succeed; a throw before the record write (encryption, no signer, signer lookup) issues no call, writes nothing and reports that step's own message; a failure after it reports the message of the call that threw, which is the last call issued; a throwing record write stores nothing; the index is read only after the record write succeeded and written only after the index read succeeded too; a failed add leaves the index blob unchanged; only the record and index keys change; on success the index is the old ids plus the new id and the record holds the draft, timestamp and owner |
| Sync.AppendKeepsDuplicates | frontend/web/src/App.tsx:181-197 | appending an id that is already listed lists it once more (no de-duplication) |
| Sync.CorruptIndexRestartsList | frontend/web/src/App.tsx:181-192 | when the old index is unparseable, the new index is exactly the new id |
| Sync.RecordWriteFailureWritesNothing | frontend/web/src/App.tsx:176-181 | when the record write throws, that write is the only call made and the store is unchanged |
| View.FilterView | frontend/web/src/App.tsx:267-277 | the filtered list keeps an association exactly when it matches the search and the tab's band, each with its full multiplicity |
| View.FilterKeepsOrder | frontend/web/src/App.tsx:267 | the filtered list is an order-preserving subsequence of the collection |
| View.EmptySearchMatches | frontend/web/src/App.tsx:268-269 | the empty search term matches every association |
| View.EmptySearchListsAll | frontend/web/src/App.tsx:267-271 | an empty search on the all tab lists the whole collection |
| View.EmptySearchSelectsBand | frontend/web/src/App.tsx:267-274 | with an empty search, a tab lists exactly the associations in its score band |
| View.UnknownTabSearchesOnly | frontend/web/src/App.tsx:271-276 | an unknown tab filters by the search term alone, like the all tab |
| View.SearchIgnoresCase | frontend/web/src/App.tsx:268-269 | searching for a term and for its lower-cased form list the same associations |
| View.BandsPartition | frontend/web/src/App.tsx:271-274 | for a fixed search term, the high, medium and low tabs together list exactly what the all tab lists |
| View.BandsSplitAt | frontend/web/src/App.tsx:271-274 | each association's copies under the all tab are the sum of its copies under the high, medium and low tabs |
| View.TabBands | frontend/web/src/App.tsx:271-276 | the all tab selects every score, and the high, medium and low tabs select score >= 7, 4 to 6, and < 4 |
| View.Average | frontend/web/src/App.tsx:45-47 | the average is 0 for the empty collection, and otherwise the count times the average is the score sum |
| View.Summarize | frontend/web/src/App.tsx:44-47 | count is the collection length; the average is 0 when empty and otherwise times the count gives the score sum; the high count (App.tsx:375) is the size of the high tab (score >= 7) and the low count (App.tsx:381) the size of the low tab (score < 4), both over the whole collection under an empty search; high plus low count is at most the count |
| View.HighLowBound | frontend/web/src/App.tsx:375-381 | no association counts as both high and low |
| View.HighCountMatchesTab | frontend/web/src/App.tsx:375 | the panel's high count equals the size of the high tab under an empty search |
| View.LowCountMatchesTab | frontend/web/src/App.tsx:381 | the panel's low count equals the size of the low tab under an empty search |
| View.AverageWithinScores | frontend/web/src/App.tsx:45-47 | the average lies between the lowest and the highest score |
| App.Refresh | frontend/web/src/App.tsx:77-134 | refreshing clears `isRefreshing` and `loading` on every path; the collection is unchanged when reload stops early; otherwise it is exactly what reload produced: newest first, holding exactly the resolved records, each as many times as it was collected; no other state changes |
| App.RefreshKeepsTieOrder | frontend/web/src/App.tsx:101-127 | after a refresh that reloads, associations with equal timestamps appear in index order |
| App.FailureMessage | frontend/web/src/App.tsx:217-220 | the message is "Transaction rejected by user" exactly when the error text contains "user rejected transaction"; otherwise it is "Submission failed: " followed by the error text, or by "Unknown error" when the error text is empty |
| App.AddAssociation | frontend/web/src/App.tsx:136-234 | without a provider nothing changes; otherwise it shows pending, then success or the classified error, and ends with `adding` cleared; after a failure only the status and `adding` change; after a success the state is the refreshed one (collection and load flags) with the success status and `adding` cleared, and nothing else changes |
| App.SubmitForm | frontend/web/src/App.tsx:542-549 | nothing is submitted unless both brand and platform are non-empty |
| App.AutoReset | frontend/web/src/App.tsx:207-230 | the timed reset hides the notification; after a success it also closes the modal and clears the form; no other field changes |
| App.NoProviderNoWrite | frontend/web/src/App.tsx:137-140 | without a provider, add issues no contract call and writes nothing |
| App.StatusLifecycle | frontend/web/src/App.tsx:143-230 | one add moves the status Idle, Pending, Succeeded or Failed, then back to Idle |
| App.RejectionIsReported | frontend/web/src/App.tsx:217-226 | a failed add ends at the rejection message exactly when the error text names the user's rejection |
| App.IndexWriteRejectionIsReported | frontend/web/src/App.tsx:194-226 | when the user rejects the index write after the record write went through, the add shows "Transaction rejected by user" and the record is stored while the index is not changed |
| App.RecordWriteFailureKeepsIndex | frontend/web/src/App.tsx:176-181 | a throwing record write issues only that call, leaves the store and index unchanged, and ends in Failed |
| App.AddedAssociationIsListed | frontend/web/src/App.tsx:166-205 | after a successful add, the reloaded collection lists the new association with the form's fields and the given timestamp |
| App.OrphanIsNotListed | frontend/web/src/App.tsx:176-197 | when the record write succeeds but the index update fails, for an id the index does not already list, the record is stored but no later reload lists it, whatever faults that reload meets |

## Left out

- Wallet connection, `onWalletSelect`, `onDisconnect` and the `accountsChanged` listener (App.tsx:53-75). `WalletManager`, `WalletSelector` and `./contract` are not part of this model. The provider's presence and the account are plain state fields.
- `checkAvailability` (App.tsx:236-265). It is an I/O probe that only feeds the notification.
- Rendering, JSX, CSS class derivations, the stats toggle and the modal's field-editing handlers (`handleChange`, `handleScoreChange`). The form is a state field.
- UTF-8 and JSON text. A blob is a stream of JSON tokens. Well-formed JSON of a shape the code does not expect is treated as a parse failure. Examples: an index that is not an array of strings, or a record whose fields have the wrong types. JavaScript would do something looser instead: iterate a string, throw on a non-iterable value, or read a missing field as `undefined`.
- Sync.LoadAssociations: an index that is well-formed JSON but not iterable (a number, an object or `null`) counts as unparseable here, so reload yields the empty collection (Sync.BrokenIndexReloadsEmpty). In `loadAssociations` the `for...of` loop (App.tsx:103) throws into the outer catch instead, and the collection is left unchanged. An index that is a JSON string is iterated character by character there. The token stream does not separate such values from malformed text.
- Sync.WriteAssociation: an old index that is well-formed JSON but not an array (a number, a string, an object or `null`) is treated like unparseable text, so the add goes on and writes `[id]`. In `addAssociation` `keys.push` (App.tsx:192) throws on such a value: the add fails after the record write and leaves an orphan record. The token stream does not separate well-formed JSON of another shape from malformed text.
- Sync.CorruptIndexRestartsList: an old index that is an array holding non-strings (numbers, say) counts as unparseable here, so it is replaced by `[id]`. `addAssociation` keeps such an array and appends the id to it. The model's index holds only strings.
- The `FHE-` + `btoa` encryption stand-in. Its result, or the error it throws, is the `cipher` parameter.
- `Date.now`, `Math.random` and id generation. The id and the timestamp are parameters. `FormatId` records only the id's shape.
- The `setTimeout` delays. The timer firing is the explicit `AutoReset` transition.
- Floating-point division and `toFixed(1)`. The average is an exact `real`.
- Unicode case mapping. `toLowerCase` is modelled on ASCII letters only.
- Transaction mining. `setData` resolves once a transaction is sent, but the model applies each write at once. Effects of a write not yet being mined (a reload that misses it, an index read that is stale) are not modelled.
- Concurrency and interleaving of handlers, including the disabled refresh and submit buttons. Each transition runs to completion.
- `getContractReadOnly` or `isAvailable` throwing is folded into `NoContract`/`Unavailable`. `loadAssociations` ends that way too: the collection is unchanged and the flags are cleared.
