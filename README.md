# Wallet output database and DHT outbound serialisation, in Dafny

This project models two pieces of the Tari node and wallet stack and proves
properties of them.

1. **The wallet's in-memory output database** (`OutputManagerMemoryDatabase`
   and its `InnerDatabase`). It holds three ordered lists of outputs
   (unspent, spent, invalid), two maps from transaction id to the outputs a
   pending transaction spends and receives (the long-term map and the
   short-term map of encumbrances not yet confirmed), and an optional
   key-manager state. Every operation moves outputs between these
   collections or refuses with a specific storage error.
   - `output_types.dfy` (module `OutputTypes`) holds the keys, values, write
     operations and errors.
   - `output_spec.dfy` (module `OutputSpec`) describes each operation as a
     function from the old database to the new one and the result.
   - `memory_db.dfy` (module `MemoryDb`) is the database itself: a class
     whose fields are the lists and maps. Its methods update them step by
     step, with the same loops as the source. Each method is proved to leave
     the state and result that its `OutputSpec` function prescribes.
   - `output_properties.dfy` (module `OutputProperties`) proves what the
     operations promise together. Cancelling a fresh encumbrance whose id is
     not in the long-term map puts the taken outputs back at the end of the
     unspent list (as a multiset, not in their old places); when the id is
     also long-term, the cancel takes the long-term entry instead, and a
     witness shows it. For an id in neither map, no output is lost or
     duplicated along a transaction's life; reusing a pending id overwrites
     the older entry and loses its outputs, and a witness shows that too.
     When no id is
     in both maps, a timeout cancels exactly the expired entries; when an id is
     in both, it can cancel the wrong one, and a witness shows it. The
     source's quirks are stated as they are.
2. **The outbound serialisation stage of the DHT pipeline**
   (`SerializeMiddleware::serialize`), in `serialize.dfy` (module
   `DhtSerialize`). It decides whether a message is being forwarded. It signs
   the body when this node is the origin, wraps header and body in an
   envelope, encodes it, and addresses it to the destination peer's node id
   with the original tag and flags. Signing, the binary form of a signature
   and the envelope encoding are foreign code. They are modelled as
   function-valued fields of `Signer` and `EnvelopeCodec`, each of which may
   fail. The round trip of the codec is a predicate (`RoundTrips`) that the
   lemmas needing it take as a precondition.

Modelling choices:

- An output is its spending key plus an opaque payload.
- Timestamps and durations are integers in milliseconds. The wall clock
  (`Utc::now()`) is a `now` parameter.
- The iteration order of a `HashMap` is any enumeration of its keys. The
  methods whose result depends on that order return the order they used as
  a ghost result; `Fetch` merges the maps in an order that cannot change
  its result and returns none. The properties hold for every such order.
- `Duration::from_std` fails above `i64::MAX` milliseconds. It is called
  inside the loops of `timeout_pending_transactions`, so it fails only when
  a map being iterated is non-empty; the model does the same
  (`OutputSpec.PeriodTooLong`).

`serialize` signs the body alone; the rest of the header is not covered by
the origin signature (`DhtSerialize.SignatureIgnoresHeader`).

## Model

| member | source | states |
|---|---|---|
| MemoryDb.OutputManagerMemoryDatabase.constructor | base_layer/wallet/src/output_manager_service/storage/memory_db.rs:57-66 | a new database has empty lists, empty maps and no key-manager state |
| MemoryDb.OutputManagerMemoryDatabase.Fetch | base_layer/wallet/src/output_manager_service/storage/memory_db.rs:83-120 | returns what `OutputSpec.Fetch` describes and changes nothing; the merge of the two maps is done by a loop over the short-term map |
| OutputSpec.Fetch | base_layer/wallet/src/output_manager_service/storage/memory_db.rs:83-120 | a spent or unspent key returns the first output with that key in the matching list, iff there is one; one pending transaction is looked up in the long-term map first; the merged map holds the keys of both maps with short-term entries winning; lists and key-manager state come back as stored |
| MemoryDb.MergePending | base_layer/wallet/src/output_manager_service/storage/memory_db.rs:105-110 | the merged map has the keys of both maps; its value is the short-term one where there is one, the long-term one otherwise |
| MemoryDb.OutputManagerMemoryDatabase.Write | base_layer/wallet/src/output_manager_service/storage/memory_db.rs:122-177 | leaves exactly the state and result `OutputSpec.Write` prescribes |
| OutputSpec.InsertPair | base_layer/wallet/src/output_manager_service/storage/memory_db.rs:125-146 | inserting a spent or unspent output fails with `DuplicateOutput`, changing nothing, iff its key is in either list; otherwise the output is appended to the end of its list; a pending transaction is stored under its id; the key-manager state is set |
| OutputSpec.RemoveKey | base_layer/wallet/src/output_manager_service/storage/memory_db.rs:147-174 | removing a spent or unspent key deletes and returns the first output with it, or fails with `ValueNotFound`; a pending transaction is looked for in the long-term map only; aggregate keys fail with `OperationNotSupported` and change nothing |
| OutputSpec.Write | base_layer/wallet/src/output_manager_service/storage/memory_db.rs:122-177 | a failed write changes nothing; an insertion returns no value; a successful removal returns the removed value and is only possible for a spent, unspent or pending key |
| MemoryDb.FindPosition | base_layer/wallet/src/output_manager_service/storage/memory_db.rs:127-154 | the position search is the first position holding the key, or none, as `OutputSpec.IndexOfKey` gives it |
| OutputProperties.InsertThenRemoveUnspent | base_layer/wallet/src/output_manager_service/storage/memory_db.rs:134-159 | inserting a fresh unspent output and removing its key returns the output and restores the database |
| OutputProperties.RemoveIgnoresShortTerm | base_layer/wallet/src/output_manager_service/storage/memory_db.rs:160-168 | a pending transaction held only in the short-term map cannot be removed by key |
| OutputProperties.FetchPrecedence | base_layer/wallet/src/output_manager_service/storage/memory_db.rs:96-110 | for an id in both maps, fetching it gives the long-term entry while fetching all pending transactions gives the short-term one |
| OutputSpec.TakePending | base_layer/wallet/src/output_manager_service/storage/memory_db.rs:182-185 | an entry is taken iff the id is in one of the maps; the long-term entry is taken if there is one, else the short-term one, and only that map loses the id |
| MemoryDb.OutputManagerMemoryDatabase.TakePendingTransaction | base_layer/wallet/src/output_manager_service/storage/memory_db.rs:264-268 | takes the entry and leaves the state `OutputSpec.TakePending` gives, or changes nothing when the id is not pending |
| MemoryDb.OutputManagerMemoryDatabase.ConfirmTransaction | base_layer/wallet/src/output_manager_service/storage/memory_db.rs:179-201 | the two drain loops leave the state `OutputSpec.ConfirmTransaction` prescribes |
| OutputSpec.ConfirmTransaction | base_layer/wallet/src/output_manager_service/storage/memory_db.rs:179-201 | the transaction leaves the long-term map, or failing that the short-term map; its spent outputs are appended to spent and its received outputs to unspent, in order; an unknown id fails with `ValueNotFound` and changes nothing |
| MemoryDb.OutputManagerMemoryDatabase.TakeUnspentOutputs | base_layer/wallet/src/output_manager_service/storage/memory_db.rs:209-218 | the encumbering loop takes outputs exactly as `OutputSpec.TakeOutputs` describes |
| OutputSpec.TakeOutputs | base_layer/wallet/src/output_manager_service/storage/memory_db.rs:209-218 | the outputs taken match the requests' keys in request order, and the first one is the first unspent output with the first request's key; the loop completes iff every request was matched; when it stops early, the next request's key is absent from what remains |
| OutputProperties.TakeOutputsConserves | base_layer/wallet/src/output_manager_service/storage/memory_db.rs:209-218 | what remains and what was taken together form the multiset of the unspent outputs |
| OutputProperties.TakeOutputsKeepsOrder | base_layer/wallet/src/output_manager_service/storage/memory_db.rs:209-218 | the outputs encumbering does not take stay in the unspent list in their original order |
| OutputProperties.MissingRequestFails | base_layer/wallet/src/output_manager_service/storage/memory_db.rs:212-217 | a request whose key is not among the unspent outputs makes encumbering fail |
| OutputProperties.PresentRequestsSucceed | base_layer/wallet/src/output_manager_service/storage/memory_db.rs:212-217 | requests with distinct keys that are all unspent are all taken |
| MemoryDb.OutputManagerMemoryDatabase.ShortTermEncumberOutputs | base_layer/wallet/src/output_manager_service/storage/memory_db.rs:203-234 | leaves the state and result `OutputSpec.ShortTermEncumber` prescribes |
| OutputSpec.ShortTermEncumber | base_layer/wallet/src/output_manager_service/storage/memory_db.rs:203-234 | on success, a new short-term entry holds the taken outputs as spent, the change output (if any) as the only received output, and the time `now`; on failure the result is `ValuesNotFound`, and the outputs taken before the missing one stay removed |
| OutputProperties.FailedEncumberLosesOutputs | base_layer/wallet/src/output_manager_service/storage/memory_db.rs:212-217 | a concrete failed encumbrance after which the output taken first is in no list and no map |
| OutputProperties.EncumberThenCancel | base_layer/wallet/src/output_manager_service/storage/memory_db.rs:203-278 | for an id not in the long-term map, cancelling a fresh encumbrance succeeds, puts the taken outputs back at the end of what the encumbrance left (so the multiset of unspent outputs is restored), and removes only that short-term entry |
| OutputProperties.EncumberThenCancelReorders | base_layer/wallet/src/output_manager_service/storage/memory_db.rs:203-278 | a concrete case where encumbering and cancelling leaves the unspent outputs in a different order |
| OutputProperties.EncumberOverLongTermCancelsLongTerm | base_layer/wallet/src/output_manager_service/storage/memory_db.rs:203-278 | a concrete case where the id is already long-term: encumbering overwrites nothing, the cancel releases the long-term entry's outputs, and the encumbered output stays in the short-term entry |
| MemoryDb.OutputManagerMemoryDatabase.ConfirmEncumberedOutputs | base_layer/wallet/src/output_manager_service/storage/memory_db.rs:236-247 | leaves the state and result `OutputSpec.ConfirmEncumbered` prescribes |
| OutputSpec.ConfirmEncumbered | base_layer/wallet/src/output_manager_service/storage/memory_db.rs:236-247 | the short-term entry moves to the long-term map under the entry's own id, and the lists are untouched; an id missing from the short-term map fails with `ValueNotFound` and changes nothing |
| OutputProperties.EncumberThenConfirm | base_layer/wallet/src/output_manager_service/storage/memory_db.rs:203-247 | confirming a fresh encumbrance files it under its id in the long-term map |
| OutputProperties.EncumberConfirmLifecycle | base_layer/wallet/src/output_manager_service/storage/memory_db.rs:179-247 | encumber, confirm the encumbrance, then confirm the transaction: exactly the requested outputs become spent, the change output becomes unspent, and the unspent and spent lists together gain exactly the change output; for an id in neither map, both maps end as they started, so no output is lost or duplicated |
| OutputProperties.ReusedIdLosesOutputs | base_layer/wallet/src/output_manager_service/storage/memory_db.rs:203-247 | a concrete case where encumbering under an id already in the long-term map and confirming it overwrites the older entry, whose output then ends up in no list and no map |
| OutputProperties.ShortTermKeyedInvariant | base_layer/wallet/src/output_manager_service/storage/memory_db.rs:122-331 | the empty database and every single operation (write, encumber, confirm the encumbrance, confirm, cancel, invalidate, increment the key index) keep each short-term entry under its own id, so confirming an encumbrance stores the same entry under the id it was confirmed by |
| OutputProperties.CancelAllKeepsShortTermKeyed | base_layer/wallet/src/output_manager_service/storage/memory_db.rs:249-301 | a sequence of cancels keeps each short-term entry under its own id |
| MemoryDb.OutputManagerMemoryDatabase.CancelPendingTransaction | base_layer/wallet/src/output_manager_service/storage/memory_db.rs:262-278 | the drain loop leaves the state `OutputSpec.Cancel` prescribes |
| OutputSpec.Cancel | base_layer/wallet/src/output_manager_service/storage/memory_db.rs:262-278 | the transaction leaves the long-term map, or failing that the short-term map; its spent outputs return to unspent and its received outputs are dropped; an unknown id fails with `ValueNotFound` and changes nothing |
| OutputProperties.CancelOnce | base_layer/wallet/src/output_manager_service/storage/memory_db.rs:262-278 | a transaction whose id is held in only one of the maps can be cancelled once; a second cancel fails and changes nothing |
| OutputSpec.CancelAll | base_layer/wallet/src/output_manager_service/storage/memory_db.rs:255-257 | cancelling in turn, stopping at the first failure: no ids changes nothing; spent, invalid and key-manager state are kept, unspent only grows and the maps only shrink |
| OutputSpec.CancelAllOutcome | base_layer/wallet/src/output_manager_service/storage/memory_db.rs:255-257 | each successful cancel of the sequence takes exactly one entry out of the maps; a failure reports an id of the sequence as not found |
| MemoryDb.OutputManagerMemoryDatabase.CancelEach | base_layer/wallet/src/output_manager_service/storage/memory_db.rs:296-298 | the cancelling loop leaves the state and result `OutputSpec.CancelAll` prescribes |
| OutputProperties.CancelAllDistinct | base_layer/wallet/src/output_manager_service/storage/memory_db.rs:262-278 | cancelling distinct ids that are all pending succeeds; each id leaves the long-term map if it is there, and the short-term map otherwise |
| OutputProperties.CancelAllReleases | base_layer/wallet/src/output_manager_service/storage/memory_db.rs:273-275 | cancelling distinct pending ids appends to unspent, id after id, the outputs of the entry each id's cancel takes |
| MemoryDb.MapKeys | base_layer/wallet/src/output_manager_service/storage/memory_db.rs:256 | lists each key of the map exactly once, in some order; it stands for the `HashMap` iteration of `keys()` here and of `iter()` at lines 107, 284 and 289 |
| MemoryDb.OutputManagerMemoryDatabase.ClearShortTermEncumberances | base_layer/wallet/src/output_manager_service/storage/memory_db.rs:249-260 | cancels the snapshot's short-term ids in the order it enumerated them |
| OutputProperties.ClearReleasesShortTerm | base_layer/wallet/src/output_manager_service/storage/memory_db.rs:249-260 | for any order, clearing succeeds and puts back on unspent, id after id, the outputs of each id's entry; an id in both maps cancels the long-term entry and keeps its short-term entry; every other short-term entry is gone |
| OutputProperties.ClearDisjoint | base_layer/wallet/src/output_manager_service/storage/memory_db.rs:249-260 | with no id in both maps, clearing empties the short-term map, leaves the long-term map alone and puts back every short-term entry's outputs in iteration order |
| MemoryDb.CollectExpired | base_layer/wallet/src/output_manager_service/storage/memory_db.rs:284-293 | collects the expired ids of a map in iteration order, or fails with `DurationOutOfRange` when the period does not fit and the map is non-empty |
| OutputSpec.ExpiredIds | base_layer/wallet/src/output_manager_service/storage/memory_db.rs:284-293 | holds exactly the visited ids whose entries are stamped more than the period before `now`, without repeats |
| OutputSpec.Expired | base_layer/wallet/src/output_manager_service/storage/memory_db.rs:285-290 | an entry has expired when its timestamp plus the period is before `now` |
| OutputSpec.PeriodTooLong | base_layer/wallet/src/output_manager_service/storage/memory_db.rs:285-290 | a period above `i64::MAX` milliseconds cannot be converted by chrono |
| MemoryDb.OutputManagerMemoryDatabase.TimeoutPendingTransactions | base_layer/wallet/src/output_manager_service/storage/memory_db.rs:280-301 | leaves the state and result `OutputSpec.Timeout` prescribes for the iteration orders it used |
| OutputSpec.Timeout | base_layer/wallet/src/output_manager_service/storage/memory_db.rs:280-301 | a period too long for chrono fails with `DurationOutOfRange` and changes nothing when anything is pending; otherwise the expired long-term ids, then the expired short-term ids, are cancelled (see `OutputProperties.TimeoutOverlapCancelsFreshEntry` for an id in both maps) |
| OutputProperties.TimeoutCancelsExactlyExpired | base_layer/wallet/src/output_manager_service/storage/memory_db.rs:280-301 | with no id in both maps, a timeout succeeds, keeps exactly the entries that have not expired in both maps for any iteration orders, and appends to unspent exactly the outputs of the expired entries, in the order visited |
| OutputProperties.TimeoutOverlapCancelsFreshEntry | base_layer/wallet/src/output_manager_service/storage/memory_db.rs:289-297 | a concrete database with one id in both maps where a timeout cancels the unexpired long-term entry and keeps the expired short-term one |
| OutputProperties.TimeoutPeriodTooLong | base_layer/wallet/src/output_manager_service/storage/memory_db.rs:284-291 | a period too long for chrono fails iff something is pending, and then changes nothing |
| MemoryDb.OutputManagerMemoryDatabase.InvalidateUnspentOutput | base_layer/wallet/src/output_manager_service/storage/memory_db.rs:303-317 | leaves the state and result `OutputSpec.Invalidate` prescribes |
| OutputSpec.Invalidate | base_layer/wallet/src/output_manager_service/storage/memory_db.rs:303-317 | the first unspent output with the key moves to the end of the invalid list; with no such output the result is `ValuesNotFound` and nothing changes |
| OutputProperties.InvalidateConserves | base_layer/wallet/src/output_manager_service/storage/memory_db.rs:303-317 | invalidation loses no output: unspent and invalid together keep their multiset |
| MemoryDb.OutputManagerMemoryDatabase.IncrementKeyIndex | base_layer/wallet/src/output_manager_service/storage/memory_db.rs:319-331 | leaves the state and result `OutputSpec.IncrementKeyIndex` prescribes |
| OutputSpec.IncrementKeyIndex | base_layer/wallet/src/output_manager_service/storage/memory_db.rs:319-331 | without a key-manager state the result is `KeyManagerNotInitialized`; otherwise the primary key index grows by exactly one and nothing else changes |
| OutputProperties.IncrementThenFetch | base_layer/wallet/src/output_manager_service/storage/memory_db.rs:319-331 | a stored key-manager state is fetched back with its index advanced by one |
| DhtSerialize.OutboundHeader | comms/dht/src/outbound/serialize.rs:91-118 | signing fails iff the message is not forwarded, has an origin, and signing or the signature's binary form fails, with the matching error; otherwise only the origin's signature may change, its public key staying as it was |
| DhtSerialize.IsForwarded | comms/dht/src/outbound/serialize.rs:91-96 | a message is forwarded iff its header has an origin whose public key is not the local one |
| DhtSerialize.Serialize | comms/dht/src/outbound/serialize.rs:75-132 | the emitted message keeps the tag and comms flags and is addressed to the destination peer's node id; header errors pass through; encoding failure gives `EnvelopeEncodingFailed` |
| DhtSerialize.SignerUsedIffOwnOrigin | comms/dht/src/outbound/serialize.rs:91-117 | with a signer that fails, the header step fails iff the header's origin carries the local public key: the signer is used exactly when this node is the named origin |
| DhtSerialize.ForwardedHeaderUnchanged | comms/dht/src/outbound/serialize.rs:98-104 | a forwarded header, signature included, goes out unchanged whatever the signer does |
| DhtSerialize.NoOriginUnchanged | comms/dht/src/outbound/serialize.rs:106-107 | a header without an origin is left unchanged |
| DhtSerialize.OwnMessageSigned | comms/dht/src/outbound/serialize.rs:106-117 | a message this node originates gets the binary form of the body's signature under the local secret key; the origin key is the local one and nothing else changes |
| DhtSerialize.SignatureIgnoresHeader | comms/dht/src/outbound/serialize.rs:108-110 | the signature depends on the body only, not on the rest of the header |
| DhtSerialize.SerializeRoundTrip | comms/dht/src/outbound/serialize.rs:120-122 | with a codec that round-trips, decoding the emitted bytes gives the sent header and the original body |
| DhtSerialize.SerializeFailures | comms/dht/src/outbound/serialize.rs:108-110 | a signing failure or a failure of the signature's binary form is returned as an error, and nothing is emitted |
| DhtSerialize.OwnMessageVerifies | comms/dht/src/outbound/serialize.rs:106-122 | with a sound signature scheme, a decoded own message carries an origin signature that verifies against the origin key over the body |

## Left out

- Concurrency: the `Arc<RwLock<…>>` and its lock macros are dropped, so the database is single-threaded. `clear_short_term_encumberances` and `timeout_pending_transactions` release the lock before cancelling. The model runs their cancels in sequence and does not model other threads acting in between.
- OutputSpec.Timeout: `Utc::now()` is read anew for every entry compared. The model uses one `now` for the whole call.
- MemoryDb.OutputManagerMemoryDatabase.TimeoutPendingTransactions: adding a chrono duration to a timestamp can overflow the date range and panic. Timestamps here are unbounded integers, so that panic is not modelled.
- OutputSpec.IncrementKeyIndex: `primary_key_index` is a `usize`. The model's index is an unbounded `nat`, so overflow is not modelled.
- `HashMap` iteration order is an arbitrary enumeration of the keys, chosen by `MemoryDb.MapKeys`. The order the standard library would actually produce is not modelled.
- The internals of `UnblindedOutput` (value, features, blinding factor) and of `KeyManagerState` beyond `primary_key_index` are an opaque payload and seed bytes.
- The database's trait plumbing and boxing of values carry no behaviour and are not modelled.
- Cryptography and encoding: `signature::sign`, `to_binary`, `OsRng`, the header's conversion into its protobuf form and `to_encoded_bytes` are parameters (`Signer`, `EnvelopeCodec`). Their round trip and soundness are assumed as preconditions, not proved.
- Each `Signer` fixes one nonce: `signature::sign` draws a fresh nonce from `OsRng` on every call, so the equal signatures of `DhtSerialize.SignatureIgnoresHeader` hold in the program only for one fixed nonce.
- `DhtSerialize.Serialize` ends with the message handed to the next service. The next service's own result and the async `oneshot` call are not modelled.
- `poll_ready`, `call`, `SerializeLayer` and the logging in serialize.rs are tower and futures plumbing with no behaviour of their own. They are not modelled.
- The fields of `DhtOutboundMessage` that `serialize` ignores (such as the requested encryption) are not part of the modelled record.
- base_layer/core/src/proof_of_work/tsa_diff.rs, applications/tari_base_node/src/main.rs and common/src/lib.rs are not part of this model. They are floating-point difficulty arithmetic and process I/O.
