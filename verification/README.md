# nghttp2 and the Unbound iterator: a model and its proofs

This project models five parts of the repository and proves what they are for.

- **HPACK** (`http2/src/upstream/lib/nghttp2_hd.c`, RFC 7541). `IntegerCodec`, `HeaderTable`, `HpackEncoder` and
  `HpackDecoder` say what encoder and decoder compute; the decoder is a fold over single bytes. The classes
  `HpackRing.Ring`, `HpackIndex.HdMap`, `HpackContext.HdContext`, `HpackDeflater.Deflater` and
  `HpackInflater.Inflater` do it in place, as nghttp2 does: a ring buffer whose head wraps, hash chains, sequence
  numbers modulo 2^32, a machine of 13 states that stops and resumes at any byte. `HpackConnection` puts both ends
  together, `HpackChoices` is about what the encoder chooses and `HpackRejects` about what the decoder refuses.
  `SettingsCollapse` is about repeated settings.
- **The dependency tree and its weighted fair queues** (`nghttp2_stream.c`, section 5.3 of RFC 7540).
  `DepForest`, `DepLinks`, `DepWeights` and `DepQueue` describe parents, pointers, weight sums and queues one at a
  time, `DepOperations` puts them together as `Sound`; the in-place operations are in `DepTree`, `DepItems` and
  `DepPriority`. `DepClock`, `DepWindow`, `DepRest`, `DepRuns` and `DepFairness` are about the virtual clock;
  `DepHistory` is about runs of everything from the first stream on, and `DepOutcomes` about what each operation does
  to parents, children, weights and items.
- **The session** (`nghttp2_session.c`): flow control between two endpoints and against any peer (`FlowLedger`,
  `FlowSafety`, `FlowRuns`, `FlowUpdates`, `FlowOverdrawn`, `FlowSender`, in place in `FlowSession`), the scheduler of
  RFC 9218 (`UrgencySched`, `UrgencyFairness`, `UrgencyOutcomes`, in place in `UrgencySession`), and which streams are
  kept (`StreamBook`, in place in `StreamLists`).
- **Frames** (`nghttp2_frame.c` and the receiving states of `nghttp2_session.c`): frame headers, padding, header
  blocks over several frames, DATA in pieces (`FrameHeader`, `FramePadding`, `HeaderFrames`, `HeaderReader`,
  `DataFrames`).
- **CNAME chasing** (`dns/src/upstream/iterator/iterator.c`, section 3.6.2 of RFC 1034): `CnameChain`, in place in
  `IterPrepend`.

Each in-place method is proved to do what a function says (`Tbl`, `Value`, `Shown` give the state of the objects as
a value), and what the code promises is proved of the functions.

How things are modelled:

- A byte is an integer in 0..255; masks and shifts are written as arithmetic, with 32- and 64-bit wrap-around and
  every overflow check written out.
- Header tokens are modelled by their meaning, the place of a name in the static table or among the seven names
  beyond it; the stored hashes of the static table are a parameter. The Huffman code is any streaming code with a round-trip law (`Huffman.Lawful`).
- `nghttp2_pq` is a set together with any choice of a first element (`DepItems.PqTop`), `nghttp2_map` a map, a chain
  of `nghttp2_bufs` a byte sequence or an array of them. `nghttp2_should_send_window_update` is any rule that does not
  ask for an empty update.
- The tree is a map from ids to objects and a set of all of them; ranks that grow from parent to child are the
  witness that there is no cycle, and every operation's theorem says which ranks come next.
- Whether an id is idle is a parameter of `Reprioritize`, as `session_detect_idle_stream` answers it.
- Domain names are sequences of labels in lower case, so `query_dname_compare` is equality.

## Findings

Three properties do not hold of the code without a condition; each condition is exact.

- *An over-long literal.* The encoder emits literals of any length, but the decoder refuses any encoded string over
  65536 bytes. A connection is faithful if and only if no such literal is sent: `HpackConnection.ConnectionRoundTrip`.
  `HpackConnection.ZeroesAreRefused` is an input that shows it.
- *A lost carry.* `nghttp2_stream_change_weight` recovers the carry modulo the weight. After a change to a weight not
  above the carry, or one whose turn comes out before the parent's clock and is set to it, the next change starts from
  another carry or base: `DepClock.RecoveryNeedsSmallCarry` (if and only if; both guards, `OldCarry(y, before) < weight`
  and `NotBehind`, are on fields that are there before the change), and `DepLostCarry.CarryIsLost` shows a run in which
  it happens.
- *A WINDOW_UPDATE that fails.* After a queued WINDOW_UPDATE has left, the receive window is checked again with no new
  bytes. If the window was lowered below what had come in meanwhile, by the peer's acknowledgement of a smaller
  SETTINGS_INITIAL_WINDOW_SIZE, FLOW_CONTROL_ERROR is raised although the peer did nothing wrong. This is the only
  case: `FlowRuns.FailsOnlyOverdrawn` (if and only if), `FlowOverdrawn.UpdateFails` (a run). The stream is reset; the
  ledgers of the connection and of all other streams survive that: `FlowRuns.LedgersHold`. It cannot happen if no
  submitted value is lower than the one before: `FlowRuns.RisingFromStart`.

## Model

| member | source | states |
|---|---|---|
| IntegerCodec.IntRoundTrip | http2/src/upstream/lib/nghttp2_hd.c:794-915 | Decoding the encoding of n followed by any bytes gives back n and its length for every n up to 2^32-1, and fails for every larger n, for every prefix of 4 to 7 bits. |
| IntegerCodec.DecodeResumes | http2/src/upstream/lib/nghttp2_hd.c:853-915 | A read that stops after any byte and resumes from the saved (value, shift) gives what one uninterrupted read gives, errors included. |
| IntegerCodec.EncodeLength | http2/src/upstream/lib/nghttp2_hd.c:794-834 | In place: writes exactly the encoding under the bits already in the first byte, as many bytes as were counted, and leaves the rest of the buffer alone. |
| IntegerCodec.DecodeLength | http2/src/upstream/lib/nghttp2_hd.c:853-915 | The loop with its overflow checks computes the byte-by-byte reading: value, shift, finished or not, and the -1 exactly when a 32-bit value overflows. |
| IntegerCodec.ScratchBufferSuffices | http2/src/upstream/lib/nghttp2_hd.c:794-809 | No 64-bit length needs more than 11 bytes, so the 16-byte scratch buffers of the encoder are large enough. |
| HpackRing.PushSlots | http2/src/upstream/lib/nghttp2_hd.c:593-672 | With a head that counts down through zero and wraps at 2^64, pushing renames no entry that is kept and the new slot is none of theirs. |
| HpackRing.Ring.Reserve | http2/src/upstream/lib/nghttp2_hd.c:614-637 | Growing to the next power of two keeps every entry in its place in the order. |
| HpackRing.Ring.PushFront | http2/src/upstream/lib/nghttp2_hd.c:653-667 | The new entry is first and all others follow in order, whether or not the ring had to grow. |
| HpackRing.Ring.PopBack | http2/src/upstream/lib/nghttp2_hd.c:669-672 | Only the oldest entry goes. |
| HpackRing.Ring.Get | http2/src/upstream/lib/nghttp2_hd.c:608-612 | Index i is the i-th newest entry. |
| HpackIndex.BucketScanIsTableScan | http2/src/upstream/lib/nghttp2_hd.c:533-575 | The first match in a name's bucket, newest first, is the first match in the whole table. |
| HpackIndex.ChainScanIsTableScan | http2/src/upstream/lib/nghttp2_hd.c:533-591 | With chains and ring holding the same entries, a chain's first match is the entry at the position that a linear scan of the table's headers finds, for whole headers and for names. |
| HpackIndex.ChainsAfterInsert | http2/src/upstream/lib/nghttp2_hd.c:533-546 | Linking a new entry in front of its bucket keeps all 128 chains well formed and in the order of the table. |
| HpackIndex.ChainsAfterCut | http2/src/upstream/lib/nghttp2_hd.c:577-591 | Unlinking the entry at any place of a chain keeps all chains well formed and takes out that entry only. |
| HpackIndex.HdMap.Insert | http2/src/upstream/lib/nghttp2_hd.c:533-546 | In place over the next pointers: the entry is put in front of its bucket's chain, the other chains stay. |
| HpackIndex.HdMap.Find | http2/src/upstream/lib/nghttp2_hd.c:548-575 | The newest exact match of the chain if there is one, otherwise the newest match of the name, otherwise null; the flag says which. |
| HpackIndex.HdMap.Remove | http2/src/upstream/lib/nghttp2_hd.c:577-591 | The walk with a pointer to a pointer takes the entry out of its chain, wherever it is, and nothing else. |
| HpackIndex.HashName | http2/src/upstream/lib/nghttp2_hd.c:516-527 | The hash is the stored one for a name of the static table and the FNV-1a loop modulo 2^32 otherwise; both ends of a look-up use the same. |
| HpackDeflater.IndexFromSeq | http2/src/upstream/lib/nghttp2_hd.c:1196-1221 | The HPACK index computed from sequence numbers, modulo 2^32, is the entry's position after the static table, also when the counter has wrapped. |
| HeaderTable.EvictKeepsLongestFit | http2/src/upstream/lib/nghttp2_hd.c:1100-1164 | Eviction stops as soon as there is room: no longer run of newest entries would fit. |
| HeaderTable.ShrinkAllIsShrinkToMin | http2/src/upstream/lib/nghttp2_hd.c:1223-1243 | Shrinking through any list of sizes is shrinking once to the smallest. |
| HeaderTable.InsertMeans | http2/src/upstream/lib/nghttp2_hd.c:1100-1164 | Inserting an entry larger than the table leaves it empty; any other comes first, with the longest run of the newest entries that still fits behind it. |
| HpackContext.HdContext.PopOldest | http2/src/upstream/lib/nghttp2_hd.c:1111-1136 | Exactly the oldest entry leaves the ring, and the byte count stays right. |
| HpackContext.HdContext.ShrinkTable | http2/src/upstream/lib/nghttp2_hd.c:1223-1243 | In place: the table becomes the longest run of newest entries that fits, and the hash index follows. |
| HpackContext.HdContext.AddIncremental | http2/src/upstream/lib/nghttp2_hd.c:1100-1164 | In place: table, byte count, sequence number and hash index become those of inserting the header; an entry larger than the table empties it. |
| HpackDeflater.Deflater.SearchTable | http2/src/upstream/lib/nghttp2_hd.c:1172-1221 | The search over chains and sequence numbers finds the index that a linear scan of static and dynamic table finds, exact match before name match. |
| HpackDeflater.Deflater.SearchStaticTable | http2/src/upstream/lib/nghttp2_hd.c:1172-1194 | The walk over the entries of one token finds the first exact match, or else the token itself. |
| StaticTable.TokenIsFirst | http2/src/upstream/lib/nghttp2_hd.c:120-485 | No static entry before that of the token has the name, and with -1 none has it. |
| StaticTable.TokenMeans | http2/src/upstream/lib/nghttp2_hd.c:120-485 | A name has a token exactly if it is the name the token stands for, for the 61 static entries of RFC 7541, appendix A, and the seven names beyond. |
| StaticTable.NamesTogether | http2/src/upstream/lib/nghttp2_hd.c:1181-1193 | Static entries with the same name stand together, so the walk from the first one sees all of them. |
| HpackChoices.SecretsComeOutMarked | http2/src/upstream/lib/nghttp2_hd.c:1367-1379 | A block comes out at the other end header by header, and marked never-indexed are exactly those that the application flagged, authorization, and cookies shorter than 20 bytes. |
| HpackChoices.WhatIsRemembered | http2/src/upstream/lib/nghttp2_hd.c:1327-1438 | Headers that are secret, have one of the eight discouraged names, or need more than 3/4 of the table leave it as it was; every other one is in the static table or stands in the dynamic one afterwards, and what is added is the header itself, in front. |
| HpackChoices.SearchFindsBest | http2/src/upstream/lib/nghttp2_hd.c:1172-1221 | The search returns the newest dynamic entry equal to the header, else a static one that is; else the first static entry with its name, else the newest dynamic one with it; else nothing, and then there is none. |
| HpackChoices.KnownGoesAsIndex | http2/src/upstream/lib/nghttp2_hd.c:1381-1395 | A header that is in a table and not secret is sent as one index that refers to it, and changes nothing. |
| HpackChoices.KnownNameIsNotSent | http2/src/upstream/lib/nghttp2_hd.c:1032-1072 | A name that is in a table is not sent again: at most six bytes and the value. |
| HpackChoices.StringIsShorter | http2/src/upstream/lib/nghttp2_hd.c:971-1014 | Of the plain and the Huffman form of a string the shorter one is sent. |
| HpackChoices.TableIsAsAgreed | http2/src/upstream/lib/nghttp2_hd.c:701-723 | After any run the encoder's table has the size of the peer's last setting, or 4096 before any, cut to the encoder's own limit. |
| HpackDeflater.Deflater.ChangeTableSize | http2/src/upstream/lib/nghttp2_hd.c:1245-1259 | In place: the table, the pending announcement and the minimum announced are those of the specification. |
| HpackDeflater.Deflater.DeflateOne | http2/src/upstream/lib/nghttp2_hd.c:1342-1438 | In place: one header gives the representation and the table of the specification, which HpackConnection.NvRoundTrip and the rows of HpackChoices are about. |
| HpackDeflater.Deflater.DeflateHdBufs | http2/src/upstream/lib/nghttp2_hd.c:1440-1489 | In place: a whole block, with the size updates before it, gives the bytes and the state of the specification. |
| HpackEncoder.DeflateBoundCoversBlock | http2/src/upstream/lib/nghttp2_hd.c:1556-1581 | The bound covers the block when names and values are shorter than 2^28. |
| HpackBulk.BulkTurnOk | http2/src/upstream/lib/nghttp2_hd.c:1646-1732 | One turn that reads an integer or string in bulk, with its cap checks made once, agrees with reading byte by byte. |
| HpackBulk.BulkTurnProgress | http2/src/upstream/lib/nghttp2_hd.c:1869-2236 | Every turn consumes input, emits, or moves to a state of lower rank: the loop ends. |
| HpackInflater.Inflater.ReadLen | http2/src/upstream/lib/nghttp2_hd.c:1646-1672 | The resumable read of a capped integer does what the specification of capped integers says, with the fields left and shift. |
| HpackInflater.Inflater.TakeTurn | http2/src/upstream/lib/nghttp2_hd.c:1889-2219 | In place: one turn in any of the 13 states does to the fields and the table what the specified turn does. |
| HpackInflater.Inflater.InflateHdNv | http2/src/upstream/lib/nghttp2_hd.c:1869-2236 | One call consumes input up to the next header field, and what it leaves, run on the rest, gives the rest of the fields; it fails exactly when the input cannot be decoded or the block ends inside a field. |
| HpackInflater.Inflater.ChangeTableSize | http2/src/upstream/lib/nghttp2_hd.c:1261-1292 | In place: accepted exactly between blocks; a lowered limit shrinks the table and makes a size update mandatory. |
| HpackInflater.InflatePieces | http2/src/upstream/lib/nghttp2_hd.c:1869-2242 | Decoder chunk independence: a block cut into any pieces gives the fields, the table and the verdict of the whole block decoded at once. |
| HpackDecoder.RunConcat | http2/src/upstream/lib/nghttp2_hd.c:1869-2236 | Decoding s and then t is decoding s + t, from any state. |
| HpackRejects.IndexIsChecked | http2/src/upstream/lib/nghttp2_hd.c:1956-1999 | An index of 0 or behind the dynamic table is refused; every other one yields the static or dynamic entry it counts to. |
| HpackRejects.SizeIsChecked | http2/src/upstream/lib/nghttp2_hd.c:1889-1955 | A size update is accepted at the start of a block only, up to the announced size and the pending minimum, and cuts the table to it. |
| HpackRejects.SizeIsDemanded | http2/src/upstream/lib/nghttp2_hd.c:1261-1292 | After the announced size was lowered below that of the table, a block that does not start with a size update is refused, an empty one too. |
| HpackRejects.NameIndexIsChecked | http2/src/upstream/lib/nghttp2_hd.c:1956-1988 | A literal whose name index is behind the dynamic table is refused. |
| HpackRejects.StringIsChecked | http2/src/upstream/lib/nghttp2_hd.c:1646-1710 | A string over 65536 bytes, or one that the Huffman code does not know, is refused. |
| HpackConnection.NvRoundTrip | http2/src/upstream/lib/nghttp2_hd.c:1342-1438 | What the encoder emits for a header decodes to that header, with never-indexing shown exactly when it was chosen, and to the encoder's table, also when the insertion evicts the entry whose name it refers to. |
| HpackConnection.BlockRoundTrip | http2/src/upstream/lib/nghttp2_hd.c:1440-2236 | A block decodes to its headers in order and leaves both tables equal, unless some literal's encoding is over 65536 bytes; then it fails. |
| HpackConnection.ConnectionRoundTrip | http2/src/upstream/lib/nghttp2_hd.c:1100-2236 | Over any sequence of blocks and table-size changes from the initial state, every block decodes to its headers and both tables stay equal if and only if no literal is over-long. |
| HpackConnection.UpdatesDecode | http2/src/upstream/lib/nghttp2_hd.c:1450-1472 | The size updates at the start of a block are always accepted by the decoder and bring it to the encoder's table. |
| HpackConnection.EncoderCollapse | http2/src/upstream/lib/nghttp2_hd.c:1245-1259 | Replacing a list of table sizes by its minimum and its last value leaves the encoder in the same state. |
| HpackConnection.DecoderCollapse | http2/src/upstream/lib/nghttp2_hd.c:1261-1292 | The same for the decoder. |
| HpackConnection.LongValueIsRefused | http2/src/upstream/lib/nghttp2_hd.c:1646-1672 | The condition can fail: under every lawful code, a value that is not to be indexed and takes more than 65536 bytes on the wire is sent, and its block is not faithful. |
| HpackConnection.ZeroesAreRefused | http2/src/upstream/lib/nghttp2_hd.c:1646-1672 | A concrete one: 65537 zeroes, under the code that leaves strings as they are, whatever the static table and the encoder's limit. |
| SettingsCollapse.ReadSettings | http2/src/upstream/lib/nghttp2_session.c:5698-5742 | In place: the entries read into the array are those left after merging repetitions and rewriting the table size; they fit the array that was allocated. |
| SettingsCollapse.SizesLeft | http2/src/upstream/lib/nghttp2_session.c:4926-4951 | Of the table sizes in the frame the minimum and the last value are left, in this order, or the last alone if it is the minimum. |
| SettingsCollapse.OthersLeft | http2/src/upstream/lib/nghttp2_session.c:5698-5742 | Of every other known setting exactly the last value is left. |
| SettingsCollapse.DeflaterUnaffected | http2/src/upstream/lib/nghttp2_session.c:4926-4951 | The deflater ends up as if every entry of the frame had been applied in order. |
| HpackRejects.EndIsChecked | http2/src/upstream/lib/nghttp2_hd.c:2205-2242 | A block may not end inside a representation, nor before a size update that is due. |
| DepQueue.QueuedIffActiveBelow | http2/src/upstream/lib/nghttp2_stream.c:346-392 | A stream other than the root is queued exactly when some stream in its subtree has an item that is not deferred. |
| DepOperations.AddSound | http2/src/upstream/lib/nghttp2_stream.c:753-767 | Adding keeps the tree sound: links, acyclicity, weights, weight sums, queues. |
| DepOperations.AddSubtreeSound | http2/src/upstream/lib/nghttp2_stream.c:871-896 | Adding a subtree keeps the tree sound and queues the subtree above if it is active; no item is touched. |
| DepOperations.InsertSound | http2/src/upstream/lib/nghttp2_stream.c:604-642 | An exclusive insert, which takes over all children, keeps the tree sound. |
| DepOperations.InsertSubtreeSound | http2/src/upstream/lib/nghttp2_stream.c:820-869 | An exclusive insert of a subtree, which takes the children of the parent behind its own, keeps the tree sound. |
| DepOperations.CutSound | http2/src/upstream/lib/nghttp2_stream.c:898-931 | Taking a subtree out keeps both parts sound, and the subtree may be put back anywhere outside itself. |
| DepOperations.RemoveSound | http2/src/upstream/lib/nghttp2_stream.c:769-818 | Removing a stream, which shares its weight out among its children and moves them up in its place, keeps the tree sound. |
| DepOutcomes.RemoveIsRemoved | http2/src/upstream/lib/nghttp2_stream.c:311-316 | After a removal each child has own * weight / sum of the removed stream's weight, rounded down but at least 1, all other weights stay, the children stand in the removed stream's place in their order, and no other parent or item changes. |
| DepOutcomes.AddHangs | http2/src/upstream/lib/nghttp2_stream.c:753-767 | The stream is the first child of its parent; nothing else about parents, children's order, weights and items changes. |
| DepOutcomes.InsertHangs | http2/src/upstream/lib/nghttp2_stream.c:604-642 | The stream is the only child of its parent and has the former children, in their order; nothing else changes. |
| DepOutcomes.AddSubtreeHangs | http2/src/upstream/lib/nghttp2_stream.c:871-896 | The same as for adding, for a stream with a subtree. |
| DepOutcomes.InsertSubtreeHangs | http2/src/upstream/lib/nghttp2_stream.c:820-869 | The same as for inserting, the parent's children behind the stream's own. |
| DepOutcomes.CutIsCut | http2/src/upstream/lib/nghttp2_stream.c:898-931 | The stream has no parent, its siblings keep their order, and nothing else changes. |
| DepOutcomes.EventHappens | http2/src/upstream/lib/nghttp2_stream.c:476-549 | Attaching, detaching, deferring, resuming and reweighing change the item, its deferrals or the weight of their stream as asked, picking and sending none; no other stream's. |
| DepOutcomes.ReweighedStands | http2/src/upstream/lib/nghttp2_stream.c:248-302 | A queued stream whose weight changes stands in the tree as if it had had the new weight when its turn was computed, but not before the clock of its parent. |
| DepOutcomes.OpIsDone | http2/src/upstream/lib/nghttp2_stream.c:604-931 | Every operation in the runs of DepHistory.EverSound does what it is called. |
| DepTree.DepTree.DepAdd | http2/src/upstream/lib/nghttp2_stream.c:753-767 | In place: the pointers, sums and weights of all objects become those of the specified operation; no other field changes. |
| DepTree.DepTree.DepAddSubtree | http2/src/upstream/lib/nghttp2_stream.c:871-896 | The same for adding a subtree. |
| DepTree.DepTree.DepInsert | http2/src/upstream/lib/nghttp2_stream.c:604-642 | The same for the exclusive insert, with the loop over the children. |
| DepTree.DepTree.DepInsertSubtree | http2/src/upstream/lib/nghttp2_stream.c:820-869 | The same for the exclusive insert of a subtree, with the walk to its last child. |
| DepTree.DepTree.DepRemove | http2/src/upstream/lib/nghttp2_stream.c:769-818 | In place: distributed weights, unlinking as first child or as sibling, promotion of the children; all objects become those of Remove, which DepOutcomes.RemoveIsRemoved is about. |
| DepTree.DepTree.DepRemoveSubtree | http2/src/upstream/lib/nghttp2_stream.c:898-931 | The same for taking a subtree out. |
| DepTree.DepTree.ObqPush | http2/src/upstream/lib/nghttp2_stream.c:147-169 | The loop up the parents queues every ancestor that was not queued. |
| DepTree.DepTree.ObqRemove | http2/src/upstream/lib/nghttp2_stream.c:176-203 | The loop up the parents unqueues every ancestor that has nothing else to send. |
| DepTree.DepTree.ObqMove | http2/src/upstream/lib/nghttp2_stream.c:211-224 | A queued child moves from one parent's queue to the other's and the ancestors follow. |
| DepWeights.RemoveKeepsSums | http2/src/upstream/lib/nghttp2_stream.c:769-818 | Removal keeps every stream's sum of its children's weights right, although all shares are rounded and at least 1. |
| DepLinks.RemoveKeepsLinked | http2/src/upstream/lib/nghttp2_stream.c:713-751 | Unlinking a stream and promoting its children keeps sibling, first-child and parent pointers consistent. |
| DepItems.RaisedSound | http2/src/upstream/lib/nghttp2_stream.c:456-549 | Attaching or resuming an item keeps the tree sound. |
| DepItems.LoweredSound | http2/src/upstream/lib/nghttp2_stream.c:468-530 | Detaching or deferring an item keeps the tree sound. |
| DepItems.AttachItem | http2/src/upstream/lib/nghttp2_stream.c:476-502 | In place: the item is there and the ancestors are queued as specified. |
| DepItems.DetachItem | http2/src/upstream/lib/nghttp2_stream.c:504-515 | In place: the item is gone, no deferral is left, and the ancestors are unqueued as specified. |
| DepItems.DeferItem | http2/src/upstream/lib/nghttp2_stream.c:517-530 | In place: the item is deferred and the ancestors are unqueued as specified. |
| DepItems.ResumeItem | http2/src/upstream/lib/nghttp2_stream.c:532-549 | In place: the causes given are lifted; the ancestors are queued only if none is left. |
| DepItems.NextOutboundItem | http2/src/upstream/lib/nghttp2_stream.c:938-958 | The picker ends; it finds an item if and only if some stream of the tree is active; what it finds is active, is the first of its queue at every step of the way, and has no active ancestor below the root of the search. |
| DepItems.Reschedule | http2/src/upstream/lib/nghttp2_stream.c:226-246 | In place: on the way up every ancestor gets its new place in time. |
| DepItems.ChangeWeight | http2/src/upstream/lib/nghttp2_stream.c:248-302 | In place: weight, the parent's sum, carry and cycle become those of the specified change. |
| DepPriority.Reprioritize | http2/src/upstream/lib/nghttp2_session.c:831-906 | In place, for any parent other than itself: the same stream objects and at most one new one form a whole tree again. If the parent asked for is the root, a stream in the tree, or an idle id, the stream is below it with the weight asked for, alone if exclusive; otherwise below the root with weight 16. The parents of all others are stated too. |
| DepPriority.ReorderedAsAsked | http2/src/upstream/lib/nghttp2_session.c:845-905 | Those outcomes of a reprioritisation follow from the specification that counts, for a parent in memory, idle or unknown, a descendant included. |
| DepPriority.ReprioritizedWhole | http2/src/upstream/lib/nghttp2_session.c:858-905 | The result is a rooted tree over the same streams with the stream under the parent asked for; of all others, only the parent's own parent (if it was a descendant) and, if exclusive, the parent's children change parents. |
| DepPriority.AnchoredWhole | http2/src/upstream/lib/nghttp2_session.c:831-857 | An idle parent becomes a child of the root, an unknown one is replaced by the root with the default weight, and the tree stays whole. |
| DepPriority.FindAncestor | http2/src/upstream/lib/nghttp2_stream.c:594-602 | The walk up finds a stream exactly if it is a proper or improper ancestor. |
| DepHistory.EverSound | http2/src/upstream/lib/nghttp2_stream.c:320-451 | In every run of all operations (streams and subtrees coming, going, moving; items; picks; weights) from the one-root tree, the tree stays sound: sums, weights in 1..256, and queued exactly if active below. |
| DepHistory.NewTree | http2/src/upstream/lib/nghttp2_stream.c:60-105 | The tree with only a root satisfies every invariant. |
| DepHistory.AnchorTimed | http2/src/upstream/lib/nghttp2_session.c:1285-1455 | A new stream below the root keeps the clock invariants. |
| DepClock.ClockIsExact | http2/src/upstream/lib/nghttp2_stream.c:137-145 | Weight times the advance of the cycle plus the new carry is 256 times the bytes plus the old carry: nothing is lost by rounding. |
| DepClock.ReweighReplays | http2/src/upstream/lib/nghttp2_stream.c:248-302 | For every carry below the old weight, the base cycle and carry before the last turn are recovered exactly and the turn is replayed with the new weight, not before the parent's clock. |
| DepClock.RecoveredParts | http2/src/upstream/lib/nghttp2_stream.c:269-283 | For every carry: what is recovered is the carry modulo the old weight, and a base that is later by the quotient. |
| DepClock.RecoveryNeedsSmallCarry | http2/src/upstream/lib/nghttp2_stream.c:248-302 | After one change of weight, the next one recovers the same carry and base if and only if the carry was below the new weight and the turn computed is the parent's clock or more than NGHTTP2_MAX_CYCLE_DISTANCE behind it modulo 2^64, that is, not before the clock: the guards of the code's own branches. |
| DepLostCarry.CarryIsLost | http2/src/upstream/lib/nghttp2_stream.c:248-302 | A run of a tree with one stream in which the condition fails: a carry of 200 at weight 255 becomes 0, and the base is late by 200, after a change to weight 1. |
| DepWindow.TimedOrders | http2/src/upstream/lib/nghttp2_stream.c:44-58 | In one queue the modular comparison is a strict total order. |
| DepRuns.RunKeepsAll | http2/src/upstream/lib/nghttp2_stream.c:137-302 | In any run of attaching, detaching, deferring, resuming, picking, sending and reweighing, the tree stays sound and every queue within NGHTTP2_MAX_CYCLE_DISTANCE above its clock, hence totally ordered. |
| DepRest.JoinsAtClock | http2/src/upstream/lib/nghttp2_stream.c:147-169 | A stream that joins a queue starts exactly at the queue's clock with no carry. |
| DepRest.RunRests | http2/src/upstream/lib/nghttp2_stream.c:176-203 | In any run an unqueued stream other than the root has no bytes left to pay for, and no carry. |
| DepFairness.ServiceIsExact | http2/src/upstream/lib/nghttp2_stream.c:137-246 | Over a run, what is sent for a stream that stays queued is paid for exactly by the advance of its turn. |
| DepFairness.WeightedFairness | http2/src/upstream/lib/nghttp2_stream.c:137-246 | Two streams that stay queued below one parent, weights unchanged, get bytes in proportion to their weights up to a bound that does not depend on the run, whatever else happens in the tree. |
| UrgencyFairness.AlwaysRight | http2/src/upstream/lib/nghttp2_session.c:908-1102 | In every run a stream is in exactly the queue of its urgency if and only if it has an item that is not deferred, the cycles of a queue span at most one maximum frame, and what is picked is of the most urgent value. |
| UrgencyFairness.IncrementalFairness | http2/src/upstream/lib/nghttp2_session.c:1057-1082 | On a server, two incremental streams that stay queued at one urgency differ in bytes served by at most 2 * (2^24 - 1). |
| UrgencySched.PickIsMostUrgent | http2/src/upstream/lib/nghttp2_session.c:1026-1043 | No stream that is ready is more urgent than the one picked. |
| UrgencySched.QueuesOrdered | http2/src/upstream/lib/nghttp2_session.c:417-430 | The comparison of cycles orders every queue totally. |
| UrgencySched.NextRight | http2/src/upstream/lib/nghttp2_session.c:908-1102 | Every operation keeps the scheduler right. |
| UrgencyOutcomes.StreamFollows | http2/src/upstream/lib/nghttp2_session.c:919-1102 | Each event changes item, deferrals, urgency, incremental flag and last frame of its stream as asked. |
| UrgencyOutcomes.OthersStay | http2/src/upstream/lib/nghttp2_session.c:919-1102 | And nothing of any other stream. |
| UrgencyOutcomes.ReadyJoins | http2/src/upstream/lib/nghttp2_session.c:919-949 | A stream that gets ready takes the first turn in its queue, later by its last frame if it is incremental. |
| UrgencyOutcomes.KeepsTurn | http2/src/upstream/lib/nghttp2_session.c:1057-1082 | A stream that is not incremental is picked again after each of its frames. |
| UrgencyOutcomes.MovesOn | http2/src/upstream/lib/nghttp2_session.c:1057-1082 | On a server an incremental stream with company moves on by exactly its frame. |
| UrgencySession.Session.ObDataPush | http2/src/upstream/lib/nghttp2_session.c:919-949 | In place: the stream joins its queue at the first cycle in it. |
| UrgencySession.Session.SchedNext | http2/src/upstream/lib/nghttp2_session.c:1026-1043 | In place: the loop over the urgencies finds a first stream, and none exactly if no stream is ready. |
| UrgencySession.Session.SchedEmpty | http2/src/upstream/lib/nghttp2_session.c:1045-1055 | In place: the queues are all empty exactly if no stream is ready. |
| UrgencySession.Session.Reschedule | http2/src/upstream/lib/nghttp2_session.c:1057-1082 | In place: a non-incremental stream keeps its turn, an incremental one moves on by the bytes sent unless it is alone. |
| UrgencySession.Session.UpdatePriority | http2/src/upstream/lib/nghttp2_session.c:1084-1102 | In place: a queued stream changes queues with its urgency. |
| FlowRuns.LedgersHold | http2/src/upstream/lib/nghttp2_session.c:2106-2137 | In any run of two endpoints, streams that are reset in it included: sender's window + DATA in flight + WINDOW_UPDATE in flight or queued = receiver's window - what it has received, for the connection and for every stream that both ends have, through all changes of the initial window size; and FLOW_CONTROL_ERROR is raised by no event but the one that FlowRuns.FailsOnlyOverdrawn names. |
| FlowRuns.FailsOnlyOverdrawn | http2/src/upstream/lib/nghttp2_session.c:5461-5527 | An event raises FLOW_CONTROL_ERROR if and only if it is a queued update leaving after its stream's window was lowered below what has come in. |
| FlowRuns.RisingFromStart | http2/src/upstream/lib/nghttp2_session.c:4575-4609 | If no submission lowers the initial window size, no event of the run raises FLOW_CONTROL_ERROR. |
| FlowOverdrawn.UpdateFails | http2/src/upstream/lib/nghttp2_session.c:3058-3101 | A run of a conforming peer in which the receiver raises FLOW_CONTROL_ERROR; the stream is reset and the run goes on. |
| FlowSender.WindowsAreLedgers | http2/src/upstream/lib/nghttp2_session.c:5133-5194 | Against any peer: the connection window is its initial value plus increments minus DATA bytes and stays in 0..2^31-1, so is every stream's that met no overflow, relative to the current initial size; a stream deferred by flow control has no window, and one with a window waits for nothing but the queue. |
| FlowSender.FailsOnlyOverLimit | http2/src/upstream/lib/nghttp2_session.c:4522-4573 | The connection fails exactly if an increment would take its window past 2^31-1; a new initial size is refused for a stream exactly if its window would pass that. |
| FlowSender.AgreesWithLedger | http2/src/upstream/lib/nghttp2_session.c:2866-2873 | The sender of the two-endpoint model is this sender with packing and charging in one step. |
| FlowSender.PacksIfOpen | http2/src/upstream/lib/nghttp2_session.c:2330-2349 | DATA is packed if and only if the stream is not closing and its window is open; otherwise the stream waits no more, with its item deferred for flow control if it is not closing. |
| FlowSender.WindowOverRun | http2/src/upstream/lib/nghttp2_session.c:2866-2873 | After any run the connection's window is 65535 plus what the peer granted less all DATA that was to be packed while the window was open, but for the frame in the making. |
| FlowSender.StreamFollows | http2/src/upstream/lib/nghttp2_session.c:4522-4550 | What an event does to a stream: window, closing exactly on overflow, item, and the two reasons to defer it. |
| FlowSender.StreamsComeAndGo | http2/src/upstream/lib/nghttp2_session.c:4522-4573 | A stream comes with a whole window and no item, goes when it is closed, and no other event changes which there are. |
| FlowUpdates.NeverOwedFromStart | http2/src/upstream/lib/nghttp2_session.c:5471-5527 | At the end of every run a WINDOW_UPDATE is queued for every window for which the rule asks for one. |
| FlowUpdates.OnlyIfAsked | http2/src/upstream/lib/nghttp2_session.c:5471-5527 | An update is queued only when none is and the rule asks for it, and then for all that has come in. |
| FlowUpdates.BytesAreCharged | http2/src/upstream/lib/nghttp2_session.c:5471-5527 | The bytes of DATA are charged to the connection and to their stream, in full, and to no other. |
| FlowUpdates.WindowsAreMoved | http2/src/upstream/lib/nghttp2_session.c:4575-4609 | An acknowledgement moves every stream's window by the difference of the initial sizes. |
| FlowSession.Session.OnWindowUpdate | http2/src/upstream/lib/nghttp2_session.c:5133-5194 | In place: windows, overflow check and waking of the deferred stream are those of the specification. |
| FlowSession.Session.UpdateRemoteInitial | http2/src/upstream/lib/nghttp2_session.c:4522-4573 | In place: the loop over all streams moves every window and wakes those that open. |
| FlowSession.Session.PrepareData | http2/src/upstream/lib/nghttp2_session.c:2309-2347 | In place: DATA is packed, deferred or detached as the specification decides, which FlowSender.PacksIfOpen is about. |
| FlowSession.Session.AfterDataSent | http2/src/upstream/lib/nghttp2_session.c:2866-2873 | In place: both windows are charged with the whole frame. |
| FlowSession.Session.Receive | http2/src/upstream/lib/nghttp2_session.c:5471-5527 | In place: connection and stream are charged, and an update is queued when it is due. |
| FlowSession.Session.AfterUpdateSent | http2/src/upstream/lib/nghttp2_session.c:3058-3101 | In place: an update has left; what came in meanwhile is charged again with no bytes, and fails exactly as specified. |
| FlowSession.Session.UpdateLocalInitial | http2/src/upstream/lib/nghttp2_session.c:4575-4640 | In place: the loop over all streams fails exactly if one window overflows, and otherwise resizes them all. |
| StreamBook.EverRight | http2/src/upstream/lib/nghttp2_session.c:1285-1719 | In every run each stream of the map is exactly one of idle-listed, closed-listed or live, each once, and every counter is the number of streams of its kind. |
| StreamBook.StandsAsTold | http2/src/upstream/lib/nghttp2_session.c:1457-1543 | A server keeps a closed stream of the peer's behind all others unless told not to, every other closed stream is forgotten; opening, reserving and fulfilling put a stream where they say; no other stream moves. |
| StreamBook.AdjustedClosedDrops | http2/src/upstream/lib/nghttp2_session.c:1628-1675 | The loop forgets the oldest closed streams and no more than it has to. |
| StreamBook.AdjustedIdleDrops | http2/src/upstream/lib/nghttp2_session.c:1677-1719 | The same for idle streams. |
| StreamBook.AdjustedClosedRight | http2/src/upstream/lib/nghttp2_session.c:1628-1675 | The loop drops the oldest closed streams only and ends within the limit or with none left. |
| StreamBook.AdjustedIdleRight | http2/src/upstream/lib/nghttp2_session.c:1677-1719 | The loop drops the oldest idle streams only and ends within the limit. |
| StreamBook.ActiveStreamsAreLive | http2/src/upstream/lib/nghttp2_session.c:7322-7325 | The number of active streams is the number of live ones: those counted, and those this end has promised. |
| StreamLists.StreamList.Detach | http2/src/upstream/lib/nghttp2_session.c:1600-1626 | In place: a stream anywhere in a doubly linked list is unlinked and the list stays well formed. |
| StreamLists.StreamTable.Open | http2/src/upstream/lib/nghttp2_session.c:1285-1455 | In place: an idle stream is taken out of its list and reused, otherwise a new object enters the map; both lists stay well formed. |
| StreamLists.StreamTable.OpenIdle | http2/src/upstream/lib/nghttp2_session.c:1584-1598 | In place: an idle stream is put at the end of its list. |
| StreamLists.StreamTable.Close | http2/src/upstream/lib/nghttp2_session.c:1457-1582 | In place: a stream of the peer's is kept at the end of a server's closed list unless NGHTTP2_OPTMASK_NO_CLOSED_STREAMS is set, every other one is destroyed, and the counter goes down. |
| StreamLists.StreamTable.Fulfill | http2/src/upstream/lib/nghttp2_session.c:4306-4310 | In place: a reserved stream becomes an open one and moves between the counters. |
| StreamLists.StreamTable.AdjustClosed | http2/src/upstream/lib/nghttp2_session.c:1628-1675 | In place: the loop from the head of the list, to the limit. |
| StreamLists.StreamTable.AdjustIdle | http2/src/upstream/lib/nghttp2_session.c:1677-1719 | In place: the same for the idle list. |
| FrameHeader.HdRoundTrip | http2/src/upstream/lib/nghttp2_frame.c:37-51 | Unpacking the nine packed bytes gives back the frame header. |
| FramePadding.SetPad | http2/src/upstream/lib/nghttp2_frame.c:1145-1172 | In place: the buffer holds the frame with its header one byte earlier, the PADDED flag and new length, the pad length and zeroes, around the unchanged payload; or only the new header, for a payload that is not copied; nothing outside changes. |
| HeaderFrames.PackHeadersShared | http2/src/upstream/lib/nghttp2_frame.c:305-359 | In place over the buffers: each gets the header of its frame before its unchanged payload. |
| HeaderFrames.EndHeadersOnLast | http2/src/upstream/lib/nghttp2_frame.c:305-359 | END_HEADERS is on exactly the last frame, the first is of the original type, all others are CONTINUATION frames. |
| HeaderFrames.BlockReassembled | http2/src/upstream/lib/nghttp2_session.c:6662-6952 | Reading the frames of a block, the first of them padded or not, gives back exactly its fields, END_STREAM and the whole block. |
| HeaderFrames.HeadIsChecked | http2/src/upstream/lib/nghttp2_session.c:5905-6060 | The first frame is refused exactly for its length, its type, or a payload too short for the fields it announces. |
| HeaderFrames.PadIsChecked | http2/src/upstream/lib/nghttp2_session.c:5749-5760 | Padding is refused exactly if it leaves no room for the fields. |
| HeaderFrames.ContinuationIsChecked | http2/src/upstream/lib/nghttp2_session.c:6892-6952 | Between the frames of a block everything but a CONTINUATION frame of its stream is refused. |
| HeaderReader.InboundFrame.MemRecv | http2/src/upstream/lib/nghttp2_session.c:5809-6952 | In place: the states of one call of the reader, those for blocks of which no more headers are wanted included, consume their input as the byte-by-byte reading does, whatever the piece, and stop at the end of the block or at an error. |
| HeaderReader.ReadPieces | http2/src/upstream/lib/nghttp2_session.c:6662-6952 | A block cut into any pieces arrives whole, and the inflater is told of its end. |
| DataFrames.FrameChargedOnce | http2/src/upstream/lib/nghttp2_session.c:6953-7180 | Every byte of a DATA frame is charged to the connection exactly once, in any pieces, whatever becomes of the stream in the middle of the frame. |
| DataFrames.PaddingUndone | http2/src/upstream/lib/nghttp2_session.c:5749-5805 | A padded frame in any pieces yields exactly its payload, with padding and all charged to both windows. |
| DataFrames.PaddingIsChecked | http2/src/upstream/lib/nghttp2_session.c:5749-5760 | Padding longer than what is left of the payload is refused, and nothing else. |
| DataFrames.IgnoredIsDropped | http2/src/upstream/lib/nghttp2_session.c:6953-7180 | For a stream that is gone or ignored no data is given out and no window but the connection's is charged. |
| DataFrames.DataFrame.MemRecv | http2/src/upstream/lib/nghttp2_session.c:6953-7180 | In place: the states of one call of the reader do what the byte-by-byte reading does. |
| CnameChain.RestartsKeepChain | dns/src/upstream/iterator/iterator.c:543-591 | Across any number of restarts, whatever the responses hold, what is to be prepended has no repetitions and its CNAMEs lead from the name of the query to the current name. |
| CnameChain.QueryStaysChained | dns/src/upstream/iterator/iterator.c:543-591 | The same from the start of a query, whatever its name and the responses. |
| CnameChain.ResponseIsFollowed | dns/src/upstream/iterator/iterator.c:560-577 | CNAMEs in the ANSWER section that make a chain from the current name, none seen before, are all taken in order, and the name becomes the target of the last. |
| CnameChain.FirstIsTaken | dns/src/upstream/iterator/iterator.c:560-577 | The first CNAME of the current name, and every DNAME above that name ahead of it, are in the list afterwards. |
| CnameChain.ResponseIsKept | dns/src/upstream/iterator/iterator.c:543-591 | Nothing goes, nothing comes from elsewhere, and every NSEC and NSEC3 set of the AUTHORITY section is kept. |
| CnameChain.FreshOnce | dns/src/upstream/iterator/iterator.c:384-447 | The new AUTHORITY sets have distinct keys, none of a set that was there, and no key is missing. |
| CnameChain.PrependedIsWhole | dns/src/upstream/iterator/iterator.c:401-454 | The sets that were in the message stay where they were in their sections, and the TTL is the least of the old one and of all sets put in. |
| IterPrepend.PrepList.Add | dns/src/upstream/iterator/iterator.c:486-527 | In place: the set is appended by way of the last pointer. |
| IterPrepend.PrepList.Find | dns/src/upstream/iterator/iterator.c:463-477 | The walk finds a set exactly if one with the same key and data is in the list. |
| IterPrepend.IterQstate.HandleCnameResponse | dns/src/upstream/iterator/iterator.c:543-591 | In place: the lists and the name returned are those of following the ANSWER section in order and keeping the proofs of the AUTHORITY section, which CnameChain.ResponseIsFollowed, FirstIsTaken and ResponseIsKept are about. |
| IterPrepend.IterQstate.Restart | dns/src/upstream/iterator/iterator.c:1408-1421 | In place: the name found becomes the name asked for. |
| IterPrepend.IterQstate.Prepend | dns/src/upstream/iterator/iterator.c:401-454 | In place: the message is rewritten as specified, or left alone exactly if one of three counts is over the limit. |

## Left out

- Allocation failure, callbacks, pausing, debug output, the I/O loops and reference counting.
- `nghttp2_hd_deflate_hd` and `nghttp2_hd_deflate_hd_vec`, which wrap the buffers around `nghttp2_hd_deflate_hd_bufs`; the state of a deflater after an allocation failure.
- The inner workings of `nghttp2_pq`, `nghttp2_map`, `nghttp2_bufs`, the Huffman tables and the way the generated token look-up compares names.
- In the inflater, `NGHTTP2_HD_STATE_READ_VALUELEN` and `NGHTTP2_HD_STATE_READ_VALUE` (and the `NGHTTP2_HD_STATE_NEWNAME_*` pair) follow each other within one turn when the length is complete, as in the code's fall-through.
- DepTree.DepTree.DepInsertSubtree: `sum_dep_weight` is unbounded, because 2^31 is reached only with more than eight million children of one stream.
- Streams that follow RFC 9218 are not in the dependency tree model; they are the streams of `UrgencySched`.
- DepRuns.RunKeepsAll: assumes that fewer than 2^64 sequence numbers are drawn, and that no subtree moves: emptying a queue resets its clock while streams further down keep their cycles, so the code itself promises no window then. `DepHistory.EverSound` still gives everything but the clocks.
- DepFairness.WeightedFairness: assumes that a DATA frame is sent for the stream picked last, as the send loop does, and that frames have at most 2^24-1 bytes.
- DepHistory.EverSound: a reprioritisation is a run of its steps (CutAway, Hang, Reweigh); `DepPriority.Reprioritize` is about the whole of it.
- UrgencyFairness.IncrementalFairness: servers only; a client never reschedules these streams.
- FlowRuns.LedgersHold: a stream that is reset drops out of its own ledger; both ends send updates by themselves (no `NGHTTP2_OPTMASK_NO_AUTO_WINDOW_UPDATE`), a DATA frame leaves as it is packed, ids are not used twice, and the peer's protocol errors (an increment of 0, frames on idle streams) are left out.
- FlowSender.WindowsAreLedgers: a stream whose window overflowed is excepted from the ledger, because nghttp2 resets it and ignores the increment.
- `nghttp2_submit_window_update`, `nghttp2_session_consume` and `nghttp2_session_set_local_window_size`, which let the application move receive windows.
- StreamBook.EverRight: RFC 7540 priority mode; without it an idle stream is not taken out of its list when it opens. Closed streams are destroyed after they are unlinked, and the dependency tree's part in that is in `DepOperations`.
- StreamLists.StreamTable.Close: state, flags and callbacks of the stream; in RFC 7540 priority mode every stream is in the dependency tree, so that is not asked.
- HeaderReader.InboundFrame.MemRecv: frames other than HEADERS, PUSH_PROMISE and CONTINUATION lead to an error; the inflater only collects the block, and its failure, which ends the connection, is left out; `HpackInflater.InflatePieces` is about decoding. When the application wants no more headers is left open: the state may change at any header.
- DataFrames.FrameChargedOnce: a flow-control error in the middle of a frame, which ends the connection.
- SettingsCollapse.ReadSettings: reads entries; the six bytes of each are not unpacked.
- FrameHeader.HdRoundTrip: priority fields and the payloads of ORIGIN, ALTSVC, GOAWAY, PING and PRIORITY_UPDATE.
- IterPrepend.IterQstate.Prepend: the array of pointers to sets is a sequence, so sharing of sets between messages is not seen; RR_COUNT_MAX is a parameter.
- CnameChain.RestartsKeepChain: response policy zones are off, and a CNAME whose target cannot be read leads to its own name, as `get_cname_target` leaves the name alone then.
- Of the Unbound iterator everything else: server selection, caches, minimisation, restart limits.
- The kernel-side `rdma/`, `tls/` and `vlan-bridge/` parts and the site.
