# rpcx, verified

A Dafny model of the parts of the rpcx framework that are hardest to get right, with proofs of
what they promise.  `dafny verify dfyconfig.toml` checks everything.

| Files | Component |
|---|---|
| `RedisRegistry`, `RedisInvariant`, `RedisTheorems`, `RedisProgress`, `RedisLeftover`, `RedisRetry`, `RedisQuiet` | the lifecycle of the Redis register plugin: Start, Stop, Register, Unregister, the refresh goroutine and background stop attempts |
| `CallMux`, `CallMuxInvariant`, `CallMuxTheorems`, `CallMuxKeys`, `CallMuxSilence`, `CallMuxRaces` | the client's call multiplexer: pending calls, the read loop, Close, cancellation, SendRaw, server pushes |
| `WireBytes`, `WireHeader`, `WireMeta`, `WireCodec`, `WireTheorems` | the wire format: header bits, metadata, encoding into a recycled buffer, writing, decoding, framing |
| `BufferPool` | the levelled buffer pool the encoder takes its buffers from |
| `WeightedRoundRobin` | smooth weighted round robin and the ring that Select walks |
| `JumpHash` | jump consistent hash |
| `Numbers`, `Wrappers` | what several of them share |
| `Retry` | the Failfast, Failtry and Failover modes of `XClient.Call` and its client cache |
| `LogicSync` | keyed serialisation of server methods and the options that set up its lock pool |

How the models are built:

- **The two concurrent components are step systems.**  A state is the shared data plus one program
  counter per goroutine; a goroutine's next step is a function of both, and a schedule may
  interleave any number of goroutines in any order and choose every outcome of the environment
  (store calls, writes, timers, arriving messages, panicking handlers).  Steps are single store
  operations, lock operations and channel operations for the plugin (a write lock is taken in two
  steps, announcing and then waiting for the readers, since Go lets no new reader in between); for the client, a section
  under the mutex that cannot block is one step, and the two loops that walk over the pending calls
  under the mutex take one step per entry.  `Reachable` quantifies over every schedule, and the
  theorems about it rest on an inductive invariant proved rely-guarantee style: `Global` for the
  shared data, `Local` for a goroutine, `Spares` for what a step leaves alone for the others.
- **The other components are classes, arrays and loops** in the form of the source, each method
  proved against a specification function, and the promises proved of these functions.
- Values that come from outside - compressors, the hash of a string, the selector's choices, what
  connections and calls come to, floating-point rounding, which buffer a `sync.Pool` hands out -
  are parameters.
- Go strings and byte slices are `seq<byte>`; slices are read up to their capacity where Go reads
  them so; uint32 arithmetic wraps explicitly in the decoder; the sequence number wraps at 2^64.

Where the proofs show that the code does not do what one would expect:

- **Stop can return nil with a node left in Redis**: a Start that fails to write the base path
  closes the store handle, and the later cleanup finds none to delete with
  (`StopNilCanLeaveANode`; `StopCleansIff` gives the exact condition).
- **A cancelled caller can take another caller's call**: the sequence number reaches the caller
  only after its send goroutine has registered the call; until then it is 0
  (`CancelCanTakeAnother`; `CancelTakesOwnIff` gives the exact condition).
- **A call of Call or Go can be forgotten** if SendRaw brings a number that is in use, or if a response handler
  panics, and then no continuation ever signals it (`CallsCanBeForgotten`; `NoCallForgotten` shows
  that there is no other way, `SilentIff` gives the exact condition).
- **Decode returns nil for some bodies that do not parse**, because it recovers from the slice panic
  without setting its result: exactly if a section or a length field is cut off even in the
  buffer's capacity, a length in the metadata wraps uint32 back below its bound, or the bytes before
  the payload run past the frame (`WireCodec.Message.Decode`, with `EmptyBodyIsMalformed` and
  `HalfPairIsReported` on either side); it also ignores the payload's length field.
- **WriteTo** writes only the header if the compressor is missing or fails, where
  EncodeSlicePointer falls back to no compression (`EncodersAgreeIff`, `EncodersCanDiffer`), and
  its count is that of all it wrote exactly if it wrote no more than the header (`CountsAllIff`,
  `NewMessageCountsNothing`).
- **SetMessageType** can turn a request into a response but not back (`SetMessageTypeWorksIff`,
  `ResponseStaysResponse`).
- **UpdateServer of the weighted selector** rebuilds the ring from the list it is about to replace
  (`WeightedSelector.Selector.UpdateServer`), so Select goes on with the old servers until the next
  update (`UpdateTwiceThenSelect`), and dereferences nil exactly if there are new servers and the old
  total weight was not positive (`UpdateThenSelect`; `EmptyThenUpdated` is a run that does).
- **A buffer of the top size level** of the pool goes back to the level below it unless the top
  size is the smallest size times a power of two (`LevelGetsItsOwnBackIff`,
  `TopGoesDown`).
- **With negative Retries** Call returns nil without a call exactly if the client is not shut down,
  the selector names a server and a good client for it is cached or can be dialled
  (`Retry.XClient.Call`; `NegativeRetriesDoNothing` is such a run).
- **NewLimitedPool need not return**: for sizes up to 2^62 exactly if the smallest is 0 and the largest
  is not (`EndlessFromZeroIff`), and in general exactly if 64 doublings do not reach the largest and
  that is positive (`EndlessIff`; `EndlessByOverflow` has a positive smallest size).
- **LogicSync does not lock raw functions and routed handlers**: a declared name that resolves to one
  of them runs unlocked, so that calls with the same key overlap (`DeclaredFunctionsOverlap`;
  `BodiesNeverOverlapIff` gives the exact condition).

## Model

| member | source | states |
|---|---|---|
| RedisInvariant.NextKeepsInv | serverplugin/redis.go:87-476 | every step of every goroutine, every new call and every expiry keeps the invariant that ties locks, channels, the store handle, the stop attempt and the nodes together |
| RedisTheorems.RunKeepsInvariant | serverplugin/redis.go:87-476 | so does every schedule |
| RedisTheorems.NoStepPanics | serverplugin/redis.go:87-476 | in every reachable state no step closes a closed or nil channel, calls a nil store, unlocks a free lock or makes a slice of negative capacity |
| RedisTheorems.HandlesUsedWhileOpen | serverplugin/redis.go:118-125 | a store handle is called and closed only while open |
| RedisTheorems.OpenHandleIsHeld | serverplugin/redis.go:108-125 | in every reachable state the one open handle is the one the plugin holds, and all others opened so far are closed |
| RedisTheorems.OneCleanupAfterRefresh | serverplugin/redis.go:211-285 | at most one cleanup attempt is in flight and none touches the store before the refresh goroutine has ended |
| RedisTheorems.FailedAttemptKeepsHandle | serverplugin/redis.go:270-324 | an attempt that fails leaves the handle open and the plugin stopped but not completely |
| RedisTheorems.FailedAttemptCanBeRetried | serverplugin/redis.go:211-285 | once a failure is published the next Stop to get there begins a new attempt on the same handle |
| RedisRetry.FailedStopCanBeRepeated | serverplugin/redis.go:211-324 | from every reachable state in which an attempt is about to publish its failure or has just done so, some schedule has one more Stop return nil with no node left and the handle closed |
| RedisQuiet.EveryRunRests | serverplugin/redis.go:87-476 | from every reachable state, every schedule without timers and with a store that works takes at most a number of steps that the state alone determines, and it cannot go on exactly when every call has returned, every stop attempt has ended and the refresh goroutine waits for its tick |
| RedisQuiet.StopCanAlwaysSucceed | serverplugin/redis.go:195-324 | from every reachable state some schedule has a Stop called from there on return nil, with no node left unless a failed Start had dropped the handle |
| RedisTheorems.ServicesFrozenOnceStopped | serverplugin/redis.go:195-249 | Services and metas never change once stopped is set, whatever runs afterwards |
| RedisTheorems.StopNilIsFinal | serverplugin/redis.go:195-324 | after a Stop has returned nil, and unless a failed Start had dropped the handle, no node is in the store, every handle is closed and no continuation writes a node again |
| RedisTheorems.StopCleansIff | serverplugin/redis.go:118-125 | a completed stop leaves no node exactly if no failed Start had dropped the handle or there was no node |
| RedisTheorems.UnregisteredStaysAway | serverplugin/redis.go:405-476 | once an Unregister that reached the delete is about to return, no continuation brings the node back, a refresh under way included, until a Register of the name writes it |
| RedisTheorems.RefreshWritesRecordedOnly | serverplugin/redis.go:140-190 | a refresh step writes only nodes of services recorded at that very moment |
| RedisProgress.NoDeadlock | serverplugin/redis.go:87-476 | from every unfinished goroutine of every reachable state the chain of waiting, along which the rank falls, ends in a goroutine that can step without the help of a timer; new readers of the state lock wait for a waiting writer |
| RedisProgress.WaitEndsInAMove | serverplugin/redis.go:252-285 | the chain itself: each goroutine in it waits for the next, which ranks strictly lower |
| RedisLeftover.StopNilCanLeaveANode | serverplugin/redis.go:118-125 | a schedule in which Stop returns nil and a node stays behind |
| CallMuxInvariant.NextKeepsInv | client/client.go:215-891 | every step of a sender, a waiting caller, the read loop, Close and SendRaw keeps the invariant that ties entries, calls, holders and the mutex together |
| CallMuxTheorems.SignalsBounded | client/client.go:215-227 | a call is signalled at most three times, once by each kind of source; a Done channel of three slots discards none of them and one of one slot keeps the first |
| CallMuxTheorems.EntriesMatchCalls | client/client.go:304-891 | where a call is at all times: its one entry, under its own number; held by exactly one goroutine, about to signal it; signalled by its taker; deleted by its own failed encode and signalled by its sender or about to be; lost only after a clash or a panic |
| CallMuxTheorems.TakenOnce | client/client.go:304-891 | over every run an entry is taken at most once and never comes back |
| CallMuxTheorems.NoCallForgotten | client/client.go:506-891 | once the read loop has ended or Close has run, a call of Call or Go whose sender has finished and whom nobody holds has been signalled, and the signal was or can be received, unless its entry was lost |
| CallMuxTheorems.RejectedOnceClosed | client/client.go:506-515 | once closing or shut down, no call is ever registered again, later ones included |
| CallMuxTheorems.PushesInOrder | client/client.go:658-820 | what reaches the push channel is a subsequence of the decoded pushes in wire order and then at most one notice of the end, which comes last; with blocking and a channel that was always open, all pushes but the last, which may be under way or have been kept back by a panic of its after-decode plugin |
| CallMuxTheorems.PushTouchesNoCall | client/client.go:713-745 | decoding and delivering a push removes no entry and completes no call, whatever its number |
| CallMuxTheorems.NeverStuck | client/client.go:506-891 | without cancellations, connection failures or room on the push channel: an unfinished goroutine that does not wait for the peer can step, or the mutex is held and its holder can; only the read loop of a blocking client may need the channel's consumer for that |
| CallMuxTheorems.WaiterIsServed | client/client.go:304-332 | once the read loop has ended or Close has run, a caller waiting for a settled call can take its signal and return, unless the entry was lost |
| CallMuxKeys.NumbersNeverClash | client/client.go:533-536 | without SendRaw and up to 2^64 sends, no two registered calls share a number and no insertion or deletion hits another call's entry |
| CallMuxKeys.ResponseGoesToItsCall | client/client.go:713-745 | without SendRaw and up to 2^64 sends, a response is handled for the call whose number it carries, exactly if that call is still pending, and for no other |
| CallMuxKeys.EveryCallSignalled | client/client.go:506-891 | without SendRaw, up to 2^64 sends and without a panicking handler, every settled call is signalled once the read loop has ended or Close has run |
| CallMuxKeys.CancelTakesOwnIff | client/client.go:304-332 | a cancelled caller takes its own entry or none exactly if its number has been published or there is no entry under number 0 |
| CallMuxRaces.CancelCanTakeAnother | client/client.go:304-332 | a schedule in which a cancelled caller holds another caller's call |
| CallMuxRaces.CallsCanBeForgotten | client/client.go:402-409 | schedules after which a caller waits for a call that no continuation ever signals, the client being closed: a reused raw number, a panicking handler |
| CallMuxSilence.SilentIff | client/client.go:215-891 | a call whose sender has finished is never signalled, whatever happens from a reachable state on, exactly if it has no signal and its entry is lost |
| WireHeader.SetVersion | protocol/message.go:132-134 | changes the version of the view and nothing else |
| WireHeader.SetMessageType | protocol/message.go:142-144 | sets the message type bit, never clears it, and nothing else |
| WireHeader.SetMessageTypeWorksIff | protocol/message.go:137-144 | the getter returns what was set exactly if the bit was clear or is to be set |
| WireHeader.ResponseStaysResponse | protocol/message.go:137-144 | a header byte for which it does not: a response set to request stays a response |
| WireHeader.SetHeartbeat | protocol/message.go:152-158 | changes the heartbeat flag of the view and nothing else |
| WireHeader.SetOneway | protocol/message.go:167-173 | changes the oneway flag of the view and nothing else |
| WireHeader.SetCompressType | protocol/message.go:181-183 | sets the three compression bits and nothing else |
| WireHeader.SetMessageStatusType | protocol/message.go:191-193 | sets the two status bits and nothing else |
| WireHeader.SetSerializeType | protocol/message.go:201-203 | sets the upper half of byte 3 and keeps its lower half |
| WireHeader.SetSeq | protocol/message.go:206-213 | the sequence number read back is the one set, and nothing else changes |
| WireHeader.ViewDetermines | protocol/message.go:119-213 | magic byte and view determine the header, so no setter has a hidden effect |
| WireHeader.CompressBits | protocol/message.go:176-178 | the arithmetic getter is the source's mask and shift |
| WireHeader.SerializeBits | protocol/message.go:196-198 | so is the serialisation getter |
| WireHeader.SetMessageTypeBits | protocol/message.go:142-144 | the arithmetic setter is the source's or with the shifted type |
| WireHeader.SetHeartbeatBits | protocol/message.go:152-158 | the arithmetic setter is the source's or and mask |
| WireHeader.SetOnewayBits | protocol/message.go:167-173 | the arithmetic setter is the source's or and mask |
| WireHeader.SetCompressTypeBits | protocol/message.go:181-183 | the arithmetic setter is the source's mask and shift |
| WireHeader.SetStatusTypeBits | protocol/message.go:191-193 | the arithmetic setter is the source's mask |
| WireHeader.SetSerializeTypeBits | protocol/message.go:201-203 | the arithmetic setter is the source's mask and shift |
| WireMeta.EncodeMetadata | protocol/message.go:362-375 | the output is the length-prefixed pairs of the map in some order, each key once |
| WireMeta.LastWinsOfListing | protocol/message.go:362-375 | any listing of a map, read with the last value winning, is the map |
| WireMeta.DecodeOne | protocol/message.go:380-399 | one round of the loop, in wrapping uint32 and on slices up to their capacity: a pair exactly if a complete one starts there, within the section; a panic exactly if a length is not there to be read or a key or value ends beyond uint32 at a position that wraps back below its bound; the error otherwise |
| WireMeta.DecodeMetadata | protocol/message.go:377-403 | terminates on every input; succeeds exactly if the section is a list of complete pairs and then returns their last-wins map; panics exactly if complete pairs lead up to a round that does; reports a missing pair otherwise |
| WireMeta.ParseOfEncoded | protocol/message.go:362-403 | parsing the encoding of pairs gives the pairs |
| WireMeta.EncodedOfParse | protocol/message.go:377-403 | whatever parses is the encoding of what it parses to |
| WireCodec.FillFrame | protocol/message.go:256-282 | the index writes cover the whole message: the result does not depend on what the buffer held |
| WireCodec.Message.EncodeSlicePointer | protocol/message.go:233-283 | the frame of the message in a pool buffer; compression is dropped, in the message's own header, if the compressor is missing or fails |
| WireCodec.Message.WriteTo | protocol/message.go:291-359 | the same frame as far as the writer takes it, an error exactly if that is not all of it or the compressor is missing or fails, and the exact count returned in every case |
| WireCodec.CountsAllIff | protocol/message.go:291-359 | that count is of all that was written exactly if no more than the header was |
| WireTheorems.NewMessageCountsNothing | protocol/message.go:291-359 | a run: a new message is written in 32 bytes and the count is 0 |
| WireCodec.Message.DecodeBody | protocol/message.go:464-496 | parses exactly if the sections, the metadata pairs and the payload's length field are complete within the bytes read, whatever lies beyond them in a reused buffer; and exactly when it panics instead of reporting an error |
| WireCodec.Message.Decode | protocol/message.go:416-510 | follows the specification Judge case by case, whatever a reused buffer holds: an error, the message, or a body that does not parse, which ends in a nil error exactly if parsing slices out of range and in ErrMetaKVMissing otherwise; and says how many bytes are consumed |
| WireCodec.Message.Reset | protocol/message.go:513-529 | all but the magic byte and the buffer is as in a new message |
| WireCodec.Message.Clone | protocol/message.go:216-224 | a new message with the header less its compression and the two names |
| WireTheorems.RoundTrip | protocol/message.go:233-510 | decoding an encoded message, whatever follows it, gives the message back and consumes exactly its bytes, given that Unzip undoes Zip and the lengths fit |
| WireTheorems.SendAndReceive | protocol/message.go:233-510 | the same of the methods: EncodeSlicePointer into any pool and Decode into a new message give the message back |
| WireTheorems.NewMessageIsSendable | protocol/message.go:108-115 | a new message is one of the messages the round trip is about |
| WireTheorems.PrefixRefused | protocol/message.go:416-462 | every strict prefix of an encoded message is refused |
| WireTheorems.Framing | protocol/message.go:256-510 | decoding a concatenation of any number of encoded messages gives exactly these in order |
| WireTheorems.ReceiveAll | protocol/message.go:416-510 | the same of the method: Decode into new messages until the stream is used up yields the messages sent, in order |
| WireTheorems.ParsedIffWellFormed | protocol/message.go:464-496 | a body parses exactly if it is laid out as path, method, complete pairs, four bytes and payload |
| WireTheorems.EmptyBodyIsMalformed | protocol/message.go:446-467 | a header that announces an empty body is an input that does not parse and slices out of range in a new message |
| WireTheorems.HalfPairIsReported | protocol/message.go:377-403 | a metadata section that ends within a pair does not parse and does not slice out of range, so that it is reported |
| WireTheorems.EncodersAgreeIff | protocol/message.go:233-359 | for the same metadata order and a writer without limit, WriteTo writes the bytes that EncodeSlicePointer returns exactly if no compressor is needed or it exists and works; otherwise it writes the bare header and the other's bytes say no compression |
| WireTheorems.EncodersCanDiffer | protocol/message.go:242-254 | an input for which they do not: a header that asks for a compressor when none is registered |
| PoolLevels.LevelAt | util/buffer_pool.go:31-48 | the levels are min times the powers of two below max, then max |
| PoolLevels.DoubledAreLevels | util/buffer_pool.go:36-42 | up to 2^62 the doublings that NewLimitedPool makes in int64 are these levels |
| PoolLevels.EndlessIff | util/buffer_pool.go:38-41 | the doubling never ends exactly if it has not done so after 64 times and max is positive |
| PoolLevels.EndlessFromZeroIff | util/buffer_pool.go:38-41 | for sizes up to 2^62, exactly if min is 0 and max is not |
| PoolLevels.EndlessByOverflow | util/buffer_pool.go:38-41 | sizes beyond that for which it never ends although min is positive: 3 and the largest int |
| PoolLevels.CeilIndexExact | util/buffer_pool.go:54 | the rounded-up float64 logarithm of the rounded quotient is the exact level, for any monotone rounding that is exact next to powers of two and any logarithm that puts values on the right side of them |
| PoolLevels.FloorIndexExact | util/buffer_pool.go:72 | the rounded-down one as well |
| PoolLevels.AccurateExists | util/buffer_pool.go:54 | the float64 laws used can be met |
| PoolLevels.FindPoolExact | util/buffer_pool.go:50-62 | a size up to max is always served, from the smallest level that is large enough; the out-of-range branch is never taken |
| PoolLevels.FindPutPoolExact | util/buffer_pool.go:64-80 | a capacity is taken back exactly if it is between min and max, into a level it is large enough for |
| PoolLevels.LevelGetsItsOwnBackIff | util/buffer_pool.go:64-80 | a level's own buffers come back to it, the top level's exactly if max is min times a power of two |
| PoolLevels.TopGoesDown | util/buffer_pool.go:64-80 | sizes for which it does not: with 512 and 5000 a top buffer goes back one level down |
| BufferPool.NewLimitedPool | util/buffer_pool.go:31-48 | for any two ints: panics exactly if max is below min, does not end exactly if no doubling, in int64, reaches max; otherwise an empty pool whose sizes are the doublings below max, in order, and max |
| BufferPool.LimitedPool.Get | util/buffer_pool.go:82-91 | a buffer of the length asked for, within its capacity, taken out of its level or new, so that nobody else can get it |
| BufferPool.LimitedPool.Put | util/buffer_pool.go:93-100 | the buffer at full length in its level, every level still holding only buffers large enough and none twice |
| BufferPool.LimitedPool.Drop | util/buffer_pool.go:13-23 | whatever the garbage collector drops, the pool stays valid |
| SmoothWeights.CurIsDebt | client/selector.go:155-177 | after t picks a current weight is t times the weight less the total times the picks, for any weights |
| SmoothWeights.CurSumsToZero | client/selector.go:155-177 | the current weights always add up to zero |
| SmoothWeights.CurAbove | client/selector.go:155-177 | no current weight is ever as low as minus the total |
| SmoothWeights.NeverAhead | client/selector.go:155-177 | at every point a server's picks times the total are below its fair share plus one total |
| SmoothWeights.NeverFarBehind | client/selector.go:155-177 | and its fair share is less than its picks plus one for each other server |
| SmoothWeights.CycleExact | client/selector.go:143-177 | a cycle picks each server exactly its weight and returns every current weight to zero |
| SmoothWeights.CycleExactIff | client/selector.go:143-177 | for a positive total this holds exactly if no weight is negative |
| WeightedSelector.Selector.Next | client/selector.go:155-177 | one pick: the first greatest raised weight, lowered by the total; a lone server without a look at weights; nil without servers |
| WeightedSelector.Selector.BuildRing | client/selector.go:143-154 | the ring is one cycle of picks from the current weights, in order, positioned at its start |
| WeightedSelector.Selector.Select | client/selector.go:127-136 | walks the ring; empty without servers; a nil dereference exactly if there are servers and no ring |
| WeightedSelector.Selector.UpdateServer | client/selector.go:138-142 | installs the new list with the ring of the old one |
| WeightedSelector.Selector.SelectCycle | client/selector.go:127-136 | as many Selects as the ring has entries return one rotation of the ring and leave the position where it was |
| WeightedSelector.Selector.UpdateThenSelect | client/selector.go:127-148 | a Select after an update panics exactly if there are new servers and the old total weight is not positive, and otherwise serves a server of the old list |
| WeightedSelector.Selector.UpdateTwiceThenSelect | client/selector.go:127-148 | a list is served from the second update on, and then its own total decides about the panic |
| WeightedSelector.EmptyThenUpdated | client/selector.go:118-148 | a selector made without servers and then updated dereferences nil at its first Select |
| WeightedSelector.RingExact | client/selector.go:143-154 | the ring holds each server exactly its weight times and the next ring would be the same |
| WeightedSelector.AnyCycleIsExact | client/selector.go:127-154 | every rotation of the ring holds each server exactly its weight times |
| WeightedSelector.ServeCycle | client/selector.go:127-154 | the Selects themselves, run for a cycle from any position of a ring built at rest, return each server exactly its weight times |
| WeightedSelector.UpdateTwiceThenServe | client/selector.go:127-154 | after two updates with a list at rest, a cycle of Selects returns each of its servers exactly its weight times |
| JumpHash.Hash | client/hash_utils.go:10-24 | terminates with a bucket in range, the last jump point below the bucket count; non-positive counts act as one |
| JumpHash.JumpMovesOn | client/hash_utils.go:20 | with any monotone rounding that is exact on 53-bit integers, a jump moves on by at least one and its result fits int64 |
| JumpHash.ExactArithmeticRounds | client/hash_utils.go:20 | exact arithmetic is such a rounding |
| JumpHash.MovesOnlyToNew | client/hash_utils.go:17-21 | growing from m to n buckets leaves a key where it is or moves it into a new bucket; the bucket is unique |
| JumpHash.GrowByOne | client/hash_utils.go:10-24 | one bucket more: the key stays or moves into the new one |
| Retry.XClient.GetCachedClient | client/xclient.go:315-374 | a good cached client, or a new one that is cached; a bad one is dropped and closed; no closed client is ever handed out |
| Retry.XClient.SelectClient | client/xclient.go:264-301 | the selector's server and a client for it, or the error: shut down, no server named, or the one dialling ends in when no good client is cached |
| Retry.XClient.RemoveClient | client/xclient.go:409-426 | the client is closed and no longer cached, and no other entry changes |
| Retry.XClient.Loop | client/xclient.go:600-657 | the rounds, at most Retries + 1: each is an attempt, on its own new client for its server, or had no server named or a dialling that failed, each failure counting once; they stop early exactly after an attempt that succeeded or ended in a context or service error; a client whose call failed is closed; in Failtry all rounds are for the first server, in Failover each is for the one selected for it |
| Retry.XClient.Call | client/xclient.go:569-722 | the error of the last attempt or, without one, of the selection, which is a function of the state and the world before the call; nil exactly if the last attempt succeeded, or retries are negative and the selection has no error; one attempt in Failfast, otherwise the rounds of the loop |
| Retry.XClient.CallTriesAll | client/xclient.go:600-657 | when no dialling fails and the selector names a server whenever asked, every round makes an attempt, and an error that may be retried comes after exactly Retries + 1 of them |
| Retry.NegativeRetriesDoNothing | client/xclient.go:569-722 | a run: with negative retries and a server that can be dialled Call returns nil and has called nothing |
| LogicSync.MakePool | server/option.go:64-67 | every slot holds a mutex of its own |
| LogicSync.Server.Apply | server/option.go:46-69 | an option in any position: the methods declared so far, the last positive pool size |
| LogicSync.NewServer | server/server.go:148-175 | for every list of options the pool is the last positive size, the default size if a method is declared without one, or none |
| LogicSync.SameKeySameLock | server/server.go:721-768 | a request for a declared name with a share context gets a lock exactly if the name resolves to a method, and methods with the same key get the same one |
| LogicSync.BodiesNeverOverlapIff | server/server.go:609-922 | over all runs of a server built with any options, requests for declared names with the same key never overlap exactly if both names resolve to methods |
| LogicSync.OverlapIff | server/server.go:797-810 | bodies of any two requests can overlap exactly if one of them takes no lock or they lock different slots |
| LogicSync.DeclaredFunctionsOverlap | server/server.go:852-922 | two calls of a declared raw function with one key overlap in some run |
| LogicSync.WaitsOnlyForItsSlot | server/server.go:797-810 | a handler waits only for a body under its own slot, and that body can return |

## Left out

- `SendRaw` of XClient, `Broadcast`, `Fork`, `Inform`, Failbackup and Oneshot: their results are not settled by the code alone, or they only add easy members.
- Compressors, codecs, FNV hashing, doublejump, singleflight and `sync.Pool` internals: parameters or arbitrary choices here.
- Sockets, TLS, QUIC, KCP, websocket, the HTTP gateway, JSON-RPC, discovery, file transfer and stream listeners: plumbing.
- Reflection-based registration, plugin containers, logging, metrics, geo selection, the circuit breaker, plain round robin and client pools: thin or easy next to what is modelled.
- Unsafe string and slice conversions: strings are values, so sharing between a decoded message and its buffer is not modelled.
- Redis: a failing store call is taken to leave the store unchanged, and the store to hold no node of this plugin at first; node contents beyond name and metadata are not modelled, nor is the value of the Stop deadline, which may pass at any moment.
- Client: a context or Done channel shared by several calls, and an unbuffered Done channel with a waiting receiver, are not modelled; heartbeats are ordinary calls; that SendRaw's own calls are signalled is not stated, since SendRaw registers even after a Close.
- WireCodec.Message.Decode: after a body that does not parse, which fields the message has already got is not stated.
- WireCodec.Message.EncodeSlicePointer: the pool may hold any buffers but the message's own header array; that a caller puts a buffer back twice or keeps writing to it is the caller's concern.
- PoolLevels.FindPoolExact: for largest sizes up to 2^31, the range in which the float64 laws that are used settle every level.
- SmoothWeights.CycleExact: weights are unbounded integers; a sum that overflows int is not modelled.
- WeightedSelector.Selector.Next: servers are records updated in place in an array, so that a ring entry is the server's name and not a pointer to the record; EffectiveWeight, which nothing reads, is left out.
- Retry.XClient.Loop: the Failtry and Failover loops are one method, which differ in the call that gets the next client; sticky clients, breakers, cached-client builders and concurrent callers are not modelled.
- LogicSync.NewServer: only the two LogicSync options are told apart from other options.
