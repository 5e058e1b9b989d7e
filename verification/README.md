# Verification model of the V4L2 Codec2 components

This project models the hard parts of the V4L2 based Codec2 video components in Dafny and proves properties of
the models. `dafny verify dfyconfig.toml` checks everything.

What is modelled, file by file:

- `V4L2Queue.dfy`: who owns a V4L2 buffer. Indices move between the free list, the device and references; a
  reference may outlive its allocation. Weak pointers become a generation number.
- `DecoderFrames.dfy`: the decoder's CAPTURE side, over that queue and the pooled block pool: which block is on
  which buffer.
- `DecodeProtocol.dfy`, `DecodeComponent.dfy`, `DecoderRequests.dfy`, `DecodePipeline.dfy`: works, decode requests
  and drains. The component and the decoder are proved on their own, for any behaviour of the other side, and then
  together.
- `SurfaceSwitch.dfy`: buffers tracked by the BufferQueue block pool across surface switches.
- `DevicePoller.dfy`, `FetchToken.dfy`: two small concurrent protocols, as atomic steps of their threads.
- `EncoderStates.dfy`, `FormatConverter.dfy`, `EncodeOrder.dfy`, `EncodePipeline.dfy`, `EncodedOutput.dfy`: the
  encoder's state machine, the blocks of the format converter, the order in which the encode component reports works,
  all of them together, and the bytes that the client gets.
- `NalStream.dfy`, `EncodeHelpers.dfy`, `BitReader.dfy`, `SpsColor.dfy`: H.264 byte streams: scanner, printer,
  rewrite with parameter sets, Exp-Golomb codes and the SPS walk to the colour description.
- `Md5.dfy`, `LevelChoice.dfy`, `CodedSize.dfy`: incremental MD5, H.264 level choice, coded-size recovery.
- `Options.dfy`, `Arithmetic.dfy`: shared helpers.

How the models are set up:

- Answers of ioctls, producers, allocators and posted tasks are parameters. Each stateful file has a `Run` method
  that takes an arbitrary sequence of events with arbitrary answers. It returns the final object and a ghost history
  of its states; the contract says that the first one is the initial state, that neighbours are related by the event
  between them (`Step`, `Next`, `Leads` or `Moves`), and that the last one satisfies the invariant. Where a run ends
  early, the contract says at what.
- Callbacks that the decoder makes into the component never call back into the decoder; the model runs them right
  after the decoder's step. The encode component does call the encoder while it hears of an input buffer; the encoder
  has nothing left to do then but to resume, which commutes with a new request and a drain.
- A dead branch of the source is kept as `assert false`: that it cannot be reached is part of what is proved.
- Assumptions the code relies on are preconditions or step guards: bitstream ids are distinct among works in
  flight, and so are frame indices in the encode component, a listener is set, DQBUF answers only with queued buffers
  and keeps the timestamp, and STREAMOFF succeeds in the decoder.

Properties that turned out to hold only under a condition are stated as such, with the case that fails:

- The SPS parser does not know of the chroma and scaling fields in profiles 134, 135, 138 and 139
  (`SpsColor.WalkReadsHeader`, `SpsColor.MissedProfileLosesColors`).
- A flush leaves waiting requests and a posted drain reply behind, and each of the three kinds does harm
  (`DecodePipeline.Pipeline.Flush`, `DecodePipeline.WaitingRequestOutlivesFlush`,
  `DecodePipeline.WaitingDrainOutlivesFlush`, `DecodePipeline.DrainReplyOutlivesFlush`).
- A drain request with no waiting work drains without an end-of-stream work, or a second time
  (`DecodePipeline.BareDrainFails`, `DecodePipeline.SecondDrainFails`).
- Local migration fails when a live slot holds an untracked or repeated buffer
  (`SurfaceSwitch.TrackedGraphicBuffers.MigrateLocalBuffers`, `SurfaceSwitch.RefusedBufferStopsMigration`).
- Making a lost buffer again may fail; the source then returns `false` for a status, which is success, and the fetch
  goes on with a slot that was never set (`SurfaceSwitch.BqBlockPool.FetchGraphicBlock`).
- A failing poll interrupt leaves the stop flag set (`DevicePoller.InterruptFailureLosesPolls`).
- A buffer released before the release flag is cleared, or while a destroyed pool's callback is stored, is missed
  (`FetchToken.FramePool.MissedIff`, `FetchToken.ReleaseBeforeClearIsMissed`, `FetchToken.WaitInVain`).
- An encoder flush while encoding leaves a posted task behind, and a poll that cannot start is forgotten when the
  last frame was handed over (`EncoderStates.V4L2Encoder.Flush`, `EncoderStates.V4L2Encoder.Proceed`).
- An encoder flush empties all slots, but takes back only the buffers of queues that stream; a frame whose streaming
  could not start stays queued (`EncoderStates.V4L2Encoder.Flush`, `EncoderStates.StrandedByFlush`).
- A flush of the encode component does not give the converter's blocks back
  (`EncodeOrder.FlushReturnsNothing`, `EncodeOrder.StarvedByFlush`).
- A frame that also ends the stream never gets its output in the encode component, and a drain makes the last frame
  such a one: its output is then an error (`EncodeOrder.FrameAtEndOfStreamIsStuck`,
  `EncodeOrder.OutputAfterDrainFails`).
- The frame index 2^64-1 is reserved by the format converter (`FormatConverters.FormatConverter.ConvertBlock`,
  `FormatConverters.FormatConverter.ReturnBlock`).
- A frame that is passed over before its input came back is not reported until a flush or the end of the stream
  (`DecodeComponent.PassedOverTooEarlyIsStuck`).
- The end of a drain abandons the works that wait behind it when other works are left at the decoder
  (`DecodeComponent.V4L2DecodeComponent.OnDrainDone`).
- Behind 3-byte start codes a unit that ends in a zero loses it (`NalStream.ScanInvertsShortPrint`).
- The bound that the coded-size recovery asserts fails for padded images (`CodedSize.ImageFitsIff`).
- The comment on MD5Final calls the length MSB-first; the code writes the low-order word and byte first, as section
  3.2 of RFC 1321 wants, and so does the model.

## Model

| member | source | states |
|---|---|---|
| `NalStream.ScanInvertsPrint` | common/NalParser.cpp:96-138 | printing any list of NAL units with 4-byte start codes and scanning it back is the identity if and only if no unit contains 00 00 01 |
| `NalStream.ScanOfPrint` | common/NalParser.cpp:96-138 | for every list of clean units the scan of the print is that list |
| `NalStream.PrintNormalises` | common/NalParser.cpp:96-138 | for any byte stream, rescanning the printed units finds the same units, whatever start codes the stream used |
| `NalStream.ScanInvertsShortPrint` | common/NalParser.cpp:96-138 | clean units behind 3-byte start codes scan back unchanged if and only if none but the last ends in a zero |
| `NalStream.ScanOfShortPrint` | common/NalParser.cpp:122-127 | what the scan makes of them otherwise: exactly one zero at the end of a unit is taken for part of the next start code |
| `NalStream.ScannedUnitsAreClean` | common/NalParser.cpp:101-138 | every unit the scan returns is clean, for any byte stream |
| `NalStream.LastUnitNotEmpty` | common/NalParser.cpp:101-127 | in a stream that does not end in a bare start code the last unit is not empty |
| `NalStream.NalsFromShift` | common/NalParser.cpp:135-138 | the scan does not look back: a prefix before the current position does not change what is found |
| `NalStream.NalParser.constructor` | common/NalParser.cpp:96-99 | a new parser has all units of the stream ahead of it |
| `NalStream.NalParser.FindNextStartCodePos` | common/NalParser.cpp:135-138 | the first start code at or after the current position, or the end |
| `NalStream.NalParser.LocateNextNal` | common/NalParser.cpp:101-106 | moves exactly one unit from the remaining list to the current one; false exactly when none is left |
| `NalStream.NalParser.Length` | common/NalParser.cpp:122-127 | the length of the current unit, trailing zero of a 4-byte start code removed; the subtraction never underflows |
| `NalStream.NalParser.Data` | common/NalParser.cpp:118-127 | the bytes of the current unit |
| `NalStream.NalParser.Type` | common/NalParser.cpp:129-133 | the low five bits of the first byte of the current unit |
| `NalStream.NalParser.LocateSPS` | common/NalParser.cpp:108-116 | stops at the first non-empty SPS; found if and only if there is one ahead |
| `NalStream.FirstSpsIff` | common/NalParser.cpp:108-116 | the first-SPS specification finds a unit exactly when an SPS exists |
| `EncodeHelpers.CopyNALUPrependingStartCode` | common/EncodeHelpers.cpp:31-43 | writes start code and unit if and only if they fit; otherwise destination and position are untouched |
| `EncodeHelpers.NextUnit` | common/EncodeHelpers.cpp:113-133 | one turn of a parser loop: the next unit of the list with its type |
| `EncodeHelpers.CollectFinds` | common/EncodeHelpers.cpp:113-133 | the scan for SPS and PPS stops at the shortest prefix that shows both, and holds the last of each in that prefix |
| `EncodeHelpers.ExtractSPSPPS` | common/EncodeHelpers.cpp:113-133 | succeeds exactly when both sets occur; the vectors end as the collected units |
| `EncodeHelpers.ExtractCSDInfo` | common/EncodeHelpers.cpp:135-152 | the codec-specific data fits its allocation exactly and scans to the list [SPS, PPS] |
| `EncodeHelpers.CollectedUnitsAreClean` | common/EncodeHelpers.cpp:113-133 | the extracted sets are clean units |
| `EncodeHelpers.RewriteUnit` | common/EncodeHelpers.cpp:159-205 | one unit, preceded by the cached sets when it is an IDR that no SPS or PPS preceded |
| `EncodeHelpers.RewriteTurn` | common/EncodeHelpers.cpp:159-205 | one turn of the rewrite loop is progress towards the rewrite of the whole stream |
| `EncodeHelpers.PrependSPSPPSToIDR` | common/EncodeHelpers.cpp:154-208 | the destination is the print of the rewritten list, the size is its length or 0 when the rewrite fails, and caches are those of the specification |
| `EncodeHelpers.InjectMeans` | common/EncodeHelpers.cpp:154-208 | the loop succeeds if and only if the cached sets exist where they are needed and the output fits; then it equals the reference rewrite that inserts SPS and PPS before each bare IDR and changes nothing else |
| `EncodeHelpers.InjectCaches` | common/EncodeHelpers.cpp:160-174 | after a finished rewrite the caches are the last SPS and the last PPS seen |
| `EncodeHelpers.InjectKeepsCaches` | common/EncodeHelpers.cpp:160-174 | caches hold clean units of the right type at all times |
| `EncodeHelpers.RewriteReadsBack` | common/EncodeHelpers.cpp:154-208 | the rewritten bytes scan to exactly the rewritten list |
| `EncodeHelpers.NothingToInject` | common/EncodeHelpers.cpp:175-197 | a list whose key frames all follow a parameter set is left as it is |
| `EncodeHelpers.RewriteIsSettled` | common/EncodeHelpers.cpp:175-197 | in the output no IDR precedes its first parameter set |
| `EncodeHelpers.SecondRewriteInjectsNothing` | common/EncodeHelpers.cpp:154-208 | rewriting the output again, with any caches, injects nothing |
| `EncodeHelpers.PrintedSizeIsSize` | common/EncodeHelpers.cpp:200-207 | the returned size is the sum of 4 plus each unit length |
| `BitReader.ParseWritesUE` | common/NalParser.cpp:34-45 | parseUE inverts ue(v) for every code number up to 2^32-2 and consumes exactly its bits (section 9.1 of ITU-T H.264) |
| `BitReader.ParseWritesSE` | common/NalParser.cpp:48-53 | parseSE inverts se(v) for every value (section 9.1.1), without 32-bit overflow |
| `BitReader.FixedBit` | common/NalParser.cpp:140-151 | bit j of an n-bit field is the one of weight 2^(n-1-j) |
| `BitReader.Reader.GetBitsGraceful` | common/NalParser.cpp:34-45 | reads n bits as a number; more than 32 bits or too few left fail |
| `BitReader.Reader.CountZeroes` | common/NalParser.cpp:34-41 | counts the leading zeros and consumes the one bit that ends them |
| `BitReader.Reader.ReadUE` | common/NalParser.cpp:34-45 | the loop refines the functional reading of an Exp-Golomb code, wrap-around included |
| `BitReader.Reader.ReadSE` | common/NalParser.cpp:48-53 | the same for signed codes |
| `SpsColor.FindsTheColors` | common/NalParser.cpp:140-265 | for every SPS of the syntax in a profile other than 134, 135, 138 and 139, written per sections 7.3.2.1.1 and E.1.1 and followed by any bits, the walk returns exactly its colour description, and none when there is none |
| `SpsColor.WalkReadsScalingList` | common/NalParser.cpp:56-75 | the scaling-list loop consumes exactly the deltas the standard writes, early end included |
| `SpsColor.WalkReadsLists` | common/NalParser.cpp:78-92 | all scaling lists of a matrix are consumed exactly |
| `SpsColor.WalkReadsHeader` | common/NalParser.cpp:140-179 | profile, level, ids and the high-profile fields are consumed exactly if and only if the profile is not 134, 135, 138 or 139 |
| `SpsColor.WalkOverHeader` | common/NalParser.cpp:140-179 | where the walk over the header ends for every SPS: behind it, or in front of the chroma and scaling fields of one of the four missed profiles |
| `SpsColor.MissedProfileLosesColors` | common/NalParser.cpp:155-160 | for each of these four profiles, any colours and any bits that follow, there is an SPS that carries the colours and in which the parser finds none |
| `SpsColor.WalkReadsPicOrder` | common/NalParser.cpp:181-197 | all three picture order count types are consumed exactly |
| `SpsColor.WalkReadsGeometry` | common/NalParser.cpp:199-217 | frame size and cropping fields are consumed exactly |
| `SpsColor.WalkReadsVuiStart` | common/NalParser.cpp:222-240 | aspect ratio and overscan fields are consumed exactly |
| `SpsColor.SkipScalingList` | common/NalParser.cpp:56-75 | the loop with next and last scale refines the walk over a list |
| `SpsColor.SkipScalingMatrix` | common/NalParser.cpp:78-92 | the loop over present flags refines the walk over a matrix |
| `SpsColor.FindCodedColorAspects` | common/NalParser.cpp:140-265 | the reader-based parser returns exactly what the walk finds in the bits of the unit behind its first byte |
| `SpsColor.BitsOfAt` | common/NalParser.cpp:140-151 | eight bits for each byte, in order; bit j of byte i is the one of weight 2^(7-j) |
| `SpsColor.BitsOfPack` | common/NalParser.cpp:140-151 | reading bits that were packed into bytes gives them back |
| `SpsColor.ParseCodedColorAspects` | components/V4L2DecodeComponent.cpp:65-77 | locates the first SPS of a stream and parses it |
| `SpsColor.ParsePrintedStream` | components/V4L2DecodeComponent.cpp:65-77 | the parser, run on printed units whose first SPS holds the packed bits of a parameter set, returns the colour description it was written with, for all but the four missed profiles |
| `SpsColor.PrintedStreamKeepsColors` | common/NalParser.cpp:108-116 | the same of scan, first SPS and walk |
| `V4L2Queues.BuffersList.GetFreeBuffer` | common/V4L2Device.cpp:246-259 | takes the least free index, fails exactly when none is free |
| `V4L2Queues.V4L2Queue.AllocateBuffers` | common/V4L2Device.cpp:758-827 | all indices start free; refused while streaming or allocated, and undone when a buffer cannot be made |
| `V4L2Queues.V4L2Queue.DeallocateBuffers` | common/V4L2Device.cpp:829-860 | all references still out become stale |
| `V4L2Queues.V4L2Queue.GetFreeBuffer` | common/V4L2Device.cpp:875-886 | a new reference owns the least free index |
| `V4L2Queues.V4L2Queue.GetFreeBufferById` | common/V4L2Device.cpp:888-899 | a new reference owns the asked index |
| `V4L2Queues.V4L2Queue.QueueBuffer` | common/V4L2Device.cpp:901-919 | an owning reference moves its index to the device or, when QBUF fails, back to the free list; a stale one does neither |
| `V4L2Queues.V4L2Queue.DropRef` | common/V4L2Device.cpp:326-331 | a dropped reference returns its index; a stale one leaves the new free list alone |
| `V4L2Queues.V4L2Queue.DequeueBuffer` | common/V4L2Device.cpp:921-968 | moves a queued index to a new owning reference |
| `V4L2Queues.V4L2Queue.Streamon` | common/V4L2Device.cpp:976-991 | streaming exactly when it was or the call succeeds |
| `V4L2Queues.V4L2Queue.Streamoff` | common/V4L2Device.cpp:993-1017 | every queued index becomes free |
| `V4L2Queues.V4L2Queue.ReturnQueued` | common/V4L2Device.cpp:1008-1011 | the loop over queued buffers frees exactly those |
| `V4L2Queues.V4L2Queue.CountsAddUp` | common/V4L2Device.cpp:1019-1035 | free, queued and referenced counts add up to the allocation |
| `V4L2Queues.Run` | common/V4L2Device.cpp:758-1017 | for every sequence of operations, with the places of all indices before and after each: every index is free, queued or owned by one live reference, and all other references are stale |
| `DecoderFrames.PooledBlockPool.FetchGraphicBlock` | plugin_store/C2VdaPooledBlockPool.cpp:41-72 | at most bufferCount different blocks are passed on; a refused block is a new one when the set is full |
| `DecoderFrames.PooledBlockPool.RequestNewBufferSet` | plugin_store/C2VdaPooledBlockPool.cpp:74-84 | forgets the ids for a positive count, refuses others |
| `DecoderFrames.AssignmentIsBijective` | components/V4L2Decoder.cpp:616-629 | the block-to-buffer map is injective and onto 0..size-1 |
| `DecoderFrames.DecoderOutput.BufferFor` | components/V4L2Decoder.cpp:613-638 | a block that the device does not hold gets a free buffer: its old one, or the next unused one; more blocks than buffers cannot occur |
| `DecoderFrames.DecoderOutput.QueueFrame` | components/V4L2Decoder.cpp:640-653 | a block is recorded as held exactly when QBUF succeeds; the buffer cannot be enqueued twice |
| `DecoderFrames.DecoderOutput.OnVideoFrameReady` | components/V4L2Decoder.cpp:599-656 | fails only for a missing frame or a failing QBUF; earlier assignments never change |
| `DecoderFrames.FetchAndQueue` | components/VideoFramePool.cpp:172-226 | a block that the pool offers is queued; one too many is put back and changes nothing |
| `DecoderFrames.DecoderOutput.TakeFrame` | components/V4L2Decoder.cpp:405-434 | a dequeued buffer gives back the frame that was queued on it |
| `DecoderFrames.DecoderOutput.ServiceOutputTurn` | components/V4L2Decoder.cpp:405-461 | a frame with data goes to the client; an empty one is queued again on the same buffer; exactly when the turn fails |
| `DecoderFrames.ServiceOutputs` | components/V4L2Decoder.cpp:405-461 | the output loop leaves the frames, delivers the blocks and fails as the fold over its turns says |
| `DecoderFrames.EachFrameOnce` | components/V4L2Decoder.cpp:424-451 | in that fold no block is delivered twice, a delivered one is not at the device any longer, and without a failure every frame is delivered or still there |
| `DecoderFrames.DecoderOutput.Flush` | components/V4L2Decoder.cpp:335-346 | no frame stays at the device; the assignment survives |
| `DecoderFrames.DecoderOutput.ChangeResolution` | components/V4L2Decoder.cpp:498-556 | fails exactly when the format, the buffers, STREAMON or the pool cannot be had; otherwise new buffers, a new buffer set of the same size, and no assignment |
| `DecoderFrames.Run` | components/V4L2Decoder.cpp:405-656 | for every sequence of events, with the state before and after each up to the first failing call: held frames are exactly the queued buffers, each with its own block, and unmapped buffers stay free |
| `DecodeComponent.ToBitstreamId` | components/V4L2DecodeComponent.cpp:61-63 | ids are below 2^30 |
| `DecodeComponent.IdsDiffer` | components/V4L2DecodeComponent.cpp:61-63 | frame indices less than 2^30 apart have different ids |
| `DecodeComponent.BeforeMeans` | components/V4L2DecodeComponent.cpp:125-139 | ordinals less than 2^63 apart are compared in their natural order, also across the wrap-around |
| `DecodeComponent.V4L2DecodeComponent.QueueTask` | components/V4L2DecodeComponent.cpp:409-442 | which works are accepted, reported at once as corrupted or dropped with an error; accepted works get in line and are pumped in order, and no work comes to the decoder from elsewhere |
| `DecodeComponent.V4L2DecodeComponent.PumpPendingWorks` | components/V4L2DecodeComponent.cpp:444-513 | works enter the decoder in order of arrival up to the first that ends the stream; requests are exactly theirs, in order, and a drain comes last |
| `DecodeComponent.V4L2DecodeComponent.SendNextWork` | components/V4L2DecodeComponent.cpp:454-511 | one work enters: its requests, its place, the draining flag; an empty configuration work is reported at once |
| `DecodeComponent.V4L2DecodeComponent.EnterDecoder` | components/V4L2DecodeComponent.cpp:455-467 | the id is never at the decoder already |
| `DecodeComponent.V4L2DecodeComponent.OnDecodeDone` | components/V4L2DecodeComponent.cpp:515-550 | the input is given back, which the observer sees; works leave in output order, each with its report, up to the first that has not earned it by its callbacks; a failure is an error and nothing else |
| `DecodeComponent.V4L2DecodeComponent.OnOutputFrameReady` | components/V4L2DecodeComponent.cpp:552-585 | the output is recorded, which the observer sees; works that were passed over are marked and reported when they have earned it, then works leave in output order up to the first that has not; an unknown id is an error |
| `DecodeComponent.V4L2DecodeComponent.DetectNoShowFrameWorks` | components/V4L2DecodeComponent.cpp:587-615 | exactly the works whose inputs are earlier in both ordinals and that have no output are marked; none of them that has earned its report is left, unless it is the last of a drain |
| `DecodeComponent.V4L2DecodeComponent.PumpReportWork` | components/V4L2DecodeComponent.cpp:617-625 | the loop computes the reports in output order |
| `DecodeComponent.InOrderMeans` | components/V4L2DecodeComponent.cpp:617-625 | works leave in output order, each reported as finished, until the first id whose work is not done |
| `DecodeComponent.DoneIffEarned` | components/V4L2DecodeComponent.cpp:105-123 | a work counts as done if and only if it does not end the stream, its input came back if it had one, and its output came, it is configuration data, or it was passed over: by the callbacks, not by its fields |
| `DecodeComponent.V4L2DecodeComponent.ReportWorkIfFinished` | components/V4L2DecodeComponent.cpp:627-659 | reports exactly a work that is done, unless it is the last while draining |
| `DecodeComponent.V4L2DecodeComponent.LastWhileDrainingIsEos` | components/V4L2DecodeComponent.cpp:631-635 | the size()==1 shortcut is sound: the only work left while draining ends the stream |
| `DecodeComponent.V4L2DecodeComponent.ReportEOSWork` | components/V4L2DecodeComponent.cpp:661-693 | the end-of-stream work is reported last, after everything left was abandoned; false exactly when there is none |
| `DecodeComponent.V4L2DecodeComponent.ReportAbandonedWorks` | components/V4L2DecodeComponent.cpp:739-768 | every waiting work and every work at the decoder is reported as abandoned, once |
| `DecodeComponent.V4L2DecodeComponent.FlushTask` | components/V4L2DecodeComponent.cpp:728-737 | both containers are empty, draining is off |
| `DecodeComponent.V4L2DecodeComponent.StopTask` | components/V4L2DecodeComponent.cpp:314-322 | both containers are empty, the component is stopped |
| `DecodeComponent.V4L2DecodeComponent.DrainTask` | components/V4L2DecodeComponent.cpp:793-809 | marks the last waiting work; with none waiting it drains without an end-of-stream work exactly when none is at the decoder |
| `DecodeComponent.V4L2DecodeComponent.OnDrainDone` | components/V4L2DecodeComponent.cpp:811-834 | reports the end of stream last, or is an error exactly when no such work is there; works that wait behind it stay in line, in order, if and only if no other work is left at the decoder |
| `DecodeComponent.V4L2DecodeComponent.ReportError` | components/V4L2DecodeComponent.cpp:836-848 | the error state is entered once |
| `DecodeComponent.V4L2DecodeComponent.EachWorkInOnePlace` | components/V4L2DecodeComponent.cpp:409-768 | every accepted work is waiting, at the decoder or reported: in exactly one of the three |
| `DecodeComponent.V4L2DecodeComponent.ReportedOnceAndInTime` | components/V4L2DecodeComponent.cpp:627-693 | no work is reported twice; an end of stream comes after every work accepted before it |
| `DecodeComponent.Run` | components/V4L2DecodeComponent.cpp:409-834 | for every sequence of client calls and decoder callbacks, with the state before and after each: conservation and end-of-stream order; works at the decoder are what their inputs and callbacks make of them, and what was reported as finished had earned it |
| `DecodeComponent.FrameIsReported` | components/V4L2DecodeComponent.cpp:515-659 | in every run: a frame whose decode callback and whose output came, in either order with anything in between, is reported as finished with the later of the two, if no earlier output waits and it is not the last work of a drain |
| `DecodeComponent.FinishedAfterCallbacks` | components/V4L2DecodeComponent.cpp:105-123 | in every run: a work is reported as finished only after its decode callback, and unless it is configuration data or was passed over only after its output |
| `DecodeComponent.PassedOverTooEarlyIsStuck` | components/V4L2DecodeComponent.cpp:515-625 | a frame that was passed over before its input came back stays at the decoder when it does, and with every later frame: it never gets in line |
| `DecoderRequests.V4L2Decoder.DrainBarrier` | components/V4L2Decoder.cpp:243-273 | once STOP is sent every decode request sent before is answered and none was sent after |
| `DecoderRequests.V4L2Decoder.PumpDecodeRequest` | components/V4L2Decoder.cpp:238-311 | sends a prefix of the waiting requests in order, as far as the device takes them; nothing is sent after a drain |
| `DecoderRequests.V4L2Decoder.SendDrain` | components/V4L2Decoder.cpp:246-273 | STOP is sent only when no input buffer is at the device |
| `DecoderRequests.V4L2Decoder.SendDecode` | components/V4L2Decoder.cpp:275-309 | one callback is owed per queued input buffer |
| `DecoderRequests.V4L2Decoder.DecodeBuffer` | components/V4L2Decoder.cpp:194-211 | a request gets in line; in the error state its callback is posted as failed |
| `DecoderRequests.V4L2Decoder.DrainBuffers` | components/V4L2Decoder.cpp:213-236 | an idle decoder posts success, a draining or failed one posts failure, a decoding one gets in line |
| `DecoderRequests.V4L2Decoder.DequeueInput` | components/V4L2Decoder.cpp:379-403 | the callback of a dequeued input buffer is always there |
| `DecoderRequests.V4L2Decoder.FinishDrain` | components/V4L2Decoder.cpp:455-460 | the drain ends in the idle state |
| `DecoderRequests.V4L2Decoder.FlushRequests` | components/V4L2Decoder.cpp:313-363 | exactly the owed callbacks are aborted; waiting requests stay in line |
| `DecodePipeline.Pipeline.QueueWork` | components/V4L2DecodeComponent.cpp:409-442 | after a work is queued, the callbacks owed or to come are for exactly the works whose input is held; without a failing call there is no error |
| `DecodePipeline.Pipeline.PumpWorks` | components/V4L2DecodeComponent.cpp:444-513 | the same for the posted pump of the component |
| `DecodePipeline.Pipeline.PumpRequests` | components/V4L2Decoder.cpp:238-311 | the same for the posted pump of the decoder |
| `DecodePipeline.Pipeline.ServiceInput` | components/V4L2Decoder.cpp:375-403 | onDecodeDone always finds its work, with its input still held |
| `DecodePipeline.Pipeline.ServiceOutput` | components/V4L2Decoder.cpp:405-461 | an error exactly for a frame of an unknown work; at the end of a drain nothing is left at the decoder and nothing is owed |
| `DecodePipeline.Pipeline.RunPostedReply` | components/V4L2Decoder.cpp:217-222 | a posted drain reply finds its end-of-stream work |
| `DecodePipeline.Pipeline.AnswerDrain` | components/V4L2DecodeComponent.cpp:811-834 | the drain that the component started is answered by an end-of-stream report |
| `DecodePipeline.Pipeline.Flush` | components/V4L2DecodeComponent.cpp:728-737 | the pipeline is in order after a flush if and only if no request was waiting and no drain reply was posted |
| `DecodePipeline.CallbackFindsWork` | components/V4L2DecodeComponent.cpp:520-522 | a callback that is owed has its work |
| `DecodePipeline.Run` | components/V4L2Decoder.cpp:194-461 | for every sequence of events, with the state before and after each: the joint invariant; the run ends early exactly at the first error or the first flush that finds something waiting |
| `DecodePipeline.WaitingRequestOutlivesFlush` | components/V4L2Decoder.cpp:313-363 | for every pipeline in order with a decode request waiting: after a flush and the next work, its callback is owed, and the component no longer has its work |
| `DecodePipeline.WaitingDrainOutlivesFlush` | components/V4L2Decoder.cpp:246-273 | for every pipeline in order with a drain waiting: after a flush and the next work it is sent, and its end is an error of the component |
| `DecodePipeline.OneRequestWaits` | components/V4L2Decoder.cpp:275-280 | a pipeline in order with a decode request waiting can be reached: with one input buffer a second request waits |
| `DecodePipeline.OneDrainWaits` | components/V4L2Decoder.cpp:246-273 | a pipeline in order with a drain waiting can be reached: its work is at the device |
| `DecodePipeline.OneReplyIsPosted` | components/V4L2Decoder.cpp:217-222 | a pipeline in order with a drain reply posted can be reached: a work without data ends the stream |
| `DecodePipeline.DrainReplyOutlivesFlush` | components/V4L2Decoder.cpp:217-222 | for every pipeline in order with a drain reply posted: after a flush it ends the next drain, and the work that ends the stream is reported while its input is still at the device |
| `DecodePipeline.BareDrainFails` | components/V4L2DecodeComponent.cpp:804-808 | a drain without an end-of-stream work ends in an error |
| `DecodePipeline.SecondDrainFails` | components/V4L2Decoder.cpp:229-235 | for every pipeline in order that drains, at the device or with its reply posted, and has no work waiting: a second drain ends in an error |
| `SurfaceSwitch.TrackedGraphicBuffers.MoveBufferToRegistered` | plugin_store/C2VdaBqBlockPool.cpp:371-384 | a waiting buffer becomes registered; a duplicate cannot occur |
| `SurfaceSwitch.TrackedGraphicBuffers.MoveAllToBeMigrated` | plugin_store/C2VdaBqBlockPool.cpp:222-229 | every registered buffer waits afterwards; a duplicate cannot occur |
| `SurfaceSwitch.TrackedGraphicBuffers.MigrateSlot` | plugin_store/C2VdaBqBlockPool.cpp:237-268 | one slot: fails exactly when its buffer is not tracked or was in another migrated slot |
| `SurfaceSwitch.TrackedGraphicBuffers.MigrateLocalBuffers` | plugin_store/C2VdaBqBlockPool.cpp:214-275 | succeeds if and only if the buffers of the migrated slots are tracked and all different; nothing tracked is lost either way, and registered buffers and slots are exactly the migrated ones |
| `SurfaceSwitch.TrackedGraphicBuffers.MigrateLostBuffer` | plugin_store/C2VdaBqBlockPool.cpp:281-338 | a lost buffer is registered under its slot, or still waits; when it cannot be made, the status is success with no slot set |
| `SurfaceSwitch.TrackedGraphicBuffers.OnBufferDequeued` | plugin_store/C2VdaBqBlockPool.cpp:340-349 | a dequeued buffer waits no longer; the countdown goes down |
| `SurfaceSwitch.TrackedGraphicBuffers.RegisterUniqueId` | plugin_store/C2VdaBqBlockPool.cpp:170-175 | a new buffer is tracked |
| `SurfaceSwitch.BqBlockPool.GetFreeSlot` | plugin_store/C2VdaBqBlockPool.cpp:598-643 | which slot is obtained, by the answers; no id is lost or added; it succeeds exactly with a slot, or with none set when a lost buffer is due and cannot be made |
| `SurfaceSwitch.FreeSlotMeans` | plugin_store/C2VdaBqBlockPool.cpp:598-643 | the slot is that of a lost buffer, or one that the producer gives and whose buffer is known or can be requested; its buffer does not wait any longer, and no id is lost |
| `SurfaceSwitch.BqBlockPool.TrackNew` | plugin_store/C2VdaBqBlockPool.cpp:522-556 | a new buffer is tracked if and only if there is room and it can be wrapped; the whole new state and the outcome |
| `SurfaceSwitch.BqBlockPool.FetchGraphicBlock` | plugin_store/C2VdaBqBlockPool.cpp:496-596 | the whole new state and the outcome by the answers: a block if and only if there is a slot, its buffer is tracked or can be, the producer can be told after the last one, and the block can be made; exactly one id may be added; getRegisteredAllocation always succeeds |
| `SurfaceSwitch.FetchMeans` | plugin_store/C2VdaBqBlockPool.cpp:496-596 | what a fetch comes to, stated by slot, id and room and not by its steps, for every pool within its bound |
| `SurfaceSwitch.Countdown` | plugin_store/C2VdaBqBlockPool.cpp:340-349 | over any fetches the countdown is what it was, less the buffers that came out of the producer |
| `SurfaceSwitch.LostBufferComesBack` | plugin_store/C2VdaBqBlockPool.cpp:598-610 | a buffer that still waits once as many buffers came out as there are slots since the migration: the next fetch that can attach and wrap it returns a block of it, the first id that waits |
| `SurfaceSwitch.NoneIsLostBefore` | plugin_store/C2VdaBqBlockPool.cpp:277-279 | before that no lost buffer is attached: a fetch leaves all slots alone but the one the producer gives |
| `SurfaceSwitch.RefusedBufferStopsMigration` | plugin_store/C2VdaBqBlockPool.cpp:522-539 | a switch that fails although every answer is good can be reached: a reallocated buffer that was refused stays in its slot |
| `SurfaceSwitch.BqBlockPool.AllowAllocation` | plugin_store/C2VdaBqBlockPool.cpp:890-906 | the flag follows the producer |
| `SurfaceSwitch.BqBlockPool.RequestNewBufferSet` | plugin_store/C2VdaBqBlockPool.cpp:729-767 | exactly when a request succeeds; an equal request or a failing one changes nothing, another one forgets all buffers |
| `SurfaceSwitch.BqBlockPool.ConfigureProducer` | plugin_store/C2VdaBqBlockPool.cpp:769-856 | a surface switch keeps every tracked buffer; only losing the surface forgets them; the exact error condition, the buffers that migrated, the allocation flag, and who waits for a block is told exactly after a switch without error |
| `SurfaceSwitch.BqBlockPool.SwitchBuffers` | plugin_store/C2VdaBqBlockPool.cpp:816-842 | a switch fails exactly when the query, the migration or the last call to the producer does |
| `SurfaceSwitch.KeptBetweenResets` | plugin_store/C2VdaBqBlockPool.cpp:729-780 | from any point of a run up to the next different buffer set or loss of the surface no id is lost |
| `SurfaceSwitch.Run` | plugin_store/C2VdaBqBlockPool.cpp:496-856 | for every sequence of fetches, requests and switches, with the state before and after each: a fetch ends in exactly the state that the answers give, the two maps are disjoint and bounded, and from any point up to the next reset no id is lost |
| `DevicePoller.Poller.NoLostPoll` | common/V4L2DevicePoller.cpp:94-128 | while polling without error, queued buffers between tasks imply a posted task, a poll thread on its way to post one, or a signalled event with the thread waiting for it |
| `DevicePoller.Poller.StartPolling` | common/V4L2DevicePoller.cpp:32-57 | a start signals a first poll; a second start changes nothing |
| `DevicePoller.Poller.StopPolling` | common/V4L2DevicePoller.cpp:59-86 | the stop flag is set and the thread woken; joined only when the interrupt succeeds |
| `DevicePoller.Poller.Wait` | common/V4L2DevicePoller.cpp:108-109 | the event resets when the thread wakes |
| `DevicePoller.Poller.CheckStop` | common/V4L2DevicePoller.cpp:111-114 | the loop is left exactly when the stop flag is set |
| `DevicePoller.Poller.PollReturns` | common/V4L2DevicePoller.cpp:116-126 | a service task is posted, or an error task and the loop is left |
| `DevicePoller.Poller.QueueBuffer` | common/V4L2Device.cpp:901-919 | a queued buffer schedules a poll |
| `DevicePoller.Poller.Dequeue` | common/V4L2Device.cpp:921-968 | a poll is scheduled again when buffers stay queued or none was ready |
| `DevicePoller.Poller.DequeueTurn` | components/V4L2Decoder.cpp:375-416 | a loop of the service task ends only with an empty queue or a scheduled poll |
| `DevicePoller.Run` | common/V4L2DevicePoller.cpp:32-128 | for every interleaving of client and poll thread, with the state after each step as a function of the one before: no poll is lost |
| `DevicePoller.InterruptFailureLosesPolls` | common/V4L2DevicePoller.cpp:64-71 | from every state between tasks with a waiting poll thread and nothing posted: when interrupting fails, the stop flag outlives the next start, and buffers stay queued with the thread gone |
| `FetchToken.FramePool.OneToken` | components/VideoFramePool.cpp:147-241 | a request is under way if and only if exactly one token exists |
| `FetchToken.FramePool.WaitingMissedNothing` | plugin_store/C2VdaBqBlockPool.cpp:858-883 | the flag and a stored callback never coexist, and a waiting fetch missed no release since the flag was cleared, unless a dead pool took it |
| `FetchToken.FramePool.MissedIff` | plugin_store/C2VdaBqBlockPool.cpp:613-617 | a waiting fetch has missed a release since its dequeue timed out if and only if one fell before the flag was cleared or a dead pool took one |
| `FetchToken.FramePool.GetVideoFrame` | components/VideoFramePool.cpp:147-159 | accepted exactly when no request is under way |
| `FetchToken.FramePool.FetchReturns` | components/VideoFramePool.cpp:172-226 | an answer is posted for anything but a timeout |
| `FetchToken.FramePool.ClearReleased` | plugin_store/C2VdaBqBlockPool.cpp:613-617 | the flag is cleared after a dequeue timed out |
| `FetchToken.FramePool.SetNotifyBlockAvailableCb` | plugin_store/C2VdaBqBlockPool.cpp:858-883 | a remembered release runs the callback at once, otherwise it is stored |
| `FetchToken.FramePool.OnEventNotified` | plugin_store/C2VdaBqBlockPool.cpp:645-662 | a release takes the stored callback, or is remembered |
| `FetchToken.FramePool.RunCallback` | components/VideoFramePool.cpp:162-170 | the callback posts a fetch task for a live pool |
| `FetchToken.FramePool.OnVideoFrameReady` | components/VideoFramePool.cpp:229-241 | each accepted request gets one reply |
| `FetchToken.FramePool.Replace` | components/VideoFramePool.cpp:127-138 | a new pool starts without tokens |
| `FetchToken.Run` | components/VideoFramePool.cpp:147-241 | for every interleaving, with the state before and after each step: the invariants hold |
| `FetchToken.ReleaseBeforeClearIsMissed` | plugin_store/C2VdaBqBlockPool.cpp:613-617 | from every state in which a dequeue has timed out: a release before the flag is cleared is missed, and the fetch waits |
| `FetchToken.DeadPoolSwallowsRelease` | plugin_store/C2VdaBqBlockPool.cpp:651-656 | such a state is reached: a pool is destroyed while its fetch waits |
| `FetchToken.WaitInVain` | plugin_store/C2VdaBqBlockPool.cpp:645-662 | from every state without a request in which the callback of an older pool is stored: the next fetch waits although a buffer was released after its flag was cleared |
| `Md5.DigestOf` | tests/c2_e2e_test/jni/md5.cpp:156-259 | for any split of a message the result is the fold of the compression function over the padded message |
| `Md5.Context.constructor` | tests/c2_e2e_test/jni/md5.cpp:156-164 | an empty message, bit count 0 |
| `Md5.Context.Update` | tests/c2_e2e_test/jni/md5.cpp:170-214 | the message is extended; state, block and bit count follow |
| `Md5.Context.AddBits` | tests/c2_e2e_test/jni/md5.cpp:177-180 | the two words count bits modulo 2^64 |
| `Md5.BitCount` | tests/c2_e2e_test/jni/md5.cpp:177-180 | the carry test and the two shifts add 8 times the length, modulo 2^64 |
| `Md5.UsedBytes` | tests/c2_e2e_test/jni/md5.cpp:182-182 | the low word gives the bytes in use, whatever has wrapped around |
| `Md5.Context.FillBlock` | tests/c2_e2e_test/jni/md5.cpp:186-200 | a partly used block is filled and absorbed, or just extended |
| `Md5.Context.AbsorbBlocks` | tests/c2_e2e_test/jni/md5.cpp:204-213 | whole blocks are absorbed, the rest is kept |
| `Md5.Context.Final` | tests/c2_e2e_test/jni/md5.cpp:220-259 | the digest of the message: RFC 1321 padding, then the fold |
| `Md5.Padding` | tests/c2_e2e_test/jni/md5.cpp:224-247 | the padded length is a multiple of 64 |
| `Md5.PaddingShape` | tests/c2_e2e_test/jni/md5.cpp:224-252 | the padding is a one bit, the zeros the two cases write, and the two length words, low word first |
| `Md5.LittleEndianWorth` | tests/c2_e2e_test/jni/md5.cpp:224-252 | the length bytes, each weighted by its power of 256, add up to the length |
| `Md5.FoldAppend` | tests/c2_e2e_test/jni/md5.cpp:204-209 | folding over two pieces is folding over their concatenation |
| `EncoderStates.V4L2Encoder.Encode` | components/V4L2Encoder.cpp:104-129 | a frame gets in line; an idle encoder posts exactly one task, any other none |
| `EncoderStates.V4L2Encoder.Drain` | components/V4L2Encoder.cpp:131-147 | the last request is marked, or the device is drained |
| `EncoderStates.V4L2Encoder.HandleEncodeRequest` | components/V4L2Encoder.cpp:284-366 | the first request is handed over in order on a free buffer, or the encoder waits exactly when all are at the device; exactly which answers end in an error; the next state follows |
| `EncoderStates.V4L2Encoder.Proceed` | components/V4L2Encoder.cpp:335-365 | exactly which answers lead on; an assertion of setState fails exactly when streaming starts, polling does not, every block is fetched and the last frame was handed over |
| `EncoderStates.V4L2Encoder.CountKeyFrame` | components/V4L2Encoder.cpp:313-322 | a key frame is forced on exactly every keyFramePeriod-th frame since the last request for one |
| `EncoderStates.V4L2Encoder.HandleDrainRequest` | components/V4L2Encoder.cpp:402-427 | STOP, or at once the end of the drain when nothing streams |
| `EncoderStates.V4L2Encoder.OnDrainDone` | components/V4L2Encoder.cpp:429-456 | waiting requests are taken up again by one posted task |
| `EncoderStates.V4L2Encoder.EnqueueInputBuffer` | components/V4L2Encoder.cpp:736-800 | a free slot is filled; it is never taken already |
| `EncoderStates.V4L2Encoder.EnqueueOutputBuffer` | components/V4L2Encoder.cpp:802-836 | a free slot is filled; it is never taken already |
| `EncoderStates.V4L2Encoder.FillOutputs` | components/V4L2Encoder.cpp:345-348 | every output buffer is queued, if and only if a block is fetched for each free one |
| `EncoderStates.V4L2Encoder.DequeueInputBuffer` | components/V4L2Encoder.cpp:838-880 | the frame of the slot is done; an encoder that waited goes on |
| `EncoderStates.V4L2Encoder.DequeueOutputBuffer` | components/V4L2Encoder.cpp:882-986 | the block of the slot is there and goes to the client as it is or copied behind parameter sets; a new one takes its place, so all output buffers stay queued; a drain may end; exactly when it fails |
| `EncodedOutput.OutputPath.Dequeue` | components/V4L2Encoder.cpp:922-965 | over the bytes: the client gets a block exactly when there is data and, for a key frame to be rewritten, a block for the copy; it reads there the units of the frame with the cached sets before each bare key frame if these fit and exist, otherwise the frame itself |
| `EncodedOutput.OutputPath.Rewrite` | components/V4L2Encoder.cpp:936-964 | the copy is used exactly when there is something to write, it fits and no set it needs is missing; then it scans to the reference rewrite |
| `EncodedOutput.OutputPath.Extract` | components/V4L2Encoder.cpp:927-935 | the sets in a frame that is no key frame are cached |
| `EncoderStates.V4L2Encoder.RequestKeyframe` | components/V4L2Encoder.cpp:197-202 | the next frame is to be a key frame |
| `EncoderStates.V4L2Encoder.Flush` | components/V4L2Encoder.cpp:368-400 | the state machine stays in order if and only if the encoder was not encoding; slots and queued buffers agree afterwards if and only if the queue was streaming and stopped, or nothing was queued |
| `EncoderStates.StrandedByFlush` | components/V4L2Encoder.cpp:336-393 | for every encoder in order that does not stream: a frame whose streaming cannot start stays queued through a flush, without its slot |
| `EncoderStates.MatchIffNotStranded` | components/V4L2Encoder.cpp:388-393 | slots and queued buffers agree if and only if no flush left buffers queued |
| `EncoderStates.V4L2Encoder.NoDeadlock` | components/V4L2Encoder.cpp:301-305 | waiting for a buffer implies waiting requests, a streaming device and buffers at the device |
| `EncoderStates.Run` | components/V4L2Encoder.cpp:104-986 | for every sequence of events, with the state before and after each: slots match queued buffers unless a flush left some, and without error or a flush that meets a posted task every assertion holds and one task is posted exactly while encoding |
| `FormatConverters.FormatConverter.constructor` | common/FormatConverter.cpp:134-148 | all blocks are available, none has a frame |
| `FormatConverters.FormatConverter.ConvertBlock` | common/FormatConverter.cpp:161-304 | takes the first available block, or passes the frame on, as the conversion on values says; without the reserved index before, blocks and queue stay together if and only if the frame index is not the reserved one |
| `FormatConverters.FormatConverter.ReturnBlock` | common/FormatConverter.cpp:306-328 | a converted block becomes available, a passed-on frame is forgotten, as the return on values says; blocks and queue stay together if and only if the index is not the reserved one or no block is available |
| `FormatConverters.ConvertedMeans` | common/FormatConverter.cpp:161-304 | a conversion succeeds if and only if a block is available and the format is supported; the frame is known afterwards and no other is forgotten |
| `FormatConverters.ReturnedMeans` | common/FormatConverter.cpp:306-328 | a frame can be returned if and only if it is known; all others are still known, and exactly one block more is available if it had one |
| `FormatConverters.AvailableIffUnassociated` | common/FormatConverter.cpp:161-328 | a block is available if and only if no frame is associated with it |
| `FormatConverters.BlocksAddUp` | common/FormatConverter.cpp:161-328 | available blocks and blocks in use add up to all blocks |
| `EncodeOrder.EncodeComponent.QueueTask` | components/V4L2EncodeComponent.cpp:465-530 | computes the queueing on values, an error exactly when that is one |
| `EncodeOrder.QueuedMeans` | components/V4L2EncodeComponent.cpp:465-530 | a work is added behind all earlier ones and cannot overtake one that waits for the converter; an error if and only if the pool is missing, or the work need not wait and its frame cannot be converted or encoded |
| `EncodeOrder.QueuedIsFor` | components/V4L2EncodeComponent.cpp:465-530 | an input with a buffer or the end of the stream becomes the work with the next ticket, with the client's index, timestamp, buffer and end-of-stream flag |
| `EncodeOrder.OutputFindsItsWork` | components/V4L2EncodeComponent.cpp:958-976 | if no other work under way has the timestamp of a frame that was sent, output with it is no error and goes to exactly its work |
| `EncodeOrder.FrameFindsItsWork` | components/V4L2EncodeComponent.cpp:943-956 | if no other work under way has its index, the frame that comes back is given up by exactly its work, and the converter takes it |
| `EncodeOrder.FrameGoesThrough` | components/V4L2EncodeComponent.cpp:838-941 | with no other work under way, a frame that came back and got its output is reported, whichever comes first |
| `EncodeOrder.EndGoesThrough` | components/V4L2EncodeComponent.cpp:556-593 | with no other work under way, the end of the stream is reported when the drain ends and not before |
| `EncodeOrder.ReportedAreFinished` | components/V4L2EncodeComponent.cpp:978-1003 | what was reported has ended its drain, given its input back and got its output |
| `EncodeOrder.EncodeComponent.Send` | components/V4L2EncodeComponent.cpp:503-529 | computes the sending on values, an error exactly when that is one |
| `EncodeOrder.SentMeans` | components/V4L2EncodeComponent.cpp:503-529 | a work enters the work queue in its turn, if and only if its frame can be converted and encoded; the converter knows its frame and still knows all others |
| `EncodeOrder.EncodeComponent.PumpConverterQueue` | components/V4L2EncodeComponent.cpp:864-868 | the loop computes the pump on values, an error exactly when that is one |
| `EncodeOrder.PumpedMeans` | components/V4L2EncodeComponent.cpp:864-868 | waiting works are taken up in order while the converter is ready, and wait afterwards only while it is not; without a failing answer there is no error |
| `EncodeOrder.EncodeComponent.TakeUp` | components/V4L2EncodeComponent.cpp:864-868 | computes the taking up on values, an error exactly when that is one |
| `EncodeOrder.TakenUpMeans` | components/V4L2EncodeComponent.cpp:864-868 | the first work that waited enters the work queue and all works keep their places; an error if and only if the pool is missing or its frame cannot be converted or encoded |
| `EncodeOrder.EncodeComponent.Release` | components/V4L2EncodeComponent.cpp:838-863 | computes the release on values, an error exactly when that is one |
| `EncodeOrder.ReleasedMeans` | components/V4L2EncodeComponent.cpp:838-863 | the first work with the index loses its input and the converter its frame; an error if and only if there is none, it has no buffer, or the converter does not know it |
| `EncodeOrder.EncodeComponent.OnInputBufferDone` | components/V4L2EncodeComponent.cpp:838-878 | computes release, pump and report on values, an error exactly when that is one |
| `EncodeOrder.InputGivenMeans` | components/V4L2EncodeComponent.cpp:838-878 | exactly the first work with that index loses its input and no finished work is left at the front; without a failing answer an error if and only if there is no such work or the converter does not know the frame |
| `EncodeOrder.EncodeComponent.OnOutputBufferDone` | components/V4L2EncodeComponent.cpp:880-941 | computes output and report on values, an error exactly when that is one |
| `EncodeOrder.OutputGivenMeans` | components/V4L2EncodeComponent.cpp:880-941 | exactly one work with that timestamp gets output and no finished work is left at the front; an error if and only if the codec data fails, or no work has the timestamp and it is not 0 |
| `EncodeOrder.EncodeComponent.OnDrainDone` | components/V4L2EncodeComponent.cpp:556-593 | computes the end of a drain on values |
| `EncodeOrder.DrainEndsMeans` | components/V4L2EncodeComponent.cpp:556-593 | the first undrained end-of-stream work is marked, nothing else; a work is reported if and only if it is the front one, is the one marked, and is finished now |
| `EncodeOrder.EncodeComponent.ReportFinished` | components/V4L2EncodeComponent.cpp:870-877 | the loop computes the report on values |
| `EncodeOrder.ReportFrontMeans` | components/V4L2EncodeComponent.cpp:870-877 | works leave from the front up to the first that is not finished, and no work is lost or changed |
| `EncodeOrder.EncodeComponent.DrainTask` | components/V4L2EncodeComponent.cpp:532-554 | the last work that waits for the converter is to end the stream; with none waiting, the last one under way, and exactly then the encoder is drained |
| `EncodeOrder.DrainAskedMeans` | components/V4L2EncodeComponent.cpp:532-554 | exactly the last of all works is made the end of the stream; with no work under way nothing happens |
| `EncodeOrder.OutputAfterDrainFails` | components/V4L2EncodeComponent.cpp:545-553 | for every component whose last work has its timestamp for itself: after such a drain the output of that work is an error |
| `EncodeOrder.FrameAtEndOfStreamIsStuck` | components/V4L2EncodeComponent.cpp:958-976 | a work whose frame ends the stream before its output came is never reported, and no later work is |
| `EncodeOrder.EncodeComponent.Flush` | components/V4L2EncodeComponent.cpp:790-819 | all works are aborted, those waiting for the converter first, and the component starts again with the converter as it is left |
| `EncodeOrder.FlushReturnsNothing` | components/V4L2EncodeComponent.cpp:805-815 | blocks of frames under way are not returned: unless the converter knows the index of a work without a buffer it stays as it was, so all blocks are available afterwards if and only if none was in use |
| `EncodeOrder.StarvedByFlush` | components/V4L2EncodeComponent.cpp:805-815 | for every component with all converter blocks in use: after a flush every later work waits for the converter |
| `EncodeOrder.AfterKeeps` | components/V4L2EncodeComponent.cpp:465-941 | no event but a flush takes a report back, and every event that is no error keeps the order of arrival and reports finished works only |
| `EncodeOrder.Run` | components/V4L2EncodeComponent.cpp:465-941 | for every sequence of works, callbacks, drains and flushes: each state is the function of the one before and the event, the run ends early exactly at an event that is an error, and since the last flush works are reported in order of arrival, each one finished |
| `EncodePipeline.Pipeline.QueueWork` | components/V4L2EncodeComponent.cpp:465-530 | the joint state is that of the queueing on values, the pipeline fails exactly when that fails, and the joint invariant is kept |
| `EncodePipeline.QueuedKeeps` | components/V4L2EncodeComponent.cpp:465-530 | after a work is queued, the frames at the encoder are exactly those of the works that hold their input, each in one place, and the drains it will end are no more than the works that wait for one |
| `EncodePipeline.QueuedFailsIff` | components/V4L2EncodeComponent.cpp:465-530 | queueing fails if and only if the pool is missing, the frame cannot be converted or encoded, or STOP fails |
| `EncodePipeline.Pipeline.HandlePosted` | components/V4L2Encoder.cpp:284-366 | fails exactly when the encoder does, and the joint invariant is kept when a frame goes to the device |
| `EncodePipeline.HandledKeeps` | components/V4L2Encoder.cpp:284-366 | a frame that goes from the line to a device buffer stays the frame of its work |
| `EncodePipeline.ReleasedKeeps` | components/V4L2EncodeComponent.cpp:838-863 | for every frame that comes back from the device: onInputBufferDone finds its work, returnBlock succeeds, and the joint invariant is kept |
| `EncodePipeline.HolderIsFound` | components/V4L2EncodeComponent.cpp:943-956 | the first work with the index of a frame at the encoder is the one that holds it, and the only one with the index |
| `EncodePipeline.Pipeline.TakeUpAll` | components/V4L2EncodeComponent.cpp:864-868 | the loop computes the joint pump on values, an error exactly when that is one |
| `EncodePipeline.PumpedKeeps` | components/V4L2EncodeComponent.cpp:864-868 | works that waited for the converter go to the encoder in order, all keep their places, and the joint invariant is kept |
| `EncodePipeline.PumpedSucceeds` | components/V4L2EncodeComponent.cpp:864-868 | without a failing answer taking up works is no error |
| `EncodePipeline.Pipeline.ServiceInput` | components/V4L2Encoder.cpp:838-880 | the joint state is that of the input event on values, the pipeline fails exactly when that fails, and the joint invariant is kept |
| `EncodePipeline.InputGivenKeeps` | components/V4L2EncodeComponent.cpp:838-878 | exactly the work that holds the frame loses it, works that waited follow, no finished work is left at the front, and without a failing answer there is no error |
| `EncodePipeline.Pipeline.ServiceOutput` | components/V4L2Encoder.cpp:882-986 | fails exactly when the copy has no block, the restart or the new block fails, or the component has no work for the data; otherwise the works are those of output given and then of the end of a drain, and while the encoder drains a work waits for that drain |
| `EncodePipeline.OutputHeardKeeps` | components/V4L2EncodeComponent.cpp:880-941 | output and the end of a drain keep the joint invariant |
| `EncodePipeline.Pipeline.Flush` | components/V4L2EncodeComponent.cpp:790-819 | component and encoder are in order after a flush if and only if the encoder was not encoding, the device could be stopped, and the reserved index was not returned |
| `EncodePipeline.DrainHasWork` | components/V4L2EncodeComponent.cpp:567-577 | the drains that the encoder will end are no more than the works that wait for one, so onDrainDone finds its work |
| `EncodePipeline.DrainTold` | components/V4L2EncodeComponent.cpp:556-593 | the end of a drain leaves exactly one work less waiting for one |
| `EncodePipeline.Pipeline.FramesInOrder` | components/V4L2EncodeComponent.cpp:503-529 | the frames that reached the device since the last flush, followed by those in line, are the frames of the works in order of arrival |
| `EncodePipeline.OnlyOthersFail` | components/V4L2EncodeComponent.cpp:465-941 | between component and encoder no error arises: an event fails only by a failing answer, data without a work, the reserved index, or a flush of an encoding encoder |
| `EncodePipeline.Run` | components/V4L2EncodeComponent.cpp:465-941 | for every sequence of works, posted tasks, device events and flushes: each state follows from the one before by the exact step, the joint invariant holds, and the run ends early exactly at an event that fails |
| `LevelChoice.ProfileLevelSetter.Set` | components/V4L2EncodeInterface.cpp:72-186 | for every call history: the outcome, by the lowest feasible level and the candidate; failure exactly when no supported level meets the limits; the remembered level never goes up |
| `LevelChoice.Search` | components/V4L2EncodeInterface.cpp:133-179 | the loop finds the lowest supported level that meets the limits, and needs an update exactly when it passed the candidate |
| `LevelChoice.ChoiceIsRight` | components/V4L2EncodeInterface.cpp:133-179 | a level of the table is kept if and only if it is supported and meets the limits, otherwise the lowest such level is chosen |
| `LevelChoice.ChosenKeepsLimits` | components/V4L2EncodeInterface.cpp:133-179 | the chosen level keeps the limits of frame size, macroblock rate and bitrate |
| `LevelChoice.LowerBreaksLimits` | components/V4L2EncodeInterface.cpp:133-179 | each supported level below breaks one of them |
| `LevelChoice.MacroblocksCover` | components/V4L2EncodeInterface.cpp:120-123 | without wrap-around the macroblocks just cover the frame |
| `LevelChoice.FullHdNeedsLevel4` | components/V4L2EncodeInterface.cpp:100-118 | 1920x1080 at 30 frames per second and 20 Mbit/s needs level 4 |
| `LevelChoice.HigherLevelsAllowMore` | components/V4L2EncodeInterface.cpp:100-118 | what a level allows all higher levels allow |
| `LevelChoice.LimitsGoUp` | components/V4L2EncodeInterface.cpp:100-118 | all three columns of Table A-1 are non-decreasing |
| `LevelChoice.LevelComesBack` | components/V4L2EncodeInterface.cpp:124-128 | a level given up for one configuration is restored once the configuration allows it |
| `CodedSize.RoundTrip` | common/V4L2Device.cpp:1463-1537 | for every format with pixels in bytes and every size that needs no alignment, the recovered size is the allocated one |
| `CodedSize.RecoversSize` | common/V4L2Device.cpp:1519-1527 | width and height of an allocation are the only ones that fit it |
| `CodedSize.AllocatedSizeFromV4L2Format` | common/V4L2Device.cpp:1463-1537 | missing exactly for an unusable format; otherwise the largest height with w*h*bits <= 8*sizeimage < w*(h+1)*bits, and the width divisor is never zero |
| `CodedSize.AllocationSize` | common/VideoPixelFormat.cpp:228-257 | the bytes of all planes are the bits of all pixels of the aligned size |
| `CodedSize.PlanesBytesAreBits` | common/VideoPixelFormat.cpp:228-270 | plane sizes and bits per pixel agree for every format |
| `CodedSize.BitsAreExact` | common/VideoPixelFormat.cpp:259-270 | the divisions in the bits per pixel are exact |
| `CodedSize.SampleSize` | common/VideoPixelFormat.cpp:324-376 | sample sizes are 1 or 2, and never taller than wide |
| `CodedSize.BitsOfFormats` | common/VideoPixelFormat.cpp:259-376 | the bits per pixel of each format |
| `CodedSize.AlignedMeans` | common/VideoPixelFormat.cpp:148-166 | which formats are allocated with even sizes: those with several planes, YUY2 and MJPEG |
| `CodedSize.AddBits` | common/V4L2Device.cpp:1512-1515 | the loop adds the bits of all planes |
| `CodedSize.AddSizes` | common/V4L2Device.cpp:1474-1476 | the loop adds the sizes of all planes |
| `CodedSize.ImageFitsIff` | common/V4L2Device.cpp:1531-1534 | the asserted bound on sizeimage holds if and only if its bits fit those of the aligned size: exactly filled images where nothing is aligned, and always where an odd height is |
| `CodedSize.VisibleFitsIff` | common/V4L2Device.cpp:1531-1533 | the visible size lies inside the coded size if and only if its lines fit bytesperline and its image fits sizeimage |
| `CodedSize.PaddedImageDoesNotFit` | common/V4L2Device.cpp:1532-1534 | one padding byte after a 16x16 NV12 image breaks the asserted bound |

## Left out

- Emulation-prevention bytes: the SPS parser reads raw bytes, so the SPS round trip is for parameter sets whose
  bytes up to the colour description need none.
- A stream that ends in a bare start code: reading the type there reads past the data, so the final unit is not empty.
- Shifting by 32 in parseUE: undefined in C++, an unknown constant here; it does not occur for code numbers up to
  2^32-2.
- ABitReader, gralloc, dma-buf, HIDL producers, libyuv and the real ioctls: answers are parameters.
- The order in which std::map containers are walked where it does not matter for the result: abandoned works,
  aborted callbacks and migrated slots are taken in any order.
- DecodePipeline.Run: a run is not followed beyond the first error; what the component keeps in all runs is in
  DecodeComponent.Run.
- DecoderFrames.Run: a run is not followed beyond the first failing device or pool call.
- SurfaceSwitch.BqBlockPool.FetchGraphicBlock: what a fetch does with a slot that was never set is not modelled.
- EncodeOrder.Run: a run ends at the first error.
- EncodePipeline.Run: the encode component's drainTask is not part of the runs, and a run ends at the first error, the
  first flush of an encoding encoder, or the first frame with the reserved index in the converter.
- EncodePipeline.Pipeline.ServiceOutput: a block that cannot be fetched is the encoder's error; in the source the
  component's fetchOutputBlock reports the error itself and hands out a buffer without a block
  (components/V4L2EncodeComponent.cpp:821-836), with which the encoder goes on.
- EncoderStates.V4L2Encoder: the queues are seen through their queued buffers; injecting SPS and PPS into output is in
  EncodedOutput and EncodeHelpers.
- LevelChoice.ProfileLevelSetter.Set: frame rates are reals, not floats; level and profile codes are ascending numbers.
- Md5.Context.Final: the compression function and the byte order of the digest are parameters, and the final wiping
  of the context is not modelled.
- CodedSize.AllocatedSizeFromV4L2Format: the two final assertions are not part of it; CodedSize.VisibleFitsIff and
  CodedSize.ImageFitsIff say when they hold.
- Exponential back-off of fetch retries, frame statistics, device enumeration, component store, fourcc and profile
  tables: plumbing or finite tables.
