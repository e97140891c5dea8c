# Verification of yllm's distributed serving layer

A Dafny model of the parts of yllm where being right is hard, and proofs about it.

| file | models |
|---|---|
| `Engine.dfy`, `Generation.dfy` | layers as opaque functions over positional K/V rows; the batched and the token-wise forward; the single-process prefill/decode/eos loop |
| `Pipeline.dfy`, `PipelineProof.dfy`, `PipelineRuns.dfy`, `PipelineLiveness.dfy`, `PipelineAgreement.dfy` | the layer pipeline of `dist_gen` as a transition system over R ranks with FIFO links: refinement, flow control, refused rounds, no deadlock, termination, agreement of the segments |
| `Session.dfy`, `SessionRuns.dfy`, `SessionReuse.dfy`, `SessionServer.dfy` | the session protocol between server and rank, over any mix of restarts, crashes, rejections, refused resumes and resends: what is answered, and that rows are used again |
| `JobQueue.dfy` | the rank's IO thread, workers, ring and DRAIN as an interleaved transition system |
| `LayerSplit.dfy` | which rank gets which layers |
| `Softmax.dfy` | streaming softmax attention in exact reals |
| `Simd.dfy`, `Q4K.dfy`, `Q6K.dfy` | the integer-domain Q4_K and Q6_K products, lane by lane |
| `W4B64.dfy` | packing, product, dequantising and permutation of the W4B64 format |
| `ByteFile.dfy`, `Llf.dfy`, `KvFile.dfy` | the model container and the K/V file, byte by byte |
| `Json.dfy`, `JsonString.dfy`, `Sse.dfy`, `RateLimit.dfy` | text queries, event chunking and the sliding-window limiter of the HTTP layer |
| `HeadChunk.dfy` | the chunked output head |

Protocols are functions and relations over states; loops and objects that the program updates in
place are methods and classes proved against those functions. `dafny verify dfyconfig.toml` checks
everything.

## Assumptions

- A layer may read its token, its position, the activation and the rows 0..pos of one layer (its own
  or an earlier one, as gemma4's shared layers do) and writes one row. What it computes is opaque.
- K/V rows are indexed by position; recurrent state (qwen35) and speculative decoding are not in the
  model, and half-precision transfer is off.
- Sessions: one request at a time and only session requests; `cache_dir` is set, saves succeed and
  file names are injective on the keys used; the server neither restarts nor evicts during a run;
  eos is not negative. A restarted rank comes back with arbitrary memory and its files.
- Arithmetic in the kernels is exact; `exp` is any positive function with e(a + b) = e(a) e(b);
  half-precision factors of a block are given as reals. Masks by 2^k - 1 and shifts right are written
  as remainders and quotients; ORs, shifts left, saturation and 16-bit lanes are spelled out.
- Links are FIFO queues, files are byte sequences, the clock is a nondecreasing positive input.

## Where the code does not do what one would expect

Each condition is exact; of strings under a path segment it is exact which can mislead, and what is
then found depends on the text behind them.

- A prompt that fills the sequence (`start + nprompt == max_seq`) ends with one logits frame unread at
  DONE. Rank 0's tokens, position and rows are right all the same (`PipelineRefinesLocal`), but the last
  rank may find rank 0 gone: then it ends one frame behind while rank 0 reports success. All ranks end
  at rank 0's position in all runs if and only if the prompt leaves room (`SegmentsAgree`,
  `LastRankLags`, `LagHappens`). When such a prompt is a single frame, a round that a segment refused
  is reported as a success, too (`RefusedRoundFails`, `RefusalMisreported`).
- An exact hit whose first attempt is rejected, refused by the rank or finds the context full is sent
  again in full with the replayed token behind the whole session: the rank then decodes from the prompt
  with its last token twice. Which requests this happens to is told from the plan, the rank's state and
  the fates of the attempts (`ResentExactly`, `RequestAnswer`, `FailedHitDoubles`, `DoubledHappens`,
  `RefusedDoubles`). The server's list stays one token short of the rank's rows, so later requests are
  answered from a wrong context (`AfterDoubled`, `WrongAfterDoubled`). The branch that rebuilds a session
  from nothing cannot be reached, because a full resend is never refused (`ContinueKnows`).
- A prompt longer than the sequence is refused with "context full" and sent again in full, which moves
  the rank's session to position 0: the next request that resumes there is refused although nothing was
  lost, and an exact hit is doubled (`FailsIffTooLong`, `LongPromptEmpties`, `EmptiedHitDoubles`). While
  prompts fit and no connection is rejected nothing is sent twice (`NothingSentAgain`).
- `json_parse` takes a carriage return directly behind a number or literal into the value
  (`ScalarStops`); in all other white space queries are tree lookups.
- A control character other than line feed, carriage return and tab is streamed as it is, which is no
  JSON (`EscapeIsJson`); backspace, form feed and hexadecimal escapes of a request are not undone
  (`UnescapeExactly`).
- `json_find` with a segment applied to a string reads on in and behind its text. A key is looked for
  behind a string that has only white space after its first character, an index inside one that starts
  with a bracket not closed at once; for each such string some text misleads the query, for all other
  strings none does (`TrapsAreExact`, `StringStepMisleads`). Without such a segment the query is tree
  lookup (`FindIsLookup`). Keys are compared as they are written between the quotes, escapes included.
- A streamed payload of 512 bytes or more together with what is pending is dropped, and the pending
  bytes with it (`SseCtx.OnToken`).

## Model

| member | source | states |
|---|---|---|
| Engine.SegStepFrame | inference/core/engine.c:739-821 | a token at position p run through layers [lo, hi) changes no K/V row other than the rows of position p of those layers |
| Engine.SegStepCompose | inference/core/engine.c:847-975 | running layers [lo, mid) and then [mid, hi) is running [lo, hi): the meaning that lets a layer range be split over ranks |
| Engine.BatchIsTokenwise | inference/core/engine.c:549-603 | the batched, layer-major prefill writes exactly the rows and activations of the token-by-token loop, for every segment, batch and kind of layer, shared K/V layers included |
| Engine.BatchLayerLast | inference/core/engine.c:549-603 | a batched layer on n + 1 tokens is the batched layer on n tokens followed by one layer step |
| Engine.SegStepAgree | inference/core/engine.c:739-821 | two memories that agree on a closed layer range and the visible rows give the same activation and keep agreeing one row further |
| Engine.StageAgree | inference/core/dist.c:616-757 | a segment whose rows agree with the single process, fed the single process's activations at its input cut, produces those of its output cut and keeps agreeing |
| Engine.FullAppend | inference/core/engine.c:605-650 | prefilling a and then b is prefilling a followed by b |
| Engine.HoldsPrefix | inference/core/cache.c:115-119 | rows that hold a token list hold every prefix of it: why truncating is only moving the position back |
| Engine.HoldsExtend | serve/rank.c:488-493 | prefilling a delta behind rows that hold a list leaves rows that hold list + delta |
| Generation.LocalAlike | serve/rank.c:488-531 | prefill, decode and eos depend only on the rows below the start position |
| Generation.ContinuationIsFromScratch | serve/rank.c:488-531 | continuing from rows that hold a list emits the tokens that a fresh prefill of list + delta emits |
| Generation.LocalHolds | serve/rank.c:509-531 | after the loop the rows hold prompt, answer and, where there is room, eos |
| Generation.LocalAnswers | serve/rank.c:509-531 | whatever rows a request is continued from, its tokens are the answer to the whole list: each is the one sampled behind the prompt and the tokens before it and is not eos, the answer ends only at the token limit, at the end of the sequence or in front of an eos, and one eos row follows where there is room |
| Generation.OneAnswer | serve/rank.c:509-525 | there is only one such answer |
| Generation.ForwardPrefill | inference/core/engine.c:605-650 | the batching prefill method computes the rows and logits of the token-wise definition |
| Generation.ForwardBatch | inference/core/engine.c:549-603 | one batch, layer by layer, is the token-wise run |
| Generation.ForwardEach | inference/core/engine.c:823-826 | forwarding tokens one by one is the token-wise definition |
| Generation.RunLocal | serve/rank.c:488-531 | the rank's prefill/decode/eos loop computes the specification Local: rows, position and tokens |
| Pipeline.MasterShape | inference/core/dist.c:616-757 | every step of rank 0 keeps the state well formed: counters in range, frames carrying one activation per token, positions below max_seq |
| Pipeline.WorkerShape | inference/core/dist.c:763-920 | the same for every step of the other ranks |
| PipelineProof.InitInv | inference/core/dist.c:616-625 | the initial state of a round stands for the single process before its first token |
| PipelineProof.SessInv | inference/core/dist.c:621-625 | sending the handshake keeps the refinement invariant |
| PipelineProof.PrefillInv | inference/core/dist.c:628-657 | sending a prompt batch keeps the refinement invariant: the unit in flight carries the single process's activations |
| PipelineProof.PrefillWaitInv | inference/core/dist.c:652-657 | reading the logits of a non-final batch keeps it |
| PipelineProof.DecodeInv | inference/core/dist.c:687-702 | sampling from the received logits is the single process's sampling step |
| PipelineProof.SendTokenInv | inference/core/dist.c:703-731 | forwarding and emitting the sampled token is the single process's step |
| PipelineProof.FlushInv | inference/core/dist.c:739-745 | flushing the last token's logits (and those of the eos row) keeps it |
| PipelineProof.EosInv | inference/core/dist.c:746-755 | writing the eos row is the single process's last step |
| PipelineProof.DoneInv | inference/core/dist.c:756-757 | with room left, DONE is sent with nothing in flight |
| PipelineProof.ShakeInv | inference/core/dist.c:771-823 | a worker's handshake (forward, truncate to the position) keeps the refinement invariant |
| PipelineProof.WaitInv | inference/core/dist.c:833-846 | a worker's receive, of a unit or of DONE, keeps it |
| PipelineProof.HoldInv | inference/core/dist.c:848-891 | a worker's compute-and-send, single token or batch, middle or last rank, keeps it |
| PipelineRuns.RunInv | inference/core/dist.c:616-920 | every state of every interleaving of a good round stands for a point of the single-process run |
| PipelineRuns.MasterResult | inference/core/dist.c:756-757 | once rank 0 has left, whatever the others still do, its success, tokens, position and rows are those of the single-process loop, and one logits frame is unread exactly when the prompt left no room |
| PipelineRuns.PipelineRefinesLocal | inference/core/dist.c:616-757 | every run of a round with restored segments in which rank 0 has finished emits exactly the tokens of the single-process loop and reports success at its position with its rows; with start + nprompt < max_seq every rank's position and rows are those of the single process |
| PipelineRuns.FlowControl | inference/core/dist.c:628-757 | in every state at most one activation or logits unit is in flight, counters say whether there is one (until rank 0 has left), rank 0 waits for logits only while one is pending, and from DONE on all logits have been read if and only if the prompt left room |
| PipelineRuns.RunOrder | inference/core/dist.c:771-846 | on every link the handshake is the first frame, in good and in refused rounds |
| PipelineLiveness.RefusedRoundFails | inference/core/dist.c:801-823 | a round in which some segment restored too few rows emits no token and no logits, and is reported as a success if and only if the prompt is one frame that fills the sequence exactly |
| PipelineLiveness.RefusalMisreported | inference/core/dist.c:801-846 | a concrete two-rank round that rank 1 refuses and that ends with rank 0 reporting success |
| PipelineLiveness.NoDeadlock | inference/core/dist.c:616-920 | in every reachable state, of good and refused rounds, some rank can step until all have left |
| PipelineLiveness.RunsEnd | inference/core/dist.c:616-920 | every step lowers a measure, so no run is longer than its initial value |
| PipelineLiveness.EveryRunCompletes | inference/core/dist.c:616-920 | every run extends to one in which all ranks have left |
| PipelineAgreement.SegmentsAgree | inference/core/dist.c:866-891 | all finished runs of a round with restored segments report success with every rank at rank 0's position if and only if start + nprompt < max_seq |
| PipelineAgreement.LastRankLags | inference/core/dist.c:866-891 | for every round whose prompt fills the sequence, any number of ranks and frames, a run that rank 0 reports as a success and after which the last rank is one frame behind |
| PipelineAgreement.LagHappens | inference/core/dist.c:866-891 | a concrete successful two-rank round that ends with rank 0 at position 1 and rank 1 at position 0 |
| Session.Common | inference/core/cache.c:72-79 | the common prefix: equal up to its length and different right behind it |
| Session.Lcp | inference/core/cache.c:81-91 | the result is a common prefix of both lists |
| Session.LcpIsLongest | inference/core/cache.c:81-91 | no longer prefix of the request is one of the list without its trailing eos |
| Session.Best | inference/core/cache.c:94-113 | no session has a longer common prefix, and the result is a session only when that prefix is not empty |
| Session.IndexOf | inference/core/cache.c:29-39 | the first session with the key, or none |
| Session.MakePlan | serve/server.c:330-393 | the plan names a session of the table and always sends at least one token |
| Session.SwitchKnows | serve/rank.c:393-425 | switching sessions, with save and restore, keeps memory and files in agreement with the server's lists |
| Session.PlaceKnows | serve/rank.c:393-443 | when the rank accepts a resume point its rows [0, resume) are those of the server's list |
| Session.ServeKnows | serve/rank.c:376-546 | a served request answers what a fresh prefill of list prefix + delta answers, saves matching rows, and a resume of 0 is never refused |
| Session.PlaceAtZero | serve/rank.c:426-431 | a full resend is always placed |
| Session.PlanKnows | serve/server.c:330-393 | the session list kept by the plan is a prefix of the rendered prompt, and what is sent completes it; an exact hit sends the last token again |
| Session.StrikeKnows | serve/server.c:402-460 | restart, crash, rejection, refusal and lost answers all leave rank and server in agreement |
| Session.ContinueKnows | serve/server.c:461-522 | the reaction to an error keeps the plan; a full resend is never refused, so the session is never rebuilt |
| Session.CommitKnows | serve/server.c:523-533 | committing delta, answer and eos keeps server and rank in agreement |
| Session.AttemptsKnow | serve/server.c:402-533 | over the whole retry loop an answer is the from-scratch answer of its context, and the rows hold that context |
| SessionRuns.ResentExactly | serve/server.c:402-460 | a request is answered if and only if its first attempt is, or that one was rejected, refused by the rank or found the context full and a resend that fits is served after at most five more rejections; the answer comes from a resend in the second case; and whether an exact hit is doubled is decided by the plan, the rank's state and the fates of the attempts |
| SessionRuns.TriesSevenTimes | serve/server.c:402-522 | a request that is rejected again and again and fits is answered if and only if at most six rejections come before an attempt that is served |
| SessionRuns.RequestAnswer | serve/server.c:325-533 | the answer is the from-scratch answer of a context whose rows the rank then holds: the rendered prompt, or the prompt with its last token twice exactly when the request is doubled |
| SessionRuns.FailedHitDoubles | serve/server.c:380-460 | an exact hit whose first attempt is rejected or refused by the rank, and whose resend is served, always gets its last token twice |
| SessionRuns.DoubledHappens | serve/server.c:380-430 | a concrete request for [1] that is answered from [1, 1] after a rejection |
| SessionRuns.RefusedDoubles | serve/server.c:380-446 | a concrete request for [1, 2] to a restarted rank that is answered from [1, 2, 2] after a refusal |
| SessionRuns.AfterDoubled | serve/server.c:523-533 | the next request served on a doubled session is answered from the rank's list, one token longer than the server's: from its own prompt if and only if the resume point stays within the doubled prompt or what was kept behind it only repeats its last token |
| SessionRuns.WrongAfterDoubled | serve/server.c:523-533 | a concrete conversation that goes on with [1, 5, 7] and is answered from [1, 1, 7] |
| SessionRuns.AnswersFromScratch | serve/server.c:325-533 | from any agreeing state, every answer of a run of requests is the from-scratch answer, and the rank's rows are those a fresh prefill of prompt and answer writes |
| SessionRuns.SessionsAnswerFromScratch | serve/server.c:325-533 | in every run from an empty table and disk, mixing truncation, switches, restarts, crashes, refused resumes and full resends, every answer is that of a fresh prefill of the whole prompt, decoded from the rows that prefill writes; the only requests left out are those whose inputs make them doubled |
| SessionReuse.PlaceExactly | serve/rank.c:393-443 | a rank places a resume point if and only if it holds the rows: in memory for the loaded session, in the file for another, or the resume point is 0 |
| SessionReuse.RestoreWorks | serve/rank.c:393-410 | a session that is not loaded and whose file has the rows is restored: the rank stands at the resume point, its rows below are the file's, the file stays, the session that leaves is saved whole and no other file changes |
| SessionReuse.StayWorks | serve/rank.c:426-436 | the loaded session keeps its memory and files, and only the position moves back |
| SessionReuse.RefusalForgets | serve/rank.c:411-442 | a refusal leaves the session with nothing in memory and no file |
| SessionReuse.HeldIsAnswered | serve/rank.c:426-546 | a rank that holds the rows never refuses, and answers if and only if the request fits |
| SessionReuse.KeyedResumesLongest | serve/server.c:330-393 | a request with a known key resumes behind all its session shares with it, an exact hit one token before |
| SessionReuse.KeylessResumesLongest | serve/server.c:330-393 | a request without a key resumes behind all that any session shares with it |
| SessionReuse.FirstAttemptAnswers | serve/server.c:402-533 | against a table and a rank that fit together, a request whose prompt fits and whose first connection is not rejected is answered by its first attempt if and only if that one is served, and table and rank fit together afterwards, whatever happened |
| SessionReuse.NothingSentAgain | serve/server.c:325-533 | in every run from an empty table and an empty disk whose prompts fit and in which no first connection is rejected, over session switches, restarts, crashes and lost answers: no attempt is refused, no answer comes from a resend, and every served request is answered at once and from scratch |
| SessionReuse.FailsIffTooLong | serve/rank.c:440-446 | where table and rank fit together a served first attempt fails if and only if the prompt does not fit |
| SessionReuse.LongPromptEmpties | serve/rank.c:426-446 | a prompt that does not fit, sent from position 0, leaves its session at position 0 and the next resume refused |
| SessionReuse.EmptiedHitDoubles | serve/server.c:380-460 | an exact hit on a session emptied so is doubled with every attempt served |
| SessionServer.SessLcp | inference/core/cache.c:81-91 | the loop computes the specified common prefix |
| SessionServer.SessFindPrefix | inference/core/cache.c:94-113 | the loop finds the specified session |
| SessionServer.SessGet | inference/core/cache.c:29-39 | the loop finds the first session with the key |
| SessionServer.RankProc.PlaceAt | serve/rank.c:393-443 | the fields after the branches are those of the specification Place |
| SessionServer.RankProc.HandleInferCache | serve/rank.c:376-546 | fields and reply are those of the specification Serve |
| SessionServer.Server.PickSession | serve/server.c:325-366 | the table and the chosen session are those of the specification Pick |
| SessionServer.Server.Attempt | serve/server.c:403-460 | one connection does to the rank what the specification Strike says |
| SessionServer.Server.OnError | serve/server.c:461-522 | the error branches do what the specification React says |
| SessionServer.Server.ForwardInferSess | serve/server.c:325-533 | the retry loop leaves table, rank and outcome of the specification Forward |
| JobQueue.RunInv | serve/rank.c:849-1042 | ownership, order and drain invariants hold in every state of every interleaving of one IO thread and n workers |
| JobQueue.QueueSafety | serve/rank.c:878-1042 | accepted = queued + in flight + completed, jobs start in accepted order, no connection is accepted, handled or closed twice, and every connection is held in exactly one place |
| JobQueue.InferAtDoor | serve/rank.c:956-969 | in every state of every run: an INFER is taken in to be read if and only if the rank does not drain and fewer than 8 jobs are queued; otherwise it is closed |
| JobQueue.PayloadDecides | serve/rank.c:976-1000 | when its payload has arrived and the same still holds, the job is accepted and queued behind all others and its connection stays open; otherwise it is closed and nothing else changes |
| JobQueue.AcceptedExactly | serve/rank.c:956-1000 | a run has accepted exactly the connections whose payload arrived while there was room |
| JobQueue.EightCanWait | serve/rank.c:983-1000 | for any number of workers and every m up to 8 a run after which the connections 0 to m - 1 are queued in order and none is closed |
| JobQueue.DrainSafety | serve/rank.c:855-875 | once a DRAIN has been taken to be answered the queue is empty, nothing is in flight and no job is accepted or started any more |
| JobQueue.DrainAtDoor | serve/rank.c:916-932 | in every state of every run: the first DRAIN is kept and makes the rank drain; one that meets another waiting is closed and changes nothing |
| JobQueue.LastWorkerAnswers | serve/rank.c:855-875 | a worker that has run the rank dry answers the waiting DRAIN, closes it and stops the IO thread in its next two steps |
| JobQueue.IoAnswers | serve/rank.c:855-897 | in every state of every run with a dry rank and a DRAIN waiting, the IO thread alone answers it on its next round and ends |
| JobQueue.AllClosedAtExit | serve/rank.c:1005-1041 | when all threads have ended every connection opened has been closed exactly once |
| JobQueue.EveryRunEnds | serve/rank.c:878-1042 | from every state of every run a rank with workers can be shut down: the run goes on, without another job, to one in which a DRAIN has been answered, every job accepted so far has been handled, all threads have ended and every connection has been closed exactly once |
| JobQueue.DrainDecreases | serve/rank.c:916-1041 | while draining, 2 * q_len + in_flight never grows and each start and each completion lowers it |
| JobQueue.DrainStepsBounded | serve/rank.c:1010-1042 | while draining every worker step lowers a measure the IO thread never raises |
| JobQueue.DrainProgress | serve/rank.c:1010-1042 | while jobs are left some worker can step |
| JobQueue.RingPush | serve/rank.c:991-997 | writing at the tail appends to the ring's content |
| JobQueue.RingTake | serve/rank.c:1022-1025 | clearing the head and stepping it removes exactly the oldest entry |
| JobQueue.RankQueue.constructor | serve/rank.c:878-893 | an empty queue, nothing in flight, not draining |
| JobQueue.RankQueue.TryEnqueue | serve/rank.c:983-1000 | succeeds if and only if the rank does not drain and the ring holds fewer than 8 jobs; then the job is behind all others, else nothing changes |
| JobQueue.RankQueue.Take | serve/rank.c:1015-1028 | the oldest job leaves the ring and is in flight |
| JobQueue.RankQueue.Report | serve/rank.c:1034-1038 | one job less in flight, nothing else |
| JobQueue.RankQueue.Drain | serve/rank.c:917-928 | the first DRAIN is kept, a second is refused |
| JobQueue.RankQueue.TryFinishDrain | serve/rank.c:855-865 | the pending DRAIN is taken exactly when draining, empty and idle |
| LayerSplit.FindCuts | inference/core/dist.c:997-1005 | the accumulating loop puts each cut behind the first block whose running sum reaches its threshold |
| LayerSplit.SplitLayers | inference/core/dist.c:936-1014 | the split succeeds exactly when its size checks do, with the ranges given by the cuts and the pinned last rank |
| LayerSplit.SplitIsPartition | inference/core/dist.c:997-1014 | for all sizes and thresholds the ranges are contiguous and every layer belongs to exactly one rank |
| LayerSplit.SharedKvStaysTogether | inference/core/dist.c:943-956 | for gemma4 every shared layer and the layer whose rows it reads lie in the last rank's range |
| LayerSplit.LastRankStartsLate | inference/core/dist.c:943-956 | and the last rank starts as late as that allows: at the highest layer with no shared layer and no layer a shared one may read in front of it |
| LayerSplit.SplitsExactly | inference/core/dist.c:936-970 | the split succeeds if and only if there are as many blocks as ranks and, where layers share rows, a block for each other rank in front of the last one's, at least one |
| LayerSplit.SplitRangesAreClosed | inference/arch/gemma4.c:615-621 | the ranges read no rows of other ranks |
| LayerSplit.SplitGivesCuts | inference/core/dist.c:997-1014 | the starts with 0 in front and the number of layers behind are cut points that meet what the pipeline asks of them |
| LayerSplit.FreshRound | inference/core/dist.c:616-625 | with such cuts any memories make a valid round that starts a session |
| LayerSplit.SplitIsBalanced | inference/core/dist.c:995-1005 | with equal exact shares each rank gets fewer bytes than ceil(total / ranks) + 1 + the largest block |
| Softmax.ShiftNorm | inference/core/matvec.c:3132-3135 | changing the reference maximum scales the normaliser by one factor |
| Softmax.ShiftWeighted | inference/core/matvec.c:3132-3138 | and the weighted sum by the same factor |
| Softmax.TwoPassIsSoftmax | inference/core/matvec.c:3083-3145 | the two-pass softmax-weighted sum does not depend on the reference used, and its normaliser is positive |
| Softmax.StreamStep | inference/core/matvec.c:3127-3140 | one row with rescale keeps the partial sums those of the rows so far |
| Softmax.StreamRow | inference/core/matvec.c:3164-3172 | the loop body performs that step |
| Softmax.Normalise | inference/core/matvec.c:3174-3174 | the final division gives the two-pass sum |
| Softmax.AttnHead | inference/core/matvec.c:3147-3175 | the per-head one-pass loop computes softmax attention over rows s0..pos |
| Softmax.GroupRow | inference/core/matvec.c:3125-3140 | one cache row, converted once, advances every head of the group |
| Softmax.AttnGroup | inference/core/matvec.c:3083-3145 | the grouped form computes softmax attention for every head of the group and leaves the other heads alone |
| Simd.MaddubsIsDot | inference/core/matvec.c:885-888 | with weights below 64 no 16-bit pair sum saturates, so the pair sums add up to the integer dot |
| Simd.OrAdds | inference/core/matvec.c:83-90 | OR of a value below 2^k with a multiple of 2^k adds them |
| Simd.HighNibbles | inference/core/matvec.c:877-880 | a 16-bit shift right by four and a mask give every byte its own high nibble |
| Simd.HSum8IsTotal | inference/core/matvec.c:14-24 | the AVX2 horizontal sum adds all eight lanes |
| Simd.HSum4IsTotal | inference/core/matvec.c:1313-1319 | the 128-bit horizontal sum adds all four lanes |
| Q4K.UnpackScales | inference/core/matvec.c:77-91 | unpacking all eight scales and minima at once agrees with the per-group gsm_k4 |
| Q4K.ScaleBound | inference/core/matvec.c:64-73 | scales and minima have six bits |
| Q4K.WeightsAt | inference/core/matvec.c:129-138 | every dequantised weight is d * scale * nibble - dmin * minimum of its group |
| Q4K.DequantBlock | inference/core/matvec.c:93-142 | the dequantising loops write exactly those weights and nothing else |
| Q4K.GroupDot | inference/core/matvec.c:885-889 | a group's dot with dequantised weights is its integer dot scaled, less the activations' sum scaled |
| Q4K.VectorNibbles | inference/core/matvec.c:875-882 | the vector loads and masks give the group's nibbles, all below 16 |
| Q4K.AccBlock | inference/core/matvec.c:851-895 | one block adds its dequantise-then-dot value to accumulator plus correction |
| Q4K.PrepareSums | inference/core/matvec.c:908-920 | the per-group activation sums are exact |
| Q4K.RowProduct | inference/core/matvec.c:946-957 | a row is the sum of its blocks |
| Q4K.TwoRows | inference/core/matvec.c:924-945 | the two-row form computes both rows |
| Q4K.Matmul | inference/core/matvec.c:898-958 | for every block content each output is the dot of the dequantised row with the dequantised activations |
| Q6K.VectorIsBits | inference/core/matvec.c:1391-1410 | the masks, shifts and OR of the vector form give the six bits q6k_val gathers, all below 64 |
| Q6K.VectorPairs | inference/core/matvec.c:1399-1402 | shift right, mask two bits and shift left on 16-bit lanes pick each byte's own pair |
| Q6K.OffsetOverLanes | inference/core/matvec.c:1411-1416 | subtracting 8 * sum in each of four lanes takes the offset 32 out exactly |
| Q6K.GroupDot | inference/core/matvec.c:1325-1328 | a group's dot with dequantised values is (integer dot - 32 * sum) times d * xs * scale |
| Q6K.AccBlock | inference/core/matvec.c:1378-1430 | one block adds its dequantise-then-dot value to the two accumulators |
| Q6K.PrepareSums | inference/core/matvec.c:1336-1347 | the sums over 16 activations are exact |
| Q6K.Matmul | inference/core/matvec.c:1322-1482 | for every block content each output is the dot of the row under q6k_val with the dequantised activations |
| W4B64.OffsetComesOut | inference/core/matvec.c:1790-1809 | the nibble dot less 8 * xsum, scaled, is the dot with dequantised weights |
| W4B64.PanelProducts | inference/core/matvec.c:1792-1805 | the cell loops compute the eight integer dots of a panel |
| W4B64.GroupRows | inference/core/matvec.c:1780-1810 | eight outputs accumulated over all column blocks |
| W4B64.MatmulArm82 | inference/core/matvec.c:1773-1815 | every output of the scalar product on Arm82 panels is the dot of the dequantised row with the dequantised activations |
| W4B64.DequantMat | inference/core/matvec.c:744-774 | dequantising writes at every (row, column) the weight its panel gives |
| W4B64.QuantRowBlock | inference/core/matvec.c:1553-1571 | scale amax / 8 (or 1), codes in -8..7, each within half a scale of its source, except above 7.5 scales, where it is 7 and within one scale |
| W4B64.ScalesSpan | inference/core/matvec.c:1556-1562 | 8 steps of a weight's scale, 127 of an activation's, reach exactly the largest magnitude of the block; where that is at most 1e-8 the scale is 1 |
| W4B64.PackPanel | inference/core/matvec.c:1614-1624 | the packed nibbles and scales read back as the codes + 8 and the scales |
| W4B64.PackMat | inference/core/matvec.c:1590-1628 | for every shape the format has room for, every panel packs its part of the source, rows past the end are zero, and nothing behind the matrix is touched |
| W4B64.PackingError | inference/core/matvec.c:1553-1628 | dequantising what was packed gives every element back up to half its block's scale, and up to the scale for an element above 7.5 scales |
| W4B64.PermutationsUndo | inference/core/matvec.c:1673-1707 | permuting there and back, from either order and for every number of panels, is the identity |
| W4B64.ColumnsAdjacent | inference/core/matvec.c:1834-1842 | in an Arm86 panel eight consecutive columns of a row are eight adjacent bytes |
| W4B64.OrdersAgree | inference/core/matvec.c:1673-1707 | a permuted matrix, read in the order of the target, has the same nibble in every panel, row and column and the same scales: Arm86 bytes hold what the Arm82 bytes held, and back |
| W4B64.PermutePair | inference/core/matvec.c:1651-1671 | a pair of cells through the buffer, also in place |
| W4B64.PermutePairs | inference/core/matvec.c:1673-1697 | the loops permute every panel, with source and destination distinct or the same, and keep scales and zeros |
| W4B64.ActQuant | inference/core/matvec.c:1709-1770 | every block's scale is amax / 127 (or 1), every code stands for its activation up to half a scale and needs no clamping, and the sums and codes are what the product relies on |
| Llf.SortedIsOrder | inference/convert/convert.c:28-40 | sorting keeps the items and puts distinct (layer, slot) in strict order |
| Llf.OffsGrow | inference/convert/convert.c:67-84 | data ranges of sorted items follow each other without overlap |
| Llf.Place | inference/convert/convert.c:66-84 | the placing loop fills exactly the items' table cells with offsets relative to an aligned layer start |
| Llf.LayerEnd | inference/convert/convert.c:88-95 | the layer end found from the table is the end of the layer's last item |
| Llf.CountLayers | inference/convert/convert.c:43-59 | the plan is accepted exactly when every item is in range and every layer has one |
| Llf.Enter | inference/convert/convert.c:85-100 | directory entries: offset, aligned size and count of every layer |
| Llf.WriteData | inference/convert/convert.c:124-131 | chunked writing puts the whole tensor at its offset |
| Llf.Emit | inference/convert/convert.c:36-152 | a file whose tables describe the sorted plan and whose data ranges hold the items' bytes, or a refusal |
| Llf.Read | inference/core/llf.c:21-47 | accepts exactly the files with magic, version, size and aligned directory entries inside the file |
| Llf.LayerBounds | inference/convert/convert.c:67-101 | a layer ends where the next one starts, the first behind the tables, the last at the end of the file |
| Llf.EmittedAccepted | inference/core/llf.c:21-47 | the reader accepts every emitted file, and the layers tile it |
| Llf.EmittedTensor | inference/core/llf.c:21-47 | reading a tensor at dir.offset + meta.offset gives its source bytes and its description |
| Llf.EmitThenRead | inference/convert/convert.c:36-152 | emit then read, for any plan with distinct (layer, slot) and no empty tensor: accepted, tiled and every tensor back |
| ByteFile.FieldRoundTrip | inference/include/llf.h:90-127 | a field wide enough for its value reads back |
| ByteFile.WriteBehind | inference/convert/convert.c:22-26 | writing at or behind the end keeps what is there |
| KvFile.Layout | inference/core/cache.c:331-339 | regions do not overlap and rows stay inside their region and the buffer |
| KvFile.HeaderDecides | inference/core/cache.c:373-381 | a saved header matches exactly the engines of its own shape and format flag that have room for its position |
| KvFile.Save | inference/core/cache.c:318-341 | the file is the header and the rows [0, pos) of all 2 * nb regions |
| KvFile.Load | inference/core/cache.c:365-394 | succeeds exactly on a matching header and a long enough body, then holds the file's rows; a mismatch changes nothing, and no byte outside the rows ever changes |
| KvFile.SaveThenLoad | inference/core/cache.c:318-394 | loading what was saved, into another buffer or the same one, restores exactly the rows [0, pos) and leaves every other byte |
| Json.BodyEnds | serve/json.h:77-79 | the scan inside a string stops exactly at its closing quote |
| Json.ScanValue | serve/json.h:44-71 | inside brackets the scan steps over any printed value with the depth unchanged |
| Json.ParseStopsAtEnd | serve/json.h:38-98 | json_parse on a tree printed with any white space of RFC 8259 section 2 stops exactly at its end and reports its type and text, provided no scalar has a carriage return directly behind it |
| Json.ScalarStops | serve/json.h:81-96 | that proviso is exact: a number or literal is read to its end if and only if no carriage return stands directly behind it |
| Json.ObjFinds | serve/json.h:101-125 | json_find_in_obj on an object printed with any such white space is key lookup, found or not |
| Json.ArrFinds | serve/json.h:144-164 | the array loop on an array printed with any such white space is index lookup, found or not |
| Json.AtoiOfDigits | serve/json.h:145-145 | atoi of an index in decimal is the index |
| Json.FindIsLookup | serve/json.h:129-173 | json_find over a tree printed with any such white space returns what tree lookup returns, found or not, for every path that applies no key to a string of one character and white space and no index to a string that starts with an open bracket |
| Json.TrapsAreExact | serve/json.h:129-173 | in every text every key is not found in a string if and only if it is no trap for keys; the same for indices |
| Json.RootTrapsAreExact | serve/json.h:129-173 | asked at its opening quote a string finds nothing for any key if and only if it is not all white space, and nothing for any index |
| Json.StringStepMisleads | serve/json.h:129-173 | a concrete text and path for each of the two traps where json_find finds a value the tree does not have |
| Json.UnescapeUndoesEscape | serve/json.h:176-196 | unescaping what sse_on_token escapes gives the text back |
| Json.StringRoundTrip | serve/router_http.c:396-407 | escape, quote, parse and unescape return the original NUL-free string |
| JsonString.EscapeIsJson | serve/router_http.c:396-407 | what sse_on_token escapes is a string of RFC 8259 section 7, and stands for the text, if and only if the text has no control characters but line feed, carriage return and tab; it is one line in any case |
| JsonString.UnescapeExactly | serve/json.h:176-196 | a string that section 7 allows is read as what it stands for if and only if it has no escape for a backspace, a form feed or a code unit in hexadecimal |
| Json.JsonParse | serve/json.h:38-98 | the parsing loops compute the specification Parse |
| Json.JsonFindInObj | serve/json.h:101-125 | the member loop computes the specification FindInObj |
| Json.JsonFind | serve/json.h:129-173 | the path loop computes the specification Find |
| Json.JsonStrUnescape | serve/json.h:176-196 | the unescaping loop writes the specified text and a final NUL and nothing behind it |
| RateLimit.BucketsAreWindow | serve/router_http.c:64-83 | the ring's slots together make up the window |
| RateLimit.SlotIsBucket | serve/router_http.c:70-78 | what a scan counts of a slot is that slot's share of the window |
| RateLimit.StaysLimited | serve/router_http.c:183-186 | recording a request while the last 60 seconds are under the limit keeps every 60-second window under it |
| RateLimit.Limiter.constructor | serve/router_http.c:51-61 | an empty ring |
| RateLimit.Limiter.Scan | serve/router_http.c:64-83 | returns exactly the requests and tokens of the last 60 seconds and the age of the oldest second |
| RateLimit.Limiter.Bump | serve/router_http.c:85-107 | records an event in the current second's slot, reset when it holds an older one |
| RateLimit.Limiter.BumpTokens | serve/router_http.c:98-107 | records positive token counts only |
| RateLimit.Limiter.Admit | serve/router_http.c:175-187 | admits exactly while the last 60 seconds are under both limits, keeps every 60-second window within rpm_limit, and else tells to wait exactly until the oldest event leaves the window |
| Sse.Utf8CompleteLen | serve/router_http.c:358-373 | the scan loop computes the specification Complete, whose meaning the next two rows give |
| Sse.StopsAtCharacter | serve/router_http.c:358-373 | the scan of any text in UTF-8 (RFC 3629 section 3) that breaks off inside a character stops right in front of that character |
| Sse.CompleteIsWhole | serve/router_http.c:358-373 | the complete part of any beginning of a text are its whole characters |
| Sse.TailIsShort | serve/router_http.c:358-373 | at most three bytes are held back |
| Sse.Resumes | serve/router_http.c:358-373 | more bytes do not change where the scan has been |
| Sse.ChunkSettles | serve/router_http.c:375-394 | one payload leaves emitted = complete part of the stream and pending = the rest |
| Sse.CutsDoNotMatter | serve/router_http.c:375-394 | for every cut of a stream into payloads under 509 bytes the emitted and pending bytes depend on the stream only |
| Sse.EmitsWhole | serve/router_http.c:375-394 | between two states of a stream that begins a text, whole characters are emitted |
| Sse.Escaped | serve/router_http.c:396-407 | the escaping loop computes the specification Escape |
| Sse.SseCtx.OnToken | serve/router_http.c:375-417 | a client that unescapes the events has received exactly the complete part of the stream; while the stream begins a text every event consists of whole characters; an oversized payload drops itself and the pending bytes |
| HeadChunk.GcdFacts | inference/core/engine.c:206-207 | Euclid's loop gives a divisor of both that is a combination of both |
| HeadChunk.WholePages | inference/core/engine.c:206-209 | row counts that fill whole pages are exactly the multiples of 4096 / gcd |
| HeadChunk.HeadChunkRows | inference/core/engine.c:203-211 | the largest chunk of at most max_rows rows that fills whole pages, or 0 when there is none |
| HeadChunk.Head.MatmulRows | inference/core/engine.c:233-236 | writes the logits of its rows once and no others |
| HeadChunk.Head.Release | inference/core/engine.c:237-238 | only pages of rows already used are released |
| HeadChunk.Head.LmHeadChunked | inference/core/engine.c:213-249 | every logit is written exactly once, and the released ranges are page-aligned, in order, disjoint and inside the tensor |

## Left out

- Sockets, select, process handling, logging, configuration, the supervisor and the HTTP parser: plumbing; a failing socket operation is a nondeterministic step of the pipeline, a lost connection a fate of a session attempt.
- CUDA and Vulkan devices, the tokenizer, rendering, vision and the numerics of norms, RoPE and activations: opaque.
- Speculative decoding: an accepted draft moves the position before its own forward, so its accounting is not the plain loop's.
- The pipeline inside a session request (serve/rank.c:453-486) is modelled by the pipeline on its own; a session request uses the single-process loop, and the two meet in `PipelineRefinesLocal`.
- The files a pipeline worker restores from are abstracted to the number of rows each rank holds when the round starts, with rows that agree with the single process up to that number.
- The token-wise prefill compiled without batching (inference/core/dist.c:664-681) is the pipeline with frames of one token and is not modelled separately.
- Client disconnects that stop a decode loop early, the progress and status counters of a request, and the queue statistics of the server.
- Floating-point rounding everywhere; in the layer split the thresholds are arbitrary for the partition and exact rationals for the balance bound, and the fixed table of 64 starts is not modelled.
- The aarch64 and generic forms of the Q4_K and Q6_K products, IQ4_XS, Q5_K and the Arm86 form of the W4B64 product.
- Generation.RunLocal: the loop does not stop early when the client has gone (serve/rank.c:518 is not part of this model).
- SessionServer.RankProc.HandleInferCache: the branch for several ranks (serve/rank.c:453-486) is not in it; that round is the pipeline's.
- LayerSplit.SplitLayers: the thresholds are inputs and the tables of 64 entries have no bound.
- Q4K.Matmul: it starts from quantised activations; quantising them is not modelled.
- Q6K.Matmul: it starts from quantised activations; quantising them and the path without AVX2 are not modelled.
- W4B64.PermutePairs: a destination that overlaps the source only in part is not modelled; arrays are the same or distinct.
- W4B64.PackMat: the source matrix is a sequence of rows, so that its row stride is not modelled.
- Llf.EmitThenRead: plans with duplicate (layer, slot) or empty tensors are outside, as `llf_emit` does not check for them; file sizes stay below 2^64.
- Llf.Emit: outside are the same plans, with duplicate (layer, slot) or empty tensors.
- Llf.Enter: outside are the same plans, with duplicate (layer, slot) or empty tensors.
- Llf.LayerEnd: outside are the same plans, with duplicate (layer, slot) or empty tensors.
- Llf.Read: the tables are not checked against the file size by the program either; a table cell beyond the end reads as an error in the model.
- Json.JsonFind: reading behind the terminating NUL, as a backslash before it makes the program do, gives NUL in the model; indices fit a C int, path segments are shorter than 128.
- RateLimit.Limiter.Admit: scan and bump of one admission are one step; two interleaved admissions could both pass the scan.
- HeadChunk.Head.LmHeadChunked: the pre-quantised Q6_K variant and the plain one are the same opaque row product.
- JobQueue.RunInv: PING and STAT are connections that are closed at once; a failing listen, the pipe worker thread and heartbeats are not modelled.
- `convert_dummy`, GGUF and safetensors parsing, the prefetch worker and its residency accounting.
