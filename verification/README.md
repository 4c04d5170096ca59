# Acquirer gateway: verified model

The acquirer gateway moves card money at most once through an issuer link that loses messages, across
crashes, races and retries. This project models its core in Dafny 4.11 and proves what the gateway is
for. `dafny verify dfyconfig.toml` checks all of it. Paths below are relative to the repository root.

## How it is built

Every SQL statement or DB transaction is one function on the tables, so one atomic step. A protocol is a
state machine: `Apply(s, step)` is total (a step that is not enabled changes nothing), so every sequence
of steps is a run and every theorem quantifies over all of them. Processes interleave freely between
statements, and may stop for ever between any two. The code that runs those statements one after the
other is a method on mutable tables. Between any two of its statements the other processes may take any
steps (`Meanwhile`), and its statements may fail; whatever they do, the call is proved to be a run of the
machine (`Leads`), so the theorems about all runs cover it. What it leaves when nothing disturbs it is
stated beside that.

| file | content |
|---|---|
| `numerals.dfy` | decimal and hex texts, padding, parsing, and their inverses |
| `codec.dfy`, `codec_proofs.dfy`, `codec_methods.dfy` | ISO 8583 pack and unpack as functions, their round trips, and the loops that compute them |
| `wire.dfy` | what a packed message looks like, digit by digit |
| `frames.dfy`, `mac.dfy`, `messages.dfy` | the generated field table and its size bound, framing on a byte stream, MAC placement and verification, requests and advices as messages |
| `store.dfy`, `tables.dfy` | tran_log and saf_queue: each statement as a function, and in place as a method |
| `gateway.dfy` | the machine of requests, cancellations, sweeper, worker and crashes |
| `gateway_proofs.dfy`, `gateway_theorems.dfy`, `completions.dfy` | its invariant, what follows from it, and the completion claim with the faults that break it |
| `interleaving.dfy`, `requests.dfy`, `sweeper.dfy`, `worker.dfy` | the request path and the cancellation, one sweep and one delivery pass, in place, amid all other processes |
| `idempotency.dfy`, `joined.dfy` | fenced reservations: the protocol, `Idempotent` in place, and the protocol joined with the gateway |
| `rotation.dfy`, `rotation_proofs.dfy`, `rotation_runner.dfy` | key rotation with lost statements, crashes and recovery, and the runner in place |
| `stan.dfy`, `mux.dfy`, `cursor.dfy`, `pages.dfy`, `journey.dfy` | STAN and RRN over restarts, response correlation, the list cursor, paging, the journey builder |

## Fault models

- `Lost` is a statement that did not commit and failed; `Unsure` is one that committed and still failed.
  All properties of `GatewayTheorems` hold with both, at any statement where they change what the code
  does next, and with a crash anywhere.
- The completion property holds in every run without a harmful fault (`Completions.Harmful`). A fault is
  harmful when, for a completion, the SENT write commits and still fails, the history write after it
  fails, or a refusal is not recorded in a row that is SENT or that the sweeper has moved on: the code
  then frees the claim of a row that may have taken the money. The condition is exact: a harmless step
  keeps the claims (`StepClaims`), a harmful one breaks them (`HarmBreaks`). Crash-stop faults, a lost
  SENT write and every fault of another transaction type are harmless.
- There is one store-and-forward worker: a batch of 50 sends of 30 s can outlive the 60 s lease, so two
  workers could hold one row.
- `QueueAdvice` has no state guard, so only 0420s are unique, not repeats of a 0220.
- `Store` of an idempotent response is not fenced: any response may be stored for any key at any time.
  At most one send is proved, not byte-identical replays.
- Clocks do not run backwards; the chaos duplicate hook is off.

## What does not hold

- On tables that hold rows from before original_rrn existed, a sweep with no error need not shrink the
  orphans: a completion that does not name its pre-authorization is left TIMED_OUT with nothing queued,
  found again by every sweep, and fifty of them in front keep every later orphan from being seen.
  `Sweeper.SweepShrinks` says exactly when a sweep makes progress and `Sweeper.StuckExample` shows a table
  that is stuck; in every state the gateway itself reaches, every sweep does (`Sweeper.EverySweepShrinks`).
- A pre-authorization can be completed twice after one harmful fault, with both completions approved by
  the issuer (`Completions.BothApproved`).
- A wire text that sets bit 1 and carries an all-zero secondary bitmap is accepted and repacks to a
  shorter text; `CodecProofs.PackUndoesUnpack` is the exact condition.
- `Serve` can stop for ever: it holds a further response for a request whose `Send` no longer waits, with
  another response in its channel. Two responses and a timeout lead there, and so do responses that
  arrive between a normal receive and the deferred delete. `Mux.BlockedForEver` and
  `Mux.UnblockedProceeds` say exactly when.
- Two Sends in flight under one key count once in `Pending` (`Mux.SharedKeyUndercounts`).

## Model

| member | source | states |
|---|---|---|
| `CodecProofs.UnpackUndoesPack` | gateway-go/internal/iso8583/codec.go:84-213 | for every well-formed table, whatever Pack accepts unpacks to the same MTI and the same elements |
| `CodecProofs.PackUndoesUnpack` | gateway-go/internal/iso8583/codec.go:182-276 | every accepted text repacks, to itself if and only if it does not announce an empty secondary bitmap, and then to one 16 characters shorter |
| `CodecProofs.EmptySecondaryAccepted` | gateway-go/internal/iso8583/codec.go:215-239 | every text of an MTI, a page with only bit 1 and an all-zero page is accepted with no elements |
| `CodecProofs.EmptySecondaryExists` | gateway-go/internal/iso8583/codec.go:215-239 | for any table there is an accepted text of the excepted kind |
| `CodecProofs.BitmapReadBack` | gateway-go/internal/iso8583/codec.go:54-80 | a written page is 16 hex digits whose bits are exactly the numbers present on that page |
| `CodecProofs.BitmapWriteBack` | gateway-go/internal/iso8583/codec.go:54-80 | writing the numbers read from a page of 16 hex digits gives that page again |
| `CodecProofs.PositionsExact` | gateway-go/internal/iso8583/codec.go:54-63 | the positions read are ascending and are exactly the set bits |
| `CodecProofs.FieldReadBack` | gateway-go/internal/iso8583/codec.go:129-276 | a packed field, anywhere in a text, is read as its value and leaves the position after it |
| `CodecProofs.FieldWriteBack` | gateway-go/internal/iso8583/codec.go:241-276 | a field read from a text packs to exactly the slice it was read from |
| `Wire.PageOnWire` | gateway-go/internal/iso8583/codec.go:65-80 | digit j of a page is the hex digit of the bits for the page's elements 4j+1 to 4j+4, the first the most significant |
| `Wire.PrefixOnWire` | gateway-go/internal/iso8583/codec.go:129-155 | an LL or LLL element is its data length in two or three decimal digits, then its value; a fixed one its value alone |
| `Wire.MessageOnWire` | gateway-go/internal/iso8583/codec.go:84-113 | a packed message is the MTI, the first page, the second exactly when an element is above 64, and the elements ascending |
| `CodecMethods.SortInts` | gateway-go/internal/iso8583/codec.go:157-163 | the array in place is sorted and a permutation of what it was |
| `CodecMethods.BitPositions` | gateway-go/internal/iso8583/codec.go:54-63 | the shift-and-test loop yields the set bits of the value, in order |
| `CodecMethods.WriteBitmap` | gateway-go/internal/iso8583/codec.go:65-80 | setting bit by bit, formatting and padding gives the page of the present numbers |
| `CodecMethods.PackMessage` | gateway-go/internal/iso8583/codec.go:84-145 | collecting, sorting and appending computes Pack, with the same error for the same field |
| `CodecMethods.Taker.Take` | gateway-go/internal/iso8583/codec.go:172-179 | the slice at the position and the position after it, or an error and no move |
| `CodecMethods.ReadBitmaps` | gateway-go/internal/iso8583/codec.go:215-239 | the numbers of one or two pages and the position after them, or the error Unpack reports |
| `CodecMethods.ReadField` | gateway-go/internal/iso8583/codec.go:241-276 | the value and the position UnpackField gives, or its error |
| `CodecMethods.UnpackSegmented` | gateway-go/internal/iso8583/segments.go:13-63 | accepts what Unpack accepts with the same result, and the segments concatenate to the input |
| `Frames.TableWellFormed` | gateway-go/internal/iso8583/spec_gen.go:5-45 | the generated table meets what the round trips ask of a table |
| `Frames.MessageFits` | gateway-go/internal/iso8583/spec_gen.go:5-45 | every message Pack accepts over the generated table is at most 2085 bytes |
| `Frames.Stream.WriteFrame` | gateway-go/internal/isonet/framer.go:13-26 | refused exactly above 4096 bytes; otherwise the framed payload is appended, or as much of it as the connection takes before it fails |
| `Frames.Stream.ReadFull` | gateway-go/internal/isonet/framer.go:29-43 | exactly so many bytes off the head, or all there are and a failure |
| `Frames.Stream.ReadFrame` | gateway-go/internal/isonet/framer.go:29-43 | the frame at the head, or too short or too large; and what is left of the stream in each case |
| `Frames.FrameReadBack` | gateway-go/internal/isonet/framer.go:13-43 | a written frame is read back, and what follows it is left |
| `Frames.FramesReadBack` | gateway-go/internal/isonet/framer.go:13-43 | any sequence of frames is read back as the same sequence |
| `Frames.SendPacked` | gateway-go/internal/isonet/mux.go:80-98 | a message Pack accepted is refused only by the connection, never by the frame limit, and unpacks to what was sent |
| `Mac.Verify` | gateway-go/internal/purchase/mac.go:49-128 | true if and only if the code in DE 64 or 128 matches under the active key or a fallback key that unwraps |
| `Mac.VerifiedIsMac` | gateway-go/internal/purchase/mac.go:92-116 | a response that carries eight bytes verifies if and only if they are the MAC of the rest of it under one of the keys tried, so a code no key produces is refused |
| `Mac.GarbageIsRefused` | gateway-go/internal/purchase/mac.go:49-116 | a text that is no hex of bytes, a response without a code and one that does not pack never verify |
| `Mac.HexTextNames` | gateway-go/internal/purchase/mac.go:92-116 | different bytes have different hex texts |
| `Mac.UsableKeysAre` | gateway-go/internal/purchase/mac.go:65-90 | of the fallback rows exactly the keys that unwrap are tried |
| `Mac.MacedMessageVerifies` | gateway-go/internal/advtxn/service.go:578-589 | for any MAC function, a message with its code attached packs, comes off the wire unchanged and verifies under the sender's key |
| `Mac.MacFieldAgreesWithBitmap` | gateway-go/internal/saf/worker.go:212-239 | the worker's code is in DE 128 exactly when the sent message carries a secondary bitmap |
| `Mac.PacksFieldByField` | gateway-go/internal/iso8583/codec.go:84-145 | a message packs if and only if its MTI is four digits, DE 1 is absent and each field packs alone |
| `Mac.GeneratedTableHasMacFields` | gateway-go/internal/iso8583/spec_gen.go:5-45 | the generated table has DE 64 and DE 128 as eight-byte binary fields |
| `Messages.ReversalNamesOriginal` | gateway-go/internal/saf/advice.go:50-82 | DE 90 is 42 digits from which the original's MTI, STAN and DE 7 are read back |
| `Messages.OriginalIsNamedOnce` | gateway-go/internal/saf/advice.go:50-82 | two DE 90s are equal if and only if the originals' MTI (0200 for a row without one), STAN and DE 7 are |
| `Messages.PackedWentOut` | gateway-go/internal/purchase/service.go:429-440 | the columns an advice needs follow from the request having packed for its own MAC |
| `Messages.ReversalPacks` | gateway-go/internal/saf/worker.go:212-239 | the 0420 of any request that went out, with its identity and PAN, packs over the generated table, plain or repeated, and takes DE 128 |
| `Messages.CompletionPacks` | gateway-go/internal/saf/sweeper.go:117-130 | a completion that packed once packs again as its repeat, rebuilt from its row, and takes DE 64 |
| `Messages.ReversalArrives` | gateway-go/internal/saf/worker.go:212-239 | for any MAC function, the issuer unpacks exactly what was framed and verifies it |
| `Messages.IssuerReadsReversal` | gateway-go/internal/saf/advice.go:50-82 | what the issuer unpacks names the amount, the reason, the original in DE 90, the row's processing code, terminal, merchant, currency and RRN, and the identity and PAN the worker gave it |
| `Messages.AmountDigits` | gateway-go/internal/purchase/service.go:320-324 | the amount text is twelve digits if and only if the amount is from 0 to 10^12 - 1 |
| `Messages.RequestPacks` | gateway-go/internal/purchase/service.go:413-440 | a request of any type packs if and only if its columns are well formed; none has an element above 64, so DE 64 is the place of its MAC |
| `Messages.RequestArrives` | gateway-go/internal/advtxn/service.go:578-589 | for any MAC function, attachMAC succeeds exactly for such a request, which then has no secondary bitmap, arrives as built and verifies |
| `Messages.IssuerReadsRequest` | gateway-go/internal/purchase/service.go:320-337 | what the issuer unpacks reads back as the row: STAN and moment (so the multiplexer's key), processing code, amount, card, entry mode, terminal, merchant, currency, RRN, and the elements only some types carry exactly for those |
| `Store.CompletionRepeatIsTheSameMessage` | gateway-go/internal/saf/sweeper.go:117-130 | the 0220 queued from the message in hand and the one the sweeper rebuilds from the row are the same elements |
| `Store.QueueReversalKeeps` | gateway-go/internal/saf/reversal.go:38-78 | the guarded move and enqueue keep one 0420 per transaction and its state in step with it |
| `Store.MarkAckedKeeps` | gateway-go/internal/store/safqueue.go:116-160 | so does the acknowledgement with its finishing move |
| `Store.ClaimKeeps` | gateway-go/internal/store/tranlog.go:130-151 | so does the claim with its insert |
| `Store.ReleaseKeeps` | gateway-go/internal/store/tranlog.go:573-577 | so does the release |
| `Tables.Database.InsertClaiming` | gateway-go/internal/store/tranlog.go:130-151 | claims an approved, uncompleted pre-authorization and inserts, or does neither |
| `Tables.Database.FreeClaim` | gateway-go/internal/store/tranlog.go:573-577 | frees the claim only while this completion holds it |
| `Tables.Database.SetStatusFrom` | gateway-go/internal/store/tranlog.go:644-656 | moves the row only from the state expected, and says whether it did |
| `Tables.Database.TimeOut` | gateway-go/internal/store/tranlog.go:622-637 | SENT becomes TIMED_OUT; any other state is left |
| `Tables.Database.Queue` | gateway-go/internal/saf/reversal.go:38-78 | REVERSAL_PENDING and the 0420 together, or a refusal that changes nothing |
| `Tables.Database.RepeatAdvice` | gateway-go/internal/saf/reversal.go:90-106 | the stored advice is the message without its MAC and card data |
| `Tables.StoredElements` | gateway-go/internal/saf/reversal.go:91-96 | the copying loop keeps exactly the elements that may be stored |
| `Tables.Database.Acknowledge` | gateway-go/internal/store/safqueue.go:116-160 | ACKED, and the 0420's row REVERSED or a TIMED_OUT completion APPROVED, in one step |
| `Tables.Database.Claim` | gateway-go/internal/store/safqueue.go:49-78 | the first due rows in id order, each PENDING or IN_FLIGHT, are leased; none due is passed over while there is room |
| `GatewayProofs.StepKeeps` | gateway-go/internal/purchase/service.go:313-385 | every step of every process, with every fault, keeps the gateway's invariant |
| `GatewayProofs.Always` | gateway-go/internal/advtxn/service.go:290-324 | the invariant holds in every state any run reaches |
| `GatewayTheorems.OneReversalEach` | gateway-go/internal/saf/reversal.go:38-78 | at most one 0420 per transaction; REVERSAL_PENDING if and only if it is un-ACKED, REVERSED if and only if it is ACKED |
| `GatewayTheorems.UnwoundForEver` | gateway-go/internal/store/safqueue.go:116-160 | REVERSED has no exit, and REVERSAL_PENDING none but REVERSED |
| `GatewayTheorems.NothingIsForgotten` | gateway-go/internal/store/tranlog.go:604-618 | a non-balance request that may be at the issuer without a recorded verified answer has an advice, or is an orphan once aged |
| `GatewayTheorems.AdviceForEver` | gateway-go/internal/store/safqueue.go:82-95 | a transaction that has an advice never loses it |
| `GatewayTheorems.SendsAreAlike` | gateway-go/internal/saf/worker.go:128-158 | all sends of one advice carry the same elements and card, with a STAN; only the first may be the plain message |
| `GatewayTheorems.RepeatsAreAlike` | gateway-go/internal/saf/reversal.go:90-106 | however often a completion's 0220 was queued, all its sends are repeats of the one message rebuilt from its row |
| `GatewayTheorems.SentPayloadIsFinal` | gateway-go/internal/saf/worker.go:189-204 | from its first send on, an advice's stored elements are what was sent, for ever |
| `GatewayTheorems.OnlyIdentityIsAdded` | gateway-go/internal/saf/worker.go:189-204 | naming an advice changes DE 7 and DE 11 only, and nothing once it has a STAN |
| `GatewayTheorems.ReversedIsConfirmed` | gateway-go/internal/saf/worker.go:161-180 | a REVERSED transaction's 0420 was answered "00" with a MAC that verified |
| `GatewayTheorems.LateApprovalIsConfirmed` | gateway-go/internal/store/safqueue.go:131-138 | TIMED_OUT becomes APPROVED only where the worker concludes a 0220 answered "00" with a MAC that verified |
| `GatewayTheorems.ExhaustedAfterMaxAttempts` | gateway-go/internal/saf/worker.go:250-258 | death by exhaustion comes after exactly MaxAttempts counted failures; until then attempts counts them and is below |
| `GatewayTheorems.OutageCountsNothing` | gateway-go/internal/saf/worker.go:243-246 | no STAN, not signed on and RC 91 leave the tables as they were and count nothing |
| `GatewayTheorems.AttemptsOnlyCount` | gateway-go/internal/saf/worker.go:250-258 | attempts grow by the counted failures, one at a time, and only where a delivery of that advice is concluded |
| `Completions.CompletionHoldsClaim` | gateway-go/internal/advtxn/completion.go:27-65 | in every run without a harmful fault, a SENT, TIMED_OUT or APPROVED completion is the one its approved pre-authorization names, for no more than its amount |
| `Completions.OneCompletionEach` | gateway-go/internal/store/tranlog.go:130-151 | so each pre-authorization has at most one |
| `Completions.StepClaims` | gateway-go/internal/advtxn/service.go:353-439 | every step that is not a harmful fault keeps every claim |
| `Completions.CrashStopIsHarmless` | gateway-go/internal/advtxn/service.go:290-324 | no run with crash-stop faults has a harmful one |
| `Completions.HarmBreaks` | gateway-go/internal/advtxn/service.go:302-305 | wherever the claims hold, each harmful fault, with the freeing its request then does, leaves a completion that may have taken the money without its claim, and the pre-authorization completable |
| `Completions.FirstHarmBreaks` | gateway-go/internal/advtxn/service.go:418-439 | so in every run the first harmful fault ends the property |
| `Completions.HarmLetsTwo` | gateway-go/internal/advtxn/service.go:363-371 | after any harmful fault a second completion of the same pre-authorization can go out |
| `Completions.ApprovedForEver` | gateway-go/internal/purchase/service.go:552-572 | with any faults, an APPROVED pre-authorization stays APPROVED in every continuation |
| `Completions.BothApproved` | gateway-go/internal/advtxn/service.go:495-503 | from any completable pre-authorization, one SENT write that commits and fails leads to two different completions of it that the issuer both approved |
| `Completions.HoldIsReached` | gateway-go/internal/advtxn/service.go:290-324 | such a pre-authorization is reached from the empty tables |
| `Requests.Submit` | gateway-go/internal/advtxn/service.go:290-388 | a request from its insert on, amid all others and with any write failing, is a run of the gateway; a completion is refused exactly when its hold does not cover it; undisturbed, row, advice, hold and every other row are as the outcome tells, and a request that could not be sent leaves only its row |
| `Requests.TakeClaim` | gateway-go/internal/advtxn/completion.go:27-65 | the quick check and the later claim, with anything in between; undisturbed, a claim exactly when the hold covers the amount |
| `Requests.SendAndRecord` | gateway-go/internal/purchase/service.go:313-385 | a run of the gateway whatever fails or interferes; undisturbed, the exact state and response code for every type and outcome, the issuer's own code for a verified answer, exactly the advice an unknown outcome owes, and no other row changed; a request that lost its key or a write before the send reaches nobody, queues nothing and frees the hold it had |
| `Requests.Finalize` | gateway-go/internal/advtxn/service.go:418-456 | the same from the answer on: state, response code, advice and hold for every transaction type and outcome |
| `Requests.RecordStatus` | gateway-go/internal/advtxn/service.go:459-467 | the state the request then believes the row holds, for every way the write fares; none when the row had moved on |
| `Requests.Cancel` | gateway-go/internal/purchase/service.go:552-574 | a run of the gateway whoever else cancels or moves the row between its read and its queueing; undisturbed, an approved purchase that was sent gets its 0420 with reason 17 and is REVERSAL_PENDING, and nothing else is changed |
| `Sweeper.FindOrphans` | gateway-go/internal/store/tranlog.go:604-618 | the scan finds the first orphans |
| `Sweeper.OrphansInOrder` | gateway-go/internal/store/tranlog.go:604-618 | they are orphans, in id order, no more than the limit |
| `Sweeper.OrphanLeftOut` | gateway-go/internal/store/tranlog.go:604-618 | an orphan is left out only by a full batch of earlier ones |
| `Sweeper.FollowUp` | gateway-go/internal/saf/sweeper.go:89-113 | a run whatever fails or interferes; undisturbed, the row's follow-up, failing exactly for a row that was never sent |
| `Sweeper.SweepOnce` | gateway-go/internal/saf/sweeper.go:75-87 | a run whatever fails or interferes; undisturbed, one batch followed up in order, every failure counted, none fatal |
| `Sweeper.FollowUpTells` | gateway-go/internal/saf/sweeper.go:89-113 | the row becomes REVERSAL_PENDING with a 0420 for its time-out or its bad MAC, a completion repeats its 0220, a balance only times out |
| `Sweeper.SweepTells` | gateway-go/internal/saf/sweeper.go:75-113 | an undisturbed sweep writes exactly that for each orphan of its batch, in order, and touches no other row or advice |
| `Sweeper.SweepLeaves` | gateway-go/internal/saf/sweeper.go:75-113 | a sweep loses exactly the orphans of its batch that are not stuck, and makes none |
| `Sweeper.SweepShrinks` | gateway-go/internal/saf/sweeper.go:75-113 | the orphans shrink strictly if and only if the batch has one that is not stuck |
| `Sweeper.EverySweepShrinks` | gateway-go/internal/saf/sweeper.go:75-113 | in every state any run reaches, a sweep strictly shrinks a non-empty orphan set, and no follow-up fails |
| `Sweeper.EveryRunDrains` | gateway-go/internal/saf/sweeper.go:59-87 | in every state any run reaches, as many sweeps as there are orphans leave none |
| `Sweeper.CleanSweepShrinks` | gateway-go/internal/saf/sweeper.go:75-113 | on any table, an error-free sweep strictly shrinks the set if and only if its batch has a row that is not an unnamed completion, or has an advice |
| `Sweeper.SweepsDrain` | gateway-go/internal/saf/sweeper.go:59-87 | on any table with no stuck orphan, as many sweeps as there are orphans leave none |
| `Sweeper.StuckBatchStaysStuck` | gateway-go/internal/saf/sweeper.go:103-109 | a batch of stuck orphans leaves the orphans as they were |
| `Sweeper.StuckExample` | gateway-go/internal/saf/sweeper.go:103-109 | there is such a table with an orphan |
| `Sweeper.SweepIsARun` | gateway-go/internal/saf/sweeper.go:75-113 | a sweep is a run of the gateway |
| `SafWorker.DeliverOnce` | gateway-go/internal/saf/worker.go:111-123 | one pass over the due advices, with any write failing and all others interfering, is a run of the gateway and leaves the worker idle; undisturbed, each claimed advice has exactly one delivery, in order, and nothing else changes |
| `SafWorker.DeliverRow` | gateway-go/internal/saf/worker.go:128-204 | a run whatever fails or interferes; undisturbed, the identity stored, one message on the wire exactly if it goes out (a repeat exactly if it had a STAN), and the row ACKED with its transaction finished, waiting uncounted, counted, or DEAD, each exactly when it should |
| `SafWorker.Settle` | gateway-go/internal/saf/worker.go:161-180 | acknowledged only by "00" with a verified MAC; 91 waits uncounted; anything else counts or dies |
| `Joined.OneRowPerEpoch` | gateway-go/internal/purchase/idempotency.go:83-169 | over the gateway and its keys together, two rows under one key may both be at the issuer only if a fresh Reserve more than 24 h after the one's reservation opened the other's epoch |
| `Joined.ReachedHasKey` | gateway-go/internal/advtxn/service.go:353-358 | every row that may be at the issuer got there under a reservation |
| `Joined.StepKeeps` | gateway-go/internal/purchase/service.go:347-361 | every step of gateway, keys or both keeps both invariants and ties each row about to be sent to the holder of its key |
| `Idempotency.AtMostOneSendPerEpoch` | gateway-go/internal/store/tranlog.go:441-514 | two sends under one key: the later sender's epoch was opened by a fresh Reserve more than 24 h after the reservation the earlier one held |
| `Idempotency.SendsAreGranted` | gateway-go/internal/purchase/idempotency.go:46-56 | every send was made under a granted token |
| `Idempotency.OneRequestPerEpoch` | gateway-go/internal/store/tranlog.go:584-596 | all tokens of one epoch were granted to the same request and key |
| `Idempotency.ReclaimWinsOnce` | gateway-go/internal/store/tranlog.go:584-596 | after a reclaim only its token holds the key, and another reclaim succeeds if and only if the key is stale again |
| `Idempotency.StepKeeps` | gateway-go/internal/purchase/idempotency.go:83-169 | every reserve, reclaim, attach, send, failure, release, store and crash keeps the fencing invariant |
| `Idempotency.IdempotencyRepository.TryReserve` | gateway-go/internal/store/tranlog.go:441-458 | held exactly when there is no record or it is past 24 h |
| `Idempotency.IdempotencyRepository.LookUp` | gateway-go/internal/store/tranlog.go:459-476 | otherwise mismatch, in progress, the stored response, or released between the two statements |
| `Idempotency.IdempotencyRepository.ReclaimKey` | gateway-go/internal/store/tranlog.go:584-596 | a new token exactly for the same request, pending, stale and without an RRN |
| `Idempotency.IdempotencyRepository.AttachRRN` | gateway-go/internal/store/tranlog.go:493-504 | records the RRN exactly while the token holds the key |
| `Idempotency.IdempotencyRepository.Begin` | gateway-go/internal/purchase/idempotency.go:105-145 | a run of the protocol whoever interferes; undisturbed, which of run, replay, answer from the log, refuse and busy, each if and only if its condition holds |
| `Idempotency.IdempotencyRepository.Create` | gateway-go/internal/purchase/idempotency.go:83-169 | what create does under a token is a run of the protocol, whether it answers without a send, fails before or after it, or completes; it sends only if the token still holds the key |
| `Idempotency.IdempotencyRepository.Idempotent` | gateway-go/internal/purchase/idempotency.go:83-186 | the whole call is a run of the protocol whoever interferes, and what it sent is one of the protocol's sends; undisturbed, a send spends the key under its RRN, a response is stored with its status, an answer without a send (link down, cancellation) is stored, a failure before the send frees the key, and a key that is not granted answers what its record says |
| `Idempotency.RetryFinds` | gateway-go/internal/purchase/idempotency.go:105-186 | a retry of a request that was sent learns the RRN it was sent under once stale, and replays the very response it was stored with |
| `Idempotency.SpentKeyIsNotGranted` | gateway-go/internal/store/tranlog.go:441-476 | a spent key can be granted again if and only if 24 h have passed |
| `RotationProofs.StepKeeps` | gateway-go/internal/rotation/runner.go:167-324 | every statement, loss, crash and recovery step keeps the rotation invariant |
| `RotationProofs.OneActiveKey` | gateway-go/internal/store/keystore.go:70-100 | never two ACTIVE keys of one type and owner |
| `RotationProofs.NeverWithoutKey` | gateway-go/internal/store/keystore.go:70-100 | once a type and owner has an ACTIVE key it always has one |
| `RotationProofs.RetiredForCause` | gateway-go/internal/rotation/runner.go:167-196 | a generated key is retired only if it was never sent, was answered with an RC other than 00 and 96, or a newer confirmed and activated key replaced it |
| `RotationProofs.CompletedMeansActivated` | gateway-go/internal/rotation/recover.go:26-41 | a COMPLETED rotation's key was activated |
| `RotationProofs.RecoverKeeps` | gateway-go/internal/rotation/recover.go:13-60 | recovery, with either of its writes lost, keeps the invariant |
| `RotationProofs.RecoverySettles` | gateway-go/internal/rotation/recover.go:26-41 | a recovered rotation is COMPLETED if and only if ACTIVATE was DONE, else FAILED, and no key changes |
| `RotationProofs.FirstPendingIs` | gateway-go/internal/rotation/recover.go:53-60 | the step marked is the first one still PENDING, ACTIVATE if there is none |
| `Rotation.KeyStore.RetireSlot` | gateway-go/internal/store/keystore.go:77-98 | retires exactly the rows of the slot with that status, but for the one kept |
| `Rotation.KeyStore.Activate` | gateway-go/internal/store/keystore.go:70-100 | the three updates make the key the only one of its slot that is not retired |
| `Rotation.KeyStore.EnsureActiveKey` | gateway-go/internal/store/keystore.go:45-57 | a key is inserted exactly when its type has no active key without an owner, and then it has one |
| `RotationRunner.SendKey` | gateway-go/internal/rotation/runner.go:251-280 | the first answer other than 96 within the configured attempts, or none; the key goes out once for every attempt with a link until then; and the attempts are steps of the machine |
| `RotationRunner.Execute` | gateway-go/internal/rotation/runner.go:167-238 | the four steps and failStep, with any statement lost or failing after it committed, are a run of the machine and end with its invariant; undisturbed, a "00" leaves the new key the only one of its slot in use, all steps DONE and COMPLETED, another code the key RETIRED and FAILED at PARTNER_CONFIRM, no answer the key PENDING and FAILED at SEND_0800_161 |
| `RotationRunner.Confirm` | gateway-go/internal/rotation/runner.go:283-288 | what follows an 0810 is a run; undisturbed, a decline retires the key and fails the rotation, a confirmation activates the key and completes it |
| `RotationRunner.ActivateConfirmed` | gateway-go/internal/rotation/runner.go:292-324 | undisturbed, the confirmed key is the active one and the rotation COMPLETED |
| `Rotation.RotationTable.Create` | gateway-go/internal/rotation/repository.go:61-76 | a RUNNING rotation with the four steps in order, all PENDING |
| `Rotation.UpdateStep` | gateway-go/internal/rotation/repository.go:79-112 | marks every step of that name and no other |
| `Stan.OneRRNPerHour` | gateway-go/internal/isonet/supervisor.go:296-343 | two rows of one clock hour have different RRNs over any reconnects and restarts, unless the count wrapped between their draws |
| `Stan.RRNNames` | gateway-go/internal/purchase/rrn.go:9-13 | two RRNs are equal if and only if STAN, hour, day and last digit of the year are |
| `Stan.RRNReads` | gateway-go/internal/purchase/rrn.go:9-13 | the last digit of the year, the day in three digits, the hour in two and the STAN in six |
| `Stan.LastSTANInRRNPrefix` | gateway-go/internal/store/tranlog.go:518-524 | the largest STAN among the RRNs with that prefix, 0 if there is none |
| `Stan.LastStanIs` | gateway-go/internal/store/tranlog.go:518-524 | it bounds the STAN of every row of the hour |
| `Stan.Supervisor.NextSTAN` | gateway-go/internal/isonet/mux.go:46-49 | six digits that read as the count modulo a million |
| `Stan.Supervisor.ResumeSTANAfter` | gateway-go/internal/isonet/supervisor.go:336-343 | ends at or above the last STAN, never below where it was, whatever others do between its swaps |
| `Cursor.DecodeUndoesEncode` | gateway-go/internal/store/tranlog.go:372-396 | every 64-bit cursor decodes to itself and is not empty |
| `Cursor.Decode64Undoes` | gateway-go/internal/store/tranlog.go:372-396 | unpadded base64url of any bytes decodes to them |
| `Pages.List` | gateway-go/internal/store/tranlog.go:280-308 | the first rows of the query and a cursor at the last of them exactly when more follow; a malformed cursor is refused |
| `Pages.BuildListQuery` | gateway-go/internal/store/tranlog.go:312-357 | the conditions with their numbered arguments select exactly the rows the filter and the cursor ask for, NULLs included |
| `Pages.Walk` | gateway-go/internal/store/tranlog.go:280-347 | following the cursors ends and yields exactly the rows that matched at the start, each once, strictly descending, whatever newer rows are inserted |
| `Pages.RestOfListing` | gateway-go/internal/store/tranlog.go:312-347 | under a cursor from the listing the query is the rest of the listing, newer rows or not |
| `Pages.ReasonFilterAgrees` | gateway-go/internal/store/tranlog.go:350-357 | the reason filter selects the rows that show that reason |
| `Mux.ResponseIsOurs` | gateway-go/internal/isonet/mux.go:66-139 | what Send returns carries its own STAN and DE 7 |
| `Mux.FrameGoesToOne` | gateway-go/internal/isonet/mux.go:112-139 | no frame is handed to two Sends |
| `Mux.PendingCounts` | gateway-go/internal/isonet/mux.go:52-56 | Pending is at most the number of registered Sends, and equal if and only if each is the one under its key |
| `Mux.PendingIsInFlight` | gateway-go/internal/isonet/mux.go:52-82 | with distinct keys in flight it is that number |
| `Mux.SharedKeyUndercounts` | gateway-go/internal/isonet/mux.go:66-82 | two Sends of one key count as one |
| `Mux.BlockedForEver` | gateway-go/internal/isonet/mux.go:112-139 | Serve with a second response for a Send that gave up never gets past it |
| `Mux.UnblockedProceeds` | gateway-go/internal/isonet/mux.go:112-139 | in every other state it gets to the next frame |
| `Mux.BlockedIsReached` | gateway-go/internal/isonet/mux.go:66-139 | two responses to one request and a timeout lead there |
| `Mux.Connection.Enter` | gateway-go/internal/isonet/mux.go:67-72 | Send's registration is the machine's |
| `Mux.Connection.Await` | gateway-go/internal/isonet/mux.go:101-107 | the select is the machine's receive or timeout, with that result |
| `Mux.Connection.Serve` | gateway-go/internal/isonet/mux.go:112-139 | the read loop, with any Sends waiting, is a run of the machine, and a waiting Send's channel gets the first frame of its key that is read |
| `Mux.Connection.Exchange` | gateway-go/internal/isonet/mux.go:66-139 | Send, while others wait under other keys, is a run of the machine and returns the first frame of its key that Serve gets to, if any |
| `Journey.BuildJourney` | gateway-go/internal/journey/builder.go:117-128 | every step kept in order at the latest time so far, a late response between them, numbers 1 to n, and money that adds up |
| `Journey.StepsShow` | gateway-go/internal/journey/steps.go:17-138 | each step shows exactly when what it stands for happened, at that time: one of five answers learned, a reversal queued, sent, confirmed |
| `Journey.StepsInOrder` | gateway-go/internal/journey/steps.go:17-138 | every code shows at most once and in its place; the POS result comes after the queued reversal exactly for a time-out |
| `Journey.ReachedIsFirst` | gateway-go/internal/journey/builder.go:144-151 | a status counts from the first transition to it |
| `Journey.StartIsEarliest` | gateway-go/internal/journey/builder.go:132-141 | the journey starts at the earliest of insert, send and first transition |
| `Journey.SentBeforeConfirmed` | gateway-go/internal/journey/steps.go:154-170 | the 0420 is never shown as sent after the 0430 that acknowledged it |
| `Journey.WithOffsets` | gateway-go/internal/journey/builder.go:155-168 | each step shows the latest time reached by then |
| `Journey.ClampedIsLatest` | gateway-go/internal/journey/builder.go:155-164 | that time is the maximum over the steps so far |
| `Journey.Search` | gateway-go/internal/journey/builder.go:170-173 | the binary search finds the first later step |
| `Journey.InsertAtOffset` | gateway-go/internal/journey/builder.go:170-173 | the step goes in there, the others keep their order, offsets stay non-decreasing |
| `Journey.SeqOf` | gateway-go/internal/journey/builder.go:206-213 | the number of the first step with the code, 0 if there is none |
| `Journey.DebitStep` | gateway-go/internal/journey/builder.go:193-204 | an approval, a missing answer, or a decline that queued a reversal; 0 if and only if there is none of these |
| `Journey.MoneyRows` | gateway-go/internal/journey/builder.go:177-188 | money moves where it was held; with a confirmed reversal the deltas sum to zero and the hold comes first |
| `Journey.TimedHeldFirst` | gateway-go/internal/journey/steps.go:17-138 | for every row, history and reversal, a step that holds money precedes the confirmation |

## Left out

- RRNs as references: rows refer to each other by row id; that an RRN names one sent row of its hour is `Stan.OneRRNPerHour`.
- Lease and age arithmetic: in the machine, a claim takes any PENDING or IN_FLIGHT rows up to 50 and a sweep finds any part of the aged orphans.
- The MAC inside the gateway machine is a boolean on each response; what makes it true is `Mac.Verify`.
- Deadlines on a connection: a read finds its bytes or the end of the stream.
- Mux.Connection.Exchange: other Sends wait but do not move during it; interleaved Sends are the machine in the same file.
- RotationRunner.Execute: the one runner that Start allows; crashes and recovery are the machine in `rotation.dfy`.
- Journey.BuildJourney: titles, texts, messages, actors and kinds of steps; DE 7 of the advice is given as a time.
- tran_state_history as a table: several of its writes are separate statements, and only whether they fail matters here.
- Error texts; error kinds and the field they name are kept.
- `Runner.Run`, the inline rotation without the one-at-a-time guard of `Start`.
- Which keys `Verify` tries across a rotation: the list of fallback keys is a parameter.
- Cryptography (MAC, key wrapping, check values): uninterpreted functions.
- Payload JSON and its encryption: taken as inverse to each other.
- Lower-case hex from `FormatUint` before `ToUpper`: modelled as upper-case digits.
- Link supervision (dialing, sign-on, echo), HTTP handlers, configuration, metrics, the WebSocket hub, chaos, seeding, and all of web-next.
