# pax: from the wire to the diagnostics, verified

A Dafny model of the part of the Bluetooth transit toolkit that has protocols, loops, state and
concurrency, with proofs of what it promises.

- **OBEX Object Push client** (`Utf16`, `ObexWire`, `ObexPlan`, `ObexClient`). The client is a class
  over a byte transport; the peer is any byte string, and the link may give out after any number of
  packets. `ObexWire` is a receiver written independently from IrOBEX (sections 2.1, 2.2.9 and
  3.3.3): it reads headers by the top two bits of their identifier and knows nothing about how the
  client cuts packets. What the client writes is proved to be what that receiver accepts, with the
  exact condition under which it is.
- **Progress accounting** (`Progress`, `AndroidPush`, `BluezPush`, `Observer`, `Labels`). Absolute byte counts
  become chunk events; when the deltas add up is stated exactly, and so is when progress updates
  carry the right name (`Labels`).
- **Batch pairing** (`PairRound`, `PairBatch`, `PairMock`). A round is a state machine with nondeterministic
  start, begin and complete steps; the methods run it under an arbitrary scheduler and are proved to
  give the result of each device run alone. `PairMock` puts the batch over the mock.
- **Mock backend** (`Mock`, `MockSystem`, `MockBackend`, `MockRuns`). Every operation is a task of
  atomic steps under the lock. `MockSystem` interleaves any number of tasks and delivers stamped
  events at any later time in any order; `MockBackend` is the class, proved to do what its tasks do
  when alone.
- **Diagnostics** (`Metrics`, `Breakdown`, `Analyzer`). The recorder, the sort, the grouping and
  the anomaly list.
- **Upload** (`Upload`) over the mock, with the exact events of every upload.
- **Codecs** (`Mgmt`, `Address`, `Uuid`, over `HexText` and `Bytes`). The kernel mgmt framing and
  reply scan, and the address and UUID parsers.

Rust's casts are written out (`as u16`, `as u32` keep the low bits), `from_str_radix` tolerates a
leading `+`, and UUID text is cut at UTF-8 byte offsets, as the code does.

Where the code and its documentation part ways the model follows the code:

- `max_devices` is documented as a cap on devices bonded (`crates/pax-transport/src/backend.rs:230-256`);
  the mock caps the devices consulted. `MaxDevicesAsDocumentedIff` says when the two agree, `MaxDevicesExample` where they do not.
- `payload_bytes` is documented as counting completed transfers too
  (`crates/pax-core/src/event.rs:194-196`); only data chunks count. `DocumentedTotalIff` says when
  the two readings agree, `DocumentedCountsTwice` what the documented one would come to, and
  `DocumentedExample` is a push where they differ.
- A progress update is documented to name the object being transferred
  (`crates/pax-transfer/src/progress.rs:17-18`); with pushes side by side it names whichever started
  last. `RunLabelledIff` is exact and `MislabelledRun` is a run where it goes wrong.
- The address parser's width check means to admit two-digit octets only; `+A` passes it.
  `TwoDigitsIffNoPlus` is exact.
- A UUID text of 32 bytes with a wide character makes the parser cut inside that character and
  panic instead of returning an error. `PanicsIff` is exact.
- `put_file` succeeds on names and files its 16-bit and 32-bit length fields cannot express; the
  peer then does not get what was sent. `FileDeliveredIff` is exact, `LongNameExample` such a name.

## Model

| member | source | states |
|---|---|---|
| Utf16.NameToUtf16 | crates/pax-transport/src/android/obex_opp.rs:76-83 | The loop writes the name as big-endian UTF-16 and one zero unit. |
| Utf16.NameRoundTrip | crates/pax-transport/src/android/obex_opp.rs:76-83 | For every name, surrogate pairs included, decoding the payload gives the name back, and the payload has twice as many bytes as units, plus two. |
| Utf16.PayloadLayout | crates/pax-transport/src/android/obex_opp.rs:76-83 | Each unit is two bytes, high byte first, and two zero bytes end the payload. |
| ObexWire.ObjectLimits | crates/pax-transport/src/android/obex_opp.rs:16-36 | No byte stream can deliver a name payload over 65529 bytes or a declared length of 2^32 or more to a generic receiver. |
| ObexPlan.ReceivePlan | crates/pax-transport/src/android/obex_opp.rs:137-178 | From any offset, the receiver parses the packets to come into exactly the bytes to come: headers read generically, End-of-Body in the final packet alone, nothing after it. |
| ObexPlan.PutRoundTripIff | crates/pax-transport/src/android/obex_opp.rs:127-199 | For every even name payload, data and negotiated maximum, the receiver ends with exactly that name, length and data if and only if the payload is at most 65520 bytes and the data is below 2^32. |
| ObexPlan.FirstPacketLayout | crates/pax-transport/src/android/obex_opp.rs:148-176 | The first packet byte by byte: opcode, length, Name, Length and body headers with their numbers. |
| ObexPlan.LaterPacketLayout | crates/pax-transport/src/android/obex_opp.rs:148-176 | Every later packet byte by byte. |
| ObexPlan.WrappedFirstPacketRejected | crates/pax-transport/src/android/obex_opp.rs:216-221 | When the first packet's own 16-bit length wraps, the receiver rejects the stream. |
| ObexPlan.FirstPacketWithinMax | crates/pax-transport/src/android/obex_opp.rs:137-157 | The first packet stays within the maximum exactly when 14 plus the payload plus one byte of data, if there is any, does. |
| ObexPlan.PlanShape | crates/pax-transport/src/android/obex_opp.rs:137-157 | For every name: one packet, or one plus the ceiling of the data left over `max - 6`, where the first carries what the name leaves room for or else one byte; packets between first and last are exactly full, later ones never pass the maximum, and the first does exactly when the name leaves no room and there is data. |
| ObexPlan.GatherPrefix | crates/pax-transport/src/android/obex_opp.rs:137-197 | The bodies in the first `k` packets, read by the receiver, are exactly the data up to where they reach. |
| ObexPlan.PacketsCarry | crates/pax-transport/src/android/obex_opp.rs:137-197 | For every name, also one too long for the length fields, the first `k` packets end in Body headers whose chunks make up the data up to where they reach. |
| ObexClient.ReadExactlyOne | crates/pax-transport/src/android/obex_opp.rs:230-241 | Reading gives a response and leaves `rest` if and only if the input is that response framed, followed by `rest`. |
| ObexClient.ReadFails | crates/pax-transport/src/android/obex_opp.rs:230-241 | What reading comes to for every input, by its second and third bytes: too few bytes, a length under three, or one response. |
| ObexClient.ReadResponse | crates/pax-transport/src/android/obex_opp.rs:230-241 | The two reads give the response, the malformed-length error or the I/O error, and consume accordingly. |
| ObexClient.PutLen | crates/pax-transport/src/android/obex_opp.rs:216-221 | Overwrites bytes 1 and 2 with the length truncated to 16 bits and nothing else. |
| ObexClient.ObexOppClient.Connect | crates/pax-transport/src/android/obex_opp.rs:92-118 | Sends `80 00 07 10 00 20 00`; a client exists if and only if the answer is SUCCESS; if the answer states `m` in its third and fourth body bytes the client's maximum is the larger of `m` and 255 but no more than 8192, and 255 if it states none; each failure gives its error. |
| ObexClient.ObexOppClient.MaxPacket | crates/pax-transport/src/android/obex_opp.rs:108-123 | Whatever the peer said, the negotiated maximum lies between 255 and 8192. |
| ObexClient.ObexOppClient.PutFile | crates/pax-transport/src/android/obex_opp.rs:127-199 | Writes exactly the prefix of the packet plan that a lock-step exchange with this peer writes, with the part that got out of a packet whose write failed, and reports how far the acknowledged packets reach. |
| ObexClient.LockStep | crates/pax-transport/src/android/obex_opp.rs:178-197 | The peer's input starts with one proper acknowledgement per acknowledged packet, at most one further packet was written, and what came next explains the outcome. |
| ObexClient.SucceedsIff | crates/pax-transport/src/android/obex_opp.rs:148-197 | A PUT succeeds if and only if the link carries every packet and the peer answers 0x90 to each but the last and 0xA0 to the last; the rest stays unread. |
| ObexClient.FileDeliveredIff | crates/pax-transport/src/android/obex_opp.rs:127-199 | The peer can read the file and its name if and only if the name has at most 32759 UTF-16 units and the file is below 4 GiB. |
| ObexClient.LongNameExample | crates/pax-transport/src/android/obex_opp.rs:127-199 | With a name of 32760 letters and an empty file, `put_file` succeeds and the receiver does not get the file. |
| ObexClient.ProgressIsAcknowledgedPrefix | crates/pax-transport/src/android/obex_opp.rs:180-197 | For every name and however the call ends, the last progress value `k` is the length of the prefix `data[..k]` that the acknowledged packets carry; the receiver reads it from them when the name fits; success is having all acknowledged. |
| ObexClient.RunIsExchange | crates/pax-transport/src/android/obex_opp.rs:148-197 | The offset-driven loop, from any offset, is the exchange of the packets planned from there. |
| ObexClient.ObexOppClient.Disconnect | crates/pax-transport/src/android/obex_opp.rs:201-213 | One packet out, one response in, success only for SUCCESS. |
| Progress.DeltasTelescope | crates/pax-transport/src/android.rs:616-636 | Deltas never fall short of the last report and add up to it exactly when no report went back; one chunk per advance. |
| Progress.ReportsPassedOn | crates/pax-transport/src/bluez.rs:549-571 | Every report, or every one that advances, is passed on as one progress event with its value and the size; chunks are outbound. |
| AndroidPush.AndroidBackend.RunPush | crates/pax-transport/src/android.rs:564-660 | The session emits the delta events of its progress, returns the chunk count or the mapped error with the bytes transferred, and puts exactly its packets on the wire. |
| AndroidPush.AndroidBackend.PushFile | crates/pax-transport/src/android.rs:513-558 | Those events stand between a start and a completion or error event; the receipt has at least one chunk. |
| AndroidPush.OneChunkPerPacket | crates/pax-transport/src/android.rs:616-636 | For a nonempty file there is one chunk event per acknowledged packet. |
| AndroidPush.AndroidAccounting | crates/pax-transport/src/android.rs:616-658 | For every peer, the chunk bytes are the acknowledged bytes, which is also what a rejection reports as transferred: none at CONNECT, all at DISCONNECT or on success; the advancing reports are passed on as progress. |
| AndroidPush.ErrorsMapped | crates/pax-transport/src/android.rs:651-657 | A rejection becomes a failed transfer with the code in two upper-case digits, anything else a backend error. |
| AndroidPush.UnconnectedSession | crates/pax-transport/src/android.rs:613-645 | Unless CONNECT is accepted nothing but it is sent and nothing is reported. |
| AndroidPush.UnfinishedSession | crates/pax-transport/src/android.rs:613-645 | With a packet unacknowledged the session fails having sent no more than CONNECT and the plan: DISCONNECT follows only a complete PUT. |
| AndroidPush.SuccessfulSession | crates/pax-transport/src/android.rs:613-645 | A successful session has put CONNECT, the whole plan and DISCONNECT on the wire and nothing else, the plan being for the maximum the peer stated, and the receiver then holds the file under its name if and only if the name has at most 32759 UTF-16 units and the file is below 4 GiB. |
| BluezPush.RunTransfer | crates/pax-transport/src/bluez/obex.rs:79-172 | The watch loop computes the outcome and the reports of the observation sequence. |
| BluezPush.WatchReports | crates/pax-transport/src/bluez/obex.rs:111-171 | A completed transfer returns its last report, at least the announced size; a failed one carries its last report. |
| BluezPush.ReportsAreValues | crates/pax-transport/src/bluez/obex.rs:111-171 | The callback is told the `Transferred` values observed up to the deciding turn and, on completion, the larger of the last and the announced size. |
| BluezPush.FirstStatusDecides | crates/pax-transport/src/bluez/obex.rs:111-171 | The first status read that is `complete` or `error` decides how a transfer ends; without one it times out. |
| BluezPush.BluezBackend.PushFile | crates/pax-transport/src/bluez.rs:524-594 | A staging failure emits nothing; otherwise the start event, the delta events of the reports, then completion or error, with the matching receipt or error, D-Bus failures included. |
| BluezPush.BluezAccounting | crates/pax-transport/src/bluez.rs:549-583 | For the size the setup announced: whether a push completes, fails or times out, the chunk bytes are never below the bytes it ends with, and equal them if and only if none of the `Transferred` values observed went back; every report is passed on; a failed setup moves nothing. |
| BluezPush.GoingBackDoubleCounts | crates/pax-transport/src/bluez.rs:549-583 | Reports 10, 4, 10 give 16 bytes of chunks for a total of 10. |
| PairRound.TryShape | crates/pax-pairing/src/workflow.rs:88-107 | The retry loop's result is that of its last call; every earlier call failed transiently; a transient result means all calls were used. |
| PairRound.RoundSafety | crates/pax-pairing/src/workflow.rs:239-272 | In every state any schedule reaches: at most `active` and at most all pending devices in flight, no device in flight twice or both in flight and finished, no device over its calls, no other device called. |
| PairRound.EverySchedule | crates/pax-pairing/src/workflow.rs:239-272 | Every finished schedule leaves each pending device finished once with the result of its loop run alone. |
| PairRound.ScheduleBound | crates/pax-pairing/src/workflow.rs:239-272 | Until the round is over some step is enabled, and no schedule is longer than the work there is. |
| PairBatch.RoundsFlatten | crates/pax-pairing/src/workflow.rs:88-111 | Rounds of attempts are one loop of `rounds * limit` calls: the first conclusive result or the last error, no call after a conclusive one, attempts the calls over the limit rounded up. |
| PairBatch.ItemInNumbers | crates/pax-pairing/src/workflow.rs:88-111 | A device gets as many of the `retries + 1` calls of each round, at most 2^32 - 1, as it takes to settle it by success, refusal or being unknown; its item has the outcome of the last call and the rounds begun. |
| PairBatch.DedupCorrect | crates/pax-pairing/src/workflow.rs:207-224 | One entry per distinct target, in the order first seen. |
| PairBatch.PairBackend.ApplySpoof | crates/pax-transport/src/backend.rs:558-570 | Nothing asked, nothing done; asked and not possible, `Unsupported` and nothing done; otherwise the address is programmed, once, with its error. |
| PairBatch.PairDevice | crates/pax-pairing/src/workflow.rs:78-111 | An address asked for that cannot be programmed is an error without any pair call; otherwise exactly the calls of a loop of `retries + 1`, at most 2^32 - 1, one at a time, and its result. |
| PairBatch.RunRound | crates/pax-pairing/src/workflow.rs:245-272 | One round under an arbitrary scheduler gives the schedule-independent result, with at most `active` calls under way. |
| PairBatch.PairDevices | crates/pax-pairing/src/workflow.rs:188-278 | Whatever the schedule: the items of each distinct target run alone, in first-seen order, with exactly its calls, at most `concurrency` under way; an address is programmed once before any call, and where it cannot be no call is made and every item fails. |
| PairBatch.PairDiscovered | crates/pax-pairing/src/workflow.rs:281-296 | The same over what discovery found, call counts included, with the address programmed before the scan and not again. |
| PairMock.MockAnswersByDevice | crates/pax-transport/src/mock.rs:415-464 | Whatever runs beside it and whenever it is asked, the mock answers a pairing by the target's script and the agent alone: what the batch scheduler asks of a backend. |
| PairMock.PairedAreAccepted | crates/pax-transport/src/mock.rs:415-464 | At the end of any run without inbound pairings, the paired set is the targets asked for that neither the agent nor the script turns down. |
| PairMock.BatchOnMock | crates/pax-pairing/src/workflow.rs:188-278 | After a batch over the mock the paired set is the targets whose items are good; a target its script alone fails is asked in every attempt of every round, any other once. |
| Mock.StepEnds | crates/pax-transport/src/mock.rs:375-659 | Every step of every operation lowers its rank, so each operation ends. |
| MockSystem.StampsInOrder | crates/pax-transport/src/mock.rs:293-302 | In every state any interleaving reaches, stamps are 0, 1, 2 and so on at times that never go back, and every stamped event has arrived or is still to arrive, once. |
| MockSystem.TokenSafety | crates/pax-transport/src/mock.rs:466-508 | In every reachable state no token was issued twice or removed twice, all are below the next one, and the live connections are those issued and not removed. |
| MockSystem.BytesConserved | crates/pax-transport/src/mock.rs:541-598 | When all has ended and arrived in any order, the analyzer's bytes are those of all receipts plus those of all failed transfers. |
| MockSystem.DocumentedTotalIff | crates/pax-core/src/event.rs:194-202 | The documented payload total of an event list is the computed one if and only if no completion event with bytes is in it. |
| MockSystem.DocumentedCountsTwice | crates/pax-core/src/event.rs:194-202 | When all has ended, the documented total would be twice the bytes of all receipts plus those of all failed transfers. |
| MockRuns.DocumentedExample | crates/pax-core/src/event.rs:194-202 | One completed push of ten bytes: the analyzer counts ten, the documentation twenty. |
| MockSystem.LinksAndPairingsSettled | crates/pax-transport/src/mock.rs:415-508 | Then connected minus disconnected events is the number of live connections, every pairing started has ended once, and the paired set is the set of devices with a completion event. |
| MockSystem.PairingsUnderway | crates/pax-transport/src/mock.rs:415-464 | In every reachable state the pairings started and not ended are those some task is in the middle of. |
| MockSystem.PushesEndAsScripted | crates/pax-transport/src/mock.rs:510-599 | A push fails if and only if its file is longer than the scripted limit, and then with the limit rounded down to whole chunks; otherwise with all bytes in the ceiling number of chunks, whatever ran beside it. |
| MockSystem.ReportIgnoresDelivery | crates/pax-transport/src/mock.rs:293-302 | Two runs that stamped the same events have the same total, breakdowns and anomalies, however delivery went. |
| MockBackend.MockBackend.Emit | crates/pax-transport/src/mock.rs:293-302 | Stamps the next number and the current time, moves the clock on, hands the event over. |
| MockBackend.MockBackend.Connect | crates/pax-transport/src/mock.rs:466-489 | State, events and result are those of the connect task run alone. |
| MockBackend.MockBackend.Disconnect | crates/pax-transport/src/mock.rs:491-508 | State, events and result are those of the disconnect task run alone. |
| MockBackend.MockBackend.Pair | crates/pax-transport/src/mock.rs:415-464 | State, events and result are those of the pairing task run alone. |
| MockBackend.MockBackend.PushFile | crates/pax-transport/src/mock.rs:510-599 | The chunk loop ends in the state, events and result of the push task run alone. |
| MockBackend.MockBackend.AcceptPairings | crates/pax-transport/src/mock.rs:610-659 | The loop over inbound devices ends as the accept task run alone. |
| MockBackend.MockBackend.Discover | crates/pax-transport/src/mock.rs:375-413 | The scan ends as the discovery task run alone, filter and limit included. |
| MockRuns.PushClosedForm | crates/pax-transport/src/mock.rs:528-598 | The exact events of a lone push, its progress as prefix sums, and its duration: one millisecond plus the chunks times their latency. |
| MockRuns.PairClosedForm | crates/pax-transport/src/mock.rs:415-464 | A lone pairing: an unknown device changes nothing; otherwise exactly two events, two milliseconds, and the target in the paired set exactly when neither the agent nor the script objects, the agent's objection first. |
| MockRuns.PairByAnswer | crates/pax-transport/src/mock.rs:432-463 | Answer by answer: a no or a cancel is a rejection with a failed event and nobody paired; every other answer leaves it to the script. |
| MockRuns.AcceptByAnswer | crates/pax-transport/src/mock.rs:628-655 | The same for each inbound device consulted. |
| MockRuns.PromptsAndAnswers | crates/pax-transport/src/mock.rs:80-97 | The prompt for each method, passkey 123456 included, and what each answer is taken for. |
| MockRuns.LookupIs | crates/pax-transport/src/mock.rs:305-313 | The device of a target is the first scripted one with its id, if there is one. |
| MockRuns.ConnectClosedForm | crates/pax-transport/src/mock.rs:466-489 | A lone connect: state, event and connection in full. |
| MockRuns.DisconnectClosedForm | crates/pax-transport/src/mock.rs:491-508 | A lone disconnect: state and event in full, or `NotConnected` and nothing. |
| MockRuns.PushRefused | crates/pax-transport/src/mock.rs:515-526 | A push over a dead link or to an unknown device fails and changes nothing. |
| MockRuns.StepOrigins | crates/pax-transport/src/mock.rs:241-243 | Every event carries the context of its link, its device or the adapter. |
| MockRuns.DiscoverClosedForm | crates/pax-transport/src/mock.rs:375-413 | A lone scan finds the first `limit` devices the filter admits, in order, and announces each once behind the start event. |
| MockRuns.WantedIff | crates/pax-transport/src/backend.rs:210-227 | What the filter admits: the transport asked for or either dual, at least the signal asked for, the text asked for somewhere in the name. |
| MockRuns.AcceptClosedForm | crates/pax-transport/src/mock.rs:610-659 | The devices bonded are the acceptable ones among the first `max`; the exact events, two per device consulted; the paired set grows by those bonded and the clock by two ticks per device and the window. |
| MockRuns.MaxDevicesAsDocumentedIff | crates/pax-transport/src/mock.rs:617-619 | For every cap, capping devices consulted does what capping devices bonded would exactly when the devices consulted are all acceptable or none of the later ones is. |
| MockRuns.MaxDevicesExample | crates/pax-transport/src/mock.rs:617-619 | With a cap of one and a first device that is declined, the mock bonds nobody where the documentation promises the second. |
| Upload.PushWithRetries | crates/pax-transfer/src/upload.rs:116-139 | A dead link or an unknown peer is returned at once and changes nothing; otherwise a file the script lets through is pushed once, another `retries + 1` times, at most 2^32 - 1, with exactly those events, and the links stay. |
| Upload.UploadFile | crates/pax-transfer/src/upload.rs:51-64 | The scripted result, the exact events in order from connecting to hanging up, and with `disconnect_after` the live connections as before on every outcome. |
| Upload.UploadFiles | crates/pax-transfer/src/upload.rs:72-101 | Succeeds if and only if every file gets through, with one receipt per file in order; the exact events in order; the links as before on every outcome. |
| Upload.UploadTotals | crates/pax-transfer/src/upload.rs:79-94 | Those events start the files before the first refused one once each, in order, then that one as often as allowed, and nothing after it; their bytes are the sizes of the former and what got out of the latter. |
| Upload.RefusedInNumbers | crates/pax-transfer/src/upload.rs:116-139 | A refused file is started exactly `retries + 1` times, or 2^32 - 1 at the cap, and sends that many times what one push sends. |
| Observer.ProgressObserver.OnEvent | crates/pax-transfer/src/progress.rs:87-126 | One update per start, progress or completion event, and what is remembered of it. |
| Observer.PushIsTold | crates/pax-transfer/src/progress.rs:27-126 | The updates of a lone mock push start at zero, never go back in bytes or fraction, carry its name and size, end at the receipt's or the error's bytes, and say done, with fraction one, exactly at the end of a success. |
| Observer.FractionIs | crates/pax-transfer/src/progress.rs:27-38 | The fraction times the total is the bytes transferred, capped; of an empty object it is one once done and zero before. |
| Observer.LabelIsLatestStart | crates/pax-transfer/src/progress.rs:91-123 | Each reporting event makes one update, no other does, and the update carries the name of the transfer that started last. |
| Labels.LabelledIff | crates/pax-transfer/src/progress.rs:91-123 | Every update carries its own push's name if and only if no start of another name comes between the start of a push and a report of it, with none of its own name behind. |
| Labels.DistinctLabelledIff | crates/pax-transfer/src/progress.rs:91-123 | Among pushes of different names: if and only if no other push starts between the start of a push and a report of it. |
| Labels.RunLabelledIff | crates/pax-transfer/src/progress.rs:91-123 | Both hold of every mock run and every order of arrival that keeps each operation's own events in order, each event tagged with the operation that stamped it. |
| Labels.OneByOneLabelled | crates/pax-transfer/src/progress.rs:91-123 | Pushes made one after another are always labelled rightly, whatever their names. |
| Labels.SomeRunMislabels | crates/pax-transfer/src/progress.rs:91-123 | With any device that aborts nothing and any two files of different names, the first not empty, some run passes on the first one's progress under the second one's name. |
| Labels.MislabelledRun | crates/pax-transfer/src/progress.rs:91-123 | One concrete run that does. |
| Metrics.FromEvents | crates/pax-diagnostics/src/metrics.rs:83-109 | The loop computes the summary of the event list. |
| Metrics.SummaryDescribes | crates/pax-diagnostics/src/metrics.rs:83-118 | The summary's sums, counts, first and last times are those of the events, each stated of the events themselves. |
| Analyzer.SameBucket | crates/pax-diagnostics/src/metrics.rs:48-59 | Along each dimension two events share a bucket exactly when they agree in it: controller, spec, transport, radio standard, port authentication, peer, or kind. |
| Metrics.SpanIsLongestGap | crates/pax-diagnostics/src/metrics.rs:113-118 | The span is the longest time between two of the events, and zero without events. |
| Metrics.SummaryAppend | crates/pax-diagnostics/src/metrics.rs:83-109 | The summary of a concatenation is the merge of the summaries. |
| Metrics.SummaryPermutation | crates/pax-diagnostics/src/metrics.rs:83-109 | The summary does not depend on the order of the events. |
| Breakdown.GroupPartitions | crates/pax-diagnostics/src/analyze.rs:104-113 | Each bucket listed is the summary of exactly the events with its key, every key in use has its bucket, and keys ascend. |
| Breakdown.LessIs | crates/pax-diagnostics/src/analyze.rs:104-113 | Keys are ordered by the first character in which they differ, a proper prefix first. |
| Breakdown.BucketsMergeToTotal | crates/pax-diagnostics/src/analyze.rs:84-113 | Merging all buckets of any breakdown gives the total. |
| Breakdown.CoarseIsMergeOfFine | crates/pax-diagnostics/src/analyze.rs:104-113 | When one key determines another, each coarse bucket is the merge of its fine ones. |
| Breakdown.BusiestIsMaximal | crates/pax-diagnostics/src/analyze.rs:33-37 | The busiest bucket has the most bytes and, among those that do, the greatest key. |
| Analyzer.Recorder.OnEvent | crates/pax-diagnostics/src/recorder.rs:58-62 | Appends the event in arrival order. |
| Analyzer.Recorder.Drain | crates/pax-diagnostics/src/recorder.rs:53-55 | Returns all events and leaves none. |
| Analyzer.FromRecorder | crates/pax-diagnostics/src/analyze.rs:68-71 | The analysis of a snapshot of what the recorder holds. |
| Analyzer.SortCorrect | crates/pax-diagnostics/src/analyze.rs:63-66 | Sorted, a permutation, and stable. |
| Analyzer.ArrivalsRecoverStampOrder | crates/pax-diagnostics/src/analyze.rs:63-66 | Sorting arrivals in any order recovers the stamp order. |
| Analyzer.OrderDoesNotMatter | crates/pax-diagnostics/src/analyze.rs:84-113 | Total and every breakdown ignore arrival order, even with repeated sequence numbers. |
| Analyzer.ComputeBreakdown | crates/pax-diagnostics/src/analyze.rs:104-113 | The upsert loop computes the grouping. |
| Analyzer.ComputeAnomalies | crates/pax-diagnostics/src/analyze.rs:117-144 | The loop computes the anomaly list. |
| Analyzer.AnomaliesCounted | crates/pax-diagnostics/src/analyze.rs:117-144 | As many anomalies as failures and warnings, in sequence order, each from an event and none missing. |
| Analyzer.AnomalyTells | crates/pax-diagnostics/src/analyze.rs:117-144 | An anomaly has the code of its event, opens with the event's own words and names the peer. |
| Analyzer.TransportIsMergeOfSpec | crates/pax-diagnostics/src/metrics.rs:48-59 | Each transport bucket is the merge of the spec buckets over that transport. |
| Mgmt.FrameRoundTripIff | crates/pax-hci/src/lib.rs:318-325 | A command followed by anything decodes to itself and the rest if and only if its parameters are at most 65535 bytes. |
| Mgmt.SplitsUniquely | crates/pax-hci/src/lib.rs:318-325 | Commands back to back split into exactly the commands written. |
| Mgmt.BdaddrLe | crates/pax-hci/src/lib.rs:329-333 | Reverses the address in place. |
| Mgmt.RunCommand | crates/pax-hci/src/lib.rs:409-456 | A socket that cannot be opened or written to is an I/O error; otherwise sends the command and decides as the bounded scan of the replies does, with one buffer reused. |
| Mgmt.FirstDecides | crates/pax-hci/src/lib.rs:409-456 | The first reply not passed over decides if it is among the reads allowed; a short read or the end of the reads is an error. |
| Mgmt.TerminalRecognised | crates/pax-hci/src/lib.rs:431-450 | A well-formed Command Complete or Command Status for the opcode is recognised with its status. |
| Mgmt.StatusIff | crates/pax-hci/src/lib.rs:431-450 | For every reply, off its bytes: it ends the command if and only if it is a Command Complete or Status for the opcode with at least three parameters, all within 1024 bytes; its status is the ninth byte. |
| Mgmt.FrameEndsIff | crates/pax-hci/src/lib.rs:431-450 | The same over frames; one that does not fit the buffer is passed over. |
| Mgmt.CommandResultIs | crates/pax-hci/src/lib.rs:409-456 | The result is the status of the first reply that ends the command, among the first sixteen and before any short one; an I/O error otherwise. |
| Mgmt.CommandBytes | crates/pax-hci/src/lib.rs:318-333 | The bytes of the power, address and Read Info commands. |
| Mgmt.SpoofPublicAddress | crates/pax-hci/src/lib.rs:225-230 | Power off, address, power on; each is sent only if the one before succeeded, and the first failure is the result. |
| Mgmt.ReadInfo | crates/pax-hci/src/lib.rs:349-391 | Sends Read Info and decides as the bounded scan does. |
| Mgmt.FirstInfoDecides | crates/pax-hci/src/lib.rs:354-390 | The first reply not passed over decides Read Info if it is among the reads allowed; there is no answer otherwise. |
| Mgmt.InfoReplyIff | crates/pax-hci/src/lib.rs:361-387 | For every reply, off its bytes: whether it answers Read Info, and what it then says. |
| Mgmt.InfoResultIs | crates/pax-hci/src/lib.rs:354-390 | Read Info comes to what the first answer among the first sixteen replies says. |
| Mgmt.InfoRoundTrip | crates/pax-hci/src/lib.rs:354-390 | Behind up to fifteen replies to pass over, the kernel's answer gives back the version and manufacturer it carries. |
| Address.FromStr | crates/pax-core/src/address.rs:88-117 | The loop accepts exactly six octets between separators and returns their values. |
| Address.AcceptedIff | crates/pax-core/src/address.rs:88-117 | A text reads as an address if and only if it is six pieces between colons or hyphens, each a two-digit octet, or a `+` and a digit, between blanks. |
| HexText.NumberIff | crates/pax-core/src/address.rs:103-104 | `from_str_radix` takes digits, with or without one `+`, and nothing else. |
| HexText.DigitIff | crates/pax-core/src/address.rs:103-104 | The hexadecimal digits, of either case, and their values. |
| Address.WhitespaceIs | crates/pax-core/src/address.rs:103-107 | The blanks `trim` drops are the white space of the Unicode Standard. |
| Events.DecimalReads | crates/pax-transport/src/mock.rs:551-551 | Numbers in messages are written in decimal. |
| Address.SplitOfJoin | crates/pax-core/src/address.rs:99-99 | Splitting undoes joining. |
| Address.JoinOfSplit | crates/pax-core/src/address.rs:99-99 | Joining undoes splitting and no piece holds the separator. |
| Address.WrittenThenRead | crates/pax-core/src/address.rs:68-118 | Every address is read back from its colon or dash form in upper or lower case. |
| Address.PrintThenParse | crates/pax-core/src/address.rs:68-118 | Parsing undoes printing, so print and parse is stable from any accepted text. |
| Address.TwoDigitsIffNoPlus | crates/pax-core/src/address.rs:103-109 | An accepted text has two-digit pieces only if and only if it has no `+`. |
| Address.PlusSpelling | crates/pax-core/src/address.rs:103-109 | Every address with a first octet below 16 has an accepted spelling with a `+`. |
| Uuid.FromStr | crates/pax-core/src/uuid.rs:89-110 | The byte-sliced loop parses, rejects or panics as the text's characters determine. |
| Uuid.PanicsIff | crates/pax-core/src/uuid.rs:100-107 | It panics exactly when a 32-byte text is cut inside its first wide character and nothing before that is rejected. |
| Uuid.ShortFormIff | crates/pax-core/src/uuid.rs:93-98 | Text of four or eight bytes without hyphens is accepted if and only if it is a hexadecimal number; text of any other length but 32 never is. |
| Uuid.LongFormIff | crates/pax-core/src/uuid.rs:99-107 | Text of 32 bytes without hyphens reads as a UUID if and only if its sixteen pairs spell its bytes. |
| Uuid.WidthIsUtf8 | crates/pax-core/src/uuid.rs:92-92 | Lengths count the bytes of UTF-8. |
| Uuid.PanicsExample | crates/pax-core/src/uuid.rs:100-107 | A euro sign and 29 zeros is such a text. |
| Uuid.PrintThenParse | crates/pax-core/src/uuid.rs:58-110 | Every UUID is read back from its hyphenated and bare forms, in either case. |
| Uuid.FourExpands | crates/pax-core/src/uuid.rs:44-57 | An accepted form of four digits, wherever its hyphens are, is the UUID of its Base-UUID expansion. |
| Uuid.EightExpands | crates/pax-core/src/uuid.rs:48-57 | So is an accepted form of eight digits. |

## Left out

- ObexClient.ObexOppClient.PutFile: the progress values are returned in order rather than passed to a callback during the call; I/O error texts are not kept.
- AndroidPush.AndroidBackend.RunPush: the progress values of a finished `put_file` are turned into events one after the other, so how events and packets interleave is not stated; sequence numbers and timestamps of the real backends are not modelled.
- BluezPush.RunTransfer: the D-Bus properties, signals and deadlines appear as one sequence of observations, each saying what was polled and what changed or timed out.
- PairBatch.PairDevices: a backend's answers may depend on the device and on how often it was asked, and on nothing else; this is the condition under which the concurrent and the sequential result agree, and PairMock.MockAnswersByDevice shows the mock meets it.
- MockSystem.BytesConserved: tasks may also be interleaved and delivered in orders the executor would not produce; the file content is only counted, as the mock does.
- MockBackend.MockBackend.Discover: lowercasing of names is an arbitrary function; Unicode case mapping is not modelled.
- Metrics.FromEvents: counters are unbounded, so `u64` overflow is not modelled; throughput, a floating-point quotient, is not either.
- Analyzer.SortCorrect: the standard library's stable sort is modelled as an insertion sort.
- Observer.Fraction: it is an exact quotient, not a floating-point one.
- Controllers, standards and versions are carried as their display labels; the tables behind the labels are not modelled.
- JNI, D-Bus, sockets, temp-file staging and the iOS, btleplug and Java wrappers: foreign I/O.
- The GATT operations of the mock, `set_local_address` and `adapter`: plain lookups.
- The command-line tool and report rendering: user interface.
- `upload_bytes`: a call of `upload_file`.
