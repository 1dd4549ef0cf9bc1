# A verified model of the AX.25 library

This Dafny project models the hard core of an AX.25 stack for FreeRTOS: the connected-mode link layer, the callback
dispatcher under it, the KISS, frame, address and AGWPE codecs, and the stateful stores around them (router port table,
staged configuration, AGWPE client manager, buffer pool). It states what each of them is for as properties of every input,
every run and every interleaving, and proves them.

Objects that the source updates in place are classes with the source's fields, arrays and loops; each method is proved equal
to a function on values, and the main results are proved about those functions. Concurrency is a state machine whose
steps are the locked sections.

| file | content |
|---|---|
| `Ax25Types.dfy` | addresses, frames, the control byte |
| `TxWindow.dfy` | the ring of eight pending I frames and its window |
| `ConnSpec.dfy` | a session as a value: every frame handler, timer callback and public call as a function |
| `Connection.dfy` | the session as a class, refining `ConnSpec`; its twelve-place action buffer never fills |
| `ConnInvariants.dfy` | ring, window, timers and deferred actions under every step and run |
| `ConnEffects.dfy` | what each step puts on the wire and hands up |
| `ConnSession.dfy` | two stations over lossy FIFO channels, dialling or in session, with unbounded sequence numbers |
| `ConnScenes.dfy` | single steps with everything they put out, for the concrete runs |
| `ConnDialling.dfy` | from the first SABM on: safety of a call, and a retried SABM that loses data |
| `ConnRouting.dfy` | output that leaves after the lock by two routes: safety, and a late acknowledgement that resets the link |
| `ConnProgress.dfy` | complete retransmission, and a way to drain the link from every reachable state |
| `ConnTimers.dfy` | every unreported V(R) has T2 running for it |
| `ConnEndings.dfy` | silent-peer termination, SABM count, one FINAL and one DISCONNECT per ending |
| `ConnSpeech.dfy`, `ConnAnswers.dfy`, `ConnOrder.dfy` | the form, the exact number and the order of the frames of every step |
| `ConnTable.dfy`, `ConnLife.dfy` | the link table; filters, answers of the calls, fresh sessions, deliveries, sequence variables |
| `ConnFlow.dfy`, `ConnWindow.dfy`, `ConnBusy.dfy` | flags and timers of every step, the I frames it sends and leaves, and flow control over runs and between two stations |
| `ConnClosing.dfy` | refused calls and hang-ups between two stations |
| `Kiss.dfy`, `FrameCodec.dfy`, `Wire.dfy` | framing, addresses and frames, and the whole stack end to end |
| `WireSession.dfy` | sessions over the codec |
| `DispatcherSpec.dfy`, `DispatcherProofs.dfy`, `Dispatcher.dfy` | steps, proofs and class of the dispatcher |
| `Agwpe.dfy` | the AGWPE stream decoder, one-shot decoder and encoder |
| `RouterSpec.dfy`, `RouterProofs.dfy`, `Router.dfy` | the port table and the two-pass delivery |
| `ConfigSpec.dfy`, `ConfigProofs.dfy`, `Configuration.dfy` | staging, saving, committing and rolling back |
| `ClientsSpec.dfy`, `ClientsProofs.dfy`, `Clients.dfy` | the AGWPE client manager |
| `BufferPool.dfy` | the counted buffer pool |

`dafny verify dfyconfig.toml` checks the project (Dafny 4.11). Nothing here was executed.

Conventions. Bytes are integers below 256 and bit operations are written as the arithmetic they compute. A callsign is the C
string in its array. A timer is "armed" or not; an expiry may come at any moment, and its `late` flag says that the callback
waited for the lock while another section re-armed the timer. Callbacks are entries of an output list. What
happens between two sections of one thread is part of the state of the dispatcher, the client manager, the buffer pool and
the routes of a station's output. Memory that the source frees is part of the state of the dispatcher and the client manager, so that a read after free would be a failed precondition.

Where the code differs from what one would expect, the model follows the code:

- the KISS encoder escapes the port/command byte and the decoder reads it raw, so two of the 256 pairs do not come through
  (`Kiss.PortCmdNotTransparent`, and `Kiss.ExactDelivery` for the exact condition);
- a frame comes back from parse(build(f)) unchanged exactly when it is canonical (`FrameCodec.FrameRoundTrip`); for other
  frames `FrameCodec.FrameCarried` says what comes back;
- a SABM that is retried after the called station has accepted data makes that station start its numbers again
  (`ConnDialling.RetriedSabmLosesData`, and `ConnDialling.RestartExact` for the exact condition);
- frames of a timer callback and of another task can leave in the opposite order of their sections
  (`ConnRouting.LateAckResets`, and `ConnRouting.RunRefines` for the condition under which they do not);
- the one-shot AGWPE decoder adds two lengths in 32 bits (`Agwpe.HeaderOverruns`, `Agwpe.StaysInside`);
- an I frame with a valid N(R) clears `peer_busy`;
- in TIMER_RECOVERY an RR that is no answer to a poll sends nothing, so frames queued while the peer was busy wait for the
  answer (`ConnBusy.ReadyPeerGetsAll` for the exact condition);
- static and bound dynamic router ports take a frame only after its whole path;
- a configuration revert goes back to the store before the latest save, not to the last committed one
  (`ConfigProofs.RevertStopsAtLatestSave`);
- `quiesce` called on the worker, from a callback of the same connection, waits for itself
  (`DispatcherProofs.QuiesceOnWorkerBlocks`).

## Model

| member | source | states |
|---|---|---|
| `Connection.Session.constructor` | src/ax25_conn.c:1786-1933 | a new session is DISCONNECTED with an empty ring and no timer armed; a window outside 1..7 becomes 4 |
| `Connection.Session.Defer` | src/ax25_conn.c:584-591 | the action is appended, or nothing happens and false is returned, exactly when twelve are already there |
| `Connection.Session.SendFrame` | src/ax25_conn.c:917-933 | the frame carries the session's addresses and path; the buffer grows by it or the call reports no memory |
| `Connection.Session.SendAck` | src/ax25_conn.c:1083-1091 | RNR while this side is busy, RR otherwise, with the current V(R) |
| `Connection.Session.SendRej` | src/ax25_conn.c:1101-1118 | one REJ with the current V(R), and the reject condition is recorded |
| `Connection.Session.SendI` | src/ax25_conn.c:1129-1153 | one I frame with the given N(S) and the current V(R), and no acknowledgement is pending any more |
| `Connection.Session.SendUnsent` | src/ax25_conn.c:1161-1181 | the loop over the ring sends exactly the queued, untransmitted frames of [V(A), V(S)) in ring order, marks exactly those, and switches T3 for T1 exactly when there was one |
| `Connection.Session.SendPendingIFrames` | src/ax25_conn.c:1161-1181 | nothing to a busy peer; otherwise the whole new state and the frames sent |
| `Connection.Session.QueueIFrame` | src/ax25_conn.c:1190-1211 | the payload takes slot V(S) and V(S) advances, or nothing changes when the window is full |
| `Connection.Session.HandleReceivedNr` | src/ax25_conn.c:1242-1267 | exactly the slots in [V(A), N(R)) are retired and T1/T3 follow the source's three cases; an invalid N(R) changes nothing |
| `Connection.Session.MarkUntransmitted` | src/ax25_conn.c:1524-1527 | exactly the slots in [a, V(S)) become untransmitted |
| `Connection.Session.ClearTxQueue` | src/ax25_conn.c:557-563 | every slot is emptied; the numbers stay |
| `Connection.Session.ResetStateVars` | src/ax25_conn.c:469-479 | the whole reset state |
| `Connection.Session.SetConnPath` | src/ax25_conn.c:488-514 | the path with H and extension bits cleared; a path of more than eight is ignored |
| `Connection.Session.EnterDisconnectedState` | src/ax25_conn.c:533-551 | timers, window, peer and path are cleared; FINAL, and DISCONNECT after it unless already disconnected |
| `Connection.Session.StartNrErrorRecovery` | src/ax25_conn.c:1276-1286 | an error report and a SABM, AWAITING_CONNECTION under T1, and an error code |
| `Connection.Session.OnFrameDisconnected` | src/ax25_conn.c:1299-1344 | SABM opens a session (or is refused with DM), DISC gets DM, everything else is ignored |
| `Connection.Session.OnFrameAwaitingConnection` | src/ax25_conn.c:1353-1400 | UA with F and a colliding SABM connect, DM ends the attempt, DISC gets DM |
| `Connection.Session.OnFrameAwaitingRelease` | src/ax25_conn.c:1409-1438 | UA, DM and DISC end the session, SABM gets DM |
| `Connection.Session.OnUnnumLive` | src/ax25_conn.c:1456-1488 | SABM resets the link, DISC, DM and FRMR end or redial it, UA and others are ignored |
| `Connection.Session.OnSupConnected` | src/ax25_conn.c:1492-1532 | RR, RNR and REJ in CONNECTED: the state, the answer to a poll and the (re)transmissions, in the source's order |
| `Connection.Session.OnInfoConnected` | src/ax25_conn.c:1534-1599 | an I frame in CONNECTED: acknowledgement, delivery only in sequence and only when not busy, reply, T3, and the frames released |
| `Connection.Session.OnSupRecovery` | src/ax25_conn.c:1652-1722 | S frames in TIMER_RECOVERY, the F bit that ends it and the retransmission under T1 |
| `Connection.Session.OnInfoRecovery` | src/ax25_conn.c:1723-1771 | I frames in TIMER_RECOVERY |
| `Connection.Session.Arrives` | src/ax25_conn.c:2068-2143 | the address, path and peer filters, then the handler of the state; it keeps the invariant and always has room for its actions |
| `Connection.Session.TimerT1` | src/ax25_conn.c:178-246 | one T1 expiry in each of the five states |
| `Connection.Session.TimerT2` | src/ax25_conn.c:312-344 | a pending acknowledgement is sent in a live session, and nothing else happens |
| `Connection.Session.TimerT3` | src/ax25_conn.c:350-381 | a poll and TIMER_RECOVERY from CONNECTED, nothing elsewhere |
| `Connection.Session.ConnectVia` | src/ax25_conn.c:2006-2060 | refusal of an over-long path or a session in use, otherwise the SABM and AWAITING_CONNECTION under T1 |
| `Connection.Session.SendUserData` | src/ax25_conn.c:2152-2187 | each refusal with its code, otherwise the payload is queued and everything sendable is sent |
| `Connection.Session.BeginShutdown` | src/ax25_conn.c:2194-2235 | DISC and AWAITING_RELEASE under T1, nothing when already released |
| `Connection.Session.SetLocalBusy` | src/ax25_conn.c:2339-2375 | RNR or RR exactly on a change in a live session; setting busy drops a pending acknowledgement |
| `TxWindow.UnsentMembers` | src/ax25_conn.c:1161-1181 | what a send covers: exactly the queued untransmitted slots in the window, in ring order, without repetition |
| `TxWindow.ValidNrMeaning` | src/ax25_conn.c:1223-1234 | the two-branch test is the statement V(A) <= N(R) <= V(S) modulo 8 |
| `TxWindow.RetireKeeps` | src/ax25_conn.c:1242-1256 | retiring keeps the ring invariant, the frames beyond N(R) and the order |
| `ConnInvariants.StepKeeps` | src/ax25_conn.c:1190-1211 | every frame, expiry and call keeps: slot s in use exactly when s is in [V(A), V(S)), numbered s, at most k outstanding; every timer obligation; and at most max(4, k+2) <= 9 of the 12 deferred actions |
| `ConnInvariants.InitInv` | src/ax25_conn.c:1786-1933 | a new session has the invariant |
| `ConnInvariants.RunKeeps` | src/ax25_conn.c:1161-1267 | the invariant over every run |
| `ConnInvariants.SlotFreeInsideWindow` | src/ax25_conn.c:1190-1201 | the occupied-slot refusal is unreachable: a frame is refused exactly when the window is full |
| `ConnSession.SessionSafety` | src/ax25_conn.c:1447-1771 | two stations over lossy FIFO channels, dialling or in session, any interleaving in which every SABM that opens or resets a link finds a station with nothing outstanding and V(S) = 0: each side has been handed a prefix of what the other side's calls accepted, acknowledged implies delivered, an empty window implies all delivered |
| `ConnSession.NoSpuriousReset` | src/ax25_conn.c:1223-1286 | in those runs every N(R) on its way is a true count of the receiver modulo 8, is accepted, retires exactly those frames, and N(R) error recovery is never entered |
| `ConnSession.RestartableLive` | src/ax25_conn.c:1457-1466 | the condition is one a caller can check: in a live session it is V(A) = V(S) = 0 |
| `ConnDialling.DialledInv` | src/ax25_conn.c:2006-2060 | one call between idle stations starts such a system: the caller dials and one SABM is on the way |
| `ConnDialling.SafetyFromDial` | src/ax25_conn.c:188-196 | safety from that call on, whatever is lost, retried or sent before the answer arrives, under the same condition on SABMs |
| `ConnDialling.RestartExact` | src/ax25_conn.c:1457-1466 | a SABM, or the UA that answers one, leaves the numbers of the receiving station right if and only if that condition holds there |
| `ConnDialling.PatientIsCareful` | src/ax25_conn.c:2152-2187 | a called station that calls send_data only after an I or S frame of the caller has arrived always meets the condition |
| `ConnDialling.PatientSafety` | src/ax25_conn.c:2152-2187 | so a call to such a station is safe with no condition on retries, losses or interleaving |
| `ConnDialling.HandshakeOpensSession` | src/ax25_conn.c:2006-2060 | with nothing lost one SABM and one UA bring both stations into a new, quiet session |
| `ConnDialling.RetriedSabmLosesData` | src/ax25_conn.c:1457-1466 | the condition is needed: one T1 expiry while dialling, then in-order, loss-free arrival, and accepted data is acknowledged but never delivered |
| `ConnRouting.RunRefines` | src/ax25_conn.c:858-904 | with output leaving after the lock by the dispatcher's queue or by the section's own task, the stations do what those of ConnSession do, as long as no section records frames while frames of another route wait |
| `ConnRouting.RoutedSafety` | src/ax25_conn.c:858-904 | safety under that condition, with everything waiting, on the air or lost in any interleaving |
| `ConnRouting.RoutedNoReset` | src/ax25_conn.c:1276-1286 | no packet on the air enters N(R) error recovery under that condition |
| `ConnRouting.CalledInv` | src/ax25_conn.c:2006-2060 | one call between idle stations starts such a system, its SABM still waiting to leave |
| `ConnRouting.DisorderOvertakes` | src/ax25_conn.c:865-904 | a section that records frames while another route's wait can have its first frame on the air before them |
| `ConnRouting.LateAckResets` | src/ax25_conn.c:312-344 | the condition is needed: an RR posted to the dispatcher is overtaken by an I frame with a higher N(R), and its arrival resets the link |
| `ConnRouting.OvertakenNr` | src/ax25_conn.c:1223-1234 | an N(R) overtaken by n acknowledgements is refused if and only if fewer than 8 - n frames are outstanding |
| `ConnProgress.RejectResendsAll` | src/ax25_conn.c:1518-1529 | after a REJ in CONNECTED exactly the frames from N(R) to V(S) are sent again, each once, in order, under T1 |
| `ConnProgress.AnswerResendsAll` | src/ax25_conn.c:1664-1716 | the answer to a poll makes the session CONNECTED with no retries counted and resends everything the peer lacks, in order |
| `ConnProgress.CanAlwaysDrain` | src/ax25_conn.c:1608-1771 | the link is never stuck: from every reachable state of a live session some continuation delivers and acknowledges everything accepted and empties the window, if the receiver is not busy and the retry budget not used up |
| `ConnTimers.StepTells` | src/ax25_conn.c:312-344 | whenever the peer has not been told V(R), an acknowledgement is pending and T2 is armed for it; every step keeps this |
| `ConnTimers.RunTells` | src/ax25_conn.c:312-344 | so does every run |
| `ConnTimers.NewSessionTells` | src/ax25_conn.c:1786-1933 | and it holds in every state a new session can reach |
| `ConnEndings.SilentPeerTermination` | src/ax25_conn.c:199-246 | with a silent peer, whatever is sent or toggled, the session is over if and only if T1 has expired N2 - retry + 1 times (N2 + 1 from CONNECTED) |
| `ConnEndings.WatchdogArmed` | src/ax25_conn.c:370-376 | until then T1 is armed, or T3 in CONNECTED, whose expiry starts T1 |
| `ConnEndings.ConnectAttempt` | src/ax25_conn.c:2006-2060 | an unanswered attempt sends one SABM plus one per T1 expiry up to N2, 1 + N2 in all |
| `ConnEndings.StepTellsEnd` | src/ax25_conn.c:533-551 | each return to DISCONNECTED records exactly one FINAL and then exactly one DISCONNECT, last; no other step records either, except the FINAL of a refused call |
| `ConnSpeech.StepSpeaks` | src/ax25_conn.c:942-1153 | every frame of every step: I frames are commands without P, at most 256 bytes, to a peer that is not busy; an S command is an RR poll; any other S frame is a response, RNR if and only if this station is busy, or REJ; SABM and DISC are commands with P, UA and DM responses; all with the session's addresses and path, I and S frames with the current V(R) |
| `ConnSpeech.StepPeer` | src/ax25_conn.c:488-551 | whom a session talks to and by which path after every step: a call names the peer, a SABM that is taken brings its digipeaters in their order, the end forgets the path, nothing else changes any of it |
| `ConnAnswers.StepSends` | src/ax25_conn.c:1299-1771 | how many frames of each kind every step sends, exactly: a poll is answered once, a gap rejected once, a plain acknowledgement only by T2 or a change of busy, and the U frames of the link table |
| `ConnTable.StepGoes` | src/ax25_conn.c:1299-1771 | the link table: for every state and event the next state, the tries, whether the call is reported, and each error and reset the application hears of |
| `ConnOrder.StepOrders` | src/ax25_conn.c:1299-1771 | in every section reports and data come before frames, answers and polls before I frames, FINAL and DISCONNECT last |
| `ConnFlow.StepFlags` | src/ax25_conn.c:1447-1771 | peer_busy, local_busy, the reject and acknowledgement flags and all three timers after every step that keeps a session open |
| `ConnWindow.StepReleases` | src/ax25_conn.c:1161-1181 | the N(S) of the I frames every step sends: exactly those that are due, each once and in ring order, none to a busy peer |
| `ConnWindow.StepLeaves` | src/ax25_conn.c:1646-1722 | what still waits after every step: what had to be sent and was not |
| `ConnLife.HeededExactly` | src/ax25_conn.c:2068-2117 | the filters in raw terms, both ways: a frame that fails one changes and sends nothing |
| `ConnLife.StepAnswers` | src/ax25_conn.c:2006-2187 | the result code of every call and arrival, and that a refused call changes and sends nothing |
| `ConnLife.StepRenews` | src/ax25_conn.c:469-551 | every opening, reset, call, redial and end starts with zero numbers, an empty window, clear flags, no tries, and the timer its state needs |
| `ConnLife.AnswersEcho` | src/ax25_conn.c:1299-1488 | a UA or DM answers a U frame only, with that frame's P bit as its F bit |
| `ConnLife.StepDelivers` | src/ax25_conn.c:1534-1599 | a payload is delivered when and only when an I frame in sequence reaches an open station that is not busy |
| `ConnLife.StepMoves` | src/ax25_conn.c:1190-1267 | V(A), V(S), V(R) and the queued payloads after every step that keeps a session open |
| `ConnLife.InitFresh` | src/ax25_conn.c:1786-1933 | a new session has nothing armed or outstanding, and a window outside 1..7 is 4 |
| `ConnLife.HangupRearms` | src/ax25_conn.c:2194-2235 | a hang-up leaves only T1 running and keeps the numbers; without a session it changes nothing |
| `ConnLife.BusyRemembered` | src/ax25_conn.c:2339-2375 | a change of busy is kept in every state and moves no number |
| `ConnBusy.BusyPeerGetsNothing` | src/ax25_conn.c:1511-1516 | after an accepted RNR no action of any run carries an I frame, as long as nothing but RNR arrives |
| `ConnBusy.ReadyPeerGetsAll` | src/ax25_conn.c:1503-1509 | after an accepted RR the peer is not busy and nothing waits, if and only if the session is CONNECTED, the RR answers a poll, or everything beyond its N(R) had been sent before |
| `ConnBusy.BusyStationTakesNothing` | src/ax25_conn.c:1534-1580 | a busy station delivers nothing and keeps V(R) over every run of S and I frames, expiries and calls |
| `ConnBusy.PollsAnswered` | src/ax25_conn.c:1495-1500 | over any run the F responses sent are as many as the polls heard |
| `ConnBusy.OneRejectPerGap` | src/ax25_conn.c:1585-1599 | over any run at most one REJ is sent until a frame in sequence arrives |
| `ConnBusy.BusyReachesPeer` | src/ax25_conn.c:2356-2367 | two stations: set_busy and the arrival of its frame leave the other with peer_busy set as told; after "ready" the other holds nothing back, if and only if it is CONNECTED or had sent it all |
| `ConnBusy.BusySpell` | src/ax25_conn.c:2356-2367 | two stations: busy and ready again, told twice, nothing held back |
| `ConnClosing.RefusalEndsBoth` | src/ax25_conn.c:1310-1334 | two stations: a refused call leaves both without a session, the caller hears of the refusal and the channels are empty |
| `ConnClosing.HangupEndsBoth` | src/ax25_conn.c:2194-2235 | two stations: DISC and its UA leave both without a session and the channels empty |
| `Ax25Types.IControlFields` | src/ax25_frame.c:38-77 | an I control byte reads back as type, N(S), N(R) and P/F |
| `Ax25Types.SControlFields` | src/ax25_frame.c:79-104 | RR, RNR and REJ control bytes read back |
| `Ax25Types.UControlFields` | src/ax25_frame.c:38-59 | the control bytes of SABM, DISC, DM, UA and FRMR read back with either P/F bit and are not UI |
| `Ax25Types.ControlOctets` | src/ax25_frame.c:38-104 | which control byte is which frame, in numbers, both ways |
| `Kiss.KissDecoder.ProcessByte` | src/ax25_kiss.c:41-109 | one byte: the new state and the frames called back |
| `Kiss.KissDecoder.ProcessBytes` | src/ax25_kiss.c:111-120 | a chunk does what its bytes do one after the other |
| `Kiss.KissDecoder.Reset` | src/ax25_kiss.c:122-132 | the initial state; nothing is called back |
| `Kiss.AddEscaped` | src/ax25_kiss.c:139-161 | the escaped byte, in numbers, after the earlier ones, or 0 exactly when it does not fit |
| `Kiss.Encode` | src/ax25_kiss.c:163-201 | the encoded frame, or 0 exactly when it does not fit; never 0 with 2n+4 bytes of room; in numbers: 0xC0 around it, 0xC0 inside as 0xDB 0xDC and 0xDB as 0xDB 0xDD, every byte in its place |
| `Kiss.EncodedFrames` | src/ax25_kiss.c:163-201 | an encoded frame begins and ends with 0xC0, which is nowhere else in it |
| `Kiss.EncodedSpells` | src/ax25_kiss.c:139-161 | every data byte is spelled, in numbers, right after the encoding of those before it |
| `Kiss.BrokenEscape` | src/ax25_kiss.c:72-80 | an escape followed by anything but 0xDC or 0xDD spoils the frame: nothing is called back or stored until the next 0xC0 |
| `Kiss.ChunkingIrrelevant` | src/ax25_kiss.c:111-120 | how the stream is cut does not matter |
| `Kiss.ExactDelivery` | src/ax25_kiss.c:41-201 | a frame comes through as sent if and only if it is non-empty, fits the buffer and its port/command byte is neither FEND nor FESC |
| `Kiss.PortCmdNotTransparent` | src/ax25_kiss.c:61-63 | of all port and command nibbles exactly (12,0) and (13,11) do not come through, and what they become with any data |
| `Kiss.Resynchronises` | src/ax25_kiss.c:41-109 | from any decoder state one encoded frame of any kind brings the decoder between frames |
| `Kiss.SelfStabilises` | src/ax25_kiss.c:41-201 | after any garbage and one frame, in any chunks, every following clean frame is delivered exactly, in order, and nothing else is |
| `Kiss.RunKeeps` | src/ax25_kiss.c:41-109 | the decoder never holds more than a buffer, and never calls back an empty frame |
| `FrameCodec.EncodeAddress` | src/ax25_address.c:37-66 | seven bytes: the shifted, upper-cased, padded callsign and the SSID byte |
| `FrameCodec.DecodeAddress` | src/ax25_address.c:68-92 | the address of seven bytes, spaces dropped, the callsign ending at the first NUL |
| `FrameCodec.AddressRoundTrip` | src/ax25_address.c:37-92 | decode(encode(a)) = a if and only if the callsign is seven-bit, upper case and without spaces and the SSID is below 16 |
| `FrameCodec.Buffer.Append` | src/ax25_buffer.c:176-188 | the bytes are appended, or nothing changes when they do not fit |
| `FrameCodec.Buffer.AppendByte` | src/ax25_buffer.c:190-201 | the byte is appended, or nothing changes when the buffer is full |
| `FrameCodec.BuildFrame` | src/ax25_frame.c:199-266 | the built bytes, laid out as below, although no append is checked: none can fail; more than eight digipeaters are refused and the buffer is untouched |
| `FrameCodec.BuiltLayout` | src/ax25_frame.c:212-262 | every byte in numbers: addresses in order, upper case and shifted, SSID and reserved bits, the C bit in the destination of a command and in the source of a response, H bits, the extension bit in the last address alone, control, PID, payload |
| `FrameCodec.CommandBits` | src/ax25_frame.c:222-237 | byte 6 is at least 128 if and only if the frame is a command, byte 13 if and only if it is a response |
| `FrameCodec.BuiltLength` | src/ax25_router.c:264-272 | the router's byte count is the built length, at most 328 of the 338 bytes of a buffer |
| `FrameCodec.ParseFrame` | src/ax25_frame.c:106-197 | the parsed frame or a refusal, for every byte string |
| `FrameCodec.ParsedType` | src/ax25_frame.c:106-197 | a parsed frame has the type of its control byte, at most eight digipeaters and at most 256 payload bytes |
| `FrameCodec.ParsedReads` | src/ax25_frame.c:117-195 | for any accepted bytes: stations, C bit, control, PID and at most 256 payload bytes from their places |
| `FrameCodec.ParsedPath` | src/ax25_frame.c:139-165 | for any accepted bytes: the path ends at the first extension bit, the eighth digipeater or the last complete address |
| `FrameCodec.MalformedExactly` | src/ax25_frame.c:107-190 | which bytes are refused |
| `FrameCodec.FrameCarried` | src/ax25_frame.c:106-266 | what parsing makes of any built frame whose type agrees with its control byte |
| `FrameCodec.FrameRoundTrip` | src/ax25_frame.c:106-266 | parse(build(f)) = f if and only if f is canonical |
| `Wire.StreamRoundTrip` | src/ax25_kiss.c:41-201 | after garbage and one frame, a list of canonical frames built, encoded, cut anywhere, decoded and parsed comes out exactly |
| `Wire.CleanStreamRoundTrip` | src/ax25_frame.c:106-266 | the same from the first byte of a clean line |
| `Wire.SessionFramesSendable` | src/ax25_conn.c:917-933 | every frame a session with a wire-clean peer builds can be carried |
| `Wire.WireTransparent` | src/ax25_conn.c:2068-2143 | a session does the same with a frame that crossed the wire as with the frame that was sent; one it opens stores the caller's address with the bits it arrived with |
| `WireSession.StepCarries` | src/ax25_conn.c:917-933 | every step with wired stations keeps a peer the wire can name and sends only frames it carries |
| `WireSession.RunCarries` | src/ax25_conn.c:917-933 | the same over every run |
| `WireSession.InitCarries` | src/ax25_conn.c:1786-1933 | a new session starts so exactly if its own address can be carried |
| `WireSession.Crosses` | src/ax25_frame.c:106-266 | parsing what was built from a repeated frame gives exactly what arrives in the two-station system |
| `WireSession.DialledWired` | src/ax25_conn.c:2006-2060 | one call with wired addresses puts only such frames on the way |
| `WireSession.RunCodedIs` | src/ax25_frame.c:106-266 | two stations whose every frame is built, repeated, parsed and filtered do exactly what the stations of ConnSession do |
| `WireSession.CodedSafety` | src/ax25_conn.c:2068-2143 | so a session over the codec is safe |
| `DispatcherProofs.ReadsOnlyLive` | src/ax25_conn_dispatcher.c:180-247 | no section but a post to a connection whose quiesce has returned reads a freed connection |
| `DispatcherProofs.StepKeeps` | src/ax25_conn_dispatcher.c:180-417 | every other step is safe and keeps counters, indices, tickets and order |
| `DispatcherProofs.FaultFree` | src/ax25_conn_dispatcher.c:180-417 | an interleaving of any length reads no freed connection if and only if nobody posts to one after its quiesce has returned |
| `DispatcherProofs.RunKeeps` | src/ax25_conn_dispatcher.c:180-417 | the invariant over every such interleaving |
| `DispatcherProofs.QueueHasRoom` | src/ax25_conn_dispatcher.c:337-366 | whenever a pool slot is free so is a queue place: the queue-full branch is unreachable |
| `DispatcherProofs.CountersExact` | src/ax25_conn_dispatcher.c:180-369 | pending is the number of live queued items and at most the pool size; at most one is executing |
| `DispatcherProofs.Conservation` | src/ax25_conn_dispatcher.c:180-247 | accepted actions are invoked at most once, in the order of acceptance, and all of them are invoked or withdrawn once the queue is empty and the worker idle |
| `DispatcherProofs.WithdrawnByOwner` | src/ax25_conn_dispatcher.c:390-397 | only the quiesce of its own connection withdraws an action |
| `DispatcherProofs.PostAccepts` | src/ax25_conn_dispatcher.c:318-369 | which code a post returns, exactly; a refusal changes nothing, and an accepted action takes a free slot and the end of the queue |
| `DispatcherProofs.QuiesceCloses` | src/ax25_conn_dispatcher.c:380-411 | quiesce waits if and only if a callback of the connection runs, refuses later posts, withdraws exactly the connection's actions that have not begun, and touches nothing else |
| `DispatcherProofs.QuiesceIsFinal` | src/ax25_conn_dispatcher.c:380-417 | after quiesce has returned no step of any run reads that connection or is inside its callbacks |
| `DispatcherProofs.StaleNeverInvoked` | src/ax25_conn_dispatcher.c:203-217 | when the address is used again, nothing accepted in its earlier life is ever invoked |
| `DispatcherProofs.GoneMeansNoneBefore` | src/ax25_conn_dispatcher.c:389-397 | when quiesce has returned, nothing accepted so far can still be invoked for that address |
| `DispatcherProofs.NoLostWakeup` | src/ax25_conn_dispatcher.c:99-106 | a waiting quiesce is signalled or waits for the callback in progress, whose end signals it; the signal stays until it returns |
| `DispatcherProofs.QuiesceOnWorkerBlocks` | src/ax25_conn_dispatcher.c:399-417 | quiesce called inside a callback of its own connection is never signalled while that callback lasts |
| `Dispatcher.CallbackDispatcher.Enqueue` | src/ax25_conn_dispatcher.c:318-369 | the scan, the new item, the queue and the counter, or a refusal |
| `Dispatcher.CallbackDispatcher.Take` | src/ax25_conn_dispatcher.c:183-191 | the oldest index leaves the queue |
| `Dispatcher.CallbackDispatcher.BeginItem` | src/ax25_conn_dispatcher.c:193-229 | the item is dropped or claimed, with its counters |
| `Dispatcher.CallbackDispatcher.EndItem` | src/ax25_conn_dispatcher.c:235-247 | the item is recycled, the counter drops and a waiting teardown is signalled |
| `Dispatcher.CallbackDispatcher.QuiesceSection` | src/ax25_conn_dispatcher.c:385-411 | exactly the connection's queued items are cancelled, the semaphore is cleared, and whether the call waits |
| `Agwpe.StreamDecoder.ProcessByte` | src/ax25_agwpe.c:125-182 | one byte: the new state and the frames called back |
| `Agwpe.StreamDecoder.ProcessBytes` | src/ax25_agwpe.c:184-194 | a chunk does what its bytes do one after the other |
| `Agwpe.StreamDecoder.Reset` | src/ax25_agwpe.c:111-119 | the initial state |
| `Agwpe.NothingEarly` | src/ax25_agwpe.c:125-182 | a proper prefix of a frame calls nothing back |
| `Agwpe.DecodesOne` | src/ax25_agwpe.c:125-182 | a whole frame of any declared length is called back once, at its last byte, with the first 512 data bytes, and the decoder is as at the start |
| `Agwpe.StaysInSync` | src/ax25_agwpe.c:125-284 | any list of whole frames in any chunks: one call per frame, each what the one-shot decoder finds in it |
| `Agwpe.StaysInside` | src/ax25_agwpe.c:244-283 | the one-shot decoder stays inside its bytes if and only if header size plus declared length fits 32 bits or a full 512 bytes follow the header; when the sum fits, it decodes exactly what is complete |
| `Agwpe.HeaderOverruns` | src/ax25_agwpe.c:268-279 | a header alone that declares 0xFFFFFFDC bytes makes it read beyond |
| `Agwpe.Encode` | src/ax25_agwpe.c:200-239 | the encoded frame, or 0 exactly when it does not fit |
| `Agwpe.RoundTrip` | src/ax25_agwpe.c:200-284 | what is encoded is a whole frame and both decoders give it back |
| `Agwpe.EncodedLayout` | include/ax25_agwpe.h:138-150 | where every field of an encoded frame is, in numbers, with zero reserved bytes and little-endian words |
| `Agwpe.WordRoundTrip` | src/ax25_agwpe.c:38-56 | a little-endian word reads back |
| `Router.PortRouter.RegisterPort` | src/ax25_router.c:613-748 | the three refusals, the slot taken and the counters cleared |
| `Router.PortRouter.RemovePort` | src/ax25_router.c:750-798 | the port leaves the table; an unknown port is reported |
| `Router.PortRouter.Alloc` | src/ax25_router.c:197-225 | a never-used slot, else a retired one whose task has gone, else none |
| `Router.PortRouter.NextIndex` | src/ax25_router.c:251-259 | the first digipeater without its H bit |
| `Router.PortRouter.Send` | src/ax25_router.c:837-952 | the two passes offer the frame to exactly the recipients, once each, after binding a dynamic sender |
| `Router.PortRouter.PassOne` | src/ax25_router.c:888-920 | exactly the eligible non-source ports are offered the frame, and whether an addressed one was among them |
| `Router.PortRouter.PassTwo` | src/ax25_router.c:922-942 | exactly the non-source default ports are added |
| `RouterProofs.StepKeeps` | src/ax25_router.c:613-952 | registration, removal, binding, delivery and sending keep: distinct ports, one default port, distinct addresses of static and digipeater ports, bounded queues |
| `RouterProofs.RunKeeps` | src/ax25_router.c:613-952 | the same over any sequence of calls |
| `RouterProofs.RegisterKeeps` | src/ax25_router.c:639-695 | accepted if and only if no registered port conflicts and a slot can be had |
| `RouterProofs.RegisterExact` | src/ax25_router.c:639-748 | each answer of a registration in raw terms, and the one slot and the cleared counters it leaves |
| `RouterProofs.RemoveExact` | src/ax25_router.c:750-798 | a removal retires the port's slot and nothing else |
| `RouterProofs.SendExact` | src/ax25_router.c:837-952 | who takes a frame, read off queues and drop counters before and after: each promiscuous port whatever the path, the digipeater at the first open path entry, the static or bound dynamic port at the destination after the whole path, the default port if and only if none of the addressed ones is named, and never the sender |
| `RouterProofs.SendBinds` | src/ax25_router.c:868-886 | an unbound dynamic sender is bound to the frame's source, and no other address changes |
| `RouterProofs.AtMostOneAddressed` | src/ax25_router.c:477-502 | a frame reaches at most one static or digipeater port and at most one default port, and a default port only together with promiscuous ones |
| `RouterProofs.NoEcho` | src/ax25_router.c:488-498 | never back to the sender; a static or dynamic port only at its own address and after the whole path |
| `RouterProofs.SendConserves` | src/ax25_router.c:504-511 | each recipient's sent + dropped + queued grows by one, everybody else's stays |
| `RouterProofs.TransmitConserves` | src/ax25_router.c:355-362 | handing a frame to a port keeps that sum; the byte count grows by the built length |
| `RouterProofs.DigiCopy` | src/ax25_router.c:513-528 | a digipeater's copy differs in exactly the first missing H bit |
| `RouterProofs.HopsNeeded` | src/ax25_router.c:477-528 | a static port, or a session at the destination, takes the frame after exactly as many digipeater hops as it has open path entries |
| `Configuration.MergeSchema` | src/ax25_config.c:177-251 | the merged schema, or a refusal exactly when a name is empty, two names or two keys are the same, or the size is out of range |
| `Configuration.Context.Get` | src/ax25_config.c:428-445 | found exactly for schema parameters, with the pending change, the stored value or the default |
| `Configuration.Context.MarkPending` | src/ax25_config.c:447-481 | the parameter's slot, a free one, or a refusal |
| `Configuration.Context.Set` | src/ax25_config.c:756-786 | done: the parameter reads as the value and every other as before; not found exactly for names outside the schema; no memory exactly when 32 others wait; a refusal changes nothing |
| `Configuration.Context.Clear` | src/ax25_config.c:788-811 | the same with the default for the value |
| `Configuration.Context.CopySchema` | src/ax25_config.c:491-548 | every schema key of the target as in the source store, present or absent; other keys untouched |
| `Configuration.Context.SaveAll` | src/ax25_config.c:813-886 | backup, written changes, flag, and an empty table |
| `Configuration.Context.CommitSaved` | src/ax25_config.c:888-919 | the flag and the timer are gone, the stores stay |
| `Configuration.Context.RevertSaved` | src/ax25_config.c:921-945 | the backup's values, and an empty table |
| `ConfigProofs.MarkReads` | src/ax25_config.c:428-481 | after a change the parameter reads as changed and all others as before; refused if and only if 32 others are waiting |
| `ConfigProofs.SetReads` | src/ax25_config.c:756-786 | what a set makes every parameter read as, and exactly when it is refused |
| `ConfigProofs.ClearReads` | src/ax25_config.c:788-811 | what a clear makes every parameter read as, and exactly when it is refused |
| `ConfigProofs.UnknownName` | src/ax25_config.c:764-768 | a name outside the schema changes nothing |
| `ConfigProofs.RestartAndCommitRead` | src/ax25_config.c:626-656 | a restart forgets what is pending, a commit changes no value |
| `ConfigProofs.TimerAfter` | src/ax25_config.c:626-656 | the rollback timer starts at a restart that finds the flag, stops at commit, revert and expiry, and is left alone by everything else |
| `ConfigProofs.SaveKeepsValues` | src/ax25_config.c:813-886 | save leaves what every parameter reads as |
| `ConfigProofs.RevertUndoesSave` | src/ax25_config.c:921-945 | revert right after save makes every parameter read as stored just before that save |
| `ConfigProofs.RollbackLater` | src/ax25_config.c:523-581 | so does a revert or a timeout after any number of changes, commits, reverts, restarts and timeouts without another save |
| `ConfigProofs.RevertStopsAtLatestSave` | src/ax25_config.c:820-826 | of two saves after a commit a revert undoes only the second |
| `ConfigProofs.RevertVersusCommit` | src/ax25_config.c:820-826 | a revert gives back a committed value if and only if the value stored just before the latest save still is the committed one |
| `ConfigProofs.OneSaveSinceCommit` | src/ax25_config.c:888-945 | in particular after exactly one save since the commit |
| `ConfigProofs.UncommittedAfterRestart` | src/ax25_config.c:626-656 | stored values survive restarts, and the rollback timer runs after a restart exactly while a save is uncommitted |
| `ConfigProofs.StepKeeps` | src/ax25_config.c:447-945 | pending parameters stay distinct and inside the schema |
| `Clients.Manager.AddClient` | src/ax25_agwpe_server.c:538-586 | added if and only if a slot is empty: the client in one empty slot with a zero count |
| `ClientsProofs.AddAccepts` | src/ax25_agwpe_server.c:538-586 | the same on values, with everybody else untouched |
| `Clients.Manager.RemoveClient` | src/ax25_agwpe_server.c:588-614 | out of the table at count zero, otherwise marked as leaving |
| `Clients.Manager.CollectTargets` | src/ax25_agwpe_server.c:1058-1073 | exactly the occupied, initialised slots nobody asked to remove, each counted once |
| `ClientsProofs.CollectsOccupied` | src/ax25_agwpe_server.c:1064-1066 | the test of the initialized flag excludes nobody |
| `ClientsProofs.ServesEach` | src/ax25_agwpe_server.c:1058-1073 | a dispatch serves each client that nobody asked to remove exactly once, and no other |
| `ClientsProofs.NotServedAgain` | src/ax25_agwpe_server.c:588-614 | once its removal has been asked for, no dispatch that starts later serves the client, along any run that does not add it again |
| `Clients.Manager.FinishTarget` | src/ax25_agwpe_server.c:1075-1099 | the count drops, and the last user of a leaving client takes it out |
| `ClientsProofs.StepKeeps` | src/ax25_agwpe_server.c:538-1100 | counts equal in-flight targets, targets stay in place, the heap is the table and the clients about to be freed |
| `ClientsProofs.NoUseAfterFree` | src/ax25_agwpe_server.c:1044-1100 | in every reachable state each in-flight client is allocated, in the same slot, and not about to be freed |
| `ClientsProofs.FreedOnceAtZero` | src/ax25_agwpe_server.c:588-614 | a client leaves the table only when nothing in flight refers to it, at its removal or at its last use |
| `ClientsProofs.NothingLeftBehind` | src/ax25_agwpe_server.c:1085-1091 | once all dispatches are done no removal is pending |
| `ClientsProofs.CountBounded` | src/ax25_agwpe_server.c:109-111 | a slot's count is at most the number of dispatches |
| `BufferPool.SharedPool.TakeSemaphore` | src/ax25_buffer.c:94-101 | a token exactly if the semaphore has one |
| `BufferPool.SharedPool.GiveSemaphore` | src/ax25_buffer.c:142-148 | a returned buffer's token goes back |
| `BufferPool.SharedPool.ClaimBuffer` | src/ax25_buffer.c:103-128 | the first free buffer, emptied, or the token given back |
| `BufferPool.SharedPool.ReturnBuffer` | src/ax25_buffer.c:130-153 | the buffer is free and empty, or nothing happens for a foreign or free one |
| `BufferPool.StepKeeps` | src/ax25_buffer.c:89-153 | free buffers = semaphore + tokens held + gives to come |
| `BufferPool.ClaimSucceeds` | src/ax25_buffer.c:119-125 | the inconsistency branch is unreachable |
| `BufferPool.NotHandedOutTwice` | src/ax25_buffer.c:103-112 | a buffer in use is not handed out again before it is freed |
| `BufferPool.DoubleFree` | src/ax25_buffer.c:142-152 | a second free and a foreign free change nothing |
| `BufferPool.FreeReturns` | src/ax25_buffer.c:130-153 | the free of a buffer in use makes it available and empty, brings one token back and touches no other |
| `BufferPool.Conservation` | src/ax25_buffer.c:89-160 | over any run the semaphore never exceeds the pool, no allocation with a token fails, and the reported count is the free buffers when no call is under way |

## Left out

- Real time: durations, the adaptive T1 value and its seeding for a path; only "armed" and "expired" matter.
- ConnSession.SessionSafety: needs every SABM that opens or resets a link to find its station restartable; without that it is false (`ConnDialling.RetriedSabmLosesData`). It covers one call: a station does not dial again, so a second call over channels that still hold frames of the first is not covered.
- ConnSession.NoSpuriousReset: is about frames that leave in the order of their sections; `ConnRouting.RoutedNoReset` says when they do, and `ConnRouting.LateAckResets` what happens when they do not.
- Frames inserted or reordered by the channels themselves: channels lose frames and keep the order.
- Connection.Session.OnFrameDisconnected: is one step, whereas the source releases the mutex while on_connect runs in the middle of the SABM handler (src/ax25_conn.c:1315), so that sections of other threads can run there; the same holds at the end of the two handlers that report a completed call.
- Calls back into a session from its own callbacks, except the refusal of an incoming call, which is a Boolean of the arriving frame.
- The direct invocation of a callback by the timer task when the dispatcher has no room (src/ax25_conn.c:897-900), a third route for output.
- The order of callbacks other than frames after their sections: `delivered` lists payloads in the order of the sections that deliver them, which is the order of the on_data calls when one task feeds the session its frames.
- Argument checks for NULL pointers and uninitialised objects, log output, error texts, and allocation failures.
- Which side opened a session (`is_local`) and the raw frame attached to an N(R) error report.
- 32-bit statistics counters of router ports wrap; the model counts without bound.
- The 32-bit generation of a connection in the dispatcher and the 16-bit reference count of a client do not wrap in the model; `ClientsProofs.CountBounded` bounds the latter by the number of concurrent dispatches.
- Agwpe.StreamDecoder.ProcessByte: takes the machine to be little-endian, as the ESP32 is.
- Agwpe.Encode: takes frames whose data fit the structure's 512 bytes and whose callsign fields have ten bytes.
- FrameCodec.BuildFrame: takes frames whose payload fits the structure's 256 bytes.
- Dispatcher.CallbackDispatcher.Take: is the receive from a non-empty queue; blocking on an empty one is the absence of that step.
- A `quiesce` call that runs while another one for the same connection waits; the source tears a connection down once.
- DispatcherProofs.QuiesceIsFinal: is about interleavings without a fault; a post after `quiesce` has returned is a fault (`DispatcherProofs.FaultFree`), and the library can make one: a timer callback that has left its section and not yet posted while the connection is torn down (src/ax25_conn.c:243-245, 1939-1986). What the post then reads is not modelled.
- WireSession.StepCarries: takes arriving frames whose stations the wire carries, as those built by this library are; a foreign lower-case callsign would be sent back in upper case.
- ConnClosing.HangupEndsBoth: starts with both channels empty, as do `ConnBusy.BusyReachesPeer` and `ConnBusy.BusySpell`; what a station does with frames still under way is in `ConnTable.StepGoes` and `ConnAnswers.StepSends`, step by step.
- ConnProgress.CanAlwaysDrain: says that the link can drain, not that it will; channels that lose every frame end the session instead (`ConnEndings.SilentPeerTermination`).
- Router.PortRouter.RemovePort: is one step with the outcome of the wait for the port's task as a Boolean; the polling loop and its time limit are not modelled.
- Configuration.Context.Set: takes a value that has been normalised already; integer ranges, Booleans and enumerations are not modelled.
- Failing key-value stores, output buffers smaller than a value, values written by other programs that exceed 159 characters, and a parameter stored under the key of the pending flag.
- The shutdown of the whole client manager, the sessions and outgoing queue of each client, and the rejection of stale callbacks by slot generation.
- The text forms of addresses, the AGWPE raw and unproto conversions, monitor text, beacon, console, log server, sockets, UART, Bluetooth and WiFi: easy members or outside the core.
