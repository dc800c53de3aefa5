# Verified models of Wire's audio-video signalling

This project models the parts of wire-avs that keep calls consistent, and proves what they keep over every run.

- **One-to-one calls** (`Ids`, `Econn`, `EconnLifetime`, `EconnObject`, `Glare`): the connection state machine that
  negotiates SETUP, UPDATE, CANCEL and HANGUP, its local timer, its teardown, and two peers talking over in-order
  queues while both call, or both ask for an update, at once.
- **Conference calls** (`CallAgreement`, `Ccall`, `CcallLifetime`, `CcallObject`): which of several calls the clients
  of a conversation end up in, the connect guard, the reconnect counters and the race between SFTs (conference
  media servers).
- **Session keys** (`KeyIndex`): the ordered key store and the index of a fresh key on 32 bits.
- **Media flows** (`MediaFlow`, `MediaFlowObject`): who owns the flow in use and the one it replaced.
- **Data channels** (`Dce`, `DceTables`, `DceSides`, `DceCodec`, `DceObject`): channel and stream tables, stream
  resets, the streams the two sides pick, and the DATA_CHANNEL_OPEN message of section 5.1 of RFC 8832.
- **Time scaling** (`TimeScale`, `TimeScaleBuffer`): the 16384-sample ring that is shortened and stretched by whole
  pitch lags.
- **Reverb** (`Reverb`, `ReverbRing`): the all-pass stages on 8192-entry rings and the chain of three.

Each state machine is written twice: as functions on values, about which the properties are proved, and as a class
(`…Object`, `…Buffer`, `…Ring`, and the two classes of `KeyIndex`) whose methods update fields and arrays step by step,
loops included. `Valid()` of a class carries what was proved: a connection or a conference is where its recorded
history leads, with the timer, teardown, counter and forwarding properties of all runs; an ecall owns exactly its
unclosed flows; a key store is ordered; a stage of the reverb holds the ideal filter of all it has seen. Every entry
point keeps `Valid()`, and the steps the entry points share are stated on values. What lies outside (transports, SCTP,
the media layer, configuration servers, clocks) enters as input: a result code, a flag, a message, an event.

Findings the proofs brought out, each with an exact condition:

- A refused send of an answer or of an update response leaves a connection waiting without a timer; apart from an
  update request under a zero setup timeout nothing else does (`EconnLifetime.HalfOpenExactlyWhenAbandoned`).
- Ids of 128 characters or more are cut off when they are put on record and not recognised again; a peer with such a
  client id is no longer heard but for a HANGUP (`Ids.RecognisedIff`, `Glare.LongIdIsNotHeard`).
- When SCTP reports no outgoing streams the stream search answers 1 unchecked. An open or a stream change then breaks
  the table of streams exactly when another channel has stream 1 (`DceTables.OpenKeepsLinkedIff`,
  `DceTables.ChangeOneKeepsLinkedIff`, and over whole runs `DceTables.TablesStayLinkedIff`).
- For the same reason two sides can pick one stream, which is then stream 1, picked by both
  (`DceSides.SidesCollideOnlyOnOne`, and when exactly in `DceSides.SidesCollideIff`).
- The checks on a remote open let stream 10 through to tables of ten entries exactly when ten or more streams are
  reported and a channel is free (`Dce.EntersOutsideIff`); such an entry is written outside the arrays and has no
  value in the model.
- A stream that was reset and is picked again may be refused by the other side (`DceCodec.ReusedStreamMayBeRefused`);
  with a free channel there it is refused exactly when that side has not freed it or it is out of bounds
  (`DceCodec.HandshakeSucceedsIff`).
- A call with timestamp 0 replaces and is replaced by any other, so the earliest call then survives exactly when it is
  told of last (`CallAgreement.ZeroTimestampLosesTheEarliest`, `CallAgreement.ZeroSurvivesIff`).
- Sequence numbers of calls with the same timestamp are compared through a signed 32-bit difference, which is
  the order meant exactly within half the range (`CallAgreement.CmpIsEarlierIff`); for which sets of calls every order
  of messages ends with the earliest is `CallAgreement.EveryOrderWinsIff`.
- A fresh key index exceeds the stored maximum exactly below 0xFFFF0000, or 0xFFFE0000 after a promotion
  (`KeyIndex.FreshExceedsIff`); a wiped store starts over (`KeyIndex.WipedStoreStartsOver`).
- Inserted samples join the unread ones exactly while the ring is not lapped (`TimeScale.PushedQueueIff`).
- An all-pass stage has the delay it was set up with exactly for delays of 1 to 8192 samples; the longest preset of
  96.8 ms exceeds that from 85 kHz on (`ReverbRing.Lag`).

Where code and comments disagree the code is followed: the end of the configuration handler enters CONNSENT also on
the paths that log that the update is ignored.

## Model

| member | source | states |
|---|---|---|
| Ids.ExactlyOneWinner | src/econn/econn_help.c:102-115 | never do both sides believe they won the crossing, and one of them does exactly when user or client differ |
| Ids.StrCmpAntisymmetric | src/econn/econn_help.c:107-114 | swapping the two names swaps the sign of the comparison |
| Ids.StrCmpZeroIffEqual | src/econn/econn_help.c:107-114 | the comparison is zero exactly for equal names |
| Ids.RecognisedIff | src/econn/econn.c:322-385 | an id put on record is recognised as the one it came from if and only if it is shorter than 128 characters |
| EconnLifetime.TimerRunsExactlyWhileWaiting | src/econn/econn.c:264-271 | with sends that succeed and a setup timeout, in every state of every run the timer runs if and only if the call is neither established nor reported closed |
| EconnLifetime.HalfOpenExactlyWhenAbandoned | src/econn/econn.c:866-963 | with sends that may fail, a step leaves a connection half-open if and only if it is a refused answer, a refused update response, or an update request under a zero timeout |
| EconnLifetime.NeverHalfOpenUnlessAbandoned | src/econn/econn.c:939-963 | a run without such a step never reaches a half-open connection |
| EconnLifetime.RefusedAnswerHangs | src/econn/econn.c:939-963 | a concrete run that does |
| EconnLifetime.TimerClosesWaitingCall | src/econn/econn.c:802-820 | when the timer of a waiting call fires, the call terminates and reports its close once, with the timeout or the recorded error |
| EconnLifetime.StepIsOrderly | src/econn/econn.c:44-82 | every step, sends failing or not, keeps at most one farewell and one reported close, and keeps TERMINATING final and silent |
| EconnLifetime.TeardownTrace | src/econn/econn.c:986-1053 | over every run at most one CANCEL or HANGUP request is sent and the close handler runs at most once, and after TERMINATING the state stays and nothing more is sent |
| EconnLifetime.RecvKeepsTimer | src/econn/econn.c:668-729 | no received message, of whatever kind and from whomever, leaves a waiting connection without its timer |
| EconnLifetime.RunKeepsPromises | src/econn/econn.c:44-82 | after any run from allocation: one farewell, one reported close, and, while sends succeed, a timer exactly while the call waits |
| EconnObject.Connection.constructor | src/econn/econn.c:732-800 | a new connection is idle, without a peer or a conflict, with its close handler armed, the setup timer running and an empty history |
| EconnObject.Connection.Foreseen | src/econn/econn.c:44-82 | wherever an entry point takes a connection, its history with that input leads there, the promises of all runs hold there, and TERMINATING stays silent |
| EconnObject.Connection.TranspSend | src/econn/econn.c:85-97 | a message is appended to what was sent exactly when the transport takes it |
| EconnObject.Connection.SendSetupMsg | src/econn/econn.c:100-145 | a SETUP or UPDATE goes out as request or response; one the transport refuses ends the connection and is remembered |
| EconnObject.Connection.CloseConn | src/econn/econn.c:44-82 | closing stops the timer, sends CANCEL for a pending outgoing call, enters TERMINATING, and reports the error unless a close was reported before |
| EconnObject.Connection.SetStateOutgoing | src/ecall/ecall.c:2293-2293 | the caller announces an outgoing call before its SETUP is ready |
| EconnObject.Connection.StartCall | src/econn/econn.c:823-863 | a call is started only from IDLE or PENDING_OUTGOING, and its timer restarts only if the SETUP went out; without a setup timeout it fails |
| EconnObject.Connection.AnswerCall | src/econn/econn.c:939-963 | answering cancels the timer first and becomes ANSWERED only if the response went out |
| EconnObject.Connection.RequestUpdate | src/econn/econn.c:866-907 | an update is requested only from an established or updating call; a refused request leaves a timer of one millisecond |
| EconnObject.Connection.RespondUpdate | src/econn/econn.c:910-936 | an update is answered only in UPDATE_RECV; the timer is cancelled before the send |
| EconnObject.Connection.EndCall | src/econn/econn.c:986-1053 | ending sends CANCEL, HANGUP or nothing according to the state, and starts the timer that closes |
| EconnObject.Connection.SetDataChanEstablished | src/econn/econn.c:1193-1207 | only an answered call becomes established on its data channel |
| EconnObject.Connection.OnSetupRequest | src/econn/econn.c:198-283 | a SETUP request starts an incoming call, restarts an established one, is resolved by the loser of a crossing and ignored by the winner |
| EconnObject.Connection.OnSetupResponse | src/econn/econn.c:286-319 | a SETUP response answers only a pending outgoing or conflicting call |
| EconnObject.Connection.OnSetup | src/econn/econn.c:322-385 | the first SETUP fixes the remote user and client; SETUPs of others are ignored |
| EconnObject.Connection.OnUpdateRequest | src/econn/econn.c:388-464 | an UPDATE request is taken up, taken over the own one when losing, dropped when winning, and ignored from another client |
| EconnObject.Connection.OnUpdateResponse | src/econn/econn.c:467-508 | an UPDATE response ends only an update that was sent |
| EconnObject.Connection.OnUpdate | src/econn/econn.c:511-537 | an UPDATE of another session is ignored |
| EconnObject.Connection.OnCancel | src/econn/econn.c:540-583 | a CANCEL closes an incoming, updating or established call, and only from the peer's client and session |
| EconnObject.Connection.OnHangup | src/econn/econn.c:586-621 | a HANGUP of this session closes an established or hanging-up call, and a request is answered first |
| EconnObject.Connection.RecvMessage | src/econn/econn.c:668-729 | every received message is dispatched by its kind |
| EconnObject.Connection.TimerExpired | src/econn/econn.c:802-820 | the timer closes with the recorded error, or with the timeout when it was the setup timer and no error is recorded |
| EconnObject.Connection.CloseCall | src/econn/econn.c:44-82 | a close from the owner of the connection keeps all of this |
| EconnObject.Connection.SetError | src/econn/econn.c:1210-1216 | a recorded error is reported when the connection closes and changes nothing else |
| Glare.AllocIsNewlyIff | src/econn/econn.c:732-800 | what econn_alloc makes is a peer of the two-peer system in its initial state if and only if its fields can hold the ids |
| Glare.LongIdIsNotHeard | src/econn/econn.c:322-583 | a client id of 128 characters or more is on record cut off, and then no SETUP, UPDATE or CANCEL of its holder has an effect |
| Glare.AnyTwoClientsMeet | src/econn/econn_help.c:102-115 | any two different clients form such a system exactly one way round, as winner and loser |
| Glare.DeliverRefines | src/econn/econn.c:198-319 | delivering a message to a peer does to its state what the small protocol of the proof says, for every message the other peer can have sent |
| Glare.PhaseKept | src/econn/econn.c:208-251 | the phases of the small protocol (opening, one side answering, settled, update requested) are closed under every move of either side |
| Glare.SetupGlareIsResolved | src/econn/econn.c:208-251 | in every reachable state not both peers resolve a conflict and not both believe they won, at most one SETUP response was ever sent, and with nothing in flight and nothing owed both are idle or both established |
| Glare.UpdateGlareIsResolved | src/econn/econn.c:388-508 | over any number of rounds never both hold the other's update, the winner's requests are never dropped, the loser's are answered or dropped, and at rest all sums close and nobody is still waiting |
| Glare.OnlyACrossingDrops | src/econn/econn.c:388-464 | a request is dropped only by the winner, one at a time, and only while its own request is unanswered |
| Glare.DutiesAreBounded | src/econn/econn.c:823-963 | delivering messages and discharging what is owed strictly uses up a measure of the system |
| Glare.DutiesLeadToAgreement | src/econn/econn.c:823-963 | so from any reachable state it stops after boundedly many moves, with the peers agreeing |
| CallAgreement.CmpIsEarlierIff | src/ccall/ccall.c:3449-3458 | a heard call is preferred exactly when it is earlier by timestamp and number, if and only if the numbers differ by less than half the 32-bit range, or, over a held timestamp of 0, the heard one is 0 too with a lower number |
| CallAgreement.EndsWithEarliest | src/ccall/ccall.c:3449-3491 | for messages in any order a client ends with the lexicographic minimum of all calls it knows of, secret and primary SFT included, and keeps none only if it knew of none |
| CallAgreement.OrderDoesNotMatter | src/ccall/ccall.c:3449-3491 | two clients that know the same calls end with the same call, however the messages reached them |
| CallAgreement.WideNumbersLoseTheEarliest | src/ccall/ccall.c:3456-3458 | numbers 0 and 0x80000001 under one timestamp, where the later call wins |
| CallAgreement.ZeroTimestampLosesTheEarliest | src/ccall/ccall.c:3449-3451 | a call with timestamp 0 is earlier than any dated call, yet a client that hears both, in that order, ends with the dated one |
| CallAgreement.ZeroSurvivesIff | src/ccall/ccall.c:3449-3491 | for every client and every list of messages, one of them with timestamp 0 and numbers in reach or not: the client ends with the earliest call if and only if the last valid message tells of it |
| CallAgreement.EndsWithEarliestIff | src/ccall/ccall.c:3449-3491 | with numbers in reach a client ends with the earliest call if and only if no timestamp heard of is 0 or the last valid message tells of it |
| CallAgreement.EveryOrderWinsIff | src/ccall/ccall.c:3449-3491 | a set of calls is such that every list of messages telling of it ends with the earliest if and only if no timestamp is 0 and the numbers under the earliest timestamp lie within half the range above the lowest, or all calls have timestamp 0 and one number |
| CallAgreement.Slashed | src/ccall/ccall.c:89-108 | an adopted URL ends in a slash |
| CallAgreement.EarliestIsKept | src/ccall/ccall.c:3475-3491 | among any number of clients, one that holds the earliest call ever made keeps it through every run |
| CallAgreement.SamePairSameCall | src/ccall/ccall.c:2047-2056 | clients whose calls carry the same timestamp and number hold the same secret and primary SFT, when makers use distinct pairs |
| CallAgreement.AllAgreeOnTheEarliest | src/ccall/ccall.c:3545-3581 | once every client has made or heard of the earliest call made, whatever else was sent and in whatever order, all hold it |
| CcallLifetime.WaitingIsAlwaysGuarded | src/ccall/ccall.c:295-337 | in every state of every run a call that waits for configuration, network or an SFT has its connect timer running |
| CcallLifetime.GuardEndsTheWait | src/ccall/ccall.c:4059-4151 | when that timer fires the call is idle, or terminating if an SFT had already answered, with both timers stopped |
| CcallLifetime.CountersStayBounded | src/ccall/ccall.c:480-527 | in every state of every run at most two reconnect attempts, at most five missing pings, and no more successful reconnects than attempted ones |
| CcallLifetime.SilenceIsCounted | src/ccall/ccall.c:632-664 | without pings every keepalive timeout uses up one of the keepalives left, and nothing else, connect timeouts, network errors, ends and later calls included, gives any back; the last ends the call |
| CcallLifetime.SilentCallEnds | src/ccall/ccall.c:632-664 | an active call that hears no ping sees at most 15 keepalive timeouts, whether its reconnects succeed, time out, fail or are refused; the 15th leaves it terminating, or idle if its connection is gone |
| CcallLifetime.ListReachesThree | src/ccall/ccall.c:2890-2926 | of the call's own SFTs exactly the first three that are allowed and reachable are contacted |
| CcallLifetime.ConfigSendsAtMostThree | src/ccall/ccall.c:2846-3036 | one configuration leads to at most three CONFCONNs that go out, on every path |
| CcallLifetime.OneForwardPerEntry | src/ccall/ccall.c:3821-3875 | over every run an entry to CONNSENT lies before the first SETUP or UPDATE handed on, and between any two |
| CcallLifetime.StepChangesCall | src/ccall/ccall.c:3461-3491 | only hearing of an earlier call changes the call held, save that the SFT dates it, that a SETUP names its primary if it has none, and that going idle clears its timestamp |
| CcallLifetime.ConferenceIsInEarliestCall | src/ccall/ccall.c:3386-3583 | from any point of any run on, if meanwhile no SFT dates or names the call and the conference does not go idle, it is in the earliest of its call and those it is told of |
| CcallObject.Conference.constructor | src/ccall/ccall.c:2638-2720 | a new conference is idle, in no call, with no timer running and an empty history |
| CcallObject.Conference.Foreseen | src/ccall/ccall.c:244-378 | wherever a handler takes a conference, its history with that event leads there, it is guarded with its counters bounded, and each SETUP or UPDATE handed on has its own entry to CONNSENT |
| CcallObject.Conference.ChangeState | src/ccall/ccall.c:244-378 | entering a state starts and stops exactly the timers and resets exactly the fields that belong to it |
| CcallObject.Conference.EndCall | src/ccall/ccall.c:4070-4151 | ending terminates a call that has an SFT and makes any other idle; without a connection to end it is idle at once |
| CcallObject.Conference.ReconnectCall | src/ccall/ccall.c:480-551 | a reconnect is ignored in CONNSENT, ends the call after two attempts, and otherwise counts, resets the pings and contacts the known SFT |
| CcallObject.Conference.PingHandler | src/ccall/ccall.c:612-630 | a ping clears both counters and completes a pending reconnect |
| CcallObject.Conference.KeepaliveTimeout | src/ccall/ccall.c:632-664 | the fifth missing ping reconnects, an earlier one restarts the timer |
| CcallObject.Conference.DecryptCheckTimeout | src/ccall/ccall.c:554-609 | an active call without a participant list reconnects, one without a key generator checks again, and one that cannot decrypt requests keys unless it is the generator |
| CcallObject.Conference.ConnectTimeoutHandler | src/ccall/ccall.c:4059-4068 | the connect timeout ends every call that is not active, so none waits after it |
| CcallObject.Conference.OngoingCallTimeout | src/ccall/ccall.c:414-426 | a call that rings too long goes idle |
| CcallObject.Conference.SftRejectTimeout | src/ccall/ccall.c:441-471 | a call refused by its SFT goes idle from CONNSENT only |
| CcallObject.Conference.AloneTimeout | src/ccall/ccall.c:666-692 | only an active call with an SFT ends because nobody else is in it |
| CcallObject.Conference.DurationTimeout | src/ccall/ccall.c:1014-1025 | a call whose time is up goes idle from any state |
| CcallObject.Conference.FailCall | src/ccall/ccall.c:1830-1837 | ended with an error, as when the time of a meeting is up, no call waits any more |
| CcallObject.Conference.ConfEndRecv | src/ccall/ccall.c:3617-3631 | a CONFEND of the conversation stops only a ringing call |
| CcallObject.Conference.ReqCfgJoin | src/ccall/ccall.c:3046-3088 | joining waits for the configuration with the connect timer running |
| CcallObject.Conference.ConnectListed | src/ccall/ccall.c:2890-2926 | the loop over the call's own SFTs reaches what its specification counts and reports the last failure |
| CcallObject.Conference.ConnectEach | src/ccall/ccall.c:2979-3026 | the loop over the configured SFTs tries each and reports the last failure |
| CcallObject.Conference.ConfigUpdateHandler | src/ccall/ccall.c:2846-3036 | every path of the handler, the stale configuration, the empty one and the retry included |
| CcallObject.Conference.HandleConfstartCheck | src/ccall/ccall.c:3386-3583 | an invalid message changes nothing; an earlier call is adopted, and joined unless the conference is idle, ringing or terminating; an active key generator answers a later call |
| CcallObject.Conference.SftMsgRecv | src/ccall/ccall.c:3765-3890 | SETUP and UPDATE are handed on only from CONNSENT, the first SETUP names the primary SFT, an empty reply in CONNSENT waits for the network, a network error ends the call |
| CcallObject.Conference.EcallCloseHandler | src/ccall/ccall.c:1027-1130 | a stale call changes nothing; a lost flow reconnects with fresh counters; otherwise the call ends, keeps its time-out timer, or is offered again, and CONFEND goes out after a clean end only |
| CcallObject.Conference.StartCall | src/ccall/ccall.c:3090-3119 | starting joins as caller from idle and answers an incoming call |
| CcallObject.Conference.AnswerCall | src/ccall/ccall.c:3121-3148 | answering joins from idle or incoming and nothing else |
| CcallObject.Conference.ConfpartHandler | src/ccall/ccall.c:1867-1900 | the SFT dates the call of a caller that starts it, also of one that is alone and undated, and any undated call |
| CcallObject.Conference.MediaEstabHandler | src/ccall/ccall.c:946-979 | established media activates the call unless it is in CONNSENT |
| CcallObject.Conference.DatachanEstabHandler | src/ccall/ccall.c:920-943 | only a connecting call becomes connected |
| CcallObject.Conference.SentToSft | src/ccall/ccall.c:1265-1272 | a SETUP or UPDATE that went out makes any call that is not active connecting |
| KeyIndex.FreshExceedsIff | src/ccall/ccall.c:694-718 | on 32 bits the fresh index exceeds the stored maximum if and only if that is below 0xFFFF0000, or 0xFFFE0000 after a promotion, and is then the next block, or the one after |
| KeyIndex.Fresh | src/ccall/ccall.c:694-718 | a fresh index is a 32-bit value with zero low half |
| KeyIndex.PromotedStartsAbove | src/ccall/ccall.c:2581-2591 | a promoted generator starts one full block above where the outgoing one would, above anything that one still rotates to |
| KeyIndex.GeneratedIsStored | src/keystore/keystore.c:228-320 | below the threshold a generated index is above every stored one, is stored, and is the new maximum |
| KeyIndex.GeneratedIncrease | src/ccall/ccall.c:694-801 | along every run that does not wipe the store, whatever is received, rotated or asked for meanwhile, generated indices strictly increase before the 32-bit wrap |
| KeyIndex.WipedStoreStartsOver | src/keystore/keystore.c:156-200 | after a wipe a promotion makes key 0 again, and a generation key 0x10000, or 0x20000 when a promotion is not used up |
| KeyIndex.StepKeeps | src/keystore/keystore.c:722-743 | every operation keeps the list ascending with its current key, and only a wipe lowers its maximum |
| KeyIndex.SetKeyKeeps | src/keystore/keystore.c:228-320 | setting a key keeps the order; a key above all others is stored and becomes the maximum |
| KeyIndex.Trim | src/keystore/keystore.c:722-743 | dropping old keys keeps the current one, at most one before it, and the maximum |
| KeyIndex.Keystore.Organise | src/keystore/keystore.c:722-743 | the loop drops exactly the keys more than one before the current one |
| KeyIndex.Keystore.Append | src/keystore/keystore.c:745-755 | an appended index ends up at its place in the order |
| KeyIndex.Keystore.Reset | src/keystore/keystore.c:156-200 | a wiped store is empty |
| KeyIndex.Keystore.SetSessionKey | src/keystore/keystore.c:228-320 | keys before the current one change nothing and are reported, as is a known key with the same material; a known index with other material is overwritten unreported; others are inserted; the order is kept |
| KeyIndex.Keystore.HashToKey | src/keystore/keystore.c:613-659 | hashing forward adds every index up to the one asked for |
| KeyIndex.Keystore.RotateKey | src/keystore/keystore.c:421-469 | rotating moves to the next key, hashing one forward if there is none; it fails exactly without a current key, or without a next one when hashing is not allowed |
| KeyIndex.Keystore.GetMediaKey | src/keystore/keystore.c:538-611 | asking for a later key makes it current, hashing forward only within NUM_KEYS; the key is found exactly when it is listed afterwards |
| KeyIndex.Keystore.GetMaxKey | src/keystore/keystore.c:757-771 | the last listed index, or 0 |
| KeyIndex.KeyGenerator.FreshIndex | src/ccall/ccall.c:694-710 | the index is computed with 32-bit wrap-around at each addition |
| KeyIndex.KeyGenerator.GenerateSessionKey | src/ccall/ccall.c:694-735 | generating stores the fresh index and forgets the promotion; below the threshold the new index is above every stored one |
| KeyIndex.KeyGenerator.KgChange | src/ccall/ccall.c:2561-2591 | a new generator makes the first key if there is none, and otherwise remembers its promotion |
| MediaFlow.OwnershipHolds | src/ecall/ecall.c:2104-2196 | after any run the flows made and not closed are exactly the flow in use and the one it replaced, and no flow was closed twice |
| MediaFlow.EveryFlowClosedOnce | src/ecall/ecall.c:599-629 | once the call is destroyed every flow it ever made was closed exactly once |
| MediaFlow.AllocKeepsInv | src/ecall/ecall.c:2104-2196 | replacing the flow keeps that ownership whether a flow is made, refused, or left behind by an error |
| MediaFlowObject.Ecall.OwnsTheUnclosed | src/ecall/ecall.c:2104-2196 | between handlers the flow in use and the one it replaced are unclosed, and every other flow object ever made was closed once |
| MediaFlowObject.Ecall.AllocFlow | src/ecall/ecall.c:2104-2196 | the replaced flow is kept, the one before it is closed, and an error leaves no flow in use |
| MediaFlowObject.Ecall.CloseCall | src/ecall/ecall.c:127-135 | closing gives both flows their close after letting go of them |
| MediaFlowObject.Ecall.Start | src/ecall/ecall.c:2251-2299 | a call that is not in progress gets its flow |
| MediaFlowObject.Ecall.ConnHandler | src/ecall/ecall.c:169-280 | an incoming call gets a flow if it has none or is reset, and any error closes it |
| MediaFlowObject.Ecall.UpdateReqHandler | src/ecall/ecall.c:324-392 | an update replaces the flow unless it only changes streams of an existing one |
| MediaFlowObject.Ecall.AnswerHandler | src/ecall/ecall.c:395-474 | only an answer that resets the call replaces its flow |
| MediaFlowObject.Ecall.RestartHandler | src/ecall/ecall.c:3163-3246 | a restart replaces the flow only of an answered call that is not a conference |
| MediaFlowObject.Ecall.CloseHandler | src/ecall/ecall.c:104-167 | a close from anywhere keeps the ownership |
| MediaFlowObject.Ecall.ChannelEstabHandler | src/ecall/ecall.c:1649-1752 | an established channel closes the replaced flow, ignores other flows, and runs a delayed restart |
| MediaFlowObject.Ecall.FlowCloseHandler | src/ecall/ecall.c:1440-1477 | a closed old flow is let go of, a flow of neither kind is ignored |
| MediaFlowObject.Ecall.ChannelCloseHandler | src/ecall/ecall.c:1975-1993 | a lost channel restarts or closes only for the flow in use |
| MediaFlowObject.Ecall.Destroy | src/ecall/ecall.c:599-660 | whatever the handlers did before, after the destructor the close counter of every flow object ever made is 1 |
| Dce.FreeStreamIsGoodIff | src/dce/dce.c:439-469 | the stream search returns none, or a free stream of this side's parity, if and only if some streams are reported or 1 happens to be such a stream |
| Dce.FreeStreamFindsOne | src/dce/dce.c:439-469 | it returns none exactly when every stream of this side below the limit is taken |
| Dce.EntersOutsideIff | src/dce/dce.c:414-437 | a remote open is entered outside the tables exactly for id 10, with ten or more streams reported and a free channel |
| DceTables.TablesStayLinkedIff | src/dce/dce.c:659-693 | along a run a stream's slot holds a channel if and only if that channel has that stream, slot 0 is empty and closed channels have no stream, in every state, if and only if no step gives a channel stream 1 while another has it and no streams are reported |
| DceTables.TablesStayLinked | src/dce/dce.c:659-693 | so they stay linked, and the reset list fits its buffer, in every run that does not, runs that report no streams harmlessly included |
| DceTables.StepKeepsLinkedIff | src/dce/dce.c:1226-1423 | any one step keeps the tables linked if and only if it is not such a step |
| DceTables.OpenKeepsLinkedIff | src/dce/dce.c:631-694 | an open keeps this if and only if it does not enter stream 1 over another channel's when no streams are reported |
| DceTables.NoStreamsReportedBreaksTable | src/dce/dce.c:631-694 | two opens that do, ending with two channels on stream 1 |
| DceTables.RemoteOpenKeepsInv | src/dce/dce.c:824-957 | a remote open keeps the tables linked, its send taken, deferred or refused |
| DceTables.ResetStreamsKeepsInv | src/dce/dce.c:1297-1361 | any list of reset streams, in either or both directions, keeps the tables linked and the reset list sound |
| DceTables.ChangeOneKeepsLinkedIff | src/dce/dce.c:1381-1423 | a deferred channel that gets a stream keeps the tables linked if and only if it does not get stream 1 of another channel, no streams being reported |
| DceTables.ChangeKeepsLinkedIff | src/dce/dce.c:1381-1423 | a whole stream change keeps them linked if and only if none of its channels does; a later one does not mend it |
| DceTables.NoStreamsReportedBreaksChange | src/dce/dce.c:1381-1423 | an open, a deferred open and a stream change without streams, ending with two channels on stream 1 |
| DceTables.CloseKeepsInv | src/dce/dce.c:789-802 | closing a channel keeps the tables linked and the reset list sound |
| DceTables.PendingHasRoom | src/dce/dce.c:742-754 | by pigeonhole the unguarded append to the reset list is in bounds |
| DceSides.PickIsOfSideIff | src/dce/dce.c:439-469 | the stream a side finds is of its parity if and only if streams are reported or the side is odd |
| DceSides.SidesCollideOnlyOnOne | src/dce/dce.c:457-468 | in any pair of runs of two peers with opposite roles, picks deferred to a stream change included, they pick a stream in common if and only if both pick stream 1 |
| DceSides.PicksOneIff | src/dce/dce.c:439-469 | a step picks stream 1 if and only if it looks for a stream, for a new channel or for a deferred one it comes to, while none are reported, or, on the odd side, while two or more are and 1 is free |
| DceSides.AllPicksOneIff | src/dce/dce.c:439-469 | a run picks stream 1 if and only if one of its steps does so |
| DceSides.SidesCollideIff | src/dce/dce.c:457-468 | so two peers pick a stream in common if and only if both look for one under those conditions, each read off the tables and reports before the search |
| DceSides.SidesNeverCollide | src/dce/dce.c:457-468 | they never do when the even side is never told that there are no streams |
| DceSides.ToldOfNoneTheSidesCollide | src/dce/dce.c:439-469 | told so, the even side picks stream 1, and so does the odd side |
| DceSides.OtherSidesStreamsAreFree | src/dce/dce.c:824-890 | after any run a stream of the other side's parity that the other side has not asked for is free in both tables |
| DceObject.PeerConnection.constructor | src/dce/dce.c:317-348 | all channels closed, all slots empty |
| DceObject.PeerConnection.FindFreeChannel | src/dce/dce.c:396-411 | the loop finds the first closed channel, or none |
| DceObject.PeerConnection.FindFreeOStream | src/dce/dce.c:439-469 | the loop finds the first free stream of this side's parity below the limit |
| DceObject.PeerConnection.OpenChannel | src/dce/dce.c:631-694 | bad requests and full tables change nothing; a refused send takes the channel back, a deferred one keeps it; linked tables stay linked when streams are reported or stream 1 is free |
| DceObject.PeerConnection.HandleOpenRequest | src/dce/dce.c:824-957 | a request on a known, invalid or taken stream changes nothing; otherwise both tables hold the channel unless the answer is refused; linked tables stay linked |
| DceObject.PeerConnection.HandleAck | src/dce/dce.c:979-1040 | an acknowledgement, or data, opens only a connecting channel |
| DceObject.PeerConnection.ResetOutgoingStream | src/dce/dce.c:742-754 | a stream is listed once; the write is within the buffer |
| DceObject.PeerConnection.SendOutgoingStreamReset | src/dce/dce.c:756-787 | an accepted request empties the list, a refused one leaves it |
| DceObject.PeerConnection.CloseChannel | src/dce/dce.c:789-802 | only an open channel is closed, and its stream queued for reset |
| DceObject.PeerConnection.IncomingReset | src/dce/dce.c:1323-1345 | a reset incoming stream frees its slot and closes, or starts closing, the channel |
| DceObject.PeerConnection.OutgoingReset | src/dce/dce.c:1346-1361 | a reset outgoing stream frees its slot and closes the channel if nothing is left of it |
| DceObject.PeerConnection.HandleStreamReset | src/dce/dce.c:1297-1361 | the loop over the listed streams, which keeps linked tables linked |
| DceObject.PeerConnection.HandleStreamChange | src/dce/dce.c:1381-1423 | the loop over the channels, stopping when no stream is left; linked tables stay linked unless it gives a channel stream 1 of another |
| DceCodec.RoundTrip | src/dce/dce.c:507-557 | every request that can be sent is read back with the same ordering, policy, parameter, label and protocol |
| DceCodec.ReencodesIff | src/dce/dce.c:874-934 | a message is what the sender writes for what the receiver reads if and only if it has a known type, no priority, a zero parameter when reliable, and exactly two texts of at most 128 bytes |
| DceCodec.HandshakeSucceedsIff | src/dce/dce.c:824-957 | a side with a free channel takes up a stream the other picked, with what was asked for, if and only if that stream is free in both its tables and within its bounds, asked for before or not |
| DceCodec.HandshakeOpensBothEnds | src/dce/dce.c:631-1016 | two sides with opposite roles, each after any run: a stream one picks, asked for the first time or free again on the other, is admitted there, and after the acknowledgement both hold an open channel on it with what was asked for |
| DceCodec.ReusedStreamMayBeRefused | src/dce/dce.c:824-890 | two runs after which the first side picks a stream again that the second, still waiting for its own reset, refuses |
| TimeScale.RemovedQueue | src/audio_effect/time_scale.cpp:22-67 | on the unread samples a removal keeps a prefix, fades 2F samples into those one lag later, keeps the end, and is exactly one lag shorter |
| TimeScale.InsertedQueue | src/audio_effect/time_scale.cpp:69-117 | on the unread samples an insertion keeps a prefix, fades 2F samples into the past, repeats it, keeps the end, and is exactly one lag longer |
| TimeScale.MixBetween | src/audio_effect/time_scale.cpp:45-60 | a cross-faded sample lies between the two it mixes, so it fits 16 bits |
| TimeScale.Prepared | src/audio_effect/time_scale.cpp:186-210 | both loops end, and leave between 3 ms more than is asked for and 55 ms |
| TimeScale.RunsStayBounded | src/audio_effect/time_scale.cpp:186-216 | over any run of rounds the ring holds between 3 and 55 ms after each, is never lapped and never runs dry |
| TimeScale.PushedQueueIff | src/audio_effect/time_scale.cpp:128-143 | inserted samples join the end of the queue if and only if they and the unread ones fit the ring |
| TimeScale.FadedAt | src/audio_effect/time_scale.cpp:45-60 | every sample of a fade is the mix of the two stretches at its place |
| TimeScaleBuffer.Buffer.constructor | src/audio_effect/time_scale.cpp:119-126 | an empty ring at the two rates in kHz |
| TimeScaleBuffer.Buffer.Blend | src/audio_effect/time_scale.cpp:45-60 | the cross-fade loop yields the fade |
| TimeScaleBuffer.Buffer.RemoveOne | src/audio_effect/time_scale.cpp:22-67 | the masked-index code shortens the ring as specified, or leaves it when the lag exceeds what waits |
| TimeScaleBuffer.Buffer.InsertOne | src/audio_effect/time_scale.cpp:69-117 | the masked-index code stretches the ring as specified |
| TimeScaleBuffer.Buffer.Insert | src/audio_effect/time_scale.cpp:128-143 | the write loop takes an input of any length, lapping the ring if it must, and records the pitch limits |
| TimeScaleBuffer.Buffer.ShrinkLoop | src/audio_effect/time_scale.cpp:188-194 | the first loop ends with at most 45 ms waiting |
| TimeScaleBuffer.Buffer.FillLoop | src/audio_effect/time_scale.cpp:205-210 | the second loop ends with at least the target waiting |
| TimeScaleBuffer.Buffer.Extract | src/audio_effect/time_scale.cpp:145-217 | the edited queue's oldest samples are handed out in order, nothing beyond them is written, and 3 to 55 ms stay |
| Reverb.FilterIsTheLaw | src/audio_effect/reverb.cpp:86-97 | the filter's output is the one signal with y[n] = -c x[n] + x[n-d] + c y[n-d] |
| Reverb.AllPassKeepsEnergy | src/audio_effect/reverb.cpp:86-97 | energy in less energy out is 1 - c*c times the energy held in the last d entries |
| Reverb.AllPassIsStable | src/audio_effect/reverb.cpp:106-130 | with a coefficient of at most 1, as every preset has, no input gains energy |
| ReverbRing.Lag | src/audio_effect/reverb.cpp:56-62 | the effective delay of a stage, which is the one set up if and only if that is 1 to 8192 |
| ReverbRing.AllPass.constructor | src/audio_effect/reverb.cpp:56-62 | a silent ring |
| ReverbRing.AllPass.Process | src/audio_effect/reverb.cpp:86-97 | on the masked ring, for every delay, each call extends the ideal filter's output by its sample |
| ReverbRing.Chain.ProcessOne | src/audio_effect/reverb.cpp:201-203 | a sample through three stages is the next sample of three ideal filters in a row |
| ReverbRing.Chain.constructor | src/audio_effect/reverb.cpp:99-160 | three silent stages with the coefficients and delays given |
| ReverbRing.Chain.ProcessBlock | src/audio_effect/reverb.cpp:183-211 | a block of any length yields the mix of its input with the next samples of the chain, whatever blocks came before |
| ReverbRing.Chain.ProcessBlocks | src/audio_effect/reverb.cpp:183-211 | on the rings, however an input is cut into calls, what comes out is fixed by what was seen before and the joined input |

## Left out

- EconnObject.Connection.OnSetup: allocation failures are not modelled.
- EconnLifetime.TimerClosesWaitingCall: the timer fires as an event; durations are not modelled.
- Glare.SetupGlareIsResolved: delivery is in order and lossless, each peer starts at most once, and no end or timeout happens; transport callbacks do not re-enter.
- CallAgreement.AllAgreeOnTheEarliest: each client makes a call at most once and does not go idle; that an SFT dates the call of a client that did not make it is left to `Ccall`.
- CallAgreement.Slashed: the original reads before the start of an empty URL; the model gives it a slash.
- CcallLifetime.SilentCallEnds: a silent run has no ping, no close of the call to the SFT (which starts fresh counters or ends the call), no earlier call, no configuration waited for, and no media established once more while active.
- CcallLifetime.OneForwardPerEntry: messages other than SETUP and UPDATE are handed on in any state and not counted.
- CcallObject.Conference.ReqCfgJoin: errors of registering with the configuration service and of requesting the configuration are not modelled.
- CcallObject.Conference.HandleConfstartCheck: the list of SFTs a message carries, ringing and its timers are not modelled.
- CcallObject.Conference.EcallCloseHandler: metrics are not modelled, and ending a call does not re-enter its close handler.
- KeyIndex.GeneratedIncrease: holds between wipes of the store; after one the indices start over, as WipedStoreStartsOver states.
- KeyIndex.Keystore.RotateKey: hashing forward past index 0xFFFFFFFF is excluded, and nothing else, where the original follows a null link.
- KeyIndex.Keystore.SetSessionKey: key material (but for its equality), time stamps and listeners are not modelled.
- MediaFlow.OwnershipHolds: a flow's close does not call back into the call while it runs.
- Dce.Acknowledge: callbacks to channel handles, and the resending of deferred messages, are not modelled; the incoming table carries no invariant, as the original does not keep one on every path.
- DceObject.PeerConnection.HandleOpenRequest: excludes exactly the entry that EntersOutsideIff describes, which the original writes behind its arrays; RemoteOpenKeepsInv and TablesStayLinked exclude the same.
- DceTables.RemoteOpenKeepsInv: excludes exactly that entry.
- DceCodec.ReencodesIff: a message is long enough for the texts it declares, which the original does not check; what it then reads lies behind the message.
- TimeScale.RemovedQueue: the cross-fade weights are exact fractions; the original accumulates them in single precision before truncating to 16 bits.
- TimeScale.InsertedQueue: the same holds of its weights.
- TimeScale.MixBetween: is stated of the exact weights.
- TimeScaleBuffer.Buffer.RemoveOne: excludes an overlap shorter than a millisecond, for which the original copies from negative positions of its local buffers; time_scale_extract never asks for one.
- TimeScaleBuffer.Buffer.InsertOne: excludes fewer than two milliseconds waiting, a lag under one, and what does not fit the ring, where the original leaves its local buffers or overruns unread samples; time_scale_extract never asks for these.
- TimeScaleBuffer.Buffer.Extract: the pitch search by floating-point correlation is an input, a lag within the searched range or 10 ms and a verdict whether to stretch; the number of stretches is the real quotient rounded.
- ReverbRing.Chain.ProcessBlock: samples are reals; scaling, the exponential compressor and the cast to 16 bits are not modelled.
- The SDP and JSON codecs, the user list, video state, ICE, TURN and the media stack.
- The other audio effects, WAV handling, audio levels, configuration and dictionary code, and the platform bindings.
