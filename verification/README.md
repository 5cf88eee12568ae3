# AirLink, modelled and proved

AirLink lets two phones talk offline.  This project models the logic that decides whether
that is safe and orderly, and proves what it promises:

- **Secure channel.**  The SIGMA-I handshake as a phase machine inside a network owned by an
  attacker (`SymbolicCrypto`, `HandshakeSpec`, `HandshakeWorld`, `HandshakeSecurity`,
  `HandshakeMachine`), when each of its calls succeeds and what an error leaves behind
  (`HandshakeOutcomes`), the counter-nonce session over any packet stream (`SessionSpec`,
  `SecureSession`) and the anti-replay ring of 32-bit words (`Bits`, `ReplayWindow`).
- **Replicated games.**  Sessions over a network that loses, repeats and reorders
  (`GameRules`, `GameReplication`), the runs in which they part (`GameDivergence`), the repair
  of a diverged guest (`GameRepair`), what each move, board and departure is answered
  (`GameVerdicts`), fixed-step time and replay (`GameTicks`, `FixedStep`),
  the session object (`GameMachine`) and the generator (`SeededRandom`).
- **Bluetooth.**  Length-prefixed framing (`BleFraming`), the L2CAP session with short writes
  (`BleL2CAP`, `BleChannelService`), one link's slow queue and fast path (`BleLinkQueue`,
  `BleLinkOrder`, `BleLink`) with what it serves and what success means (`BleLinkService`,
  `BleLinkDelivery`), the table of links (`BleLinkTable`, `BleLinkCallbacks`, `BleLinkLife`,
  `BleTransport`) with who is told (`BleLinkAnswers`), the table together with all the queues (`BleSystem`) and the identity
  record (`BleIdentityRecord`).
- **TCP.**  The lives of links under racing callbacks (`TcpLinks`, `TcpCallbacks`, `TcpLife`,
  `LocalNetworkTransport`) and what they deliver and answer (`TcpDelivery`).
- **Files.**  The resume bitmap (`BitmapSpec`, `ChunkBitmap`), the chained file hash
  (`FileHash`), chunk arithmetic (`ChunkSizing`), the chunk message (`FileChunkCodec`), both
  together (`ChunkBudget`) and the digest (`ChunkDigest`).
- **Database driver.**  Nested transactions (`Transactions`, `SqliteDatabase`) and the
  statement splitter (`SqlStatements`).

Most parts come in three layers: functions that say what each operation does to a state, a
class whose methods change fields in place and are proved equal to those functions, and
lemmas about every run of events over that state.  `dafny verify dfyconfig.toml` checks
everything.

## Reading the model

- Callbacks, timers, sockets and the radio are events; a run is any list of events.  What the
  system decides (how many bytes a write takes, in which order a dictionary is walked, when a
  timer fires) is a parameter of the event.
- Cryptography in the handshake and the session is a free term algebra: terms are equal only
  when built the same way.  The file hash is an arbitrary function with 32-byte results, and
  nothing is assumed about collisions.  `HandshakeSecurity.KeysStaySecret` says that nobody
  else gets the traffic keys, so a packet under one was sealed by its holder: by the session,
  or by the handshake before it, whose one ciphertext under that key `SessionSpec` lets the
  network present as well.
- A game is a record of functions.  Theorems about games say which of them they need:
  `TurnBased` (validation admits only the player to move and draws nothing), `CodecStable`
  (a decoded action survives another trip), `StateCodec`, `RandomFree` and
  `RefusalsDrawNothing`.
- A host's envelope may be published at any moment, which covers every request for one, and
  may be adopted at any later moment, again and out of order.  An adoption is careful when the
  envelope's number for the guest is not below the guest's own.
- A promise counts as settled once its completion is on the callback queue; when the link
  hears of it is an event of its own.
- Time is exact; the source computes it in floating point.
- A link of either radio is named by the number of its object.  The source makes TCP names
  from a random prefix, which is taken never to repeat.
- Setting a bit of a word is spelled out bit by bit in `Bits`, once for words and bytes.
- What the peer sees of a link assumes that the two radio paths deliver in order and that the
  bytes of a dead channel surface before later GATT writes.

## Where code and comments differ

The model follows the code.

- `packages/core/src/crypto/handshake.ts:484-486` says application traffic starts at counter
  1; `packages/core/src/crypto/session.ts:53` starts at 0.  Distinctness of nonces is stated
  among the seals of one session only.
- `packages/games/src/runtime.ts:355-361` promises that an envelope older than the board
  already held is refused; the code compares with the last adopted version only.  An envelope
  that does not count a move of the guest's own, because it was taken before the move reached
  the host or arrives late, is adopted over it, and the two boards can part for good:
  `GameDivergence.AdoptionIsSafeIffNoMoveIsOutstanding` gives the exact condition and
  `GameDivergence.AdoptingOverAnOwnMoveDiverges` the shortest run.
- `packages/games/src/runtime.ts:362-395` presents the envelope as the whole repair; it does
  not carry who left, nor the generator's position, nor what the guest still has on its way.
  From any guest state the two ends follow each other exactly when somebody has left at both
  or at neither and the host takes none of the guest's moves from before the repair, which it
  never does when they are numbered below the envelope's count for the guest
  (`GameRepair.RepairHoldsIffNoLateMoveIsTaken`, `GameRepair.RepairHolds`); a game whose board
  tells what was drawn follows only from a level start
  (`GameRepair.TellingReducersFollowIffLevel`).
- `native/airlink-transport/ios/Transport/BleTransport.swift:669-675` says the session reports
  through `onDatagramSettled`; one that has died, and whose end is still on its way, refuses a
  send without it, so `fastPathInFlight` stays too high until the end arrives
  (`BleLinkOrder.QueueCountersExact`).
- The Bluetooth transport can deliver a notification's data on a link that has not been
  announced as opened yet (`native/airlink-transport/ios/Transport/BleTransport.swift:1652-1668`
  checks only that the link is live); the grammar of `BleLinkTable.Step` admits it.

## Model

| member | source | states |
|---|---|---|
| HandshakeSecurity.Agreement | packages/core/src/crypto/handshake.ts:391-430 | over every run with an attacker who owns the network, a side that completed naming an identity not yet compromised has, then and ever after, an honest partner of that identity in the opposite role with the same transcript; for a responder that partner has completed and names it, with mirrored keys |
| HandshakeSecurity.KeysStaySecret | packages/core/src/crypto/handshake.ts:461-481 | the attacker never derives either traffic key of such a side, even if every long-term key leaks in the rest of the run |
| HandshakeSecurity.SameSasSameSession | packages/core/src/crypto/handshake.ts:152-188 | two honest completed sides have equal SAS seeds exactly when they are the two ends of one exchange, name each other and hold mirrored keys |
| HandshakeSecurity.NoReplay | packages/core/src/crypto/handshake.ts:295-333 | no two completed sides of one role share a transcript, a session id or a key: nothing recorded completes a second session |
| HandshakeSecurity.MutualIdentity | packages/core/src/crypto/handshake.ts:560-580 | two honest completed ends of one transcript name each other and hold mirrored keys whatever long-term keys are compromised |
| HandshakeSecurity.CompletedNamesOtherEnd | packages/core/src/crypto/handshake.ts:506-558 | what one honest end accepted can only have been produced by the other honest end of the same transcript |
| HandshakeSecurity.TranscriptIsUnique | packages/core/src/crypto/handshake.ts:171-188 | only the two ends of one exchange can hold one transcript |
| HandshakeSecurity.MatchingKeys | packages/core/src/crypto/handshake.ts:472-481 | opposite ends that completed on one transcript send under what the other receives under, with one session id and SAS seed |
| HandshakeSecurity.FaithfulExchange | packages/core/src/crypto/handshake.ts:280-430 | over a faithful network both ends complete if and only if they speak one algorithm, are different identities and neither stores another key for the other; they then name each other, recognise each other exactly when stored, and mirror |
| HandshakeSecurity.KeyExchange | packages/core/src/crypto/handshake.ts:280-382 | after INIT and RESPONSE both ends have derived from one transcript; the responder answers exactly when the algorithms agree |
| HandshakeSecurity.AuthPasses | packages/core/src/crypto/handshake.ts:494-558 | the auth message of the other end passes exactly when its identity is not our own and is not stored under another key |
| HandshakeOutcomes.ErrorsEndTheHandshake | packages/core/src/crypto/handshake.ts:265-269 | for every valid side, packet and call: a call that returns an error leaves the side failed with that error, its secret wiped and its earlier result as it was |
| HandshakeOutcomes.RefusedAuthEnds | packages/core/src/crypto/handshake.ts:494-558 | an auth message that is refused, for whatever reason, fails the side for good |
| HandshakeOutcomes.RefusedSideNeverCompletes | packages/core/src/crypto/handshake.ts:265-269 | over every run: a side without a result that returned an error has no result afterwards, whatever events follow |
| HandshakeOutcomes.SucceedsExactlyWhenProper | packages/core/src/crypto/handshake.ts:280-430 | each of the six calls succeeds if and only if it is made in its phase with a packet that is proper for this side, told from the parties and the packet alone |
| HandshakeOutcomes.AuthAcceptedExactly | packages/core/src/crypto/handshake.ts:506-558 | an auth payload is accepted exactly when it opens, names another identity, is signed by the key it names over this transcript and that key is not at odds with the stored one |
| HandshakeOutcomes.SuccessesAdvance | packages/core/src/crypto/handshake.ts:280-430 | each call succeeds in one role and one phase only and leads to one other; the last leaves a result and a wiped secret |
| HandshakeWorld.NextKeepsInv | packages/core/src/crypto/handshake.ts:280-430 | every call, delivery, compromise and attacker deduction keeps every known term accounted for and every honest side valid, and takes nothing back |
| HandshakeWorld.ConclusionsClean | packages/core/src/crypto/handshake.ts:494-504 | whatever the attacker derives is accounted for by a compromise, an exposed secret or an honest side that signed or sealed it |
| HandshakeSpec.AuthReadersKeepValid | packages/core/src/crypto/handshake.ts:387-430 | reading an auth message keeps the phase machine valid, never replaces what was agreed, and completes only on a ciphertext that was delivered |
| HandshakeSpec.ReadResponseKeepsValid | packages/core/src/crypto/handshake.ts:346-382 | reading a response keeps the phase machine valid on every branch and never replaces a stored transcript or key |
| HandshakeSpec.ReadInitKeepsValid | packages/core/src/crypto/handshake.ts:295-333 | the same for the responder reading an init |
| HandshakeMachine.Handshake.CreateInit | packages/core/src/crypto/handshake.ts:280-293 | the fields and the packet after `createInit`, on every branch |
| HandshakeMachine.Handshake.ReadInitAndCreateResponse | packages/core/src/crypto/handshake.ts:295-333 | the fields and the packet or failure after `readInitAndCreateResponse`, on every branch |
| HandshakeMachine.Handshake.CreateResponderAuth | packages/core/src/crypto/handshake.ts:335-344 | the fields and the packet after `createResponderAuth` |
| HandshakeMachine.Handshake.ReadResponse | packages/core/src/crypto/handshake.ts:346-382 | the fields and the failure after `readResponse`, including the echoed-key check |
| HandshakeMachine.Handshake.ReadResponderAuthAndCreateAuth | packages/core/src/crypto/handshake.ts:387-410 | the initiator completes and answers, or fails and wipes its secret |
| HandshakeMachine.Handshake.ReadInitiatorAuth | packages/core/src/crypto/handshake.ts:412-430 | the responder completes, or fails and wipes its secret |
| TranscriptBytes.PreimageInjective | packages/core/src/crypto/handshake.ts:171-188 | equal transcript pre-images with fixed-length fields force equal contributions from both sides, in both roles |
| SymbolicCrypto.AgreeSymmetric | packages/core/src/crypto/handshake.ts:461-470 | both ends of a key agreement reach one shared secret |
| SessionSpec.OpenedWasSealedOnce | packages/core/src/crypto/session.ts:107-146 | over any packet stream, the handshake ciphertext under the same key included, every plaintext the receiver was given is what the sender's session sealed with that counter and associated data, or the handshake's opened as number 0 under the transcript hash; no counter is opened twice |
| SessionSpec.AuthOpensOnlyUnderTranscript | packages/core/src/crypto/handshake.ts:494-504 | shown to a live session, the ciphertext of the handshake opens exactly as number 0, under the transcript hash, and only while that number is acceptable |
| SessionSpec.GenuineOpensIffNew | packages/core/src/crypto/session.ts:126-146 | a genuine packet opens exactly when it was not opened before and nothing opened is a whole window ahead of it |
| SessionSpec.SealNoncesDistinct | packages/core/src/crypto/session.ts:93-116 | no two seals of one session share a nonce |
| SessionSpec.SealsUntilExhausted | packages/core/src/crypto/session.ts:107-116 | a session that is not destroyed seals exactly while fewer than 9007199254740990 packets have gone out, each under the next number; a destroyed one seals nothing |
| SessionSpec.StatisticsAreExact | packages/core/src/crypto/session.ts:107-146 | after any run the packet and byte counters are those of what was sealed and of what was opened |
| SessionSpec.NothingAfterDestroy | packages/core/src/crypto/session.ts:149-157 | whatever follows its destruction, a receiver opens nothing more and a sender seals nothing more |
| SessionSpec.OpensOnlyItself | packages/core/src/crypto/session.ts:126-146 | a packet that opens under a counter is the one sealed with it |
| SessionSpec.NextKeepsInv | packages/core/src/crypto/session.ts:107-157 | every seal, arrival and destruction keeps the two ends consistent with what was sealed |
| SecureSession.WriteCounter | packages/core/src/crypto/session.ts:93-105 | the nonce becomes its old four-byte prefix followed by the big-endian 64-bit counter |
| SecureSession.SecureSession.Seal | packages/core/src/crypto/session.ts:107-116 | counter, statistics and packet of a seal, or the error of a destroyed or exhausted session |
| SecureSession.SecureSession.Open | packages/core/src/crypto/session.ts:126-146 | result, window and statistics of an open; a refused packet leaves the window bits as they were |
| SecureSession.SecureSession.Destroy | packages/core/src/crypto/session.ts:149-157 | both keys and both nonces are zero, the window is empty and the session refuses from then on |
| SecureSession.Create | packages/core/src/crypto/session.ts:63-82 | wrong lengths are refused with their own error; otherwise the fresh session over the given key buffers |
| Bytes.BE64Injective | packages/core/src/crypto/session.ts:93-105 | two counters below 2^64 with one encoding are equal |
| ReplayWindow.AcceptAll | packages/core/src/crypto/replay.ts:27-61 | over any sequence of calls, a verdict is true exactly when the number is a safe integer, was not accepted before, and is newer than every accepted number minus the window size |
| ReplayWindow.ReplayWindow.Accept | packages/core/src/crypto/replay.ts:39-61 | the verdict against the set of accepted numbers, the set afterwards, and nothing changed on a refusal; within the live window bit `s mod W` stays set exactly for accepted `s` |
| ReplayWindow.ReplayWindow.IsReplay | packages/core/src/crypto/replay.ts:27-33 | true exactly when the number may not be accepted |
| ReplayWindow.ReplayWindow.Slide | packages/core/src/crypto/replay.ts:49-58 | sliding partway or past the whole window forgets exactly the numbers that leave it |
| ReplayWindow.RecordKeeps | packages/core/src/crypto/replay.ts:67-75 | setting the slot of a number keeps the ring equal to the accepted set |
| ReplayWindow.SlideKeeps | packages/core/src/crypto/replay.ts:55-56 | clearing one slot on the way keeps every number still in the new window |
| ReplayWindow.ReplayWindow.Reset | packages/core/src/crypto/replay.ts:82-86 | the window stands for the empty set again |
| GameReplication.ReplicasNeverDiverge | packages/games/src/runtime.ts:186-395 | for a turn-based game under loss, repetition and reordering of actions and of the host's envelopes, where no adoption loses a move of the guest's own, any two histories are prefixes of one another and equal lengths mean equal board, version and counters, and equal log and generator position where nobody adopted |
| GameReplication.AcceptedExactlyOnce | packages/games/src/runtime.ts:245-268 | at every session the accepted actions of each player are numbered 0, 1, 2, ... without a gap |
| GameReplication.DeliveryAcceptedIffNext | packages/games/src/runtime.ts:219-270 | a delivery is accepted if and only if nobody has left at that session and it carries the next action of the common order |
| GameReplication.SubmissionExtends | packages/games/src/runtime.ts:186-211 | a player whose own action is accepted has already applied everything anybody has accepted |
| GameReplication.DeliveryFollows | packages/games/src/runtime.ts:219-237 | an accepted delivery is the next entry of the common order |
| GameReplication.AcceptsExactly | packages/games/src/runtime.ts:239-270 | acceptance is: nobody left, the game not over, the action legal here, and its number the next of its player; a refusal changes nothing |
| GameReplication.NextKeepsInv | packages/games/src/runtime.ts:186-395 | every submission, delivery, abandonment, publication and careful adoption keeps each session equal to its history and each history a prefix of one order |
| GameReplication.OwnMovesKept | packages/games/src/runtime.ts:387-393 | an envelope counts at least the guest's own number exactly when it was taken after the last of the guest's moves |
| GameReplication.AdoptedIsFaithful | packages/games/src/runtime.ts:362-395 | a session that adopts a late, repeated or reordered envelope becomes what the history of that envelope says |
| GameVerdicts.SubmissionIsRuledOn | packages/games/src/runtime.ts:186-211 | at any moment of any run a player's own move is taken exactly when the rules allow it after that history, and then extends the common order and is the one message sent; refused, it gets the first reason there is and changes nothing |
| GameVerdicts.DeliveryIsRuledOn | packages/games/src/runtime.ts:219-262 | the same for a delivery: the next action of the order is taken, every other is refused as over, repeated, too early or invalid |
| GameVerdicts.RulesByHistory | packages/games/src/runtime.ts:239-283 | the verdict, its reason and the index in the log are what the history says |
| GameVerdicts.NewestEnvelopeWins | packages/games/src/runtime.ts:362-395 | however late and in whatever order envelopes arrive, a guest ends where the newest usable one alone would have put it; a host never moves |
| GameVerdicts.LeftForGood | packages/games/src/runtime.ts:416-421 | once a player has left, no run of moves from either side and no second departure changes anything |
| GameDivergence.AdoptionIsSafeIffNoMoveIsOutstanding | packages/games/src/runtime.ts:362-395 | whatever happens afterwards all sessions stay on one line of play, if and only if the adopted envelope's number for the guest is not below the guest's own (given that the guest could have moved otherwise there) |
| GameDivergence.OutstandingMoveDiverges | packages/games/src/runtime.ts:377-393 | an adoption that loses an own move is followed by a run in which two sessions part for good |
| GameDivergence.SlateAdoptionIsNotSafe | packages/games/src/runtime.ts:362-395 | a reachable world in which an adoption goes through and is followed by a careful run that ends in disagreement |
| GameDivergence.AdoptingOverAnOwnMoveDiverges | packages/games/src/runtime.ts:362-395 | the shortest such run: the host takes the lost move, refuses the one made in its place as a repeat, versions and counters agree and the boards do not |
| GameDivergence.RacingMovesAgreeIffTheyCommute | packages/games/src/runtime.ts:245-270 | two players who move at once and take each other's move agree on every counter, and on the board if and only if the reducer commutes on the two moves |
| GameDivergence.WithoutTurnsReplicasDiverge | packages/games/src/runtime.ts:245-270 | an instance: with moves made at once by two players both sessions accept both moves, agree on every counter and show different boards |
| GameRepair.EnvelopeRepairs | packages/games/src/runtime.ts:342-395 | an envelope is adopted exactly when it is not older than the last one adopted; board, counters, version, clock and next local number then equal the host's |
| GameRepair.RepairHoldsIffNoLateMoveIsTaken | packages/games/src/runtime.ts:342-395 | from any guest state that adopts the envelope, over any run, with a generator that does not matter or is level: no action is taken by one end alone if and only if the host takes none of the guest's moves from before the repair and somebody has left at both ends or at neither (or nothing is taken); as long as it takes none the ends are equal |
| GameRepair.RepairHolds | packages/games/src/runtime.ts:362-395 | from any guest state, however far ahead of the host: when only moves numbered below the envelope's count for the guest still land (or none), every action one end takes the other takes and they stay equal, if and only if somebody has left at both or at neither (or nothing is taken) |
| GameRepair.OutstandingMoveLocksOut | packages/games/src/runtime.ts:377-393 | for every game, a move from before the adoption that the host still takes has a number the envelope did not count, and the guest's next move is then refused by the host while versions and counters agree |
| GameRepair.NothingIsUndone | packages/games/src/runtime.ts:362-421 | over any operations adopted host versions never decrease and an abandonment is final |
| GameRepair.BoardAloneLocksOut | packages/games/src/runtime.ts:321-329 | a guest repaired by its board alone while behind on a player refuses every later action of that player |
| GameRepair.TellingReducersFollowIffLevel | packages/games/src/runtime.ts:342-395 | for every game whose board after a legal move tells where the generator stood, the repaired pair stays equal over all runs in which no late move is taken, if and only if the two generators stood level, since the envelope carries no position |
| GameRepair.DrawingReducersFollowIffLevel | packages/games/src/runtime.ts:342-395 | for a reducer that adds what it draws, from any guest state and over every run after a repair in which no late move is taken, both ends take the same actions and show one board if and only if their generators stood level or nothing was taken |
| GameTicks.StepsAreTheFloor | packages/games/src/runtime.ts:285-310 | the steps run over any calls never exceed the floor of total time over step and equal it if and only if no call hits the 600-step cap |
| GameTicks.SplittingDoesNotMatter | packages/games/src/runtime.ts:285-310 | two ways of cutting the same time into calls, neither hitting the cap, run the same steps to the same state |
| GameTicks.TimeAccounts | packages/games/src/runtime.ts:285-310 | the remainder stays in [0, step) and steps plus remainder account for all time; a capped call loses at least one step for good |
| GameTicks.TickAgainstRate | packages/games/src/runtime.ts:285-310 | one call runs the floor of (remainder + delta) * tickRate / 1000 steps, 600 at most, each reducing with the clock after it and a step of 1000 / tickRate, and the remainder stays below one step |
| GameTicks.CallsAgainstRate | packages/games/src/runtime.ts:285-310 | over any uncapped calls the same with the total time, and n steps later the clock is n * 1000 / tickRate further on |
| GameTicks.ReplayIsLive | packages/games/src/runtime.ts:443-456 | with no ticks, no snapshot and nothing dropped from the log, replaying the log gives the live board and generator position despite any refused actions |
| GameMachine.GameSession.ApplyInternal | packages/games/src/runtime.ts:239-270 | the whole session and outcome after an action, on every branch |
| GameMachine.GameSession.SubmitLocal | packages/games/src/runtime.ts:186-211 | the same for a local move pushed through the codec first |
| GameMachine.GameSession.ApplyRemote | packages/games/src/runtime.ts:219-237 | the same for a peer's action under its authenticated name |
| GameMachine.GameSession.Tick | packages/games/src/runtime.ts:285-310 | clock, remainder, board and generator after a tick, with the cap |
| GameMachine.GameSession.SnapshotEnvelope | packages/games/src/runtime.ts:342-353 | one counter for every player of the game, with version, clock and board |
| GameMachine.GameSession.ApplySnapshotEnvelope | packages/games/src/runtime.ts:362-395 | what an adopted envelope replaces, and that a refused one changes nothing |
| GameMachine.GameSession.Abandon | packages/games/src/runtime.ts:416-421 | who left is recorded once, and only while the game is in progress |
| GameMachine.Replay | packages/games/src/runtime.ts:443-456 | the replay loop stops at the first action that does not validate |
| SeededRandom.PositionsDistinct | packages/games/src/engine.ts:165-178 | within 2^32 draws the generator never returns to a position |
| SeededRandom.BelowInRange | packages/games/src/engine.ts:180-183 | `nextInt` is below its bound |
| SeededRandom.ShufflePermutes | packages/games/src/engine.ts:185-194 | a shuffle is a permutation and draws once for every item but one |
| SeededRandom.SeededGameRandom.Shuffle | packages/games/src/engine.ts:185-194 | the in-place loop on a copy permutes the items and advances the generator by exactly its draws |
| SeededRandom.SeededGameRandom.NextInt | packages/games/src/engine.ts:180-183 | a bound of zero or less is an error that draws nothing; otherwise one draw, in range |
| BleFraming.ChunkingIndependent | native/airlink-transport/ios/Transport/BleFraming.swift:90-138 | any datagrams of legal size, framed, concatenated and cut anywhere, with appends and reads interleaved anyhow, come out exactly and in order |
| BleFraming.DriveMatchesUnframe | native/airlink-transport/ios/Transport/BleFraming.swift:98-127 | interleaved appends and reads give what un-framing the whole stream gives |
| BleFraming.UnframeEncode | native/airlink-transport/ios/Transport/BleFraming.swift:40-49 | un-framing framed datagrams gives them back and leaves the tail |
| BleFraming.UnframePrefix | native/airlink-transport/ios/Transport/BleFraming.swift:98-127 | any prefix of a framed stream yields a prefix of the datagrams and no violation |
| BleFraming.BleFrameAccumulator.Next | native/airlink-transport/ios/Transport/BleFraming.swift:98-127 | the next datagram, violation or need for more; when it asks for more fewer than a header plus the largest datagram are pending |
| BleFraming.BleFrameAccumulator.Compact | native/airlink-transport/ios/Transport/BleFraming.swift:129-137 | dropping consumed bytes never changes the pending ones, and fewer than 8 KiB of them are ever kept |
| BleFraming.BleFrameAccumulator.Append | native/airlink-transport/ios/Transport/BleFraming.swift:90-92 | the pending bytes grow by the chunk |
| BleFraming.BleFrameAccumulator.Drain | native/airlink-transport/ios/Transport/BleL2CAPSession.swift:151-184 | the owner's read loop yields what un-framing the pending bytes yields |
| BleL2CAP.PeerSurfacesOnlyCompleted | native/airlink-transport/ios/Transport/BleL2CAPSession.swift:188-273 | from any prefix of the stream of a live or dead channel the peer surfaces a prefix of the completed datagrams: never a torn one, never one handed back |
| BleL2CAP.SendKeepsInv | native/airlink-transport/ios/Transport/BleL2CAPSession.swift:105-124 | a send keeps the stream equal to the frames of completed datagrams plus a strict prefix of the head's, and the queue counter exact and bounded |
| BleL2CAP.PumpKeepsInv | native/airlink-transport/ios/Transport/BleL2CAPSession.swift:188-224 | short writes of any size keep the same |
| BleL2CAP.PumpKeepsPromises | native/airlink-transport/ios/Transport/BleL2CAPSession.swift:188-232 | pumping settles each completed datagram once and loses no other |
| BleL2CAP.ReceiveMatchesUnframe | native/airlink-transport/ios/Transport/BleL2CAPSession.swift:151-184 | however the channel cuts its input the owner is given the datagrams of the stream, and closes exactly on a violation |
| BleChannelService.SendTakesExactly | native/airlink-transport/ios/Transport/BleL2CAPSession.swift:105-124 | a datagram goes behind everything the session has exactly when the session is open, the datagram in size and the queue has room; else its promise fails and nothing else changes |
| BleChannelService.PumpProgresses | native/airlink-transport/ios/Transport/BleL2CAPSession.swift:188-232 | pumping settles with success exactly the datagrams it completes, in order, and stops only for want of data or of space |
| BleChannelService.ReadyChannelDrains | native/airlink-transport/ios/Transport/BleL2CAPSession.swift:188-224 | a channel that takes every byte offered is given the whole queue |
| BleChannelService.ChannelIsNeverIdle | native/airlink-transport/ios/Transport/BleL2CAPSession.swift:128-136 | after any run a live channel with datagrams left is one that said it had no space |
| BleL2CAP.BleL2CAPSession.Send | native/airlink-transport/ios/Transport/BleL2CAPSession.swift:105-124 | the session after a send: refused, queued, written or dead |
| BleL2CAP.BleL2CAPSession.PumpWrites | native/airlink-transport/ios/Transport/BleL2CAPSession.swift:188-224 | the write loop, with short writes and write errors |
| BleL2CAP.BleL2CAPSession.HasSpaceAvailable | native/airlink-transport/ios/Transport/BleL2CAPSession.swift:134-136 | room in the socket buffer lets the pump go on, and a closed session stays as it is |
| BleL2CAP.BleL2CAPSession.ShutDown | native/airlink-transport/ios/Transport/BleL2CAPSession.swift:236-273 | everything not completed is handed back once, in order, head first |
| BleL2CAP.BleL2CAPSession.ReadAvailable | native/airlink-transport/ios/Transport/BleL2CAPSession.swift:151-184 | the read loop delivers in order and shuts the session on end of stream, error or violation |
| BleLinkOrder.SettledExactlyOnce | native/airlink-transport/ios/Transport/BleTransport.swift:636-692 | after any run of a link each send's promise is settled exactly once or still held in exactly one place |
| BleLinkOrder.ClosingSettlesEverything | native/airlink-transport/ios/Transport/BleTransport.swift:881-907 | once a link is closed and its channel has reported, every promise has been settled exactly once |
| BleLinkOrder.NeverTransmittedTwice | native/airlink-transport/ios/Transport/BleTransport.swift:1043-1083 | no datagram goes to the air twice, by whichever path |
| BleLinkOrder.PeerSeesSubsequence | native/airlink-transport/ios/Transport/BleTransport.swift:1043-1083 | when the channel dies by itself, at any byte, with any part of its stream and any part of the GATT writes delivered, the peer sees a repetition-free subsequence of what was sent, in order |
| BleLinkOrder.QueueCountersExact | native/airlink-transport/ios/Transport/BleTransport.swift:664-692 | `outboundBytes` is the sum of the queued sizes and within its limit; `fastPathInFlight` is what the channel holds, plus the settlements not delivered yet, plus the sends a dead channel refused, and 0 once it has reported; the channel's own byte count is exact |
| BleLinkOrder.NextKeepsInv | native/airlink-transport/ios/Transport/BleTransport.swift:718-791 | every send, acknowledgement, credit, channel event, abandonment and close keeps promises, counters and order |
| BleLinkOrder.RequeueKeeps | native/airlink-transport/ios/Transport/BleTransport.swift:1060-1078 | handing back in reverse keeps the kept ones in their order in front of the queue |
| BleLinkDelivery.SuccessMeansTransmitted | native/airlink-transport/ios/Transport/BleTransport.swift:664-692 | after any run a promise settled with success is of a datagram given to the air exactly once, by GATT or by a channel |
| BleLinkDelivery.NextHonest | native/airlink-transport/ios/Transport/BleTransport.swift:636-791 | every event keeps each success, and the write under way, backed by a transmission |
| BleLinkService.TakenSendIsQueued | native/airlink-transport/ios/Transport/BleTransport.swift:664-692 | a send the link may take goes behind the queue and is in one place, transmitted or waiting; the pump moves on exactly the first of the queue that the stack has room for, and fails nobody |
| BleLinkService.RefusedSendFails | native/airlink-transport/ios/Transport/BleTransport.swift:636-690 | a send to a closed or unconnected link, empty, too large or beyond the queue fails, and nothing else of the link changes |
| BleLinkService.FirstInLineGoesOut | native/airlink-transport/ios/Transport/BleTransport.swift:718-791 | a datagram first in line is transmitted at once exactly when the stack is ready for it, and succeeds unless it is the acknowledged write now under way |
| BleLinkService.CentralWrites | native/airlink-transport/ios/Transport/BleTransport.swift:739-767 | a central writes from the head of the queue within its credit and with one acknowledged write at a time, and what it stopped at could not be written |
| BleLinkService.PeripheralNotifies | native/airlink-transport/ios/Transport/BleTransport.swift:769-791 | a peripheral notifies as much of the queue as there is credit for, each with success |
| BleLinkService.FlightEnds | native/airlink-transport/ios/Transport/BleTransport.swift:1700-1712 | a write under way ends by its own acknowledgement with the outcome reported, or by the close with failure, and by nothing else |
| BleLinkService.CloseFailsWhatWaits | native/airlink-transport/ios/Transport/BleTransport.swift:893-907 | closing fails exactly the write under way and the queue, in order |
| BleLinkService.AllReturnIffTheyFit | native/airlink-transport/ios/Transport/BleTransport.swift:1060-1083 | what a dead channel hands back returns to the front of the queue whole and in order exactly when all of it is small enough for ATT and has room |
| BleLinkService.ReportReturnsAll | native/airlink-transport/ios/Transport/BleTransport.swift:1043-1083 | then nobody fails and the queue moves on with those first |
| BleLinkService.WakingPumps | native/airlink-transport/ios/Transport/BleTransport.swift:718-737 | room in the stack and an acknowledgement each let the queue move on |
| BleLinkService.ChannelIsAdopted | native/airlink-transport/ios/Transport/BleTransport.swift:978-1013 | a channel that opens is taken on and carries the traffic as soon as nothing is left with ATT |
| BleLinkService.DrainedLinkIsHandedOver | native/airlink-transport/ios/Transport/BleTransport.swift:1015-1030 | after any run a link holding a channel, with nothing queued and nothing under way, sends by the channel |
| BleLink.BleLink.Send | native/airlink-transport/ios/Transport/BleTransport.swift:636-692 | the link after a send, on every branch |
| BleLink.BleLink.DatagramSettled | native/airlink-transport/ios/Transport/BleTransport.swift:991-1002 | one settlement of the channel reaches the link: one less in flight, never below zero |
| BleLink.BleLink.PumpCentralOutbound | native/airlink-transport/ios/Transport/BleTransport.swift:737-767 | the central's pump loop, one acknowledged write at a time |
| BleLink.BleLink.PumpPeripheralOutbound | native/airlink-transport/ios/Transport/BleTransport.swift:768-790 | the peripheral's pump loop |
| BleLink.BleLink.DidWriteValue | native/airlink-transport/ios/Transport/BleTransport.swift:1700-1716 | an acknowledgement settles the write in flight and pumps on |
| BleLink.BleLink.Adopt | native/airlink-transport/ios/Transport/BleTransport.swift:977-1013 | an opened channel is held back until the slow queue has drained |
| BleLink.BleLink.HandleFastPathClosed | native/airlink-transport/ios/Transport/BleTransport.swift:1043-1083 | a dead channel's items are re-queued in order or failed, or all failed if the link is gone |
| BleLink.BleLink.Close | native/airlink-transport/ios/Transport/BleTransport.swift:881-907 | the link's part of `closeLink`: queue and flight emptied and failed |
| BleLinkLife.EachLinkToldOnce | native/airlink-transport/ios/Transport/BleTransport.swift:825-952 | over every interleaving a link's signals follow one grammar, it is opened at most once, and it has exactly one terminal signal, last of all, if and only if it was made and is gone |
| BleLinkLife.RoutesAreExact | native/airlink-transport/ios/Transport/BleTransport.swift:954-962 | each device is routed to exactly its live link of that role, and there is at most one |
| BleLinkLife.ClosingTouchesNobodyElse | native/airlink-transport/ios/Transport/BleTransport.swift:909-938 | closing a link leaves every other link, its route and its connection alone |
| BleLinkLife.ConnectsAnsweredOnce | native/airlink-transport/ios/Transport/BleTransport.swift:535-625 | each connect is answered once or waits at one dialling link to the device it asked for; a success names a link to that device |
| BleLinkLife.StoppingSettlesEverything | native/airlink-transport/ios/Transport/BleTransport.swift:367-387 | stopping ends every link ever made and answers every connect |
| BleLinkLife.StopClearsNothing | native/airlink-transport/ios/Transport/BleTransport.swift:380-385 | clearing the maps after closing every link clears nothing |
| BleLinkLife.NextKeepsInv | native/airlink-transport/ios/Transport/BleTransport.swift:535-634 | every event keeps routing, records, trace and answers |
| BleLinkLife.GrammarCounts | native/airlink-transport/ios/Transport/BleTransport.swift:825-952 | a trace that follows the grammar opens a link at most once and ends it at most once |
| BleLinkAnswers.EveryEventAnswers | native/airlink-transport/ios/Transport/BleTransport.swift:825-855 | over every run: a waiting connect is given its link by exactly the event that opens it, is failed by exactly those that end it unopened, and waits on through every other |
| BleLinkAnswers.WaitingIsAnswered | native/airlink-transport/ios/Transport/BleTransport.swift:852-950 | the same for one event on any table of a run, both answers if and only if |
| BleLinkAnswers.ConnectIsAnswered | native/airlink-transport/ios/Transport/BleTransport.swift:535-625 | a connect is answered at once with the device's open link, or failed when the radio is not ready or the device unknown, and else waits at the link being dialled, old or new |
| BleLinkAnswers.EveryEventIsFair | native/airlink-transport/ios/Transport/BleTransport.swift:825-952 | at any moment of any run each event ends exactly the links it is about, reported as failed or closed, answers and hangs up for them, opens exactly the one it is about with its size, and leaves the others |
| BleLinkAnswers.ListenersKnowTheSize | native/airlink-transport/ios/Transport/BleTransport.swift:857-863 | after any run the size last announced for an open link is the size it has |
| BleLinkAnswers.ArrivalsAreDelivered | native/airlink-transport/ios/Transport/BleTransport.swift:1652-1668 | an arrival is reported once for the live link it is routed to, and otherwise not at all |
| BleLinkAnswers.SubscriptionIsServed | native/airlink-transport/ios/Transport/BleTransport.swift:1904-1952 | after a subscription its device has an open incoming link with that handle, the one it had or a new one announced with its size |
| BleSystem.EndedLinkHasSettledItsQueue | native/airlink-transport/ios/Transport/BleTransport.swift:881-952 | over every interleaving of callbacks and traffic of all links, a link was reported ended exactly when its own queue is closed, and then each of its promises is settled once or with a channel that still owes its report |
| BleSystem.ClosingTouchesNoOtherQueue | native/airlink-transport/ios/Transport/BleTransport.swift:881-938 | closing a link settles its own queue and leaves the queue of every other link as it was |
| BleSystem.StoppingSettlesEveryQueue | native/airlink-transport/ios/Transport/BleTransport.swift:367-387 | stopping settles the queue of every link ever made |
| BleSystem.NextKeepsInv | native/airlink-transport/ios/Transport/BleTransport.swift:881-952 | every callback and every event of a queue keeps each queue sound and closed exactly when its link has left the table |
| BleTransport.BleTransport.Connect | native/airlink-transport/ios/Transport/BleTransport.swift:535-625 | a connect to a live link returns it, to a dialling one joins it, otherwise dials or fails |
| BleTransport.BleTransport.OpenLink | native/airlink-transport/ios/Transport/BleTransport.swift:825-855 | the three signals of opening, once, and the answers to those waiting |
| BleTransport.BleTransport.CloseLink | native/airlink-transport/ios/Transport/BleTransport.swift:881-952 | the single exit, on both roles, unrouting only what the link owns |
| BleTransport.BleTransport.FailConnect | native/airlink-transport/ios/Transport/BleTransport.swift:872-877 | taking the completion out first and rejecting it last amounts to the same exit |
| BleTransport.BleTransport.CloseAll | native/airlink-transport/ios/Transport/BleTransport.swift:1346-1361 | closing a snapshot of the links in whatever order |
| BleTransport.BleTransport.HandleDisconnect | native/airlink-transport/ios/Transport/BleTransport.swift:1519-1545 | a probe's own hang-up is ignored for a link still opening; otherwise the link ends |
| BleTransport.BleTransport.DidSubscribe | native/airlink-transport/ios/Transport/BleTransport.swift:1904-1952 | the same central object refreshes its link; a different one replaces it |
| BleTransport.BleTransport.DidUnsubscribe | native/airlink-transport/ios/Transport/BleTransport.swift:1954-1957 | an unsubscribing central's link ends |
| BleTransport.BleTransport.WillRestore | native/airlink-transport/ios/Transport/BleTransport.swift:1372-1390 | restored peripherals become dialling links unless already routed |
| BleTransport.BleTransport.Stop | native/airlink-transport/ios/Transport/BleTransport.swift:367-387 | every link closed, then the maps cleared |
| BleIdentityRecord.RecordRoundTrip | native/airlink-transport/ios/Transport/BleIdentityRecord.swift:53-126 | the record decodes to the clamped token, the PSM, the id if it has sixteen bytes and the longest prefix of whole characters of the name that fits |
| BleIdentityRecord.FittingIsLongest | native/airlink-transport/ios/Transport/BleIdentityRecord.swift:77-89 | dropping characters from the end stops at the longest prefix that fits |
| BleIdentityRecord.Encode | native/airlink-transport/ios/Transport/BleIdentityRecord.swift:53-91 | the appending encoder and its shrinking loop give that record |
| BleIdentityRecord.Decode | native/airlink-transport/ios/Transport/BleIdentityRecord.swift:94-126 | the cursor decoder, with every bound checked before it is crossed |
| TcpLife.EachLinkToldOnce | native/airlink-transport/ios/Transport/LocalNetworkTransport.swift:963-1086 | over every interleaving: opened, connected, then data and closing, then at most one end and nothing after it; nothing at all for a link that never opened; an opened link's end is reported exactly if it has left the table |
| TcpLife.ConnectsAnsweredOnce | native/airlink-transport/ios/Transport/LocalNetworkTransport.swift:878-918 | each connect is answered once, or its link is still in the table, dialling |
| TcpLife.TablesAndQueuesBounded | native/airlink-transport/ios/Transport/LocalNetworkTransport.swift:1121-1194 | at most sixteen links, metrics only for them, queued bytes equal to the frames in flight and within the limit plus one frame |
| TcpLife.SendsSettledOnce | native/airlink-transport/ios/Transport/LocalNetworkTransport.swift:1121-1194 | each send is settled once, or its frame is still with a socket |
| TcpDelivery.DeliversExactlyWhatWasRead | native/airlink-transport/ios/Transport/LocalNetworkTransport.swift:1221-1300 | over every run the datagrams reported for a link are exactly those in the reads it was given while open: each header in range asks for its length, each whole body is delivered, once and in order |
| TcpDelivery.EveryDialIsAnswered | native/airlink-transport/ios/Transport/LocalNetworkTransport.swift:1022-1072 | over every run: a waiting dial is given its link by the event that opens it, is failed by exactly the events that end it, and waits on through every other |
| TcpDelivery.ConnectIsAnswered | native/airlink-transport/ios/Transport/LocalNetworkTransport.swift:878-918 | a connect fails at once without the transport, the peer or room for a link, and else waits at a new link |
| TcpDelivery.SendIsServed | native/airlink-transport/ios/Transport/LocalNetworkTransport.swift:1121-1194 | a send fails at once, is dropped over the high-water mark if unreliable, or is one more frame with the socket, exactly by the limits |
| TcpDelivery.FrameIsSettledBySocket | native/airlink-transport/ios/Transport/LocalNetworkTransport.swift:1165-1194 | a frame stays with its socket until the socket is done with it, and that settles its send with what the socket said |
| TcpDelivery.EveryOpenLinkEnds | native/airlink-transport/ios/Transport/LocalNetworkTransport.swift:963-1086 | over every run: an open link is ended by exactly the events that should end it, reported as failed or closed, and goes on through every other |
| TcpDelivery.LinksBegin | native/airlink-transport/ios/Transport/LocalNetworkTransport.swift:920-1047 | a connection that comes in is a new link while there is room, and one that gets ready opens its link and says so |
| TcpLife.StoppingSettlesEverything | native/airlink-transport/ios/Transport/LocalNetworkTransport.swift:436-462 | stopping reports every open link closed and leaves no connect unanswered |
| TcpLife.NextKeepsInv | native/airlink-transport/ios/Transport/LocalNetworkTransport.swift:878-1308 | every callback, in any order and however late, keeps tables, traces, answers and counters |
| LocalNetworkTransport.LocalNetworkTransport.Connect | native/airlink-transport/ios/Transport/LocalNetworkTransport.swift:878-918 | a dial, or the immediate refusal |
| LocalNetworkTransport.LocalNetworkTransport.Accept | native/airlink-transport/ios/Transport/LocalNetworkTransport.swift:920-961 | an inbound link, unless stopped or full |
| LocalNetworkTransport.LocalNetworkTransport.Open | native/airlink-transport/ios/Transport/LocalNetworkTransport.swift:1022-1046 | announce, connect, answer, then read |
| LocalNetworkTransport.LocalNetworkTransport.Fail | native/airlink-transport/ios/Transport/LocalNetworkTransport.swift:1049-1055 | settle, report once, forget, and only while in the table |
| LocalNetworkTransport.LocalNetworkTransport.Disconnect | native/airlink-transport/ios/Transport/LocalNetworkTransport.swift:1088-1117 | closing is reported while open and the pending connect fails |
| LocalNetworkTransport.LocalNetworkTransport.Send | native/airlink-transport/ios/Transport/LocalNetworkTransport.swift:1121-1194 | refused, dropped as best-effort, or queued as one frame |
| LocalNetworkTransport.LocalNetworkTransport.ContentProcessed | native/airlink-transport/ios/Transport/LocalNetworkTransport.swift:1165-1192 | the completion of one frame, for a live or a forgotten link |
| LocalNetworkTransport.LocalNetworkTransport.LengthPrefixRead | native/airlink-transport/ios/Transport/LocalNetworkTransport.swift:1221-1268 | the header read: error, short, out of range, or the body to come |
| LocalNetworkTransport.LocalNetworkTransport.BodyRead | native/airlink-transport/ios/Transport/LocalNetworkTransport.swift:1270-1291 | the body read: error, short, or one datagram delivered |
| LocalNetworkTransport.LocalNetworkTransport.Teardown | native/airlink-transport/ios/Transport/LocalNetworkTransport.swift:436-462 | every link reported in whatever order, then the tables cleared |
| BitmapSpec.ResumeRoundTrip | packages/core/src/files/bitmap.ts:163-189 | decoding an encoded resume gives the bitmap back at every chunk count, its suffix re-based at any offset |
| BitmapSpec.BytesRoundTrip | packages/core/src/files/bitmap.ts:121-157 | what was persisted is what is read back, at every chunk count |
| BitmapSpec.FromBytesAcceptsOnlyEncodings | packages/core/src/files/bitmap.ts:137-157 | bytes are read as a bitmap if and only if they encode it with zero padding |
| BitmapSpec.EncodingUnique | packages/core/src/files/bitmap.ts:120-123 | a bitmap has one encoding |
| BitmapSpec.OnesAreBits | packages/core/src/files/bitmap.ts:148-154 | the shifting loop counts exactly the set bits of a byte |
| BitmapSpec.PaddingAddsNothing | packages/core/src/files/bitmap.ts:22-30 | zero padding adds nothing to the count |
| BitmapSpec.HighBits | packages/core/src/files/bitmap.ts:22-30 | the mask of the padding check sees exactly the spare bits |
| BitmapSpec.PutEncodes | packages/core/src/files/bitmap.ts:57-74 | setting or clearing one bit changes that flag and keeps the padding zero |
| ChunkBitmap.ChunkBitmap.Set | packages/core/src/files/bitmap.ts:57-65 | the flags after a set, whether it changed anything, and the cached count still exact |
| ChunkBitmap.ChunkBitmap.Clear | packages/core/src/files/bitmap.ts:67-74 | the same for a clear |
| ChunkBitmap.ChunkBitmap.Fill | packages/core/src/files/bitmap.ts:76-83 | every chunk present, padding still zero |
| ChunkBitmap.ChunkBitmap.Reset | packages/core/src/files/bitmap.ts:85-88 | no chunk present |
| ChunkBitmap.ChunkBitmap.Has | packages/core/src/files/bitmap.ts:51-54 | the flag, and false outside the range |
| ChunkBitmap.ChunkBitmap.NextMissing | packages/core/src/files/bitmap.ts:91-96 | the first missing chunk at or after an index, or -1 when there is none |
| ChunkBitmap.ChunkBitmap.ContiguousPrefix | packages/core/src/files/bitmap.ts:99-102 | exactly the longest present run from the start |
| ChunkBitmap.ChunkBitmap.RunLength | packages/core/src/files/bitmap.ts:105-109 | the longest run of one kind from an index, up to a cap |
| ChunkBitmap.ChunkBitmap.MissingIndices | packages/core/src/files/bitmap.ts:112-118 | the first missing chunks in order, as many as asked for or as there are |
| ChunkBitmap.ChunkBitmap.Clone | packages/core/src/files/bitmap.ts:125-130 | a fresh bitmap with the same flags and count |
| ChunkBitmap.ChunkBitmap.ToBytes | packages/core/src/files/bitmap.ts:121-123 | the durable form holds exactly the flags, with zero padding |
| ChunkBitmap.ChunkBitmap.EncodeResume | packages/core/src/files/bitmap.ts:163-171 | the longest present run and an encoding of exactly the rest |
| ChunkBitmap.FromBytes | packages/core/src/files/bitmap.ts:137-157 | the bitmap persisted bytes describe, recounted, or the error |
| ChunkBitmap.DecodeResume | packages/core/src/files/bitmap.ts:174-189 | the bitmap a resume describes, or the error, with every field bounded |
| FileHash.HashBindsFile | packages/core/src/files/chunks.ts:168-178 | two files with one chained hash have equal size, grid and content, or the chain exhibits two inputs with one hash |
| FileHash.ChainsAgree | packages/core/src/files/chunks.ts:176-178 | equal accumulators come from equal seeds and equal chunks or from a collision, since a 27-byte seed is no later pre-image |
| FileHash.ComputeFileHash | packages/core/src/files/chunks.ts:185-196 | every byte is read once in order; an error exactly when some read is short, otherwise the hash of the file the store holds |
| FileHash.WideChunkSizesCollide | packages/core/src/files/chunks.ts:168-174 | beyond 32 bits the chunk-size field truncates: the two grids share a hash for every content that fits one chunk of the smaller, and for a longer one only with a collision |
| ChunkDigest.DigestBindsPlace | packages/core/src/files/chunks.ts:134-150 | a digest that checks out for two placed chunks means the same transfer, index, run and bytes, or two inputs the truncated hash cannot tell apart |
| ChunkDigest.PreimageInjective | packages/core/src/files/chunks.ts:142-150 | every field can be read back out of what is hashed for a chunk |
| ChunkSizing.ChooseChunkSize | packages/core/src/files/chunks.ts:65-85 | the first doubling of the link's size whose bitmap is small enough, within limits; an error exactly when not even the largest chunks are few enough |
| ChunkSizing.RunLengthIsLargest | packages/core/src/files/chunks.ts:99-112 | the largest run within both budgets and the cap, or one |
| ChunkSizing.RunsCoverFile | packages/core/src/files/chunks.ts:114-124 | any partition of the grid into runs carries exactly the bytes of the file |
| ChunkSizing.EnoughChunks | packages/core/src/files/chunks.ts:114-117 | a number of chunks is enough exactly when that many reach the end of the file |
| ChunkBudget.HeaderIsEnough | packages/core/src/files/chunks.ts:39-43 | the header the sizing counts on is above what the codec writes, by at most three bytes |
| ChunkBudget.RunMessagesFit | packages/core/src/files/chunks.ts:86-112 | every message of a transfer fits one payload and one datagram whenever a single chunk does |
| ChunkBudget.SuggestedSizeIsLargest | packages/core/src/files/chunks.ts:65-74 | the size a link suggests fits payload and datagram, and one byte more would not |
| FileChunkCodec.ChunkRoundTrip | packages/core/src/files/codec.ts:222-265 | whatever the encoder accepts decodes to itself if and only if its data is non-empty and bounded and its run ends within the chunk limit, and is refused otherwise |
| FileChunkCodec.DecodedIsEncodable | packages/core/src/files/codec.ts:243-265 | whatever the decoder accepts the encoder accepts, and it survives another trip |
| FileChunkCodec.VarintRoundTrip | packages/core/src/util/varint.ts:56-65 | a safe integer comes back from its encoding whatever follows |
| FileChunkCodec.ReadVarintAt | packages/core/src/util/varint.ts:135-148 | the reading loop, its limit of eight bytes and its range check |
| FileChunkCodec.EncodeFileChunk | packages/core/src/files/codec.ts:222-241 | the appending writer, with its checks in order |
| FileChunkCodec.DecodeFileChunk | packages/core/src/files/codec.ts:243-265 | the reader's cursor, with its checks in order |
| Transactions.RunIsMeaning | apps/mobile/src/data/opSqliteDriver.ts:109-138 | any tree of writes, throws, catches and transaction calls leaves the data, and throws, as the recursive all-or-nothing meaning says, with depth and savepoints as they were |
| Transactions.AllOrNothing | packages/db/src/nodeDriver.ts:45-74 | an outermost transaction that throws has changed nothing; otherwise the data is what its body means and it would commit; no transaction or savepoint stays open |
| Transactions.ClosesBack | apps/mobile/src/data/opSqliteDriver.ts:110-125 | leaving a nested call keeps the data on success and brings the old back otherwise, finding its own savepoint by name |
| SqliteDatabase.SqliteDatabase.Transaction | apps/mobile/src/data/opSqliteDriver.ts:109-138 | the driver's fields and the engine after `transaction` |
| SqliteDatabase.SqliteDatabase.Call | packages/db/src/nodeDriver.ts:45-74 | the same for a caller's code, equal to its meaning |
| SqlStatements.SplitStatements | apps/mobile/src/data/opSqliteDriver.ts:153-188 | exactly the semicolons outside strings and line comments end a statement; rejoined, the pieces are the text; blank pieces are dropped |

## Left out

- Screens, navigation, storage of messages, notifications and audio.
- CoreBluetooth, Network.framework and Bonjour: only the callbacks they deliver, as events.
- Discovery, advertising, identity probes and metrics beyond the keys of the metrics table.
- The insides of X25519, Ed25519, ChaCha20-Poly1305, AES-GCM, HKDF and SHA-256.
- The CBOR codec: packets of the handshake are maps of fields, and a malformed one is a value of its own.
- `AirLinkClient` reconnection and duplicate-session arbitration, which rest on code that is not part of this model.
- Repositories, migrations and the trust store over SQL; a statement is a function on the data that may refuse.
- SQLite errors that roll back a whole transaction by themselves, and failures of ROLLBACK.
- Numbers that are not integers where the source checks for them (`ReplayWindow`, bitmap indices); they are refused there and have no counterpart here.
- Exceptions thrown by a game's own reducer.
- The mixing function of the generator, which is a parameter, and floating-point rounding of `nextInt`.
- Objects held by more than one owner: link records, the L2CAP session inside a link and socket objects are values in the transports' tables, so aliasing between a callback's captured link and the table is not modelled for `BleTransport` and `LocalNetworkTransport`; late callbacks reach them by number instead.
- `reconcile` of a game session: one branch over `resolveConflict`.
- BleLinkOrder.PeerSeesSubsequence: claims order only when the transport itself never gave up a live channel, because sends may then go out on GATT before the channel's items come back; no duplication is claimed there too.
- BleLinkOrder.ClosingSettlesEverything: an item inside an L2CAP session at link close settles when that session reports, and the source holds the link weakly in that report, so a report that never comes leaves it unsettled.
- GameReplication.ReplicasNeverDiverge: an adoption counts as careful only in a game whose board an envelope can carry (`StateCodec`, `RandomFree`); games that draw are the subject of `GameRepair`. The board-only `applySnapshot`, which the application never calls, is no event of these runs.
- GameDivergence.AdoptionIsSafeIffNoMoveIsOutstanding: the unsafe half supposes that the rules let the guest play another move in the place of the lost one; where they allow a single move the guest repeats it.
- GameRepair.TellingReducersFollowIffLevel: a reducer that draws and sometimes hides what it drew may follow from a start that is not level.
- BleLink.BleLink.Adopt: a further channel is adopted only after the one before has reported its end; the source puts no guard there, and a channel that opened over one still alive would leave two sessions reporting to one link.
- GameMachine.GameSession.Tick: assumes a positive tick rate, as every realtime game declares.
- SecureSession.SecureSession.Open: the associated data and plaintext are sequences; the source's buffers are not tracked.
- FileHash.ComputeFileHash: requires a positive chunk size, without which the source does not terminate.
- ReplayWindow.AcceptAll: requires a window size that is a positive multiple of 32, which the source's constructor enforces by throwing.
