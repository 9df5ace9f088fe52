# AP3: a model of the protocol core and of private set intersection

AP3 lets one agent ask another whether a customer is on its sanction list without either learning
more than the answer. This project models the two halves of that:

- the protocol core (`src/ap3/a2a/_core.py` and what it drives): a receiver with a replay cache, a
  round cache and a session table, the operation with its own session table, and the initiator's
  `run_intent`;
- the private set check (`packages/ap3-functions/ap3_functions/psi`): blinding in a prime-order
  group, a Schnorr proof, scalar and message codecs, a shuffle, and the four-envelope operation;

and joins them in one theorem about a whole run between two cores, alone and under load, and in one
about a run over any network and against any receiver. Handlers of different sessions interleave in the
receiver; another theorem says that every such run is the run of whole handlers one after the other.

## How it is modelled

**Objects.** `Operations.Operation`, `ProtocolCore.Core` and `PeerClient.Client` are classes whose
methods update the same tables as the originals, loops and early returns included. Each method is
proved to do what a function on the state's value says (`Operations`, `Receiver`, `Initiator`,
`PeerClient`), and the theorems about runs are about those functions.

**Interleaving.** Receiver code is suspended only where a peer is resolved. A handler is therefore cut
into segments there: an arrival, the end of the first resolution, the end of a forced one.
`ReceiverRuns` lets the segments of any handlers interleave. Clock readings, resolved peers,
configurations, random draws and arriving envelopes are inputs of the steps. What one segment can do
is stated once (`DeliverShape`, `ResumeShape`), and every invariant is read off that.

**Primitives.** SHA-256, the two random-oracle hashes, the Fiat-Shamir challenge, base64, Ed25519 and
ISO-8601 are fields of the records `Crypto.Primitives` and `Directives.Services`, so every theorem is
about all such functions. `Ideal` lists what is relied on. Collision-freeness is never assumed: where
a collision would matter, the theorem says exactly which one. The group is a record of operations
with the laws of a cyclic group of prime order. Multiplication is repeated addition, inverses come
from Euclid's algorithm, and `ZqLaws` shows that the laws can be met for every prime order that fits.

**Assumptions on runs.** Each theorem names its own. `Exclusive` is the session lock: no envelope of a
session is taken up while another handler of that session waits. An envelope of another operation or
wire version is answered before the lock is taken, so it may arrive at any time. `AllClean` says that
ids are not empty and hold no bar. `Monotone` says that the clock does not go back. At-most-once needs
none of the three; agreement of the tables needs only non-empty ids; `Guarded` is all three, from a
sound world, and `Serialisable` needs no more. `Witness` shows that what the end-to-end theorems assume
of two cores can be met, and what `PsiCalledTwice` assumes of a PSI receiver.

**Where the code and its comments differ.** A comment in `PSIOperation.on_start` says that nothing is
committed yet and the receiver commits first; the code sends the initiator's commitment there, and so
does the model. `ProtocolEnvelope` says that an intent is present on the first message
only, while the receiver refuses any envelope without one; the model follows the receiver. The replay
cache is documented as holding first-round intents; it holds every round's.

**Results that are limits.** An intent can pass a second time exactly at its expiry instant
(`PassesAgainAtExpiry`; in `PsiCalledTwice` one `init` opens two PSI sessions), so replay claims are
strict. An envelope shares its cache key with one of another session exactly when its session or its
phase holds a bar (`SharedAcrossSessions`), and then a reply stored for one session answers the other
(`StoredReplyCrosses`). The empty session id makes the two tables part (`EmptyIdParts`). A PSI run that
begins leaves its session behind exactly when no intent can be built, or the first envelope gets no
reply or an error, or the first reply makes the initiator ask and the second envelope gets no reply or
an error (`AbandonedExactly`, with a run in `SilenceLeavesSession`).
Forced card fetches are not limited until the peer is cached (`UnlimitedWhenUnknown`).

## Model

| member | source | states |
|---|---|---|
| EndToEnd.RunsToTheEnd | src/ap3/a2a/_core.py:117-206 | a run against an honest receiver sends exactly two envelopes, ends with an object whose only field "is_match" is the verdict of the hashes, and leaves both operation tables and the receiver's session table as they were |
| EndToEnd.DecidesMembership | packages/ap3-functions/ap3_functions/psi/operations.py:104-219 | the published result encodes the text `{"is_match":true}` for every listed customer, and for another one exactly when SHA-256, H1 or H2 maps what is hashed of it and of a list item to one value, and `{"is_match":false}` otherwise; it carries the session id, its own id, the digest of that text and a signature that verifies |
| EndToEnd.ResultTells | src/ap3/a2a/_core.py:768-805 | the result verifies under the initiator's key, and the two possible results differ in their encoded text |
| EndToEnd.ResultAnswers | src/ap3/a2a/_core.py:768-805 | a result answers in so many words: its encoded text is `{"is_match":true}` or `{"is_match":false}` |
| PsiRuns.FinishedExactly | src/ap3/a2a/_core.py:117-206 | over any network, honest or not: a PSI run returns a result exactly when the first reply is a `msg0` that makes the initiator ask and the second a `msg2` that its state decides; the result is an object whose only field "is_match" is that decision, and exactly two envelopes were sent |
| PsiRuns.ResultMeans | packages/ap3-functions/ap3_functions/psi/operations.py:177-219 | against any receiver, for a scalar as the library draws it: a result whose "is_match" is true, or false, says that the list in the second message holds, or does not hold, the hash of the customer's point under the key with which that message answers the blinded question |
| PsiRuns.AbandonedExactly | src/ap3/a2a/_core.py:136-192 | a PSI run leaves its session behind exactly when the peer is resolved and compatible, a customer is given, and no intent can be built, or the first envelope gets no reply or an error, or the first reply makes the initiator ask and the second envelope gets no reply or an error |
| UnderLoad.RunsUnderLoad | src/ap3/a2a/_core.py:228-381 | the same run, fed with the replies seen in any run of the receiver in which other sessions' segments and any number of copies of the run's own answered envelopes come in between, and amid other handlers on its own side; nothing of the session is left on either |
| Witness.FaithfulRuns | src/ap3/a2a/_core.py:117-206 | every pair of cores that is ready has a network over which the run ends with the verdict |
| Witness.ReadyIsPossible | src/ap3/a2a/_core.py:74-113 | the assumptions of the end-to-end theorems can be met together |
| Witness.PsiRunIsPossible | src/ap3/types/directive.py:110-119 | the assumptions of the run in which one `init` opens two sessions can be met |
| Witness.SilenceLeavesSession | src/ap3/a2a/_core.py:169-177 | for every ready pair of cores, a network that returns no reply makes the run fail after one envelope with its session left behind |
| Witness.CrossingIsPossible | src/ap3/a2a/_core.py:268-276 | there is a PSI receiver and an answered `init` whose session holds a bar, and an envelope of another session that gets its reply |
| HonestCore.OpeningAdmitted | src/ap3/a2a/_core.py:420-559 | an honest opening envelope of a new session passes every check and reaches `receive` |
| HonestCore.RoundAdmitted | src/ap3/a2a/_core.py:292-341 | an honest later envelope reaches `process` |
| HonestCore.OpeningServed | src/ap3/a2a/_core.py:364-381 | its reply carries what the operation replied, and the caches gain only its keys |
| HonestCore.LastRoundServed | src/ap3/a2a/_core.py:361-381 | the last reply carries what the operation replied, and both session tables are back where they were |
| HonestPsi.Exchanged | packages/ap3-functions/ap3_functions/psi/ffi.py:64-187 | on draws that do not degenerate, both sides' byte-level steps succeed and the initiator decides the verdict |
| HonestPsi.VerdictIsMembership | packages/ap3-functions/ap3_functions/psi/psi_internal/psc_protocol.py:169-194 | the verdict is membership, or a collision: of SHA-256 between the bytes hashed of the customer and of a list item, of H1 between those digests, or of H2 |
| HonestPsi.NamesApart | packages/ap3-functions/ap3_functions/psi/ffi.py:57-61 | the hash of a name is SHA-256 of "Customer" and its UTF-8 text, so two names share one exactly when they are equal or those bytes collide |
| Duplicates.DuplicatesStutter | src/ap3/a2a/_core.py:268-276 | taking any number of copies of answered envelopes out of a run changes no other reply or call and, in the end, no session, waiting handler, replay entry or unexpired reply; a copy is any envelope with the same round key, whatever intent it carries |
| Duplicates.CopyIsHit | src/ap3/a2a/_core.py:364-381 | an envelope with the round key of an answered one that arrives before the stored reply expires gets the identical reply, whatever came in between, also after the session ended |
| Duplicates.StoredReplyCrosses | src/ap3/a2a/_core.py:268-276 | when an answered envelope's session or phase holds a bar, and only then, another session has an envelope with its key; delivered next, that one gets the reply stored for the first |
| Projection.HitChangesNothing | src/ap3/a2a/_core.py:271-276 | a delivery answered from the round cache makes no call and changes nothing but sweeping that cache |
| Projection.SeenAlone | src/ap3/a2a/_core.py:265-381 | for any set of sessions, a run shows it what the run of its own steps alone shows, with or without the cache hits |
| Projection.SessionsAreIsolated | src/ap3/a2a/_core.py:244-253 | a session's replies, calls and final state depend only on its own segments and their inputs |
| Projection.InterleavingsAgree | src/ap3/a2a/_core.py:109-113 | two interleavings with the same segments of a session, each under a clock that does not go back, show it the same |
| Serial.Serialisable | src/ap3/a2a/_core.py:244-253 | under the session lock, putting the segments of each handler next to one another, in the order in which handlers complete and with the clock readings they had, shows the same at every step and leads to the identical state |
| Serial.BlocksAreHandlers | src/ap3/a2a/_core.py:244-253 | that order consists of whole handlers, from arrival to completion, and of the segments of handlers that never completed at the end |
| Serial.WaitingCommutes | src/ap3/a2a/_core.py:448-506 | a segment that ends waiting for a peer can be put after a later segment of another session: both show the same and the state is identical |
| Isolation.OwnStep | src/ap3/a2a/_core.py:508-559 | one segment does the same in two states that look alike to its session, and keeps them alike |
| Isolation.OtherStep | src/ap3/a2a/_core.py:746-766 | a segment of another session, sweeps included, changes nothing a session can see |
| ReceiverSafety.NotTwiceBeforeExpiry | src/ap3/a2a/_core.py:665-686 | no signer, session, id, nonce and hash reaches the operation twice while every sweep reads a clock before the expiry remembered first |
| ReceiverSafety.AtMostOnce | src/ap3/a2a/_core.py:665-686 | a second call needs a replay sweep that read the clock at or after that expiry, under any interleaving |
| ReceiverSafety.OncePerIntent | src/ap3/a2a/_core.py:665-686 | two calls for one signer, session, intent id, nonce and payload hash have between them a sweep that read the clock at or after the expiry the intent states |
| ReceiverSafety.PassesAgainAtExpiry | src/ap3/a2a/_core.py:746-750 | a remembered intent passes again exactly when validity is read no later, and the sweep no earlier, than its expiry |
| ExpiryInstant.CalledTwice | src/ap3/types/directive.py:110-119 | the strictness is needed: an envelope that opens a session thirty minutes before its intent expires opens another at the expiry instant, once a failing round has closed the first |
| ExpiryInstant.PsiCalledTwice | packages/ap3-functions/ap3_functions/psi/operations.py:112-148 | for the PSI receiver: one `init` opens two sessions when a `msg1` that cannot be decoded ends the first |
| ReceiverSafety.TablesAgree | src/ap3/a2a/_core.py:331-362 | in every run the receiver's sessions are exactly the operation's, under the same ids, through done, undone and failing rounds |
| ReceiverSafety.ProcessFindsSession | src/ap3/a2a/_core.py:331-346 | so `process` never meets an unknown session |
| ReceiverSafety.EmptyIdParts | src/ap3/core/operation.py:106-116 | an opened session with the empty wire id breaks that agreement |
| ReceiverSafety.CallMeaning | src/ap3/a2a/_core.py:561-593 | every operation call comes from an intent signed by the resolved or the pinned key, with an expiry not yet past, a nonce that is not blank, and the hexadecimal SHA-256 of the bytes of the envelope's own payload, for its session; the opening phase is never processed |
| ReceiverSafety.TablesChangeByCalls | src/ap3/a2a/_core.py:265-381 | a session changes only through a call for it |
| ReceiverSafety.RefusalKeepsTables | src/ap3/a2a/_core.py:303-330 | every refusal but the two that follow a call leaves both session tables as they are |
| ReceiverSafety.PinnedWhileOpen | src/ap3/a2a/_core.py:552-558 | under the lock, the pinned key, opening phase and internal id do not change while a session stays open |
| ReceiverSafety.DrivenByOpener | src/ap3/a2a/_core.py:577-593 | every `process` call is signed by the key whose intent opened the session, in another phase, and the session has stayed open since |
| ReceiverSafety.OpenedByAddressee | src/ap3/a2a/_core.py:448-531 | in every run, a `receive` call is for an envelope addressed to this receiver, by a compatible peer whose URL passed the guard before it was fetched and whose key verifies the intent |
| Binding.HashBinds | src/ap3/a2a/_core.py:716-722 | two payloads have one hash exactly when they are the same string, the same structured value up to dictionary order, or a string and the value it is the canonical text of, or else SHA-256 maps their two byte strings to one digest |
| Binding.CallIsIssued | src/ap3/a2a/_core.py:561-664 | every operation call carries a payload that the key's owner hashed and signed for this session, or one whose bytes collide with those under SHA-256 |
| Binding.SwappedPayload | src/ap3/a2a/_core.py:655-664 | an intent made for another payload is refused as such, unless the two payloads collide |
| Binding.SameRound | src/ap3/a2a/_core.py:268-276 | an envelope free of bars shares its stored reply only with its own payload, collisions aside |
| KeyRefresh.RotationIsServed | src/ap3/a2a/_core.py:506-549 | an opening whose signature a stale key does not verify reaches `receive` after a forced resolution with the key that does, and gets the operation's reply |
| KeyRefresh.BadSignatureIsFinal | src/ap3/a2a/_core.py:508-520 | in every run, an opening is refused for its signature only after a first and then a forced resolution, neither of whose keys verified it |
| Refusals.CheckCodes | src/ap3/a2a/_core.py:615-686 | which defect of an intent is answered with which code, in the order of the checks: session, operation, validity, payload hash, replay |
| Refusals.UnusableIsRefused | src/ap3/types/directive.py:75-108 | an intent with a blank nonce, a hash of another length than 64, or a past or unreadable expiry is always refused |
| Refusals.ContinueCodes | src/ap3/a2a/_core.py:292-330 | on an open session, a missing, malformed or wrongly signed intent has its code |
| Refusals.VerifiedCodes | src/ap3/a2a/_core.py:303-330 | a refused check carries the check's code, a repeated opening phase has its own, and otherwise `process` is called |
| Refusals.ProcessCodes | src/ap3/a2a/_core.py:331-381 | a missing session and a failing round have codes of their own, and what is replied otherwise is an envelope with the operation's phase and message |
| Refusals.ReceiveCodes | src/ap3/a2a/_core.py:534-551 | the same for the opening call |
| Refusals.OpensExactly | src/ap3/a2a/_core.py:552-559 | a session opens exactly when `receive` succeeds undone, with the operation's id, the key, the URL and the phase |
| Refusals.OpeningCodes | src/ap3/a2a/_core.py:431-504 | which defect of an opening is answered with which code before any peer is resolved |
| Refusals.ResumeCodes | src/ap3/a2a/_core.py:506-551 | after a resolution: a second, forced one, the checks, compatibility, the configuration, the call, in this order |
| Refusals.ProcessedExactly | src/ap3/a2a/_core.py:265-346 | a delivery reaches `process` exactly when no reply is stored, its session is open, and intent, signer, validity, payload, novelty and phase are right |
| Refusals.WaitsExactly | src/ap3/a2a/_core.py:420-506 | a delivery makes a handler wait for a peer exactly when no reply is stored, its session is not open, and its intent names a safe initiator and this receiver |
| Refusals.ReceivedExactly | src/ap3/a2a/_core.py:508-541 | a resumed handler reaches `receive` exactly when the key verifies, the intent fits and is new, the peer is compatible and there is a configuration |
| Refusals.NotUnderstood | src/ap3/a2a/_core.py:218-241 | envelopes of another operation are dropped and those of another version refused, without any change |
| ReceiverRuns.DeliverShape | src/ap3/a2a/_core.py:265-330 | what an arriving envelope can change: nothing, or the replay cache, or through one call its own session and round |
| ReceiverRuns.ResumeShape | src/ap3/a2a/_core.py:506-559 | the same for a handler that resumes with its peer |
| Keys.JoinInjective | src/ap3/a2a/_core.py:742-744 | joining with bars loses nothing when all components but the last of both lists hold no bar |
| Keys.JoinDetermines | src/ap3/a2a/_core.py:742-744 | nor when one of the two lists, of equal length, holds no bar at all |
| Keys.RoundKeyInjective | src/ap3/a2a/_core.py:752-760 | an envelope whose operation, session and phase hold no bar shares its round key only with envelopes of the same operation, session, phase and payload hash, whatever those hold |
| Keys.ReplayKeyInjective | src/ap3/a2a/_core.py:733-744 | equal replay keys come from the same signer text, session, id, nonce and hash when one side's session, id and nonce hold no bar, and so does its hash or the other side's three |
| Keys.SharedKeyExactly | src/ap3/a2a/_core.py:752-760 | some envelope of another operation, session or phase has the same round key exactly when one of these three holds a bar |
| Keys.SharedAcrossSessions | src/ap3/a2a/_core.py:752-760 | some envelope of another session for the same operation has it exactly when the session or the phase holds a bar |
| Keys.SharedReplayKeyExactly | src/ap3/a2a/_core.py:733-744 | for one signer and payload hash, another session, id or nonce gives the same replay key exactly when one of the three holds a bar |
| ProtocolCore.Core.constructor | src/ap3/a2a/_core.py:74-113 | a new core holds no cache entry and no session |
| ProtocolCore.Core.SweepIntentReplayCache | src/ap3/a2a/_core.py:746-750 | exactly the entries that expire after the reading stay |
| ProtocolCore.Core.SweepRoundDedupeCache | src/ap3/a2a/_core.py:762-766 | the same for stored replies |
| ProtocolCore.Core.CheckIntentConsistency | src/ap3/a2a/_core.py:615-686 | refuses or remembers an intent as the receiver's check says |
| ProtocolCore.Core.HandleEnvelope | src/ap3/a2a/_core.py:218-291 | takes an envelope to its answer or to its first suspension, as the delivery function says |
| ProtocolCore.Core.StartOpening | src/ap3/a2a/_core.py:431-504 | the checks before the peer is resolved, in order |
| ProtocolCore.Core.PeerResolved | src/ap3/a2a/_core.py:506-520 | goes on from a resolution, at most once with a forced one |
| ProtocolCore.Core.OpenSession | src/ap3/a2a/_core.py:522-533 | checks, compatibility and configuration, in order |
| ProtocolCore.Core.CallReceive | src/ap3/a2a/_core.py:534-559 | opens the session when `receive` succeeds undone |
| ProtocolCore.Core.ContinueSession | src/ap3/a2a/_core.py:292-330 | validates an envelope on an open session |
| ProtocolCore.Core.CallProcess | src/ap3/a2a/_core.py:331-381 | ends the session on an error or when done, and stores the reply otherwise |
| ProtocolCore.Core.StoreReply | src/ap3/a2a/_core.py:364-381 | keeps the reply for thirty minutes under the round's key |
| ProtocolCore.Core.RunIntent | src/ap3/a2a/_core.py:117-214 | returns, raises, sends and changes the operation's table as the run function says |
| ProtocolCore.Core.RunRounds | src/ap3/a2a/_core.py:136-214 | the loop over at most 64 rounds does the same |
| Initiator.RunIsLocal | src/ap3/a2a/_core.py:173-192 | what other handlers do to other sessions of the operation while replies are awaited changes neither the end of a run nor what it sends |
| Initiator.CleanUp | src/ap3/a2a/_core.py:178-214 | for any operation: a run touches only its own session, which stays behind exactly when the run fails by a missing or refused reply, a failed send, an intent that cannot be built, no outgoing message or the round limit; `PsiRuns.AbandonedExactly` says for PSI which replies cause it |
| Initiator.RoundsSend | src/ap3/a2a/_core.py:156-177 | at most 64 envelopes are sent, one a round, each carrying its round's message with an intent of its own for that message |
| Initiator.BuiltIntentHolds | src/ap3/a2a/_core.py:688-714 | an envelope carries the run's message in its session, and its intent names that session, its own id and nonce, the two URLs and the digest of that message; it verifies, and passes the receiver's checks until its expiry and no longer |
| Initiator.ResultHolds | src/ap3/a2a/_core.py:768-805 | a built result verifies under the initiator's key and holds the session id, its own id, the encoded canonical text of the value, that text's digest, four metadata entries and the placeholder digests |
| Initiator.BeginningCodes | src/ap3/a2a/_core.py:129-155 | how a run ends before anything is sent, and under which session id it sends |
| Initiator.DeliveryCodes | src/ap3/a2a/_core.py:173-186 | a failed send, a missing reply and a refusal have their codes |
| Initiator.ReplyCodes | src/ap3/a2a/_core.py:187-205 | what becomes of a reply: a failure, the result or an empty object, no outgoing message, or the next round |
| Initiator.LimitReached | src/ap3/a2a/_core.py:207-214 | the round limit is reported only after 64 envelopes |
| Operations.Operation.constructor | src/ap3/core/operation.py:49-50 | a new operation has no session |
| Operations.Operation.SaveSession | src/ap3/core/operation.py:52-63 | stores role, state and configuration under the id |
| Operations.Operation.StartSession | src/ap3/core/operation.py:71-90 | as the start function says |
| Operations.Operation.ReceiveFirst | src/ap3/core/operation.py:92-117 | as the receive function says |
| Operations.Operation.ProcessRound | src/ap3/core/operation.py:119-149 | as the process function says; a failed or finished round leaves no session |
| Operations.Operation.Abort | src/ap3/core/operation.py:155-161 | removes the session and tells whether there was one |
| Operations.ProcessWithout | src/ap3/core/operation.py:119-149 | a round touches its own session only, which goes on exactly when the round succeeds undone |
| Operations.OpeningKeeps | src/ap3/core/operation.py:71-117 | an opened session is kept with role, state and configuration exactly when the call succeeds undone, and no other session changes |
| Operations.RoundKeeps | src/ap3/core/operation.py:119-149 | a round that goes on keeps role and configuration and takes the new state; any other ends the session |
| Operations.GoneStaysGone | src/ap3/core/operation.py:121-123 | a session that is gone answers every further round with `KeyError` |
| Operations.OtherCallsDoNotMatter | src/ap3/core/operation.py:71-161 | the replies to the rounds of a session are the same whatever calls for other sessions come in between |
| PsiOperation.ReceiveOpens | packages/ap3-functions/ap3_functions/psi/operations.py:112-138 | a session opens exactly on `init` with a 32-byte commitment and a non-empty list, and stores the commitment, the contribution sent and the list |
| PsiOperation.ReceiverRound | packages/ap3-functions/ap3_functions/psi/operations.py:140-168 | one round ends an opened session, and succeeds exactly on a `msg1` that opens the stored commitment and can be answered |
| PsiOperation.ReceiverTranscript | packages/ap3-functions/ap3_functions/psi/operations.py:104-168 | after `init`, whatever rounds come and whatever calls for other sessions lie between them, at most one `msg2`, for an opening of the stored commitment, over the stored list |
| PsiOperation.FirstInitiatorRound | packages/ap3-functions/ap3_functions/psi/operations.py:177-204 | the session goes on exactly on a `msg0` that lets the customer be asked about, and then with that `msg1`, in the session of both contributions; anything else ends it |
| PsiOperation.SecondInitiatorRound | packages/ap3-functions/ap3_functions/psi/operations.py:206-219 | a result comes exactly from a `msg2` that can be processed, and is an object whose only field "is_match" is what was decided; the session ends either way |
| PsiOperation.InitiatorTranscript | packages/ap3-functions/ap3_functions/psi/operations.py:172-219 | after `start`, whatever rounds come and whatever calls for other sessions lie between them, at most one `msg1`, and a result only after `msg0` then `msg2` |
| PsiOperation.CustomerIs | packages/ap3-functions/ap3_functions/psi/operations.py:65-77 | the customer is a string that is not empty, alone or as the first field "customer_data" of a dictionary; a dictionary without it names none |
| PsiFfi.HonestBytes | packages/ap3-functions/ap3_functions/psi/ffi.py:64-187 | over the wire formats, an honest run succeeds on every list within the cap and says whether some item hashes as the query |
| PsiFfi.Msg2Size | packages/ap3-functions/ap3_functions/psi/ffi.py:114-131 | an answer has 132 + 32 n bytes, n fits four bytes, and the reader's cap admits it |
| PsiFfi.CreatesExactly | packages/ap3-functions/ap3_functions/psi/ffi.py:64-87 | what `create_psc_msg1` accepts, and that it returns the encodings of state and message |
| PsiFfi.AnswersExactly | packages/ap3-functions/ap3_functions/psi/ffi.py:90-135 | lists that are empty or over a million entries and unreadable first messages are refused; all else is the encoded answer |
| PsiFfi.DecidesExactly | packages/ap3-functions/ap3_functions/psi/ffi.py:138-187 | second messages over the size of the largest list and unreadable ones are refused; all else is the decision |
| PscProtocol.PscExactness | packages/ap3-functions/ap3_functions/psi/psi_internal/psc_protocol.py:178-194 | on any second message that passes, the result is whether some entry is H2 of the query point under the key with B = kA; blinding, order and repetition do not matter |
| PscProtocol.CreatesExactly | packages/ap3-functions/ap3_functions/psi/psi_internal/psc_protocol.py:135-147 | the first message is r times H1 of the query, unless the session id is not 32 bytes or the product is the identity |
| PscProtocol.DecidesExactly | packages/ap3-functions/ap3_functions/psi/psi_internal/psc_protocol.py:178-194 | a second message is decided exactly when it is of the session and its proof's equation holds for its key over the question; another session and a false proof have their errors |
| PscProtocol.AnswersExactly | packages/ap3-functions/ap3_functions/psi/psi_internal/psc_protocol.py:150-175 | a first message of another session or an empty list is refused; an answer holds k times the question |
| PscProtocol.AnyOrder | packages/ap3-functions/ap3_functions/psi/psi_internal/psc_protocol.py:166-173 | the entries of an answer can come out in any order of the list |
| PscProtocol.Unblinding | packages/ap3-functions/ap3_functions/psi/psi_internal/psc_protocol.py:191-192 | unblinding k(rP) by the inverse of r gives kP |
| PscProtocol.PscHonestRun | packages/ap3-functions/ap3_functions/psi/psi_internal/psc_protocol.py:135-194 | an honest run succeeds and answers whether some item hashes as the query |
| PscProtocol.IndistinctMeansCollision | packages/ap3-functions/ap3_functions/psi/psi_internal/psc_protocol.py:171-192 | two different items are confused only by a collision of H1 or of H2 |
| PscProtocol.AnswerMsg1 | packages/ap3-functions/ap3_functions/psi/psi_internal/psc_protocol.py:150-175 | the loop over the shuffled copy computes the answer, or fails as it does |
| PscProtocol.ParseMsg2 | packages/ap3-functions/ap3_functions/psi/psi_internal/psc_protocol.py:63-97 | advancing an offset under clamping slices computes the decoder |
| PscProtocol.ParseState | packages/ap3-functions/ap3_functions/psi/psi_internal/psc_protocol.py:115-132 | the same for the initiator's state |
| PscProtocol.Msg1Exact | packages/ap3-functions/ap3_functions/psi/psi_internal/psc_protocol.py:31-42 | a byte string decodes to a message exactly when it encodes that well-formed message |
| PscProtocol.StateExact | packages/ap3-functions/ap3_functions/psi/psi_internal/psc_protocol.py:107-132 | the same for the initiator's state |
| PscProtocol.Msg2Exact | packages/ap3-functions/ap3_functions/psi/psi_internal/psc_protocol.py:52-97 | the same for second messages, so none of 100 to 131 bytes is accepted |
| PscProtocol.ProofExact | packages/ap3-functions/ap3_functions/psi/psi_internal/dlog_proof.py:19-30 | the same for proofs |
| DlogProof.Completeness | packages/ap3-functions/ap3_functions/psi/psi_internal/dlog_proof.py:49-68 | every honestly made proof verifies |
| DlogProof.UniqueResponseBytes | packages/ap3-functions/ap3_functions/psi/psi_internal/dlog_proof.py:59-68 | with the rest fixed, at most one 32-byte response is accepted |
| DlogProof.SpecialSoundness | packages/ap3-functions/ap3_functions/psi/psi_internal/dlog_proof.py:59-68 | two accepted proofs with one commitment and different challenges give the witness |
| Ristretto.CanonicalScalars | packages/ap3-functions/ap3_functions/psi/psi_internal/ristretto.py:19-42 | padding, reducing and comparing accepts exactly the canonical encodings of 1 to q-1 |
| Ristretto.ScalarRoundTrip | packages/ap3-functions/ap3_functions/psi/psi_internal/ristretto.py:16-42 | every nonzero scalar survives encoding and decoding |
| Ristretto.RistrettoScalars | packages/ap3-functions/ap3_functions/psi/psi_internal/ristretto.py:19-42 | the same at the order of ristretto255 (section 4.4 of RFC 9496), and decoding is injective |
| Ristretto.BlindingIsABijection | packages/ap3-functions/ap3_functions/psi/psi_internal/psc_protocol.py:142-147 | nonzero scalars and non-identity points correspond one to one, so a blinded point is explained by exactly one scalar for every query |
| Ristretto.ZqLaws | packages/ap3-functions/ap3_functions/psi/psi_internal/ristretto.py:61-96 | the group laws relied on hold of addition modulo every prime that fits 32 bytes |
| Shuffle.SecureShuffle | packages/ap3-functions/ap3_functions/psi/psi_internal/utils.py:40-45 | the countdown loop on a fresh copy computes the shuffle of the draws and leaves its argument alone |
| Shuffle.ShuffleKeepsItems | packages/ap3-functions/ap3_functions/psi/psi_internal/utils.py:40-45 | the same items come out, as often |
| Shuffle.ShuffleIsABijection | packages/ap3-functions/ap3_functions/psi/psi_internal/utils.py:40-45 | for distinct items, draw sequences and rearrangements correspond one to one |
| Shuffle.EveryDraw | packages/ap3-functions/ap3_functions/psi/psi_internal/utils.py:40-45 | every sequence of draws comes from some supply of random numbers |
| Shuffle.EveryOrder | packages/ap3-functions/ap3_functions/psi/psi_internal/utils.py:40-45 | every order of a list, also one with repetitions, comes out for some supply |
| Json.TextDecode | src/ap3/signing/canonical.py:30-36 | the compact text of a value is uniquely decodable, also inside a longer text |
| Canonical.CanonicalExact | src/ap3/signing/canonical.py:30-37 | two values have the same canonical bytes exactly when they are equal, dictionary order aside |
| CanonicalText.CanonAscends | src/ap3/signing/canonical.py:30-36 | in every object the keys ascend by code point |
| CanonicalText.LessIsPrecedes | src/ap3/signing/canonical.py:32-32 | the order of keys is that of the first differing code point, a proper beginning first |
| CanonicalText.CompactText | src/ap3/signing/canonical.py:33-33 | items are separated by commas, keys and values by colons, and by nothing else |
| CanonicalText.EscapesAreMinimal | src/ap3/signing/canonical.py:34-34 | the escapes are those of section 7 of RFC 8259, short where there is a short one, and no other character is escaped |
| CanonicalText.QuoteText | src/ap3/signing/canonical.py:34-34 | a string is its escaped characters between two quotes |
| CanonicalText.DigitsShow | src/ap3/signing/canonical.py:30-36 | numbers are decimal, without leading zeros |
| CanonicalText.AnswerText | packages/ap3-functions/ap3_functions/psi/operations.py:210-217 | the two answers as they are encoded |
| Bytes.Utf8CharForm | src/ap3/signing/canonical.py:37-37 | UTF-8 in the shortest form of section 3 of RFC 3629 |
| Bytes.HexInjective | src/ap3/a2a/_core.py:716-722 | equal hexadecimal texts mean equal digests |
| Directives.IntentBytesInjective | src/ap3/types/directive.py:135-136 | equal signed bytes mean equal fields of the intent |
| Directives.ResultBytesInjective | src/ap3/types/directive.py:218-219 | equal signed bytes mean equal fields of the result |
| CanonicalText.IntentSignedText | src/ap3/types/directive.py:120-137 | the bytes an intent's signature covers are its domain and the text of its seven fields in ascending order |
| CanonicalText.ResultSignedText | src/ap3/types/directive.py:207-220 | the same for a result and its nested objects |
| Directives.KindsDisjoint | src/ap3/types/directive.py:25-26 | no intent has the signed bytes of a result |
| Directives.VerifiedMeansSigned | src/ap3/types/directive.py:139-157 | if only what a key's owner signed verifies, a verified intent carries the fields of an intent the owner signed |
| PeerClient.Client.constructor | src/ap3/a2a/client.py:45-59 | a new client knows no peer |
| PeerClient.Client.BeginResolve | src/ap3/a2a/client.py:86-99 | up to the card fetch, as the function says; the time of a forced one is recorded before it |
| PeerClient.Client.FinishResolve | src/ap3/a2a/client.py:99-102 | after the fetch, as the function says; `FetchDecides` says what it returns |
| PeerClient.RefreshesApart | src/ap3/a2a/client.py:86-102 | a forced fetch of the card of a peer that is cached by then comes at least the interval after every earlier one, also when calls interleave during a fetch |
| PeerClient.RefreshRate | src/ap3/a2a/client.py:86-93 | n forced fetches span at least (n - 1) intervals when the peer is cached by the second of them |
| PeerClient.UnlimitedWhenUnknown | src/ap3/a2a/client.py:87-93 | while the peer is not cached, nothing keeps two forced fetches apart |
| PeerClient.FetchDecides | src/ap3/a2a/client.py:99-102 | a resolution that fetched a card returns what that card says, whatever was cached, and raises when it says nothing usable or there is none |
| PeerClient.PlainCall | src/ap3/a2a/client.py:94-102 | a call that is not forced returns the cached peer, else reads the cached card, else fetches |
| PeerClient.ForcedCall | src/ap3/a2a/client.py:86-93 | a forced call fetches unless the peer is cached and the last forced fetch is less than the interval ago |
| PeerClient.OtherUrls | src/ap3/a2a/client.py:86-102 | no event changes what is cached of another URL |
| PeerClient.CachedPeer | src/ap3/a2a/client.py:99-102 | in every run the cached peer is the one learned last |
| PeerClient.CachedCard | src/ap3/a2a/client.py:99-102 | and the cached card the one brought last |
| PeerClient.CachedCallSays | src/ap3/a2a/client.py:94-98 | a call that is not forced and finds the peer cached returns, without a fetch, what the latest usable card said |
| PeerClient.RecentlyRefreshed | src/ap3/a2a/client.py:86-93 | a forced call answered from the cache follows a forced fetch of that card within the interval, or the clock reads less than the interval |

## Left out

- HTTP, the A2A client and server, protobuf, agent cards, examples and the playground: transport delivers envelopes, possibly duplicated and interleaved.
- The cap of 4 MiB on an envelope: below the size of a million-entry second message; the end-to-end run is over lists up to the list cap only.
- The lock table of the receiver: a lock entry can be evicted while a handler waits for it, so mutual exclusion is the stated assumption `Exclusive`, not a theorem.
- What other handlers of the initiator's core do while `run_intent` awaits a reply: an arbitrary change of its operation's table, assumed only to leave the run's own session alone; the end-to-end run that compares whole tables is without them.
- Agreement of the two session tables in a core that also initiates: the operation's table then holds initiator sessions too.
- ISO-8601: an expiry is one instant or unreadable. A timestamp without a time zone, on which `is_expired` raises, is not modelled.
- Configurations hold a list of strings; a list with other items, on which hashing raises, is not modelled.
- Floats in payloads, and the order of keys by UTF-16 units in section 3.2.3 of RFC 8785: keys are ordered by code points as Python does.
- The inside of the group library: `Times` raises when a product is the identity, which is the library's behaviour and not in the repository.
- Base64 leniency: only decoding after encoding is fixed, and what else decodes is arbitrary.
- Compatibility scores, discovery, commitment search and the placeholder proofs in a result: compatibility is a predicate of the peer, and the proofs are three hashes without a claim.
- URL normalisation and the URL guard: arbitrary functions.
- Error texts, logging and metadata of operation results.
- PeerClient.RefreshRate: counts forced fetches only, since a peer that is not cached is fetched without limit.
