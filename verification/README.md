# Vibe Bridge, verified model

Vibe Bridge connects coding agents in terminals to a small USB board with an
LCD. A daemon on the host registers agents, asks the board for session ids,
mirrors terminal output to the session the board shows, and passes permission
questions to the board and its answers back. This project models the parts that
carry state or transform data, and proves what they are for.

`dafny verify dfyconfig.toml` checks everything.

| file | models |
|---|---|
| Utf8, Codec, Payloads | the wire format: UTF-8 (section 3 of RFC 3629), 64-byte reports, message payloads and their truncation |
| TerminalRing | the byte-exact terminal history of the Rust daemon |
| DaemonModel | the Rust daemon as a state machine: one event per critical section |
| BoardDaemon | the same daemon as a class whose methods update its tables in place, proved to refine the state machine |
| DaemonInvariant | what every step and run keeps, and what the daemon may say to whom |
| Bindings | who owns a sid, who is focused and who is registered, read off the events |
| AgentRecord, Pruning | what the daemon knows of an agent, and when a discovery poll drops it |
| Announcements, BoardView | what the board is told of a session, and when that is up to date |
| SessionMatching | first-in first-out matching of board replies to session requests |
| FocusReplay | what the board shows of the focused session |
| Permissions, OpenRequests | the permission hand-off: which decisions stand, which requests are open, what a poll answers and what the tool hook makes of it |
| Delivery | the retrying flush over whole runs |
| SgrRewriter, SgrRemap | the streaming rewriter of SGR sequences (section 8.3.117 of ECMA-48) and its two remaps |
| ThemedText | the themed remap on whole texts |
| OutputAdapter, Chunking | the output adapter: table detector, rewriter and theme in one class; and for which chunkings it puts out and holds what it would for the whole text |
| Sessions, ScreenRouter, PythonDaemon | the Python daemon's tables and the handlers that keep them in step |
| Forwarder | the drop-oldest queue between two threads |
| WindowsArgs, Base64, JsoncComments | quoting, base64 (section 4 of RFC 4648) and comment stripping |
| TerminalProfiles, ProfileShells | the wrapping of terminal profiles: what is found again, what starts, and which shell is meant |
| AgentMatching | matching of transcripts to live processes |
| Wrappers, Sequences | shared datatypes and facts about sequences |

## How to read it

The Rust daemon runs every handler under one mutex, so each handler is one
event of `DaemonModel` and one method of the class `BoardDaemon.BridgeDaemon`.
The method's contract is an equation with the event's step function; the
theorems are about the step function and whole runs of it. A send either
succeeds or fails; a failed one is not delivered. The order in which a hash map
is visited is left open: the heartbeat event carries the order it used, and the
class visits its keys in an arbitrary one. In the Python daemon the callbacks
that a method of the session table or the router makes are recorded by that
method and handled, in order, right after it. Clock readings are parameters.
`PythonDaemon.Daemon.Valid`, which every handler keeps, says that sessions,
buffers and owners list the same ids, that a focused session is the router's
active one and hence live, that terminal output was only ever queued for the
session focused at that moment, and that the clients answered and the clients
waiting are, in order, those whose requests were forwarded.

Where a claim one would expect is false, the model keeps the code's behaviour,
says exactly when the claim holds, and gives an input or a run that fails it:

- A board reply is matched to the wrong request after an abort of a still
  pending agent, or after a rejection (`SessionMatching.RepliesMatchRequestsIff`,
  `AbortShiftsReplies`, `RejectionShiftsReplies`).
- A grant of the focused sid shows the agent it binds without replaying its
  history (`FocusReplay.GrantShowsHistoryIff`, `GrantLosesHistory`).
- An agent registered with itself as parent gets every byte twice
  (`FocusReplay.StreamSendsOnceIff`, `SelfAttachedGetsTwice`).
- The comment at src/vibe_bridge/daemon.py:503-504 says that a board focus
  replays the session. It does not when the router already considers the session
  active, which it does for the first one registered
  (`PythonDaemon.Daemon.HandleHidSessionFocus`,
  `PythonDaemon.Daemon.BoardShowsSnapshotIff`, `FirstSessionIsNotReplayed`).
- The board is not told of a status that comes with the registration of an agent it
  already shows, nor that token counts went back to zero
  (`BoardView.StatusIsCurrentIff`, `UsageIsCurrentIff`).
- Permission requests and agent metadata are cut at bytes, so they decode exactly
  when no character is split (`Payloads.PermissionRequestRoundTrip`,
  `AgentMetaRoundTrip`, `AccentedToolIsLost`, `AccentedDirectoryIsLost`).
- What is recognised as a Markdown table depends on how the text is chunked
  (`Chunking.ChunkingIsIrrelevantIff`, `ChunkingMatters`).
- The plain remap takes colour arguments for commands (`SgrRemap.LcdRewritesCommandsIff`,
  `IndexedWhiteIsMangled`), and both remaps may leave a colour command that is cut
  short to read its arguments from what the next command became
  (`SgrRemap.LcdReadAsIntendedIff`, `TruncatedReverseLeaks`; `ReadAsIntendedIff`,
  `TruncatedColourLeaks`).
- The themed remap of a text may make a sequence that was not there, where one that
  vanishes kept its neighbours apart (`ThemedText.ThemedRemapActsOnSequencesIff`,
  `VanishedSequenceFuses`).
- Base64 decoding accepts more than encodings (`Base64.IsEncodingIff`,
  `LeftoverBitsAreIgnored`, `PaddingMayEndAnyGroup`).
- A wrapped command line does not start the program given when its path has a
  quotation mark or ends in a backslash (`TerminalProfiles.WrappedProgramIff`).
- A profile name that contains the marker as a word may make the original of a
  wrapped profile impossible to find, or another be found in its place
  (`TerminalProfiles.FindsOriginalIff`, `MarkerInNameLosesOriginal`,
  `MarkerInNameFindsAnother`), and wrapping again is not always without effect
  (`WrapIsIdempotentIff`, `EmptyOriginalIsWrappedAgain`).
- Which process each transcript is matched to depends on the iteration order of a
  hash map (`AgentMatching.OrderIsIrrelevantIff`), and so may which transcripts are
  kept (`SlotOrderMatters`); one agent may be listed twice
  (`DedupLeavesOneEachIff`, `SharedIdKeepsTwo`).

## Model

| member | source | states |
|---|---|---|
| Utf8.DecodeEncode | crates/vb-protocol/src/payloads.rs:32-62 | decoding the UTF-8 bytes of any text gives the text back |
| Utf8.EncodeDecode | crates/vb-protocol/src/payloads.rs:50-62 | bytes that decode are exactly the encoding of what they decode to: only shortest forms are accepted |
| Utf8.CutDecodesAtBoundaries | crates/vb-protocol/src/payloads.rs:32-48 | a byte cut of a text decodes to the whole characters before it exactly when it falls on a character boundary |
| Codec.EncodeFrame | crates/vb-protocol/src/codec.rs:51-63 | a report is refused only for an oversize payload; otherwise it is header, payload and zero padding, 64 bytes |
| Codec.DecodeEncodedFrame | crates/vb-protocol/src/codec.rs:65-85 | decoding an encoded frame gives the frame, whatever padding follows |
| Codec.EncodeDecodedFrame | crates/vb-protocol/src/codec.rs:65-85 | a report that decodes starts with the encoding of the frame it decodes to |
| Codec.SplitReassembles | crates/vb-protocol/src/codec.rs:87-105 | the frames of a message carry its command and sid under the report id 0x20, each but the last is full with 58 bytes, their payloads concatenate to the message payload, and one frame is used exactly for payloads of at most 58 bytes |
| Codec.CommandsAreNumbered | crates/vb-protocol/src/lib.rs:32-75 | the number of every command on the wire |
| Payloads.TokenUsageRoundTrip | crates/vb-protocol/src/payloads.rs:11-30 | the three 64-bit counters survive encoding and decoding |
| Payloads.EncodeTurnAppend | crates/vb-protocol/src/payloads.rs:32-48 | the loop that moves the cut back ends at the longest character boundary within 57 bytes |
| Payloads.TurnPayloadIsLongestPrefix | crates/vb-protocol/src/payloads.rs:32-65 | for every text and role the payload has at most 58 bytes and decodes to the longest whole-character prefix of at most 57 bytes, which has at least 54 bytes whenever it is not the whole text |
| Payloads.PermissionRequestRoundTrip | crates/vb-protocol/src/payloads.rs:67-92 | a permission request holds at most 24 bytes of the tool and as many of the arguments as 58 bytes leave; it decodes exactly when neither cut splits a character, and then to the id and the longest prefixes that fit |
| Payloads.AccentedToolIsLost | crates/vb-protocol/src/payloads.rs:67-92 | for example, a tool name of 23 letters and an accented one cannot be read back, whatever the arguments |
| Payloads.PermissionResponseRoundTrip | crates/vb-protocol/src/payloads.rs:94-115 | every answer decodes to its request id and decision |
| Payloads.CodesAreProtocols | crates/vb-protocol/src/lib.rs:131-146 | the codes of decisions and roles |
| Payloads.LittleEndianDigit | crates/vb-protocol/src/payloads.rs:11-30 | byte `i` of an encoded counter or id is its `i`-th digit to base 256, lowest first |
| Payloads.AgentMetaRoundTrip | crates/vb-protocol/src/payloads.rs:123-149 | agent metadata leaves room for 16 bytes of the branch and fills 58 bytes; it decodes exactly when neither byte cut splits a character, and then to the kind and the longest prefixes that fit |
| Payloads.AccentedDirectoryIsLost | crates/vb-protocol/src/payloads.rs:123-149 | for example, a directory of 55 letters and an accented one cannot be read back |
| TerminalRing.AppendTerminalBytes | crates/vb-daemon/src/lib.rs:1010-1037 | the chunk-by-chunk trim loop terminates and computes the ring specification |
| TerminalRing.AppendIsWindow | crates/vb-daemon/src/lib.rs:1010-1045 | the snapshot after an append is the last 65536 bytes of the old snapshot and the new bytes, and the length field is the exact sum of the chunk lengths |
| TerminalRing.AppendTimesIsWindow | crates/vb-daemon/src/lib.rs:407-428 | the same for an append repeated by the mirror loop |
| BoardDaemon.BridgeDaemon.RegisterAgent | crates/vb-daemon/src/lib.rs:128-188 | registration in place equals the specified step: a known key keeps binding, turns, permissions and history; a new one asks the board, unless it only transports a terminal |
| BoardDaemon.BridgeDaemon.ReportActivity | crates/vb-daemon/src/lib.rs:190-206 | status report in place equals the specified step |
| BoardDaemon.BridgeDaemon.UpdateTokens | crates/vb-daemon/src/lib.rs:217-241 | token update in place equals the specified step, errors included |
| BoardDaemon.BridgeDaemon.AppendTurn | crates/vb-daemon/src/lib.rs:242-286 | a turn joins the last 50 and re-renders a focused passive agent |
| BoardDaemon.BridgeDaemon.RequestPermission | crates/vb-daemon/src/lib.rs:287-331 | a request forgets an earlier answer under its id, joins the pending ones and is announced |
| BoardDaemon.BridgeDaemon.ResolvePermission | crates/vb-daemon/src/lib.rs:332-356 | all pending requests of the id go, and their number is reported |
| BoardDaemon.BridgeDaemon.PollPermission | crates/vb-daemon/src/lib.rs:357-391 | a decided request is answered and forgotten; otherwise the reply says whether it is still pending |
| BoardDaemon.BridgeDaemon.StreamTerminal | crates/vb-daemon/src/lib.rs:392-430 | the mirror loop over the agents equals the specified append to every mirror and the messages for the focused one |
| BoardDaemon.BridgeDaemon.AbortSession | crates/vb-daemon/src/lib.rs:431-456 | the agent and its place in the pending queue go |
| BoardDaemon.BridgeDaemon.IngestDiscoveredTurns | crates/vb-daemon/src/lib.rs:470-494 | turns of known agents are appended, others skipped |
| BoardDaemon.BridgeDaemon.PruneMissingPassiveSessions | crates/vb-daemon/src/lib.rs:500-541 | exactly the bound passive agents missing from three polls in a row are dropped, with their queue entries and counters |
| BoardDaemon.BridgeDaemon.RegisterDiscoveredSessions | crates/vb-daemon/src/lib.rs:547-570 | each unknown session is registered and asked for once; the number added is the growth of the table |
| BoardDaemon.BridgeDaemon.HandleBoardMessage | crates/vb-daemon/src/lib.rs:575-594 | dispatch of board messages, unsupported commands refused |
| BoardDaemon.BridgeDaemon.EnqueueBoardSessionRequest | crates/vb-daemon/src/lib.rs:596-624 | a key is queued and its hint sent only if it is not queued yet |
| BoardDaemon.BridgeDaemon.OnSessionResponse | crates/vb-daemon/src/lib.rs:626-662 | a rejected reply returns before the queue is touched; a granted one binds the head of the queue and clears every other owner of the sid |
| BoardDaemon.BridgeDaemon.OnSessionInvalid | crates/vb-daemon/src/lib.rs:664-677 | every owner of the sid is unbound and a focus on it cleared; sid 0 changes nothing |
| BoardDaemon.BridgeDaemon.ClearBoardSidOwners | crates/vb-daemon/src/lib.rs:679-708 | the loop unbinds every owner except the one to keep |
| BoardDaemon.BridgeDaemon.FocusBoardSid | crates/vb-daemon/src/lib.rs:710-744 | a focus is stored even without an owner, and replayed with one |
| BoardDaemon.BridgeDaemon.OnPermissionResponse | crates/vb-daemon/src/lib.rs:746-765 | an answer moves the request of the sid's owner from pending to decided |
| BoardDaemon.BridgeDaemon.PushHeartbeats | crates/vb-daemon/src/lib.rs:1303-1327 | one broadcast heartbeat and one per bound agent, in some order |
| BoardDaemon.BridgeDaemon.FlushBoardOutbox | crates/vb-daemon/src/lib.rs:1484-1512 | the nested loops send frames until the transport fails and put the failed message back at the head |
| DaemonInvariant.StepKeepsInv | crates/vb-daemon/src/lib.rs:124-459 | every critical section keeps the invariant: keys match, no two agents share a sid, no agent is bound to 0, the pending queue has no duplicates and holds only registered unbound agents, pending and decided request ids are disjoint, every ring is well formed |
| DaemonInvariant.RunKeepsInv | crates/vb-daemon/src/lib.rs:124-459 | so does every run |
| DaemonInvariant.GrantFindsItsAgent | crates/vb-daemon/src/lib.rs:626-662 | a granted reply always finds its agent registered and unbound: the "pending agent disappeared" error and the transfer of an old focus are unreachable, and afterwards that agent alone owns the sid |
| DaemonInvariant.StepSaysProperly | crates/vb-daemon/src/lib.rs:575-624 | whatever a step enqueues is a suffix of the new outbox and proper in the state it leaves |
| DaemonInvariant.StepUses | crates/vb-daemon/src/lib.rs:776-896 | each kind of event enqueues its own kinds of message only |
| DaemonInvariant.EveryMessageIsProper | crates/vb-daemon/src/lib.rs:392-430 | in every legal run, each enqueued message is a broadcast or addressed to a sid that exactly one agent then owns; terminal bytes go to the sid focused at that moment; everything else fits one frame |
| DaemonInvariant.RefusedChangesNothing | crates/vb-daemon/src/lib.rs:124-459 | an event that is refused leaves the whole state as it was, a failed flush excepted |
| Bindings.OwnsStep | crates/vb-daemon/src/lib.rs:626-708 | an agent owns a sid after a step exactly when the step grants it to the head of the queue, which it is, or it owned it and the step neither grants it to another, invalidates it, nor removes the agent |
| Bindings.OwnsIff | crates/vb-daemon/src/lib.rs:626-708 | in every reachable state an agent owns a sid exactly when some grant bound it and no event since has undone that |
| Bindings.FocusedIff | crates/vb-daemon/src/lib.rs:710-744 | in every reachable state the focused sid is the one of the last focus message, unless it was declared invalid since |
| Bindings.DiscoverRegisters | crates/vb-daemon/src/lib.rs:547-570 | a discovery registers exactly the agents it lists and leaves known ones as they are |
| Announcements.StepTells | crates/vb-daemon/src/lib.rs:776-804 | per kind of message: the step that binds an agent introduces it with its metadata, its status, its token counts unless zero, the last turn if it was launched, and every pending request; any other step tells what its event reports, once, and nothing else |
| Announcements.BoardIsTold | crates/vb-daemon/src/lib.rs:776-804 | in every legal run, what is enqueued about a sid since the grant that bound its owner is, kind by kind, exactly the introduction and then the reports since, each once and in order |
| Announcements.PendingIsAnnounced | crates/vb-daemon/src/lib.rs:797-801 | in every legal run each request pending on a bound agent is among the messages enqueued for its sid at or after the step that bound it |
| Announcements.HeartbeatIsBroadcast | crates/vb-daemon/src/lib.rs:1303-1327 | a heartbeat also goes out once to sid 0, and nothing but heartbeats is enqueued |
| Announcements.KindIsCoded | crates/vb-daemon/src/lib.rs:918-925 | the codes of the kinds of agent |
| Announcements.StatusIsRead | crates/vb-daemon/src/lib.rs:927-936 | which state of its own the board reads from each status |
| BoardView.StatusIsCurrentIff | crates/vb-daemon/src/lib.rs:128-206 | in every legal run the status the board was told last is the present one, exactly unless it came with a registration of the bound agent and no report since |
| BoardView.UsageIsCurrentIff | crates/vb-daemon/src/lib.rs:828-838 | in every legal run the token counts the board was told last are the present ones exactly unless those are zero; told none, they are zero |
| AgentRecord.RecordIsKnown | crates/vb-daemon/src/lib.rs:128-286 | in every reachable state an agent's name, directory, status, token counts, last 50 turns, origin and parent are what its own events said since it was registered |
| AgentRecord.RegisteredIff | crates/vb-daemon/src/lib.rs:431-570 | after any event an agent is registered exactly when the event registers or lists it, or it was and the event neither aborts it nor is its third missed poll |
| AgentRecord.RegistrationLeads | crates/vb-daemon/src/lib.rs:158-186 | after an accepted registration the agent is bound, in the queue, or a launched terminal; only unbound agents join the queue, and launched terminals never do |
| AgentRecord.DiscoveryLeads | crates/vb-daemon/src/lib.rs:547-570 | every agent a discovery registers is in the queue after it |
| Pruning.CounterIsMissed | crates/vb-daemon/src/lib.rs:500-541 | in every reachable state the counter of an agent known from discovery only is the number of polls that missed it, bound, since it was last seen, and at most two |
| Pruning.PollDropsIff | crates/vb-daemon/src/lib.rs:500-541 | in every reachable state a poll drops an agent exactly when it misses it, the agent is bound and known from discovery only, and two earlier polls missed it so with no poll or discovery seeing it since the first of them; a counter that outlives an abort never counts |
| Pruning.PollKeepsOthers | crates/vb-daemon/src/lib.rs:500-541 | a poll changes no other agent, and neither queue, outbox nor focus |
| SessionMatching.GrantBindsTheBookedAgent | crates/vb-daemon/src/lib.rs:626-662 | a grant binds exactly the agent whose request the ledger says it answers |
| SessionMatching.GrantsFollowRequestsIff | crates/vb-daemon/src/lib.rs:596-662 | the n-th grant answers the n-th request for every n exactly when no request among them was dropped by an abort |
| SessionMatching.RepliesMatchRequestsIff | crates/vb-daemon/src/lib.rs:431-456 | the n-th board reply is used for the n-th request for every n exactly when every reply was a grant and no request among them was dropped by an abort of its still pending agent |
| SessionMatching.RepliesMatchRequests | crates/vb-daemon/src/lib.rs:500-541 | so without such aborts and with a granting board the matching is exact, however registrations, rebinds, prunes and invalidations interleave |
| SessionMatching.AbortShiftsReplies | crates/vb-daemon/src/lib.rs:431-456 | a run that fails it: two agents register, the first is aborted, and the first reply is used for the second request |
| SessionMatching.RejectionShiftsReplies | crates/vb-daemon/src/lib.rs:626-662 | another run that fails it: the request of the only agent is rejected and stays queued, and the second reply is used for it |
| SessionMatching.RunAsksOncePerRequest | crates/vb-daemon/src/lib.rs:596-624 | in every legal run the REQUEST_SESSION messages are as many as the booked requests, and the n-th carries the hint of the agent of the n-th, as that agent was when the step sent it |
| SessionMatching.GrantAnswersItsMessage | crates/vb-daemon/src/lib.rs:626-662 | in every legal run a grant gives its sid to exactly the agent whose hint the REQUEST_SESSION message it is booked on carried; without rejections and aborts of pending agents that is the n-th message for the n-th reply |
| SessionMatching.HintNamesAgent | crates/vb-daemon/src/lib.rs:599-623 | a request carries the agent's name, or its id if it has none, cut after 24 bytes, and can be read exactly when the cut splits no character |
| FocusReplay.ScreenEndsWithHistory | crates/vb-daemon/src/lib.rs:710-744 | from a focus on an owned sid, until a focus elsewhere, an invalidation, a rebinding of the sid or the owner going away, the terminal bytes enqueued for it since then end with the owner's history |
| FocusReplay.FocusClearsScreen | crates/vb-daemon/src/lib.rs:865-916 | the terminal bytes of a focus on an owned sid are the clearing sequence and the history; without a history, the clearing sequence alone for a launched agent, with a text that names the agent and its kind for a passive one, and nothing for one attached to another |
| FocusReplay.GrantShowsHistoryIff | crates/vb-daemon/src/lib.rs:626-662 | why rebinding is excluded: from a grant of the focused sid on, while undisturbed, the terminal bytes enqueued for it end with the new owner's history exactly when a focus or a live render replayed it since, it had none at the grant, or at least 65536 bytes came since |
| FocusReplay.GrantLosesHistory | crates/vb-daemon/src/lib.rs:710-744 | a run that fails it: an agent asks for a session and receives a byte, the board focuses the sid before granting it, and the byte is never shown |
| FocusReplay.HistoryIsWindowOfReceived | crates/vb-daemon/src/lib.rs:407-428 | in every reachable state an agent's history is the last 65536 of all bytes sent or mirrored to it since it was registered |
| FocusReplay.StreamSendsOnceIff | crates/vb-daemon/src/lib.rs:408-428 | a stream enqueues at most one message exactly unless it comes from the focused agent attached to itself, which gets it twice |
| FocusReplay.SelfAttachedGetsTwice | crates/vb-daemon/src/lib.rs:128-188 | a run that leads there: an agent registered as its own parent, granted a session, and focused |
| Permissions.StepStored | crates/vb-daemon/src/lib.rs:287-391 | each step stores the decision it brings, drops one that is spent, or leaves stored decisions alone |
| Permissions.StoredIffStands | crates/vb-daemon/src/lib.rs:746-765 | a decision is waiting to be polled exactly when some board answer for it has neither been replaced nor spent |
| Permissions.PendingAndDecidedDisjoint | crates/vb-daemon/src/lib.rs:287-391 | no request is both pending and decided in any reachable state |
| Permissions.PollReturnsBoardDecision | crates/vb-daemon/src/lib.rs:357-391 | a poll returns what the board sent for this request through a sid then bound to this agent, with no newer request, poll or abort in between |
| Permissions.EachAnswerIsReturnedOnce | crates/vb-daemon/src/lib.rs:357-391 | two polls never return the same board answer |
| OpenRequests.PendingIffOpen | crates/vb-daemon/src/lib.rs:287-391 | a request is pending in exactly the runs that asked for it of a registered agent and since then neither resolved it, decided it nor removed the agent |
| OpenRequests.PollAnswersIff | crates/vb-daemon/src/lib.rs:357-391 | in every run a poll answers a decision exactly when it stands, "pending" exactly when the request is open, "not pending" exactly when the agent is registered and neither holds, and an error exactly for an unknown agent or kind |
| OpenRequests.ResolutionCounts | crates/vb-daemon/src/lib.rs:332-356 | the number a resolution reports is how many requests under the id were pending, and none is after it |
| Permissions.PollUntilDeadline | adapters/claude-code-hook/index.js:161-181 | the polling loop ends with the first decision, or "ask" when the request is gone or time is up |
| Permissions.HookVerdictIsTheBoards | adapters/claude-code-hook/index.js:209-245 | the hook prints allow only after Allow or Always, and deny only after Deny, for this request, later than it was made, through a sid bound to its agent |
| OpenRequests.HookConcludes | adapters/claude-code-hook/index.js:161-181 | the hook polls on while its request is open; the first poll at which it is not settles the verdict: the decision that stands, else "ask" as at the deadline, or none if the agent is gone |
| OpenRequests.HookHearsTheBoard | adapters/claude-code-hook/index.js:161-245 | if the request stays open until the board answers it, and a poll comes while that answer stands with none between, the hook prints the board's verdict |
| Delivery.DeliveryInOrder | crates/vb-daemon/src/lib.rs:1484-1512 | over any run with sends failing at arbitrary frames: messages sent whole and the outbox are exactly the messages enqueued, in order; the accepted frames are, message by message, proper prefixes of its frames and then all of them |
| Delivery.CompletedFramesArePayload | crates/vb-protocol/src/codec.rs:87-105 | the board's concatenation of a completed message is its payload |
| Delivery.OthersArriveOnce | crates/vb-daemon/src/lib.rs:605-624 | every message except terminal output arrives as one frame, exactly once |
| Delivery.FlushDrainsIff | crates/vb-daemon/src/lib.rs:1484-1512 | a flush empties the outbox exactly when the transport takes that many frames |
| SgrRewriter.SubstituteCut | src/vibe_bridge/wrapper.py:474-483 | the substitution can be cut wherever nothing is held back or an escape begins |
| SgrRewriter.StreamingRefinesWhole | src/vibe_bridge/wrapper.py:344-349 | for every chunking the outputs concatenate to the one-shot substitution on the text without the incomplete sequence at its end, which is what is held back |
| SgrRewriter.ThemedStreamingRefinesWhole | src/vibe_bridge/wrapper.py:333-342 | the same with a theme, the colour prefix emitted exactly once, before everything else |
| SgrRemap.ParseSgrParams | src/vibe_bridge/wrapper.py:557-567 | the parsing loop yields the number of every part, 0 for a missing one |
| SgrRemap.CodesOfJoin | src/vibe_bridge/wrapper.py:557-567 | parsing a printed parameter list gives the list |
| SgrRemap.RemapSgrForLcdTerminal | src/vibe_bridge/wrapper.py:494-508 | the loop replaces 7 and 27 by colours and keeps every other parameter |
| SgrRemap.LcdRemapActsOnParameters | src/vibe_bridge/wrapper.py:494-508 | the remap of a text rewrites the parameter numbers of its sequences, visible text is untouched, and no sequence appears or disappears; a rewritten sequence is printed with semicolons for colons and 0 for a missing parameter |
| SgrRemap.NoReverseVideoLeft | src/vibe_bridge/wrapper.py:494-508 | no sequence of a remapped text has parameter 7 or 27 |
| SgrRemap.ReverseBecomesColours | src/vibe_bridge/wrapper.py:494-508 | drawn, reverse video is a pale foreground on grey, and its end the default colours |
| SgrRemap.LcdRemapIdempotent | src/vibe_bridge/wrapper.py:494-508 | remapping twice is remapping once |
| SgrRemap.LcdRewritesCommandsIff | src/vibe_bridge/wrapper.py:494-508 | the remap of a parameter list rewrites its reverse video commands and nothing else exactly when no argument of a complete colour command is 7 or 27 |
| SgrRemap.IndexedWhiteIsMangled | src/vibe_bridge/wrapper.py:494-508 | for example ESC[38;5;7m: the argument 7 is taken for reverse video, and the pen ends up with another foreground and a background it did not have |
| SgrRemap.LcdReadAsIntendedIff | src/vibe_bridge/wrapper.py:494-508 | the rewritten list is read as the commands meant exactly when no argument of a complete colour command is 7 or 27 and no stray colour command takes what the remap puts after it for its mode and arguments |
| SgrRemap.TruncatedReverseLeaks | src/vibe_bridge/wrapper.py:494-508 | for example ESC[38;2;7m: no argument is 7, but the 38 takes part of what reverse video became for its arguments |
| SgrRemap.RemapSgrToGruvbox | src/vibe_bridge/wrapper.py:511-554 | the index loop equals the specified rewriting; an empty list becomes a reset and the two theme colours |
| SgrRemap.ReadAsIntendedIff | src/vibe_bridge/wrapper.py:511-554 | the rewritten list is read as the commands meant exactly when no stray colour command takes what the rewriting puts after it for its mode and arguments |
| SgrRemap.GruvboxMeansTheSame | src/vibe_bridge/wrapper.py:511-554 | for every parameter list without such a leak, drawing the rewritten list with the themed pen gives the themed form of what the original draws |
| SgrRemap.ThemeColours | src/vibe_bridge/wrapper.py:514-537 | drawn, a reset leaves the two theme colours, and each background colour the soft one |
| SgrRemap.BasicColours | src/vibe_bridge/wrapper.py:165-182 | drawn, the dark and bright foregrounds 30-37 and 90-97 have the sixteen theme colours, given here in hexadecimal |
| SgrRemap.TruncatedColourLeaks | src/vibe_bridge/wrapper.py:511-554 | a colour command cut short can leak: ESC[38;2;36m turns the background cyan |
| SgrRemap.ResetHidesLeak | src/vibe_bridge/wrapper.py:511-554 | a leak need not last: in ESC[38;2;36;0m the reset restores the pen |
| ThemedText.ThemedRemapActsOnSequencesIff | src/vibe_bridge/wrapper.py:511-554 | for every text the themed remap turns each sequence into its themed form, makes no other and leaves visible text alone exactly when no escape outside sequences would begin one once the sequences that only switch reverse video are left out |
| ThemedText.VanishedSequenceFuses | src/vibe_bridge/wrapper.py:474-483 | for example ESC, ESC[7m and `[31m`, which come out as a sequence without a theme |
| OutputAdapter.LinesMakeTheText | src/vibe_bridge/wrapper.py:277-281 | splitting into lines loses nothing |
| OutputAdapter.LinesEndAtBreaks | src/vibe_bridge/wrapper.py:277-281 | a line holds none of the ten characters that end one except at its end, every line but the last has one there, and CR LF is never split |
| OutputAdapter.NothingIsLost | src/vibe_bridge/wrapper.py:273-331 | for every chunking the items shown, the open item and the partial line were read from exactly the input, in order |
| OutputAdapter.TablesAreGenuine | src/vibe_bridge/wrapper.py:298-321 | only a heading row directly above a separator line makes a table, and a table holds rows only |
| OutputAdapter.TableIsShown | src/vibe_bridge/wrapper.py:298-331 | and every table is recognised: a row above a separator, nothing being open, makes one with all the rows that follow, and the next other line ends it |
| OutputAdapter.LoneRowIsText | src/vibe_bridge/wrapper.py:298-321 | a row above any other line goes out as it is, and the other line is read afresh |
| OutputAdapter.OtherLineIsText | src/vibe_bridge/wrapper.py:298-321 | any other line goes out at once |
| OutputAdapter.TableIsLaidOut | src/vibe_bridge/wrapper.py:323-331 | a table is laid out from the cells of its heading and its further rows, in order, without the separator |
| OutputAdapter.PlainTextPassesThrough | src/vibe_bridge/wrapper.py:273-331 | as long as no table opened, the text shown, the held heading and the held partial line are the input |
| OutputAdapter.HeldOnlyForTables | src/vibe_bridge/wrapper.py:286-296 | a partial line is held only while a table may be in progress or when it contains a bar |
| Chunking.ChunkingIsIrrelevantIff | src/vibe_bridge/wrapper.py:273-321 | after every chunk the adapter holds what it would for the text so far in one call, and has put out the same whatever the table layout, exactly when every cut falls between two lines, inside a line still held, or inside a line let out of which neither the rest nor the whole is held past the next line (between CR and LF: if the line before was not held past the next one) |
| Chunking.TextWithoutBarsMayBeCut | src/vibe_bridge/wrapper.py:286-296 | in particular for every chunking of a text without a bar |
| Chunking.LayoutMayHideIt | src/vibe_bridge/wrapper.py:298-331 | why every layout is asked for: a table begun and ended in one chunk may be laid out as if the front of its heading had not gone out before |
| Chunking.ChunkingMatters | src/vibe_bridge/wrapper.py:286-296 | for example, a table heading is recognised in the rest of a line whose first words went out |
| OutputAdapter.LcdOutputAdapter.FlushTableState | src/vibe_bridge/wrapper.py:323-331 | the open item is shown and closed |
| OutputAdapter.LcdOutputAdapter.ProcessCompleteLine | src/vibe_bridge/wrapper.py:298-321 | the self-recursive method takes a line into the page; a pending heading and an open table never coexist, which is the measure of the recursion |
| OutputAdapter.LcdOutputAdapter.RenderLiveMarkdown | src/vibe_bridge/wrapper.py:273-296 | its output is what the page newly shows |
| OutputAdapter.LcdOutputAdapter.ApplyGruvboxTheme | src/vibe_bridge/wrapper.py:333-342 | one chunk through the themed rewriter |
| OutputAdapter.PrefixSetsTheme | src/vibe_bridge/wrapper.py:339-341 | what is sent ahead of themed output is read as the theme's foreground and background and shows nothing |
| OutputAdapter.TranslateAppend | src/vibe_bridge/wrapper.py:264-266 | characters are replaced one by one, wherever the text is cut |
| OutputAdapter.LcdOutputAdapter.ApplyTerminalCompat | src/vibe_bridge/wrapper.py:344-349 | one chunk through the plain rewriter |
| OutputAdapter.LcdOutputAdapter.Feed | src/vibe_bridge/wrapper.py:261-271 | after any sequence of calls everything emitted is the one-shot rewriting of the items shown, without an incomplete sequence at the end |
| Sessions.ProbeVisitsAll | src/vibe_bridge/session_manager.py:203-216 | probing reaches every id within `max` steps |
| Sessions.ProbeVisitsOnce | src/vibe_bridge/session_manager.py:203-216 | and none twice |
| Sessions.RoomMeansFree | src/vibe_bridge/session_manager.py:203-211 | with fewer than `max` sessions the probe finds a free id, so the RuntimeError is unreachable |
| Sessions.TableFits | src/vibe_bridge/session_manager.py:89-117 | distinct ids in 1..max are at most max sessions |
| Sessions.StaleMeansIdle | src/vibe_bridge/session_manager.py:180-186 | a session is listed as expired exactly when it was last active before the cutoff |
| Sessions.StaleAreDistinct | src/vibe_bridge/session_manager.py:180-186 | no session is listed as expired twice |
| Sessions.SessionManager.RequestSession | src/vibe_bridge/session_manager.py:89-117 | a request always succeeds: after expiry a full pool gives up its first least recently active session, the first free id in the cycle is granted, and exactly the removed sessions are reported |
| Sessions.SessionManager.AdoptSession | src/vibe_bridge/session_manager.py:119-155 | an id in range always succeeds, evicting its holder or, in a full pool, the least recently active session; one out of range is refused |
| Sessions.SessionManager.InvalidateLocked | src/vibe_bridge/session_manager.py:193-201 | the session goes and is reported; the class invariant counts: every grant ever made is still live or was reported to the callback, exactly once |
| Sessions.SessionManager.Touch | src/vibe_bridge/session_manager.py:157-164 | only the named session's time changes |
| Sessions.TouchRenews | src/vibe_bridge/session_manager.py:157-164 | the touched table differs in that session's activity time only |
| Sessions.TouchedOutlives | src/vibe_bridge/session_manager.py:157-186 | a session just touched is expired exactly when the touch came before the cutoff |
| Sessions.SessionManager.Invalidate | src/vibe_bridge/session_manager.py:166-171 | a known session goes and is reported once |
| Sessions.SessionManager.ReapExpired | src/vibe_bridge/session_manager.py:173-186 | exactly the idle sessions go, each reported once |
| Sessions.SessionManager.PickLruLocked | src/vibe_bridge/session_manager.py:188-191 | the first of the least recently active sessions |
| Sessions.SessionManager.AllocateSidLocked | src/vibe_bridge/session_manager.py:203-211 | the first free id in cyclic order, and the cursor moves past it |
| ScreenRouter.FittingIsLongest | src/vibe_bridge/vt100_router.py:169-173 | eviction keeps the longest suffix of whole chunks that fits the bound |
| ScreenRouter.FittingTwice | src/vibe_bridge/vt100_router.py:142-150 | evicting after every chunk keeps what evicting once at the end would |
| ScreenRouter.Vt100Router.Register | src/vibe_bridge/vt100_router.py:48-53 | the first session registered while none is active becomes active without a replay, even with an old buffer |
| ScreenRouter.Vt100Router.Unregister | src/vibe_bridge/vt100_router.py:55-79 | losing the active session hands over to the oldest one left with a replay, or clears the screen |
| ScreenRouter.Vt100Router.SetActive | src/vibe_bridge/vt100_router.py:83-117 | a switch replays; naming the active session does nothing; an unknown one is refused |
| ScreenRouter.Vt100Router.ReplayActive | src/vibe_bridge/vt100_router.py:119-134 | replays without a switch |
| ScreenRouter.Vt100Router.Append | src/vibe_bridge/vt100_router.py:142-154 | the chunk joins the session's own; only the active session's output reaches the sink |
| ScreenRouter.Vt100Router.EvictLocked | src/vibe_bridge/vt100_router.py:169-173 | the eviction loop computes the fitting suffix and its size |
| ScreenRouter.Vt100Router.Snapshot | src/vibe_bridge/vt100_router.py:156-161 | the snapshot is the longest fitting suffix of the session's own chunks |
| ScreenRouter.Vt100Router.ShowsSnapshotIff | src/vibe_bridge/vt100_router.py:48-117 | what the sink received since the activation ends with the snapshot exactly when the activation replayed, or at least that many bytes came since |
| PythonDaemon.StreamPacketsCarryData | src/vibe_bridge/daemon.py:571-584 | the packets of one write concatenate to its bytes |
| PythonDaemon.RemovedAreReported | src/vibe_bridge/session_manager.py:89-155 | the sessions reported to the callback are exactly those that left the table |
| PythonDaemon.Daemon.OnSessionInvalidate | src/vibe_bridge/daemon.py:671-683 | a removed session loses buffer, owner and focus, and its owner is told |
| PythonDaemon.Daemon.HandleRequestSession | src/vibe_bridge/daemon.py:292-307 | the first free id in the cycle is granted after expired sessions and, in a full pool, the least recently active one are gone; their owners are told, in order, and then the client, who owns the new session |
| PythonDaemon.Daemon.HandleVt100 | src/vibe_bridge/daemon.py:309-314 | output renews its session's activity time and joins its buffer; of the focused session it is queued in full for the board, of others not at all; for an unknown session only the sender is told |
| PythonDaemon.Daemon.ValidateSession | src/vibe_bridge/daemon.py:652-669 | an unknown session is refused; a known one gets the sender as owner |
| PythonDaemon.Daemon.ForwardSessionRequestToBoard | src/vibe_bridge/daemon.py:274-288 | the packet is queued as it came and its client joins the queue of waiters under its hint; when the device is gone or the queue full the client is refused, after every other waiter in the latter case |
| PythonDaemon.Daemon.HandleHidSessionResponse | src/vibe_bridge/daemon.py:421-470 | the answer goes to the client of the n-th forwarded request if n - 1 were answered before, and that request leaves the queue; after a grant the client owns the granted session and no other, all others keep theirs but those that made room, whose owners are told first; otherwise the client alone is told and nothing else changes |
| PythonDaemon.Daemon.AnswersFollowRequests | src/vibe_bridge/daemon.py:620-624 | in every reachable state with the device open, the clients answered are those whose requests were forwarded, in the same order, and the waiters are the rest |
| PythonDaemon.Daemon.HandleHidSessionInvalid | src/vibe_bridge/daemon.py:472-485 | a broadcast goes to the client of the oldest request, which waits no longer, or to all clients when none waits; otherwise the session goes from every table, its owner is told, and every waiter waits on |
| PythonDaemon.Daemon.HandleHidSessionFocus | src/vibe_bridge/daemon.py:487-507 | a focus on a live session opens the gate; the cleared screen and the whole buffer are queued exactly when the router was not already on that session |
| PythonDaemon.Daemon.BoardShowsSnapshotIff | src/vibe_bridge/daemon.py:487-507 | in every reachable state, the terminal bytes queued for the focused session since its focus end with its snapshot exactly when that focus replayed it, or at least that many bytes were queued since |
| PythonDaemon.FirstSessionIsNotReplayed | src/vibe_bridge/daemon.py:487-507 | a run that fails it: the first session granted receives output and is focused then; nothing is replayed and its snapshot is not shown |
| PythonDaemon.Daemon.HandleClientDisconnect | src/vibe_bridge/daemon.py:685-694 | exactly the sessions the client owned go, each reported once |
| PythonDaemon.Daemon.ReapExpired | src/vibe_bridge/daemon.py:704-709 | exactly the idle sessions leave all tables, and their owners are told, in order |
| PythonDaemon.Daemon.OnHidScreenWrite | src/vibe_bridge/daemon.py:571-584 | only writes for the focused session are queued |
| PythonDaemon.Daemon.ForwardPacketToBoard | src/vibe_bridge/daemon.py:586-600 | a packet is queued unless the device is gone; a full queue makes it so |
| PythonDaemon.Daemon.WriteOne | src/vibe_bridge/daemon.py:358-382 | the writer takes packets in order; a lost device is given up and its waiting requests refused; a packet it cannot encode is skipped and nothing else changes |
| PythonDaemon.Daemon.HandleStatusUpdate | src/vibe_bridge/daemon.py:316-329 | an unknown session is refused; a known one gets the sender as owner and a new activity time |
| PythonDaemon.Daemon.HandlePluginPacketReal | src/vibe_bridge/daemon.py:248-272 | what each kind of packet puts on the board queue: a request itself, output of the focused session in full, status updates of live sessions, deprecated window packets nothing at all, and any other packet if it is a broadcast or its session is live |
| Forwarder.EveryInterleavingIsOrderly | src/vibe_bridge/forwarder.py:83-134 | for every interleaving of pusher and worker: chunks are sent in the order handed in, none twice; every chunk put was sent, failed, dropped, queued or in hand; the queue never exceeds its limit; the second overflow of a push never happens |
| Forwarder.BalanceAtRest | src/vibe_bridge/forwarder.py:83-134 | between pushes everything handed in was accepted and pushed = sent + errors + dropped + queued + in hand |
| Forwarder.NothingEmptyIsSent | src/vibe_bridge/forwarder.py:83-85 | nothing empty is handed in, put or sent |
| Forwarder.PushNeverBlocks | src/vibe_bridge/forwarder.py:83-103 | a push ends after at most four of its own steps, whatever the worker does |
| WindowsArgs.QuoteWindowsArg | crates/vb-daemon/src/main.rs:3336-3364 | the loop with its pending backslashes computes the specified quoting |
| WindowsArgs.ParseQuote | crates/vb-daemon/src/main.rs:3336-3364 | one quoted argument is read back as the value, whatever argument follows |
| WindowsArgs.ArgumentsRoundTrip | crates/vb-daemon/src/main.rs:3336-3364 | every list of strings, quoted and joined with spaces, is read back as the same list under the Microsoft C runtime rules |
| WindowsArgs.ArgumentsThenRest | crates/vb-daemon/src/main.rs:3336-3364 | the same with anything after them |
| WindowsArgs.ProgramAndArgsIff | crates/vb-daemon/src/main.rs:3321-3364 | with the runtime's own rule for the program name, which knows no backslash escapes, the whole line is read back exactly when the name has no quotation mark and does not end in a backslash |
| Base64.Base64EncodeBytes | crates/vb-daemon/src/main.rs:3901-3923 | the loop over groups of three computes the encoding |
| Base64.EncodeByPieces | crates/vb-host/src/agent_discovery.rs:1113-1134 | the agent discovery's own encoder, which cuts the bits out of each byte, computes the same encoding |
| Base64.Base64DecodeBytes | crates/vb-daemon/src/main.rs:3925-3974 | the loops compute the decoding, with the first error |
| Base64.DecodeEncodeWithWhitespace | crates/vb-daemon/src/main.rs:3925-3974 | decoding undoes encoding, with ASCII white space inserted anywhere |
| Base64.EncodingIsText | crates/vb-daemon/src/main.rs:3901-3923 | the encoding consists of visible ASCII characters other than quotation marks |
| Base64.SymbolsAreStandard | crates/vb-daemon/src/main.rs:3901-3923 | the alphabet of the standard |
| Base64.WhitespaceIsIgnoredIff | crates/vb-daemon/src/main.rs:3925-3974 | a byte makes no difference wherever it stands exactly if it is space, tab, line feed, form feed or carriage return |
| Base64.IsEncodingIff | crates/vb-daemon/src/main.rs:3925-3974 | a text that decodes is, white space aside, the encoding of its bytes exactly when only its last group is padded and the bits that padding leaves over are zero |
| Base64.LeftoverBitsAreIgnored | crates/vb-daemon/src/main.rs:3925-3974 | for example, two padded groups that differ only in those bits decode alike |
| Base64.PaddingMayEndAnyGroup | crates/vb-daemon/src/main.rs:3925-3974 | and a padded group may stand before any text: what follows is decoded as if it stood alone |
| JsoncComments.StripJsoncComments | crates/vb-daemon/src/main.rs:3366-3420 | the scanning loop with its flags computes the specified stripping |
| JsoncComments.OnlyCommentsAreRemoved | crates/vb-daemon/src/main.rs:3366-3420 | for every text made of strings, comments and other characters, the last string or comment closed or not: line comments leave their line end, block comments nothing, and everything else is kept, comment-like text in strings included |
| JsoncComments.EveryTextIsSettings | crates/vb-daemon/src/main.rs:3366-3420 | every text is made so |
| JsoncComments.StripIsIdempotent | crates/vb-daemon/src/main.rs:3366-3420 | stripping twice is stripping once, from every state of the scanner |
| TerminalProfiles.ExtractWrappedTerminalCmdline | crates/vb-daemon/src/main.rs:3303-3319 | the token loop decodes the token after the first marker |
| TerminalProfiles.ExtractWrapped | crates/vb-daemon/src/main.rs:3303-3334 | a wrapped command line yields the original, or, if an earlier word is the marker, what follows that |
| TerminalProfiles.FindsOriginalIff | crates/vb-daemon/src/main.rs:3303-3334 | so the original is found exactly when no earlier word is the marker or what follows the first one decodes to it |
| TerminalProfiles.OnlyCapturesAreRead | crates/vb-daemon/src/main.rs:3303-3319 | a command line is looked into when it names one of the three capture programs |
| TerminalProfiles.WrapProfiles | crates/vb-daemon/src/main.rs:3117-3184 | the in-place loop wraps every visible profile with a command line and reports exactly the names it could wrap and those it changed |
| TerminalProfiles.WrappedArguments | crates/vb-daemon/src/main.rs:3321-3334 | the wrapped command line is read as the program, `terminal-shim`, the address after `--daemon`, the name after `--name`, `--follow-console-size`, `--cmdline-b64` and one argument that base64-decodes to the original (none if that is empty) |
| TerminalProfiles.WrappedProgramIff | crates/vb-daemon/src/main.rs:3321-3334 | and its program is the one given exactly when that has no quotation mark and does not end in a backslash |
| TerminalProfiles.WrappedProfileStarts | crates/vb-daemon/src/main.rs:3131-3169 | every profile that is wrapped keeps its other fields and starts just that, under "Terminal: " and its name |
| ProfileShells.WrapsIff | crates/vb-daemon/src/main.rs:3131-3169 | a profile is wrapped exactly when it is visible and has a command line that is not blank, or a shell can be inferred; any other stays as it is |
| ProfileShells.LineRuns | crates/vb-daemon/src/main.rs:3249-3260 | what runs is the command line without the white space around it, or what it carries |
| ProfileShells.ShellRuns | crates/vb-daemon/src/main.rs:3249-3301 | without a command line it is the shell inferred, unless the name holds the marker |
| ProfileShells.ShellIsInferredIff | crates/vb-daemon/src/main.rs:3262-3301 | which words, in any case, in name and source mean which shell, and that without any there is none |
| ProfileShells.DistributionIsNamed | crates/vb-daemon/src/main.rs:3270-3279 | a distribution of Linux is started by its name, read back as one argument |
| ProfileShells.SupportedIff | crates/vb-daemon/src/main.rs:3131-3169 | the names reported as wrappable are those of the profiles that are wrapped |
| ProfileShells.ChangedIff | crates/vb-daemon/src/main.rs:3131-3223 | the names reported as changed are those of the profiles that were |
| TerminalProfiles.TrimTrims | crates/vb-daemon/src/main.rs:3252-3256 | trimming takes off white space at both ends, all of it and nothing else |
| TerminalProfiles.UnwrapProfiles | crates/vb-daemon/src/main.rs:3186-3237 | the in-place loop unwraps every wrapped profile and reports exactly the names it changed |
| TerminalProfiles.WrappedIsLonger | crates/vb-daemon/src/main.rs:3303-3319 | a command line is never its own original |
| TerminalProfiles.WrapKeepsOriginal | crates/vb-daemon/src/main.rs:3131-3169 | wrapping changes what starts, not what runs in the end |
| TerminalProfiles.WrapIsUndoneIff | crates/vb-daemon/src/main.rs:3199-3223 | for every profile: unwrapping the wrapped one gives it back exactly when the text found in the wrapped command line (what follows the first marker among the earlier words, else the original unless it is empty) is its own command line; one that is not wrapped, exactly when nothing is found in its command line |
| TerminalProfiles.WrappedOriginalIff | crates/vb-daemon/src/main.rs:3131-3169 | wrapping keeps what runs in the end exactly when that is what is found |
| TerminalProfiles.UnwrapUndoesWrapIff | crates/vb-daemon/src/main.rs:3199-3223 | with a name that has no marker and an original that is not empty, unwrapping a wrapped profile gives the profile back exactly when it had a command line that was not blank, trimmed and not wrapped |
| TerminalProfiles.UnwrapAllUndoesWrapAll | crates/vb-daemon/src/main.rs:3186-3237 | unwrap undoes wrap on every list of such profiles |
| TerminalProfiles.RewrapAll | crates/vb-daemon/src/main.rs:3131-3169 | wrapping wrapped profiles for another program or address gives what wrapping the originals gives |
| TerminalProfiles.WrapIsIdempotentIff | crates/vb-daemon/src/main.rs:3131-3169 | wrapping again changes nothing exactly when what runs in the end is found in each wrapped command line |
| TerminalProfiles.WrapIsIdempotent | crates/vb-daemon/src/main.rs:3117-3184 | then nothing is reported either, so nothing is written |
| TerminalProfiles.EmptyOriginalIsWrappedAgain | crates/vb-daemon/src/main.rs:3303-3334 | a profile wrapped around nothing fails it: each wrapping wraps it anew |
| TerminalProfiles.MarkerInNameLosesOriginal | crates/vb-daemon/src/main.rs:3303-3334 | for a profile named `--cmdline-b64 A` nothing is found again |
| TerminalProfiles.MarkerInNameFindsAnother | crates/vb-daemon/src/main.rs:3303-3334 | for a name whose quoted form has the marker and then something that decodes, that is found instead |
| AgentMatching.CwdPrefixMatchesIsTolerant | crates/vb-host/src/agent_discovery.rs:235-249 | reflexive and symmetric |
| AgentMatching.NormalizedIsNormal | crates/vb-host/src/agent_discovery.rs:427-429 | no backslash and no separator at the end; normalising again changes nothing |
| AgentMatching.MatchesIffSameBranch | crates/vb-host/src/agent_discovery.rs:235-249 | on normalised directories it holds exactly when one path's components are a prefix of the other's |
| AgentMatching.SwapRemoveKeepsOthers | crates/vb-host/src/agent_discovery.rs:215-219 | removing a slot keeps every other, once |
| AgentMatching.MatchingIsMaximal | crates/vb-host/src/agent_discovery.rs:210-229 | for every order of the slots each is given once, to a transcript that fits it, and a transcript is left out only if every slot it fits went to one no older |
| AgentMatching.SortSorts | crates/vb-host/src/agent_discovery.rs:176-180 | each sort is a permutation in the order of its key and keeps the order of equal ones |
| AgentMatching.DedupLeavesOneEachIff | crates/vb-host/src/agent_discovery.rs:266-270 | removing repeated neighbours leaves one entry per agent exactly when the entries of each agent follow one another |
| AgentMatching.SortAndDedupListsAgents | crates/vb-host/src/agent_discovery.rs:266-270 | the result lists exactly the agents given, and each once when no id is used under two kinds |
| AgentMatching.SharedIdKeepsTwo | crates/vb-host/src/agent_discovery.rs:266-270 | an id that two kinds share may keep two entries of one agent |
| AgentMatching.FilterByActiveSlots | crates/vb-host/src/agent_discovery.rs:172-231 | the loop yields the matched transcripts, marked running unless they wait for input; without any process the recent unfinished ones; either way sorted by id with repeated neighbours removed |
| AgentMatching.KeptHasProcess | crates/vb-host/src/agent_discovery.rs:193-231 | every entry that comes out is a transcript with a live process of its kind in a directory on the same branch, running unless it waits for input |
| AgentMatching.ResultDescends | crates/vb-host/src/agent_discovery.rs:266-270 | the ids in the list descend |
| AgentMatching.OrderIsIrrelevantIff | crates/vb-host/src/agent_discovery.rs:193-219 | the matching is the same for every order of the slots exactly when no candidate, when its turn comes, fits two slots still free |
| AgentMatching.KeptIsSame | crates/vb-host/src/agent_discovery.rs:193-231 | then the list that comes out is the same for every order, too |
| AgentMatching.KeptWithOneCandidate | crates/vb-host/src/agent_discovery.rs:193-231 | but not only then: a single transcript that fits two slots is listed in either order |
| AgentMatching.OneFitEachIsUnambiguous | crates/vb-host/src/agent_discovery.rs:193-219 | in particular when no candidate fits two of all the slots |
| AgentMatching.SlotOrderMatters | crates/vb-host/src/agent_discovery.rs:193-219 | for example, one transcript or two are kept of the same two, depending on the order of the same two slots |

## Left out

- SgrRemap.GruvboxMeansTheSame: one direction only, because a later reset may undo what a leak did to the pen (`SgrRemap.ResetHidesLeak`); `SgrRemap.ReadAsIntendedIff` is exact for the commands read.
- Chunking.ChunkingIsIrrelevantIff: the output is compared for all table layouts together, as one given layout may hide a harmful cut (`Chunking.LayoutMayHideIt`); of the tests on lines it assumes that a row has a bar, that an LF after a CR makes no difference and that an empty line passes none of them.
- AgentMatching.KeptIsSame: one direction only, because the list does not show the slots (`AgentMatching.KeptWithOneCandidate`); `AgentMatching.OrderIsIrrelevantIff` is exact for the matching.
- TerminalProfiles.UnwrapUndoesWrapIff: needs an original that is not empty and no earlier word equal to the marker; `TerminalProfiles.WrapIsUndoneIff` holds for every profile.
- TerminalProfiles.WrapKeepsOriginal: the same; `TerminalProfiles.WrappedOriginalIff` holds for every profile that can be wrapped.
- TerminalProfiles.WrappedProgramIff: the program name is read by the rule of the Microsoft C runtime; how CreateProcess itself searches for the program is not modelled.
- ProfileShells.ShellRuns: needs a name without the marker, for otherwise the inferred command line may itself be taken for a wrapped one; `TerminalProfiles.WrappedOriginalIff` holds for every profile that can be wrapped.
- PythonDaemon.Daemon.HandleHidSessionResponse: who is told what is stated in full unless the device is lost during the handler; then the waiters are refused between the other messages and only the last one is stated.
- ScreenRouter.Vt100Router.Append: a failing sink is not modelled; the source lets its exception through after the chunk is stored.
- Sessions.SessionManager.constructor: the ValueError for a size outside 1..65535 is its precondition.
- PythonDaemon.Daemon.HandleVt100: the state-file dump and the mock mode's screen file are not modelled.
- PythonDaemon.Daemon.ForwardSessionRequestToBoard: the hint is a parameter; the source decodes it from the payload, replacing malformed bytes.
- PythonDaemon.Daemon.WriteOne: the end marker that wakes the writer thread when the device is lost is not in the modelled queue.
- The Rust agents are values in a map, as the daemon owns them; there is no aliasing between them to model.
- The daemon's activity log, session snapshots, focus targets and window handles, which only record or display.
- JSON lines and hexadecimal terminal data are taken as already decoded; malformed lines are refused before any state changes.
- Threads, sockets, TCP accept loops, hidraw and Win32 transports, and the reopen-and-retry logic of the Windows transport.
- The Python daemon's heartbeat loop, the contents of status updates, and key and encoder routing, which change none of the tables.
- The Python forwarder after `stop`.
- The search for the nearest palette colour and the table of the 256 colours are parameters; so are the tests for table rows, separators and prompt lines, the table layout and the character replacements.
- Python's incremental UTF-8 decoder with surrogate escapes: the adapter starts from text.
- Python's limit on the number of digits `int` accepts.
- The JSON text of the terminal settings: profiles are records of the four fields the code reads.
- Discovery of processes and transcripts; modification times and agent ids are numbers in their order.
