# Agent Tunnel: verified model

This project models the parts of Agent Tunnel in which a guarantee depends on many
operations at once, in Dafny 4.11, and proves those guarantees for all inputs and all runs.
`dafny verify dfyconfig.toml` checks everything.

| component | model and laws | program form |
|---|---|---|
| relay connectivity registry | `ConnModel`, `ConnInv`, `ConnAnchors`, `ConnTunnels`, `ConnClean`, `ConnRates`, `ConnStory`, `ConnRuns`, `ConnWorld`, `ConnReach`, `ConnTheorems`, `ConnClaims`, `ConnFrames`, `ConnViews`, `ConnReconcile`, `ConnMeetings`, `ConnKeys`, `ConnEffects`, `ConnGrants`, `ConnEncounters`, `ConnWitness` | `ConnPasses`, `ConnRegistry` |
| relay device registry | `DeviceModel`, `DeviceRuns`, `DeviceClaims`, `DeviceEffects` | `DeviceRegistry` |
| daemon session broker | `BrokerModel`, `BrokerRuns`, `BrokerEffects` | `BrokerServer` |
| daemon pairing state | `PairingModel`, `PairingRuns`, `PairingEffects`, `PairingGenuine`, `PairingHeld` | `PairingStore` |
| frames and snapshots | `Bytes`, `FrameCodec` | `FrameStream` |
| STUN Binding | `Xor`, `Stun` | methods in `Stun` |
| signed transcripts | `Transcripts`, `Signatures`, `Decimal` | methods in `Transcripts` |
| pairing QR text | `Base45`, `CompactInvitation` | `Base45.Base45Encode` |
| shared | `Common`, `Passes`, `Folds`, `Texts` | |

How a component is laid out:

- The state is a value, and every lock-held region of the program is one function from state to
  next state and to what it hands out: frames, closers to run, tokens. Code that runs after
  unlocking is not part of a region. An operation with two regions (a send in between) is two functions.
- A class keeps the same fields as the program and updates them in place, with the program's loops
  over maps and lists. Every method is proved to compute its function, so what is proved about
  the functions holds for the class.
- Runs are sequences of events, one event per region, with connections, timers and callers interleaved in
  any order. A tunnel request and a redemption, which start with a sweep, are two events one after the other
  (`ConnClaims.RequestIsSweepThenAsk`, `ConnClaims.RedeemIsSweepThenSpend`). Invariants are proved for one event and
  then for all runs; the claims speak about every reachable state.
- Invariants say what no operation may do. What each operation must do is written out record by record in the
  `Effects` modules, in `ConnGrants` and in `ConnEncounters`: who goes, who stays unchanged, what is new and for how
  long, without the functions of the model. Where they ask for `Standing`, every reachable state meets it
  (`ConnEffects.ReachableStands`).
- A choice that the program leaves to the iteration order of a map is an argument (`pick`), so a
  claim holds for every order. The class returns the choice it made, and promises that it is a match whenever there is one.

What the environment is taken to promise:

- A connection object registers once; an app passes the owner it registered with; an app session
  belongs to one account; the clock does not go back; random tokens and invitation identifiers
  were never handed out before.
- An app receives its frames in the order of the regions that queued them. The program sends after unlocking, so
  this is a promise about scheduling; `ConnViews.ViewsStayExact` rests on it.
- In the connectivity registry identifiers arrive trimmed and lower-cased, and candidate
  addresses are checked (an argument tells whether they were valid). Elsewhere trimming is modelled.
- Session ids, fingerprints and daemon ids hold no colon, and reported attempt ids no NUL: the model keeps map keys as
  records, where the program joins the parts to one text. The program does not check this; it accepts any
  device id that is not blank (`internal/relay/handler/connectivity/daemon_ws.go:43`). `ConnKeys.PlainExactly` and
  `ConnKeys.NulFreeExactly` show that these are the exact conditions.
- Signatures, hexadecimal decoding of signed fields and fingerprint normalisation are parameters, and so is the
  verification of a pairing response in `PairingModel`; `PairingGenuine` puts the signature check of `Signatures` in
  its place. Nobody forges: among the pairs of message and signature that are presented, those that check
  under a key are of transcripts its owner signed. In `PairingHeld` hexadecimal text is read without outer white space,
  as the program does, and the client signed one response to the invitation.

Where the code and its documentation could be read differently, the code is followed. Five things
the code does that a reader might not expect:

- Revoking an agent token takes its daemons out without a frame to the apps that see them, so such an app
  goes on showing a daemon that is gone (`ConnViews.RevokedAgentStaysKnown`); every other event keeps the
  apps' view exact (`ConnViews.StepExactlyWhen`).
- A direct session that a re-registering daemon reports stays in the map with its old connection if the daemon no
  longer trusts its fingerprint, or if another app session has one with the same attempt id and fingerprint and
  that one is found first (`ConnReconcile.MayGoStaleExactlyWhen`, reached from the start in
  `ConnWitness.StaleSessionsAreReachable`). No live daemon can end such a session any more
  (`ConnMeetings.DirectEndsExactlyWhen`). Trust is therefore claimed for records bound to a live connection.
- An invitation's code is compared before the state is saved. When the save fails the invitation is
  not used up, and the same code can be compared again, exactly then (`PairingRuns.ComparableAgainExactlyWhen`);
  the bound holds for the calls whose save succeeded (`PairingRuns.ComparedAtMostOnce`).
- The account, key and name of a response are signed as they come and stored trimmed, so a response with outer white
  space in one of them is stored and fails the check at its confirmation (`PairingHeld.ConfirmableExactlyWhen`).
- Joined map keys collide exactly when a session id, fingerprint or daemon id holds a colon: such a key has the
  text of a key without (`ConnKeys.PlainExactly`).

## Model

| member | source | states |
|---|---|---|
| `ConnRegistry.Registry.RegisterApp` | internal/relay/connectivity/registry.go:193-207 | a revoked or no longer valid owner is refused without a change; otherwise exactly this connection is added and the caller gets the daemons of its account that trust it; every attempt stays anchored |
| `ConnRegistry.Registry.DisconnectApp` | internal/relay/connectivity/registry.go:209-228 | the app and every rendezvous of its connection or owner go, each with a close frame to its daemon; nothing else changes |
| `ConnRegistry.Registry.RegisterDaemon` | internal/relay/connectivity/registry.go:239-293 | an older connection is superseded with its correlations, rendezvous, tunnels and tokens, its closers are handed out, direct sessions are reconciled with the report, apps are told; anchoring is kept |
| `ConnRegistry.Registry.RemoveDaemon` | internal/relay/connectivity/registry.go:302-309 | taking a daemon out takes out everything bound to its connection, and hands out the frames and the closers |
| `ConnRegistry.Registry.Reconcile` | internal/relay/connectivity/registry.go:1162-1202 | the loop over reports and the deletion pass compute the reconciled direct sessions and the close frames |
| `ConnRegistry.Registry.AnswerReport` | internal/relay/connectivity/registry.go:1165-1191 | one report: any record that matches may be found; it is rebound, or a close frame is queued, or the blank report is skipped |
| `ConnRegistry.Registry.DisconnectDaemon` | internal/relay/connectivity/registry.go:295-321 | the daemon found by device and connection goes with everything bound to it; apps that it trusted are told |
| `ConnRegistry.Registry.RevokeTrusted` | internal/relay/connectivity/registry.go:323-351 | the fingerprint leaves the trusted set together with every rendezvous, direct session and tunnel of that client on this connection |
| `ConnRegistry.Registry.CompletePairing` | internal/relay/connectivity/registry.go:353-373 | a non-blank fingerprint joins the trusted set of the live daemon and the apps with it are shown the daemon |
| `ConnRegistry.Registry.ReservePairing` | internal/relay/connectivity/registry.go:375-399 | expired correlations are swept; a correlation is stored only for the live daemon of that owner and connection, with the default lifetime for a lifetime that is not positive |
| `ConnRegistry.Registry.LookupPairing` | internal/relay/connectivity/registry.go:410-431 | first region of forwarding: revoked owners, inactive connections, unknown and expired correlations are refused; an expired one is deleted |
| `ConnRegistry.Registry.FinishPairing` | internal/relay/connectivity/registry.go:435-439 | second region: the correlation goes only if it still names the connection that was written to |
| `ConnRegistry.Registry.DisconnectAppSession` | internal/relay/connectivity/registry.go:443-470 | the session is revoked and its apps, rendezvous, direct sessions, tunnels and tokens go, with all frames and closers handed out |
| `ConnRegistry.Registry.DisconnectUser` | internal/relay/connectivity/registry.go:472-517 | the cut-off is set, live sessions are revoked, and everything of the account goes, on either side |
| `ConnRegistry.Registry.DisconnectAgentToken` | internal/relay/connectivity/registry.go:519-553 | the agent token is revoked and everything of its daemons goes |
| `ConnRegistry.Registry.RemoveDaemons` | internal/relay/connectivity/registry.go:485-499 | the nested passes over daemons compute one removal of all connections together |
| `ConnRegistry.Registry.OpenRendezvous` | internal/relay/connectivity/registry.go:555-621 | refused for blanks, inactive apps, untrusting daemons and over the rate limit; else the request is recorded and the one rendezvous of this app session with this daemon replaced |
| `ConnRegistry.Registry.AbandonRendezvous` | internal/relay/connectivity/registry.go:612-619 | after a failed send only the very attempt that was made goes |
| `ConnRegistry.Registry.RendezvousTimer` | internal/relay/connectivity/registry.go:1244-1256 | the timer deletes what is stored under the key only once it has expired |
| `ConnRegistry.Registry.ForwardHint` | internal/relay/connectivity/registry.go:623-663 | from the live daemon of that owner a matching attempt is found whenever the sweep leaves one, and the hint reaches its app unless it expired since |
| `ConnRegistry.Registry.CloseRendezvousFromApp` | internal/relay/connectivity/registry.go:665-690 | an active app closes its own attempts of that id; it succeeds exactly when there was one |
| `ConnRegistry.Registry.CloseRendezvousFromDaemon` | internal/relay/connectivity/registry.go:692-728 | from the live daemon a matching attempt is found whenever there is one; it goes and its app is told |
| `ConnRegistry.Registry.OpenDirect` | internal/relay/connectivity/registry.go:730-773 | a matching rendezvous is found whenever the sweep leaves one, and becomes a direct session unless the key is taken by a tunnel or a direct session, or the app is revoked |
| `ConnRegistry.Registry.CloseDirect` | internal/relay/connectivity/registry.go:775-793 | a matching direct session of this connection is found whenever there is one, and goes |
| `ConnRegistry.Registry.RequestRelayTunnel` | internal/relay/connectivity/registry.go:807-911 | sweep, checks, rate limit, in-flight limit and grant in this order; a granted attempt takes over its key with two new tokens and replaces the matching rendezvous |
| `ConnRegistry.Registry.Grant` | internal/relay/connectivity/registry.go:860-890 | recording, replacing the older attempt, closing the rendezvous and storing both tokens |
| `ConnRegistry.Registry.RedeemRelayTunnelToken` | internal/relay/connectivity/registry.go:913-973 | an unknown, orphaned, expired or used token is refused with the clean-up of each case; otherwise its side is marked and the token deleted |
| `ConnRegistry.Registry.MarkRelayTunnelActive` | internal/relay/connectivity/registry.go:975-988 | an existing attempt is marked, and anchoring kept |
| `ConnRegistry.Registry.CloseRelayTunnel` | internal/relay/connectivity/registry.go:990-1001 | the attempt and its tokens go and all its closers are handed out; it succeeds exactly when there was one |
| `ConnRegistry.Registry.SweepAttempts` | internal/relay/connectivity/registry.go:1258-1270 | exactly the expired attempts that are not active go |
| `ConnRegistry.Registry.AbandonTunnel` | internal/relay/connectivity/registry.go:900-908 | after a failed send only the very attempt that was made goes |
| `ConnRegistry.Registry.TunnelTimer` | internal/relay/connectivity/registry.go:1272-1286 | the timer removes the attempt under the key only if it is not active and has expired |
| `ConnRegistry.Registry.AddTunnelCloser` | internal/relay/connectivity/registry.go:1011-1026 | a closer for a missing attempt is run at once; otherwise it is held under a new identifier |
| `ConnRegistry.Registry.WithdrawTunnelCloser` | internal/relay/connectivity/registry.go:1027-1033 | the returned function takes the closer back if the attempt still holds it |
| `ConnRegistry.Registry.RemoveAttempts` | internal/relay/connectivity/registry.go:1092-1101 | the pass removes exactly the selected attempts with their tokens and hands out exactly their closers |
| `ConnRegistry.Registry.RemoveAttempt` | internal/relay/connectivity/registry.go:1103-1116 | one attempt, both its tokens and all its closers |
| `ConnRegistry.Registry.RemoveRendezvous` | internal/relay/connectivity/registry.go:1118-1138 | the pass deletes exactly the selected rendezvous and queues their close frames |
| `ConnRegistry.Registry.RemoveActiveDirect` | internal/relay/connectivity/registry.go:1140-1160 | the pass deletes exactly the selected direct sessions and queues their close frames |
| `ConnRegistry.Registry.RemoveCorrelations` | internal/relay/connectivity/registry.go:1084-1090 | the pass deletes exactly the selected correlations |
| `ConnRegistry.Registry.DaemonByDevicePeer` | internal/relay/connectivity/registry.go:1288-1295 | the pass finds the one live daemon of a device on a connection, if there is one |
| `ConnRegistry.Registry.IsOwnerActive` | internal/relay/connectivity/registry.go:1319-1332 | an owner is active when it is not revoked and some live app is its own |
| `ConnPasses.CountAttempts` | internal/relay/connectivity/registry.go:1423-1436 | the pass counts the attempts of an app session and fingerprint other than one key |
| `ConnPasses.Compact` | internal/relay/connectivity/registry.go:1382-1388 | the in-place pass leaves exactly the times after the cut-off at the front of the array, and the rest of the array alone |
| `ConnPasses.RecentRequests` | internal/relay/connectivity/registry.go:1403-1421 | the list is pruned to the last minute and an empty one is deleted |
| `ConnPasses.RecordedRequest` | internal/relay/connectivity/registry.go:1397-1401 | the request is appended to the pruned list |
| `ConnPasses.CollectClosers` | internal/relay/connectivity/registry.go:1110-1113 | every closer of the attempt is collected, with multiplicity |
| `ConnClaims.EverythingAnchored` | internal/relay/connectivity/registry.go:239-399 | in every reachable state each rendezvous and each relay attempt has its daemon live under the same connection and owner, of the app's account, trusting the app now; no correlation outlives its daemon connection |
| `ConnClaims.DirectAnchored` | internal/relay/connectivity/registry.go:730-773 | in every reachable state a direct session is of one account, and while its connection is live its daemon trusts it |
| `ConnClaims.SessionStaysOut` | internal/relay/connectivity/registry.go:443-470 | after a session is disconnected, in every later state of every run nothing is its own and none of its tokens can be redeemed |
| `ConnClaims.UserStaysOut` | internal/relay/connectivity/registry.go:472-517 | after an account is cut off, in every later state nothing belongs to its app sessions created by then, and no token issued to it by then can be redeemed |
| `ConnClaims.AgentStaysOut` | internal/relay/connectivity/registry.go:519-553 | after an agent token is revoked, in every later state no daemon, rendezvous, direct session or attempt is bound to it and no token for it can be redeemed |
| `ConnClaims.TokensAreExact` | internal/relay/connectivity/registry.go:888-890 | in every reachable state a token is stored for a key and an actor if and only if it is the unredeemed token of that live attempt and actor |
| `ConnClaims.RedeemedAtMostOnce` | internal/relay/connectivity/registry.go:913-973 | over every run a token is redeemed at most once, and an attempt at most once by each side |
| `ConnClaims.RedemptionIsGenuine` | internal/relay/connectivity/registry.go:913-973 | a successful redemption, with the sweep it starts with, is of a token handed out, for the app, side and attempt it was issued for, and neither was used before |
| `ConnClaims.RejectingBranchesUnreachable` | internal/relay/connectivity/registry.go:913-973 | in every reachable state redemption of a stored token, with its own sweep, succeeds if and only if its attempt has not expired: the missing-attempt and already-redeemed branches are never taken |
| `ConnClaims.RedeemIsSweepThenSpend` | internal/relay/connectivity/registry.go:913-973 | the whole region is the sweep event and the redemption event of a run, with the closers of both |
| `ConnClaims.RequestIsSweepThenAsk` | internal/relay/connectivity/registry.go:807-911 | the whole region is the sweep event and the request event of a run, with the closers of both; blank fields change nothing |
| `ConnTunnels.StoredAfterSweep` | internal/relay/connectivity/registry.go:1258-1270 | a sweep keeps a stored token if and only if it keeps its attempt |
| `ConnClaims.ClosersConserved` | internal/relay/connectivity/registry.go:1011-1034 | over every run, closers received are the closers run, withdrawn and held, with multiplicity |
| `ConnClaims.CloserInOnePlace` | internal/relay/connectivity/registry.go:1103-1116 | a closer received once is in exactly one of the three places |
| `ConnClaims.HandleIsUnique` | internal/relay/connectivity/registry.go:1023-1032 | an identifier is held by at most one attempt, with the closer and key it was given for |
| `ConnClaims.AtMostTenPerMinute` | internal/relay/connectivity/registry.go:1363-1421 | any one-minute interval of any run contains at most ten admitted tunnel requests of an account, and at most ten rendezvous |
| `ConnClaims.PrunedListIsHistory` | internal/relay/connectivity/registry.go:1377-1395 | the list pruned in place equals the whole history restricted to the last minute |
| `ConnClaims.LastMinuteExactly` | internal/relay/connectivity/registry.go:1403-1421 | the pruned list holds each time after the start of the last minute as often as the history, and no other |
| `ConnClaims.Exclusive` | internal/relay/connectivity/registry.go:832-890 | no key is a relay attempt and a direct session; one rendezvous per app session, fingerprint and daemon; at most four relay attempts per app session and fingerprint |
| `ConnEffects.UserCutOffExactly` | internal/relay/connectivity/registry.go:472-517 | in every reachable state exactly the account's apps, daemons, correlations, rendezvous, direct sessions, relay attempts and tokens go; everything of other accounts stays unchanged |
| `ConnEffects.UserTunnelsCutOff` | internal/relay/connectivity/registry.go:472-517 | the cut-off is recorded, and exactly the account's live app sessions are revoked |
| `ConnEffects.AgentCutOffExactly` | internal/relay/connectivity/registry.go:519-553 | in every reachable state exactly the daemons of the token, their correlations and everything bound to them go; apps and everything under other tokens stay unchanged |
| `ConnEffects.SessionCutOff` | internal/relay/connectivity/registry.go:443-470 | exactly the apps, rendezvous, direct sessions, attempts and tokens of the session go; the session is revoked; the rest stays |
| `ConnEffects.AppComesIn` | internal/relay/connectivity/registry.go:193-207 | an app comes in if and only if it is still valid and not revoked, and its connection is all that is new |
| `ConnEffects.AppLeaves` | internal/relay/connectivity/registry.go:209-228 | an app that leaves takes exactly its own rendezvous along |
| `ConnEffects.DaemonComesIn` | internal/relay/connectivity/registry.go:239-293 | a daemon comes in if and only if it is still valid and its agent token is not revoked; it trusts exactly what it lists without blanks; exactly what was bound to an older connection goes; other daemons stay |
| `ConnEffects.DaemonLeaves` | internal/relay/connectivity/registry.go:295-321 | a daemon leaves by its own connection only, with exactly what is bound to it but direct sessions |
| `ConnEffects.TrustIsWithdrawn` | internal/relay/connectivity/registry.go:323-351 | the fingerprint is trusted no more, exactly that client's attempts, sessions and tokens on the connection go, and nothing else changes |
| `ConnEffects.TrustIsAdded` | internal/relay/connectivity/registry.go:353-373 | a non-blank fingerprint is trusted by the live daemon, and nothing else changes |
| `ConnEffects.NoDaemonNoTrust` | internal/relay/connectivity/registry.go:323-373 | without the daemon on that connection neither does anything |
| `ConnEffects.ActiveExactly` | internal/relay/connectivity/registry.go:1297-1332 | an app may act through a connection if and only if it registered there and is not cut off; without one, if and only if it is not cut off and has some connection |
| `ConnEffects.EligibleExactly` | internal/relay/connectivity/registry.go:820-837 | an app may ask for a tunnel if and only if it may act, the daemon of its account trusts it, and it has no direct session under the key |
| `ConnGrants.GrantedTunnelLives` | internal/relay/connectivity/registry.go:872-890 | in every reachable state each side of a granted tunnel can redeem its token if and only if it is before the end of the lifetime asked for, or of thirty seconds; the redemption names the app, the daemon and the side |
| `ConnGrants.GrantMakes` | internal/relay/connectivity/registry.go:860-890 | after the sweep the new attempt and its two tokens replace what was under the key, the request is counted, and other attempts and tokens stay |
| `ConnGrants.GrantClosesMeeting` | internal/relay/connectivity/registry.go:860-892 | exactly the rendezvous of the same attempt goes, the daemon is sent its token, and the rest of the registry stays |
| `ConnGrants.RefusedLeaves` | internal/relay/connectivity/registry.go:818-858 | a refused request changes at most pruned request times |
| `ConnGrants.RedeemSpends` | internal/relay/connectivity/registry.go:954-972 | a redemption takes its token away and marks its side; everything else the sweep leaves stays |
| `ConnGrants.RefusedRedeem` | internal/relay/connectivity/registry.go:926-953 | a refused stored token takes its attempt out with both tokens and all closers; an unknown one changes nothing |
| `ConnGrants.ActiveStays` | internal/relay/connectivity/registry.go:975-988 | an existing attempt becomes active, nothing else changes, and neither a sweep nor its timer takes it out any more |
| `ConnGrants.CloseTakesOut` | internal/relay/connectivity/registry.go:990-1001 | exactly that attempt goes with its tokens, all its closers are handed out; it succeeds if and only if it was there |
| `ConnGrants.CleanUpTakesOut` | internal/relay/connectivity/registry.go:900-908 | the clean-up takes out that very attempt, the timer what has expired under its key, the sweep what has expired, with the tokens, and nothing else |
| `ConnGrants.CloserIsHeld` | internal/relay/connectivity/registry.go:1011-1026 | a closer is held under the next identifier, or run at once without an attempt; nothing else changes |
| `ConnGrants.CloserIsTakenBack` | internal/relay/connectivity/registry.go:1027-1033 | exactly the closer of that identifier is taken back, if the attempt holds it |
| `ConnEncounters.PairingReserved` | internal/relay/connectivity/registry.go:375-399 | a correlation is stored if and only if the daemon is live under that owner and connection, for the time asked for or five minutes; exactly expired ones go |
| `ConnEncounters.ReservedIsPassedOn` | internal/relay/connectivity/registry.go:375-439 | while nothing else happens a response of the account reaches the reserving connection if and only if it comes before the end of the reservation |
| `ConnEncounters.ResponsePassedOn` | internal/relay/connectivity/registry.go:410-431 | a response is passed on if and only if its session and connection may act and the account has an unexpired correlation; it goes to the correlation's connection |
| `ConnEncounters.PairingFinished` | internal/relay/connectivity/registry.go:435-439 | the correlation goes if and only if it still names the connection written to |
| `ConnEncounters.MeetingOpened` | internal/relay/connectivity/registry.go:585-605 | the rendezvous is stored with the daemon as it is, for the time asked for or thirty seconds; exactly expired ones and the app's older one with this daemon go; the daemon is told; the request is counted |
| `ConnEncounters.MeetingCleanUp` | internal/relay/connectivity/registry.go:612-619 | the clean-up takes out that very rendezvous and the timer what has expired under its key |
| `ConnEncounters.MeetingClosedByApp` | internal/relay/connectivity/registry.go:665-690 | exactly the app's own attempts of that id go and each daemon is told |
| `ConnEncounters.MeetingClosedByDaemon` | internal/relay/connectivity/registry.go:692-728 | exactly the attempt found goes and its app is told |
| `ConnEncounters.HintPassedOn` | internal/relay/connectivity/registry.go:623-663 | the hint goes to the app connection that opened the attempt found, and only expired attempts go |
| `ConnEncounters.SessionOpened` | internal/relay/connectivity/registry.go:744-772 | the attempt found goes and a direct session with the same two sides takes its place; the rest stays |
| `ConnEncounters.SessionEnded` | internal/relay/connectivity/registry.go:775-793 | exactly the session found goes |
| `ConnFrames.FramesStayInAccount` | internal/relay/connectivity/registry.go:1118-1160 | in every run each frame goes to a connection of the account that the frame is about |
| `ConnFrames.ShownOnlyToTrusted` | internal/relay/connectivity/registry.go:271-291 | in every run a daemon is shown only to apps of its account whose fingerprint it trusts |
| `ConnReconcile.RegisterReconciles` | internal/relay/connectivity/registry.go:1162-1202 | after a registration every record kept for the owner and device was reported, every non-blank report is answered by a rebound record or a close frame, and all other records are unchanged |
| `ConnReconcile.AnsweredExactlyWhen` | internal/relay/connectivity/registry.go:1172-1190 | with no revoked app among the records, a report is answered by rebinding if and only if its fingerprint is trusted and some record matches |
| `ConnReconcile.KeptIsOldOrRebound` | internal/relay/connectivity/registry.go:1189-1191 | a kept record changes at most its connection and daemon fingerprint, and only by being rebound |
| `ConnReconcile.StaleExactlyWhen` | internal/relay/connectivity/registry.go:1172-1200 | for every order of the map, a record of an older connection stays on that connection if and only if it was reported and no report found it to rebind it |
| `ConnReconcile.SoleRecordStaleExactlyWhen` | internal/relay/connectivity/registry.go:1172-1200 | with no second record of the same attempt id and fingerprint, that is: if and only if it was reported and its fingerprint is no longer trusted |
| `ConnReconcile.MayGoStaleExactlyWhen` | internal/relay/connectivity/registry.go:1172-1200 | over all orders of the map, a record can stay on an older connection if and only if it was reported and its fingerprint is not trusted or another app session has a record with the same attempt id and fingerprint |
| `ConnWitness.StaleSessionsAreReachable` | internal/relay/connectivity/registry.go:1172-1180 | runs from the start reach both: a reported session left on a connection that is gone because it is no longer trusted, and one left there although it is trusted, because the other app session's was found first |
| `ConnTheorems.NextInv` | internal/relay/connectivity/registry.go:193-1034 | every admissible event keeps anchoring, revocation, token exactness, the bounds, the books and the rate histories |
| `ConnTheorems.RunInv` | internal/relay/connectivity/registry.go:170-1034 | every admissible run keeps them |
| `ConnRuns.StepAnchors` | internal/relay/connectivity/registry.go:209-399 | every event keeps every attempt anchored |
| `ConnRuns.StepClean` | internal/relay/connectivity/registry.go:1297-1332 | no event lets a revoked app or agent token back in |
| `ConnWorld.StepTunnels` | internal/relay/connectivity/registry.go:807-973 | every event keeps the token map exact, tokens distinct, the in-flight bound and closer identifiers unique |
| `ConnWorld.StepNotBoth` | internal/relay/connectivity/registry.go:744-767 | every event keeps relay attempts and direct sessions apart |
| `ConnTunnels.StoredTokenIsLive` | internal/relay/connectivity/registry.go:926-941 | a stored token belongs to a live attempt and is unredeemed |
| `ConnRates.WindowBound` | internal/relay/connectivity/registry.go:1363-1369 | requests of which any eleven in a row span a minute are at most ten in any one-minute interval |
| `ConnRates.RecordKeepsRate` | internal/relay/connectivity/registry.go:1371-1375 | recording below the limit keeps every eleven requests a minute apart |
| `ConnRates.PrunedIsHistory` | internal/relay/connectivity/registry.go:1403-1421 | the pruned list is the history restricted to the window |
| `ConnKeys.AttemptTextInjective` | internal/relay/connectivity/registry.go:1353-1361 | joined keys are equal only for equal records when session id, fingerprint and daemon id hold no colon |
| `ConnKeys.PlainExactly` | internal/relay/connectivity/registry.go:1353-1361 | the exact condition: a key is told by its joined text among keys whose session id, fingerprint and daemon id hold no colon if and only if its own hold none; every other key shares its text with such a key |
| `ConnKeys.DaemonTextInjective` | internal/relay/connectivity/registry.go:1345-1347 | joined daemon keys are equal only for equal account and device |
| `ConnKeys.CorrelationTextInjective` | internal/relay/connectivity/registry.go:1349-1351 | joined correlation keys are equal only for equal account and id |
| `ConnKeys.ReportTextInjective` | internal/relay/connectivity/registry.go:1204-1206 | joined report keys are equal only for equal attempt and fingerprint, when the attempt id holds no NUL |
| `ConnKeys.NulFreeExactly` | internal/relay/connectivity/registry.go:1204-1206 | the exact condition: a report is told by its joined text among reports without NUL in the attempt id if and only if its own has none |
| `ConnFrames.TokenGoesToItsDaemon` | internal/relay/connectivity/registry.go:888-893 | the ready frame with the daemon token goes to the attempt's own daemon connection, and no frame carries the client token |
| `ConnClaims.GrantedExactlyWhen` | internal/relay/connectivity/registry.go:807-860 | in every reachable state a tunnel is granted if and only if no field is blank, the app may reach the daemon and has no direct session under the key, fewer than ten of the account's requests were admitted in the last minute, the sweep leaves fewer than four other attempts in flight, and there are tokens |
| `ConnClaims.OpenedExactlyWhen` | internal/relay/connectivity/registry.go:563-585 | in every reachable state a rendezvous is opened if and only if nothing is blank or invalid, the app is active, the daemon trusts it, and fewer than ten were admitted in the last minute |
| `ConnMeetings.HintExactlyWhen` | internal/relay/connectivity/registry.go:623-663 | in every reachable state a hint is passed on, in some order of the map, if and only if nothing is blank or invalid and an attempt matches that is unexpired at the sweep and at the check; in every order, if and only if moreover every attempt that matches after the sweep is |
| `ConnMeetings.DaemonClosesExactlyWhen` | internal/relay/connectivity/registry.go:692-728 | in every reachable state the daemon's close takes effect if and only if some attempt matches its connection, owner, device, id and client |
| `ConnMeetings.DirectExactlyWhen` | internal/relay/connectivity/registry.go:730-773 | in every reachable state a direct session is made, in some order of the map, if and only if nothing is blank and an unexpired attempt matches whose key no tunnel and no direct session uses; in every order, if and only if there is a match and all are such; the revoked-app refusal is never taken |
| `ConnMeetings.DirectEndsExactlyWhen` | internal/relay/connectivity/registry.go:775-793 | a close ends a direct session if and only if one it names is bound to that very connection; so a live daemon can end a direct session if and only if it is bound to a live connection |
| `ConnMeetings.MatchSpeaks` | internal/relay/connectivity/registry.go:634-650 | a matching attempt implies that its daemon is live on that connection under that owner |
| `ConnViews.ViewsStayExact` | internal/relay/connectivity/registry.go:1036-1082 | an app that stays connected and applies its frames knows, after every run, exactly the live daemons of its account that trust it, unless an agent token of one it sees is revoked |
| `ConnViews.ListIsTheView` | internal/relay/connectivity/registry.go:1036-1058 | the list a registering app is given names exactly the daemons it may see, from which its view starts |
| `ConnViews.StepExactlyWhen` | internal/relay/connectivity/registry.go:239-373 | an event tells an app exactly what changed for it, if and only if the event is not the revocation of the agent token of a daemon it sees |
| `ConnViews.RevokedAgentStaysKnown` | internal/relay/connectivity/registry.go:519-553 | that exception is real: no frame is sent, so the app still knows a daemon that is gone |
| `ConnWitness.GoneDaemonIsKnown` | internal/relay/connectivity/registry.go:519-553 | a run from the start reaches that exception |
| `ConnViews.EndedMeetingsAreTold` | internal/relay/connectivity/registry.go:1118-1138 | a rendezvous ended by a disconnect, a lost trust, a revocation, its app or a tunnel is closed at its daemon by a frame |
| `ConnViews.ReplacedMeetingIsTold` | internal/relay/connectivity/registry.go:587-605 | a rendezvous replaced by a newer one is closed at its daemon by a frame |
| `ConnViews.RevokedSessionsAreTold` | internal/relay/connectivity/registry.go:1140-1160 | a direct session ended by a revocation or a lost trust is closed at its daemon by a frame |
| `ConnViews.DaemonReachesItsClient` | internal/relay/connectivity/registry.go:623-728 | what a live daemon sends about a rendezvous reaches exactly the app that opened that attempt with it, has the fingerprint it names and is trusted by it |
| `ConnClaims.OnlyExpiredTunnelsGo` | internal/relay/connectivity/registry.go:1258-1286 | a sweep or a timer removes an attempt if and only if it is not active and its time has come, and changes no other |
| `DeviceRegistry.Registry.RegisterOwned` | internal/relay/device/registry.go:122-142 | an older connection's unaccepted launches fail; the device is busy exactly if a launch is still pending for it |
| `DeviceRegistry.Registry.RegisterPending` | internal/relay/device/registry.go:144-148 | the connection waits under its owner |
| `DeviceRegistry.Registry.DisconnectPending` | internal/relay/device/registry.go:150-159 | a waiting connection goes; it succeeds exactly if it was waiting |
| `DeviceRegistry.Registry.ActivatePending` | internal/relay/device/registry.go:161-192 | only the waiting owner activates; another account's device is not taken over, and the connection no longer waits either way |
| `DeviceRegistry.Registry.UpdateIfOwner` | internal/relay/device/registry.go:194-204 | only the live connection changes the device's information |
| `DeviceRegistry.Registry.DisconnectIfOwner` | internal/relay/device/registry.go:206-220 | only the live connection goes, with its unaccepted launches failed |
| `DeviceRegistry.Registry.DisconnectAgentTokenDevices` | internal/relay/device/registry.go:222-248 | all devices and waiting connections of the token go, one after the other, with the effect of all together |
| `DeviceRegistry.Registry.CompleteDeviceRequests` | internal/relay/device/registry.go:564-579 | the pass fails exactly the unaccepted launches of a device and changes at most its busy flag |
| `DeviceRegistry.Registry.HasOtherPending` | internal/relay/device/registry.go:613-623 | the pass tells whether another launch is pending |
| `DeviceRegistry.Registry.AnyPending` | internal/relay/device/registry.go:604-611 | the pass tells whether a launch is pending |
| `DeviceRegistry.Registry.ClearRequest` | internal/relay/device/registry.go:466-475 | the launch goes and the busy flag is refreshed |
| `DeviceRegistry.Registry.CompleteRequest` | internal/relay/device/registry.go:477-480 | the launch goes and its result is recorded unless it has one |
| `DeviceRegistry.Registry.StartLaunch` | internal/relay/device/registry.go:274-298 | an offline, foreign or busy device is refused; otherwise one new pending launch and a busy device |
| `DeviceRegistry.Registry.AbandonLaunch` | internal/relay/device/registry.go:460-464 | after a failed send the launch goes without a result |
| `DeviceRegistry.Registry.TimeoutLaunch` | internal/relay/device/registry.go:482-498 | a pending launch fails with a timeout and its clean-up target is returned |
| `DeviceRegistry.Registry.ResolveLaunchIfOwner` | internal/relay/device/registry.go:322-356 | only the launch's own device connection reports; accepted, failed and unknown reports as specified |
| `DeviceRegistry.Registry.CompleteLaunchIfOwner` | internal/relay/device/registry.go:358-379 | only the launch's owner confirms; a completed launch hands its target out again |
| `DeviceRegistry.Registry.CompleteReady` | internal/relay/device/registry.go:500-522 | result and completed-launch record of a launch both sides reported |
| `DeviceClaims.BusyMeansPending` | internal/relay/device/registry.go:122-248 | in every reachable state the busy flag of a live device is set if and only if a launch is pending for it, and at most one is pending per device id |
| `DeviceClaims.StartedLaunchIsNew` | internal/relay/device/registry.go:274-298 | a launch that starts overwrites no pending one, and none starts while one is pending |
| `DeviceRuns.IdTellsDevice` | internal/relay/device/registry.go:275-275 | launch ids with a stamp of fixed width are equal only for equal device ids |
| `DeviceRuns.LaunchNeverOverwrites` | internal/relay/device/registry.go:283-298 | a started launch has an id no pending launch has |
| `DeviceClaims.ResultsAreFinal` | internal/relay/device/registry.go:668-678 | in every run a recorded result never changes, and a pending launch has none |
| `DeviceClaims.SuccessNeedsBothSides` | internal/relay/device/registry.go:322-379 | a recorded success was accepted by the launch's own device connection and confirmed by its owner with that session |
| `DeviceClaims.EitherOrder` | internal/relay/device/registry.go:322-379 | accepted then ready, and ready then accepted, leave the same registry, result and completed-launch record |
| `DeviceClaims.ReadyChangesExactlyWhen` | internal/relay/device/registry.go:358-379 | a ready changes the registry if and only if it is from the launch's owner, names a session, and the device has accepted or another session or none was noted |
| `DeviceClaims.SecondReadyExactlyWhen` | internal/relay/device/registry.go:358-379 | after a ready from the owner a second one changes the registry if and only if the device has not accepted yet and it is from the owner and names another session, which then replaces the first |
| `DeviceClaims.ReadyTwice` | internal/relay/device/registry.go:358-379 | the same ready once more changes nothing |
| `DeviceClaims.DisconnectFailsUnaccepted` | internal/relay/device/registry.go:206-220 | going offline fails exactly the unaccepted launch of the device; every other pending launch stays as it was |
| `DeviceClaims.NextInv` | internal/relay/device/registry.go:59-67 | every event keeps the flag, the uniqueness, the ids, the results and the report histories |
| `DeviceEffects.FatesExactly` | internal/relay/device/registry.go:122-522 | each event does to each pending launch exactly what is written out: it stays with what is noted, ends with that result, or is dropped after a failed send |
| `DeviceEffects.FailedReportFrees` | internal/relay/device/registry.go:336-348 | a failed report of the launch's own connection ends it with the trimmed reason, leaves other launches, and the device can be asked again at once |
| `DeviceEffects.StartExactly` | internal/relay/device/registry.go:274-298 | a launch starts if and only if its device is live, the user's own and without a pending launch; the answer tells offline from busy |
| `DeviceEffects.OnlyStartAdds` | internal/relay/device/registry.go:274-298 | no event but a start makes a launch |
| `DeviceEffects.OnlyPendingRecord` | internal/relay/device/registry.go:668-678 | no event records a result but for a launch that was pending |
| `DeviceEffects.DevicesExactly` | internal/relay/device/registry.go:122-248 | each event does to each live device exactly what is written out |
| `DeviceEffects.WaitingExactly` | internal/relay/device/registry.go:144-248 | each event does to each waiting connection exactly what is written out |
| `DeviceEffects.CompletedExactly` | internal/relay/device/registry.go:500-522 | exactly the launches that end with a session, a device and a workspace are recorded as completed, with that target |
| `DeviceEffects.ReportAnswers` | internal/relay/device/registry.go:322-356 | a report is taken if and only if it is from the launch's own connection; an acceptance that ends the launch hands out its session and target |
| `DeviceEffects.ReadyAnswers` | internal/relay/device/registry.go:358-379 | the target of the launch completed now, or before under the same owner |
| `DeviceEffects.TimeoutAnswers` | internal/relay/device/registry.go:482-498 | the target of the launch that is failed |
| `DeviceEffects.DeviceAnswers` | internal/relay/device/registry.go:150-220 | each operation of a connection succeeds if and only if that connection waits, or is the live one; activation moreover if no other account has the device |
| `BrokerServer.SessionBroker.Register` | internal/tunnel/daemon/broker.go:270-295 | registering takes a session over, with preview and snapshot kept; a blank id does nothing |
| `BrokerServer.SessionBroker.UpdateSession` | internal/tunnel/daemon/broker.go:297-316 | only the owning connection changes a session |
| `BrokerServer.SessionBroker.UpdatePreview` | internal/tunnel/daemon/broker.go:318-340 | only the owning connection changes the preview, and the time only if it is positive |
| `BrokerServer.SessionBroker.UpdateSnapshot` | internal/tunnel/daemon/broker.go:342-364 | only the owning connection changes the snapshot, and only with positive sizes |
| `BrokerServer.SessionBroker.Remove` | internal/tunnel/daemon/broker.go:373-391 | only the owning connection removes a session, and its grant with it |
| `BrokerServer.SessionBroker.GrantInteractive` | internal/tunnel/daemon/broker.go:393-408 | granted exactly for an existing session nobody else holds |
| `BrokerServer.SessionBroker.ReleaseInteractive` | internal/tunnel/daemon/broker.go:410-420 | only the holder releases |
| `BrokerServer.SessionBroker.ReleaseInteractiveOwner` | internal/tunnel/daemon/broker.go:422-433 | the pass releases every grant of the holder and no other |
| `BrokerServer.SessionBroker.SendToSession` | internal/tunnel/daemon/broker.go:479-497 | routed to the owning connection exactly for the holder of an existing session |
| `BrokerServer.SessionBroker.ServeConn` | internal/tunnel/daemon/broker.go:671-736 | the frame loop computes the specified broker, and when it ends the connection owns no session |
| `BrokerServer.ServedOwnsNothing` | internal/tunnel/daemon/broker.go:684-688 | however the frames go, a connection that ended owns no session |
| `BrokerServer.ServedSparesOthers` | internal/tunnel/daemon/broker.go:690-735 | sessions of other connections that the frames do not register come through unchanged |
| `BrokerRuns.OneSessionPerConnection` | internal/tunnel/daemon/broker.go:270-391 | in every interleaved run a connection owns at most the session it remembers, and grants are only for existing sessions |
| `BrokerRuns.ClosedOwnsNothing` | internal/tunnel/daemon/broker.go:671-736 | from the end of a connection on, in every run, no session is owned by it |
| `BrokerRuns.SupersededIsHarmless` | internal/tunnel/daemon/broker.go:270-391 | no step of a connection changes a session another connection owns, but registering that session, and then its grant stays |
| `BrokerRuns.ControlIsExclusive` | internal/tunnel/daemon/broker.go:373-497 | from a grant until its release, owner-wide release or removal of the session, in every run, nobody else is granted, only the holder's commands are routed, and to the connection owning the session now |
| `BrokerRuns.NextInv` | internal/tunnel/daemon/broker.go:116-121 | every step of every connection keeps ownership and grants consistent |
| `BrokerEffects.SessionsExactly` | internal/tunnel/daemon/broker.go:270-391 | each event does to each session exactly what is written out: the owner's updates are stored, a registration takes it over, its own connection's end takes it away |
| `BrokerEffects.GrantsExactly` | internal/tunnel/daemon/broker.go:393-470 | each event does to each grant exactly what is written out |
| `BrokerEffects.PlacesExactly` | internal/tunnel/daemon/broker.go:671-736 | each event does to each connection's loop exactly what is written out |
| `BrokerEffects.NewerConnectionTakesOver` | internal/tunnel/daemon/broker.go:270-295 | in every reachable state the registering connection owns the session with its own details, what was shown stays, other sessions and all grants stay, and the holder's commands go to it |
| `BrokerEffects.ControlExactly` | internal/tunnel/daemon/broker.go:393-497 | in every reachable state control is given if and only if the session exists and nobody else holds it, and a command goes through if and only if its sender holds it |
| `PairingStore.Store.CreateInvitation` | internal/tunnel/daemon/pairing_state.go:152-229 | expired records are dropped and the new one appended, if the save succeeds |
| `PairingStore.Store.ConsumeInvitation` | internal/tunnel/daemon/pairing_state.go:231-261 | the first record of the id is used up unless it is missing, used or expired |
| `PairingStore.Store.CompleteResponse` | internal/tunnel/daemon/pairing_state.go:269-322 | the record is used up and its pending responses dropped whether or not the code matches; a match trusts the device |
| `PairingStore.Store.StoreResponse` | internal/tunnel/daemon/pairing_state.go:324-374 | a verified response waits, in the place of an older one for the invitation |
| `PairingStore.Store.ConfirmResponse` | internal/tunnel/daemon/pairing_state.go:400-423 | the first waiting response of the id is completed |
| `PairingStore.Store.UpsertTrusted` | internal/tunnel/daemon/pairing_state.go:425-444 | the device is trusted outright |
| `PairingStore.Store.RevokeTrusted` | internal/tunnel/daemon/pairing_state.go:472-499 | the first device of the fingerprint is revoked, its first revocation time kept |
| `PairingStore.Store.ListTrusted` | internal/tunnel/daemon/pairing_state.go:446-470 | the loop lists the devices that are not revoked |
| `PairingStore.SweepInPlace` | internal/tunnel/daemon/pairing_state.go:501-509 | the in-place filter leaves exactly the unexpired records, in order |
| `PairingStore.RemovePendingInPlace` | internal/tunnel/daemon/pairing_state.go:569-577 | the in-place filter leaves exactly the other invitations' responses, in order |
| `PairingStore.UpsertDeviceRecord` | internal/tunnel/daemon/pairing_state.go:549-557 | replaced in its place, or appended |
| `PairingStore.UpsertPendingRecord` | internal/tunnel/daemon/pairing_state.go:559-567 | replaced in its place, or appended |
| `PairingRuns.ComparedAtMostOnce` | internal/tunnel/daemon/pairing_state.go:269-322 | over every run an invitation's code is compared at most once by calls whose save succeeded |
| `PairingRuns.ComparedOnceWhenSaved` | internal/tunnel/daemon/pairing_state.go:294-306 | when all saves succeed it is compared at most once, matching or not |
| `PairingRuns.NoComparisonAfter` | internal/tunnel/daemon/pairing_state.go:283-289 | after a saved comparison no later call compares that code |
| `PairingRuns.ComparableAgainExactlyWhen` | internal/tunnel/daemon/pairing_state.go:269-322 | after a call that compared an invitation's code, some continuation compares it again if and only if that call's save failed |
| `PairingRuns.FailedSaveComparesAgain` | internal/tunnel/daemon/pairing_state.go:299-304 | a comparison whose save failed leaves the state, so the same code is compared again: the bound needs the saves |
| `PairingRuns.ComparedAnyNumber` | internal/tunnel/daemon/pairing_state.go:269-322 | from the start, while saves fail, one invitation's code can be compared any number of times |
| `PairingGenuine.ListedClientSigned` | internal/tunnel/daemon/pairing_state.go:511-528 | with the signature check in place and no forged signature presented: in every run a listed fingerprint that was never trusted outright is that of a key whose owner signed a response to an invitation made in the run |
| `PairingGenuine.CheckedIsSigned` | internal/tunnel/daemon/pairing_state.go:511-528 | a response the daemon accepts for a record was signed by the key whose fingerprint it yields, for that record's invitation |
| `PairingHeld.ConfirmableExactlyWhen` | internal/tunnel/daemon/pairing_state.go:341-423 | while its invitation is usable, confirming a stored response passes the second check if and only if its account, key and name came without outer white space, when nobody forged and the client signed one response to the invitation |
| `PairingHeld.TightIsAcceptedAgain` | internal/tunnel/daemon/pairing_state.go:350-368 | a response whose signed fields trimming does not change is accepted again with the same code and fingerprint |
| `PairingRuns.NewTrustHasCause` | internal/tunnel/daemon/pairing_state.go:307-320 | a fingerprint that a call puts on the list was trusted outright, or its code matched on an unexpired, unused invitation |
| `PairingRuns.OffTheListUntilTrusted` | internal/tunnel/daemon/pairing_state.go:446-499 | a fingerprint off the list stays off it, in every run, until a call trusts it |
| `PairingRuns.RevokedIsOff` | internal/tunnel/daemon/pairing_state.go:472-499 | revoking takes a fingerprint off the list at once |
| `PairingRuns.RosterIsUnique` | internal/tunnel/daemon/pairing_state.go:549-557 | in every run the roster has each fingerprint once |
| `PairingRuns.ListingShows` | internal/tunnel/daemon/pairing_state.go:446-470 | the listing shows a fingerprint if and only if some record of it is not revoked |
| `PairingEffects.ListedExactly` | internal/tunnel/daemon/pairing_state.go:269-322 | a fingerprint is on the list after a call if and only if the call trusts it, or it was on it and the call does not revoke it |
| `PairingEffects.DevicesExactly` | internal/tunnel/daemon/pairing_state.go:269-557 | each call does to each device record exactly what is written out |
| `PairingEffects.SuccessTrusts` | internal/tunnel/daemon/pairing_state.go:294-322 | after a comparison that reports success the device is listed with the response's key, trimmed name and trimmed account |
| `PairingEffects.CompareAnswers` | internal/tunnel/daemon/pairing_state.go:269-322 | success if and only if the invitation is usable, the response checks and the code matches; each refusal has its own error |
| `PairingEffects.InvitationsExactly` | internal/tunnel/daemon/pairing_state.go:152-306 | each call does to each invitation exactly what is written out: made for five minutes, used up once, swept when expired |
| `PairingEffects.PendingExactly` | internal/tunnel/daemon/pairing_state.go:324-440 | each call does to what waits for each invitation exactly what is written out |
| `FrameCodec.VarintRoundTrip` | internal/connectivity/frame/frame.go:132-175 | every value up to 2^62-1 is read back from its notation, whatever follows |
| `FrameCodec.FrameRoundTrip` | internal/connectivity/frame/frame.go:50-84 | every frame within the limit is decoded back with the bytes it took, whatever follows |
| `FrameCodec.AllRoundTrip` | internal/connectivity/frame/frame.go:50-84 | a concatenation of encoded frames reads back as exactly that list |
| `FrameCodec.DecodeExactly` | internal/connectivity/frame/frame.go:50-84 | a frame is read if and only if its header is whole, it announces a payload within the limit, and the payload is whole; each failure has its own error |
| `FrameCodec.EncodedLength` | internal/connectivity/frame/frame.go:132-151 | the length field takes the least of one, two, four and eight bytes |
| `FrameStream.Stream.Read` | internal/connectivity/frame/frame.go:95-130 | reading a stream step by step gives the frame, the bytes consumed and the error of decoding its whole content |
| `FrameStream.Stream.ReadHeader` | internal/connectivity/frame/frame.go:96-112 | the header buffer holds the type and the whole length field, or the stream ended |
| `FrameStream.Stream.Write` | internal/connectivity/frame/frame.go:86-93 | exactly the encoded frame is appended; only a payload over 2^62-1 bytes fails |
| `FrameStream.ChunksJoin` | internal/tunnel/daemon/connectivity_transport.go:479-490 | the chunks of a snapshot joined are the snapshot |
| `FrameStream.ChunkSizes` | internal/tunnel/daemon/connectivity_transport.go:480-484 | every chunk is non-empty and within the limit |
| `FrameStream.ChunkCount` | internal/tunnel/daemon/connectivity_transport.go:488-488 | the number of chunks is the rounded-up quotient |
| `FrameStream.WriteChunks` | internal/tunnel/daemon/connectivity_transport.go:479-490 | the loop writes exactly the chunks and counts them |
| `FrameStream.WriteSnapshot` | internal/tunnel/daemon/connectivity_transport.go:470-495 | begin, chunks and an end with their number are written |
| `FrameStream.SnapshotRoundTrip` | internal/tunnel/daemon/connectivity_transport.go:470-495 | a snapshot of any length reads back as its frames |
| `FrameStream.SnapshotArrives` | internal/tunnel/daemon/connectivity_transport.go:470-495 | reading what was written for a snapshot yields its begin frame, chunk frames that joined are the snapshot, and an end frame with their number |
| `FrameStream.ReadAll` | internal/connectivity/frame/frame.go:95-130 | reading frame after frame yields the list of frames of the whole stream, or the first error |
| `Stun.RequestRoundTrip` | internal/connectivity/stun/server.go:63-69 | every request the program builds is accepted with its transaction id |
| `Stun.BindingRoundTrip` | internal/connectivity/stun/server.go:71-129 | for every valid request and every four- or sixteen-byte address and port, parsing the built response returns that address and transaction id |
| `Stun.ResponseRoundTrip` | internal/connectivity/stun/server.go:103-129 | well-formed padded attributes before the address do not change what is parsed |
| `Stun.WalkSkips` | internal/connectivity/stun/server.go:110-127 | the walk skips any list of other attributes, with padding of any content |
| `Stun.ValueRoundTrip` | internal/connectivity/stun/server.go:169-226 | a masked address is unmasked with the same transaction id |
| `Stun.ResponseExactlyWhen` | internal/connectivity/stun/server.go:71-84 | a response is built if and only if the request is well-formed and the address has four or sixteen bytes |
| `Stun.XorMappedAddressValue` | internal/connectivity/stun/server.go:169-193 | the masking loops fill exactly the specified value |
| `Stun.MaskInto` | internal/connectivity/stun/server.go:176-178 | the loop masks byte by byte and leaves the head of the buffer alone |
| `Stun.ParseBindingSuccess` | internal/connectivity/stun/server.go:103-129 | on any bytes at all the loop stays in bounds, ends, and finds what the recursive walk finds |
| `Stun.RequestLayout` | internal/connectivity/stun/server.go:63-69 | a request is type, zero length, cookie and transaction id |
| `Stun.ResponseLayout` | internal/connectivity/stun/server.go:71-96 | a response is its header with the request's transaction id and one attribute with the masked address |
| `Stun.WellFormedExactly` | internal/connectivity/stun/server.go:131-167 | a message is well-formed if and only if it is a header of its type with its own length, a multiple of four, before its body |
| `Stun.ValueExactly` | internal/connectivity/stun/server.go:195-226 | an attribute value is accepted if and only if it is the masked port and address of its family's width |
| `Xor.XorByteExactly` | internal/connectivity/stun/server.go:176-178 | each binary digit is set if and only if the digits differ |
| `Transcripts.Canonical` | internal/connectivity/pairing/invitation.go:200-206 | the loop over fields computes the transcript, and refuses exactly lists with a field over 65535 bytes |
| `Transcripts.AppendLengthPrefixed` | internal/connectivity/pairing/sas.go:53-63 | one field after its length in two bytes, refused over 65535 bytes |
| `Transcripts.FieldsRoundTrip` | internal/connectivity/pairing/sas.go:53-63 | any list of length-prefixed fields is decoded uniquely |
| `Transcripts.InvitationInjective` | internal/connectivity/pairing/invitation.go:185-207 | equal signed bytes mean equal invitations in every signed field, the fingerprint up to normalisation |
| `Transcripts.ResponseInjective` | internal/connectivity/pairing/invitation.go:209-227 | equal signed bytes mean equal responses in every signed field, the fingerprint up to normalisation |
| `Transcripts.NeverBoth` | internal/connectivity/pairing/invitation.go:185-227 | no bytes are the transcript of an invitation and of a response |
| `Transcripts.CanonicalSasInput` | internal/connectivity/pairing/sas.go:35-51 | the input of the comparison code is the transcript of its four fields |
| `Transcripts.SasInjective` | internal/connectivity/pairing/sas.go:35-51 | equal inputs of the comparison code mean equal keys, invitation and nonce |
| `Transcripts.NumberInjective` | internal/connectivity/pairing/invitation.go:229-231 | different times are written differently |
| `Transcripts.InvitationLayout` | internal/connectivity/pairing/invitation.go:185-207 | the signed bytes of an invitation are its prefix and these ten fields in this order |
| `Transcripts.ResponseLayout` | internal/connectivity/pairing/invitation.go:209-227 | the signed bytes of a response are its prefix and these six fields in this order |
| `Transcripts.FieldIs` | internal/connectivity/pairing/sas.go:53-63 | a field is its length in two bytes, high byte first, and its bytes |
| `Transcripts.TranscriptExactly` | internal/connectivity/pairing/sas.go:53-63 | a transcript exists if and only if no field is over 65535 bytes, and is the prefix and the fields |
| `Transcripts.InvitationExactlyWhen` | internal/connectivity/pairing/invitation.go:185-207 | an invitation can be signed if and only if no field is over 65535 bytes |
| `Transcripts.ResponseExactlyWhen` | internal/connectivity/pairing/invitation.go:209-227 | a response can be signed if and only if no field is over 65535 bytes |
| `Signatures.AcceptedInvitationWasSigned` | internal/connectivity/pairing/invitation.go:66-92 | if no signature of the key among those presented is forged, an accepted invitation is one its owner signed, field by field |
| `Signatures.AcceptedResponseWasSigned` | internal/connectivity/pairing/invitation.go:116-142 | if no signature of the key among those presented is forged, an accepted response is one its owner signed, field by field |
| `Signatures.AcceptedPairingIsGenuine` | internal/connectivity/pairing/invitation.go:144-183 | an accepted pairing: daemon and client signed this invitation and this response, for the same invitation and correlation, with the fingerprints shown, before expiry |
| `Signatures.PairingExactlyWhen` | internal/connectivity/pairing/invitation.go:144-183 | a pairing is accepted if and only if both signatures check with keys of the fingerprints shown, identifiers and account agree, it has not expired, and the code can be formed |
| `Base45.Base45Encode` | internal/tunnel/pairingqr/qr.go:237-261 | the loop computes the RFC 9285 text, of length 3*(n/2)+2*(n%2) |
| `Base45.RoundTrip` | internal/tunnel/pairingqr/qr.go:237-261 | the RFC 9285 decoder inverts the encoder on every byte string |
| `Base45.DecodeIsExact` | internal/tunnel/pairingqr/qr.go:237-261 | a text that decodes is the text its bytes encode to |
| `Base45.DigitCount` | internal/tunnel/pairingqr/qr.go:237-261 | three digits for two bytes, two for a last one |
| `Base45.CharIsAlphabet` | internal/tunnel/pairingqr/qr.go:18-18 | the digits are written with the alphabet in its order |
| `Base45.Example` | internal/tunnel/pairingqr/qr.go:237-261 | the first example of section 4.3 of RFC 9285 |
| `CompactInvitation.CompactRoundTrip` | internal/tunnel/pairingqr/qr.go:61-109 | every compact text is read back as the decoded fields of its invitation |
| `CompactInvitation.CompactInjective` | internal/tunnel/pairingqr/qr.go:61-109 | two invitations with the same compact text agree on version, decoded ids, nonce, expiry, key, signature and trimmed name |
| `CompactInvitation.PayloadRoundTrip` | internal/tunnel/pairingqr/qr.go:95-107 | the layout of fixed-width fields and a length before the name is read back |
| `CompactInvitation.CompactLength` | internal/tunnel/pairingqr/qr.go:108-108 | the length of the text |
| `CompactInvitation.CompactExactlyWhen` | internal/tunnel/pairingqr/qr.go:61-109 | an invitation has a compact text if and only if every field has its form and range |
| `CompactInvitation.OpaqueIdExactly` | internal/tunnel/pairingqr/qr.go:212-223 | an identifier is read if and only if it is its prefix and twelve bytes of digits |
| `CompactInvitation.UnhexExactly` | internal/tunnel/pairingqr/qr.go:212-235 | hexadecimal text is read if and only if it is pairs of digits, each pair a byte with the high digit first |

## Left out

- WebSocket, HTTP, QUIC, TLS, terminal, file and JSON handling: connections are numbers and JSON payloads are byte strings.
- Ed25519, SHA-256, the digits of the comparison code and randomness: parameters, with freshness as an assumption.
- Frames in flight: the registry sends after unlocking, so the claims are about the state and about which frames a region queues.
- Order and repetition of queued frames: a region's frames form a set, so two equal frames for one connection are one, and the order of sending is not kept.
- Closing of connections: which peers a region closes is not part of its outcome, nor are the counts of disconnected peers that some operations return.
- `fallback_reason` and the latencies of a tunnel request, and request identifiers: carried through unchanged by the program.
- Tunnel endpoint lifetime: a handler closes by key and not by attempt, so nothing is claimed about an old endpoint and a replacing attempt.
- The value `Launch` returns when completion and timeout coincide: results are those recorded.
- Session termination through the device registry, including the deletion of completed launches it causes: independent of launches otherwise, and easier.
- Device and session listings, broker snapshots, subscriptions and event queues: queues drop events when full by design.
- Sorting of the trusted-device listing and of pending responses.
- Normalisation of preview text, and of session fields other than the id: taken as arguments.
- `make` of a payload buffer larger than memory in the stream reader: the model has no memory limit.
- Rendering of QR codes, SQL repositories, migrations, throttling, updates and configuration.
- ConnRegistry.Registry.RegisterApp: the visible daemons are a set, because their sorting by connection time is presentation.
- ConnRegistry.Registry.ForwardHint: candidate addresses are not part of the frame, because the registry only passes them on.
- ConnKeys.ReportTextInjective: asks for attempt ids without NUL, because report keys are told apart exactly then, as ConnKeys.NulFreeExactly states.
- Stun.BindingRoundTrip: an address given in its v4-mapped form comes back in its four-byte form, because the program maps it.
