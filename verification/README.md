# The hard core of the EVE server, modelled and proved in Dafny

This project models five parts of the EVEmu server that carry most of its branching, state and
arithmetic, and proves what they are for. `dafny verify dfyconfig.toml` checks all of it.

**The client** (`Session`, `SessionReplica`, `DestinyLanes`, `ClientState`, `ClientRuns`,
`ClientObject`, `ClientService` and the modules that prove things of them). One object per connection holds a
session of (last, current, changed) triples under one dirty bit, three lanes of destiny updates, one
state timer with one state code and one move target, and the place the client is at.
`ClientState` and `ClientRuns` give every operation as a function on values; `ClientObject` has the
classes whose methods update their fields and loop where the server does, each proved to do to its
state what the function of its name says. The theorems are about runs: any sequence of requests, ticks,
bindings, deaths, moves, session updates and queue operations. `ClientService` carries them to the
object: `Perform` dispatches any operation to the methods and is one step of a run, and `Serve`
makes a client, takes it through its login and any operations, and ensures the theorems of it.
A tick says which running timers have run out. What an operation asks of the rest of the server is
an argument: whether a system boots, whether the ship is in a bubble, the snapshot of the full
state, the clock, random offsets, the number of a new item.

- `SessionReplica`: a client that applies the session packets agrees with the server on all it has
  been told, whenever the flushes happen, and exactly when the reported old value is its own.
- `DestinyLanes`, `ClientDelivery`, `FullStateFirst`: each lane delivers what it took in, once and
  in order; nothing held back overtakes the full state.
- `JumpTargets`: a jump moves the client at most once, and to the target it was accepted with.
- `SessionKeys`, `Arrivals`, `Expiries`, `Requests`, `Logins`: where every operation leaves client,
  character and ship, what is stored of its request, and what the client is shown, in terms of the static
  data and the request alone.
- `OrderlyRuns`: the replica is right whenever the session is clean, over every run of a client.
- `LocationView`, `LocationRuns`, `BootedRuns`: as long as the systems to be entered boot, the client
  is never shown half a station and half a system.
- `Wormholes`, `WormholePairs`: many clients jump through shared wormholes whose mass is checked when a jump is
  asked for and taken when it is made.

**Geometry** (`Matrix4`, `Projective`, `Rotation`, `Shoemake`, `RotationMatrices`,
`MatrixArrays`): adjoint, determinant and inverse of 4x4 matrices, points under them, rigid
transforms, quaternions, and the conversion of a matrix to a quaternion with its four branches. Over
the reals; a square root is any nonnegative number with the right square.

**Base64** (`Base64Tables`, `Base64`, `Base64Laws`, `Base64Layout`, `Base64Values`): three encoders, two decoders
and a length, as methods with the loops of the source; shifts and masks are written as divisions and
remainders.

**Growing buffers** (`GrowingBuffer`) and **EmbedFs archives** (`EmbedFs`): the doubling loops of
`vsprintf` and `vasprintf`, and the archive reader of the localization tool.

## Where the code and its own words differ

The model follows the code. These are results of the project, each with the exact condition.

- The flush of a session is documented to let the client compare the old value with its own
  (`src/eve-server/ClientSession.h:66-72`). It can only if no store since the last flush hashes
  otherwise than the last one, or the last that does stored the client's own value:
  `SessionReplica.ReportedOldValue`, `SessionReplica.OldValueWrong`.
- Values are compared by hash, and the hash of -1 is that of -2, so a store of one over the other is
  lost: `SessionReplica.IntegerStoreLost`.
- A docked client is to be sent no destiny packet. The flush of the held-back lane does not look:
  `DestinyLanes.DockedSendsNothing`. So a full state asked for at a station, by a ship still in a
  bubble, is refused, and what was held back goes out without it: `FullStateFirst.OneStepInOrder`
  says exactly when, `FullStateFirst.DockedWarpDone` gives a run from a new client. There, a move to
  a station has failed because its system did not boot, a scan has put the ship back into a bubble
  (`src/eve-server/exploration/ScanMgrService.cpp:117-118`), and a translocation ends the login warp
  (`src/eve-server/admin/SystemCommands.cpp:489`).
- Updates with an integer head are to be wrapped. The held-back lane sends them bare:
  `DestinyLanes.IntegerHeadBare`.
- Undocking overwrites the target point of a jump whose timer still runs. `JumpTargets.MovedAsAccepted`
  says exactly when a jump then misses its point; `JumpTargets.KilledThenUndocked` gives the run, of a
  client killed on the way.
- A wormhole without a usable exit is to land a ship at the origin; it lands it at whatever point is
  left over: `JumpTargets.LandingPoint`, `JumpTargets.UndockLeavesPoint`.
- A system that fails to boot leaves the location ahead of the character. A ship activated in the
  hangar then, which is not refused outside a station, mixes the client's view at the next flush:
  `LocationRuns.StepLocated`, `LocationRuns.BootFailureMixesView`. (The ship left must not be the pod,
  whose removal needs the system.)
- Code comments give exits of wormholes a second target of 0; the code that creates them stores the
  entrance in both targets, and the model does too.
- The formatting loops never end on a format error: `GrowingBuffer.LoopsEnd`.

## Model

| member | source | states |
|---|---|---|
| Session.ClientSession.SetValue | src/eve-server/ClientSession.cpp:220-237 | a store makes a missing key, and replaces value, last value and flag only when the hashes differ, setting the dirty bit then |
| Session.ClientSession.Clear | src/eve-server/ClientSession.cpp:72-75 | clearing a key stores None in it |
| Session.ClientSession.HasValue | src/eve-server/ClientSession.cpp:177-187 | true exactly when the key is present with a value other than None |
| Session.ClientSession.EncodeChanges | src/eve-server/ClientSession.cpp:137-158 | the loop over the keys, in any order, gives the last and current value of each flagged persisted key and clears every flag and the dirty bit; nothing when not dirty |
| Session.ClientSession.EncodeInitialState | src/eve-server/ClientSession.cpp:160-175 | gives the current value of every persisted key and clears every flag and the dirty bit |
| Session.ClientSession.constructor | src/eve-server/ClientSession.cpp:46-62 | a new session holds role, user and address unflagged, and is not dirty |
| SessionReplica.Bookkeeping | src/eve-server/ClientSession.cpp:137-175 | over every run the dirty bit is set exactly when some key is flagged, flagged keys hold two values of different hashes, a flush tells exactly the flagged keys but for the client, session and sid numbers, and a second flush does nothing |
| SessionReplica.Replication | src/eve-server/Client.cpp:2801-2911 | after the initial state and any run, the replica equals the server on every key not flagged, and on all of them when not dirty; only the client, session and sid numbers are excepted |
| SessionReplica.NeverTold | src/eve-server/ClientSession.cpp:39-43 | those three keys are in no packet of any run |
| SessionReplica.DefaultsTold | src/eve-server/ClientSession.cpp:46-56 | a new session tells exactly the roles of a player and a newbie, no user and no address |
| SessionReplica.InitialStateNeeded | src/eve-server/ClientSession.cpp:46-54 | without the initial state the defaults do not reach the client by flushes |
| SessionReplica.AnySchedule | src/eve-server/Client.cpp:2842-2911 | two runs with the same stores and any flushes between leave the same replica after a last flush: collapsed deltas replay to what every store replayed would |
| SessionReplica.TrailHeld | src/eve-server/ClientSession.cpp:220-237 | a key is flagged exactly when it took a new value since the flush; it holds the last taken and reports the one before |
| SessionReplica.StoresTrail | src/eve-server/ClientSession.cpp:220-237 | the stores alone tell the values a key took: its last hashes as the last store, the one before as the last store that hashes otherwise |
| SessionReplica.ReportedOldValue | src/eve-server/ClientSession.h:66-72 | a key is told when its last store hashes as new or one between hashes otherwise; the reported old value is the replica's exactly when no store between hashes otherwise than the last, or the last that does is the replica's value |
| SessionReplica.OldValueWrong | src/eve-server/ClientSession.h:66-72 | two stores between flushes report an old value the client never held |
| SessionReplica.StoreTakesEffect | src/eve-server/ClientSession.cpp:228-236 | a store leaves its value in the key exactly when its hash is new or it is the value already there; other keys stay |
| SessionReplica.IntegerStoreLost | src/eve-common/python/PyRep.cpp:204-212 | an integer store over an integer is lost exactly for the pair -1 and -2 |
| DestinyLanes.Conservation | src/eve-server/Client.cpp:2938-3058 | over every run each lane's accepted updates are those it let go of (sent, or dropped while docked) followed by those it holds, in order, so none is lost, doubled or overtaken within its lane; and nothing is held back once the state is sent |
| DestinyLanes.Intake | src/eve-server/Client.cpp:2919-3022 | over every run each lane takes in, in order, exactly the offers bound for it by the operations alone: the packaged full state, other updates held back before the state is sent and batched from then on however they are packaged, events with a text head |
| DestinyLanes.Delivered | src/eve-server/Client.cpp:2913-3058 | over every run whose flushes are made in space, a last flush and a declaration of the state leave on the wire, lane by lane and in order, exactly what was offered |
| DestinyLanes.FlushedInSpace | src/eve-server/Client.cpp:3025-3058 | a flush in space sends the updates and then the events, one packet each, and empties both queues |
| DestinyLanes.FlushedAtStation | src/eve-server/Client.cpp:3029-3035 | a flush at a station empties both queues and puts nothing on the wire |
| DestinyLanes.WrappedByHead | src/eve-server/Client.cpp:2994-3022 | a batched update goes bare with a text head, wrapped with an int or long head, and is refused with any other |
| DestinyLanes.HeldBack | src/eve-server/Client.cpp:2948-2957 | until the state is declared sent, the held-back lane grows by exactly the updates that arrive in space, and none of it reaches the wire |
| DestinyLanes.ReleasedAtOnce | src/eve-server/Client.cpp:3895-3933 | declaring the state sent puts all readable held-back updates of the run on the wire, in one packet, in order |
| DestinyLanes.LanesOvertake | src/eve-server/Client.cpp:3901-3933 | order holds within lanes only: a younger held-back update can go before an older batched one |
| DestinyLanes.WireReadable | src/eve-server/Client.cpp:2992-3022 | batched and held-back packets carry string, int or long heads only, and batched integer heads are wrapped |
| DestinyLanes.IntegerHeadBare | src/eve-server/Client.cpp:3914-3928 | the same integer-headed update leaves the held-back lane bare and the batched lane wrapped |
| DestinyLanes.DockedSendsNothing | src/eve-server/Client.cpp:3024-3058 | at a station an operation puts nothing on the wire, except exactly declaring the state sent while updates are held back |
| ClientDelivery.Delivery | src/eve-server/Client.cpp:845-1114 | the lanes' conservation, order and readability hold over every run of a client, with its jumps, docking, deaths and resets of the flags |
| OrderlyRuns.RunOrderly | src/eve-server/Client.cpp:2842-2911 | over every run of a client, whatever boots or fails, its replica has the server's value of every key not flagged, and of all when the session is clean |
| FullStateFirst.HeldBackBehindState | src/eve-server/Client.cpp:2948-2957 | over every run in which no step breaks the order, whoever asks for the full state, each packet of held-back updates comes directly behind a full state |
| FullStateFirst.OneStepInOrder | src/eve-server/Client.cpp:3895-3933 | every operation keeps that order, except exactly: a login warp ended or a full state asked for at a station by a ship in a bubble, or the state declared sent by anyone else, while updates are held back and the last packet was no full state |
| FullStateFirst.SendSetStateInOrder | src/eve-server/system/DestinyManager.cpp:4231-4285 | sending the full state in space puts it out alone, then what was held back, and leaves nothing held back |
| FullStateFirst.FullStateGoesOut | src/eve-server/system/DestinyManager.cpp:4231-4285 | asked for in space by a ship in a bubble, the full state goes out alone, what was held back in one packet behind it, and counts as sent; without a bubble nothing happens |
| FullStateFirst.FullStateRefused | src/eve-server/Client.cpp:2938-2946 | at a station it is refused but counts as sent |
| FullStateFirst.DockedWarpDone | src/eve-server/Client.cpp:3990-4006 | a run from a new client breaks it: an update held back in space, a move to a station whose system does not boot, a login warp ended |
| JumpTargets.JumpTargets | src/eve-server/Client.cpp:575-676 | over every run a jump that moves the client is the last one accepted, has not moved it before, and has its kind, system and point, or the dock exit of a later undocking |
| JumpTargets.MovedAsAccepted | src/eve-server/Client.cpp:2127-2250 | over every run every jump has the accepted kind and system, and goes to the exit of the last undocking since or else to the accepted point; to the accepted point exactly when no undocking since has left another |
| JumpTargets.PendingKept | src/eve-server/Client.cpp:1994-2030 | an accepted jump stays pending with its system, wormhole and point through every other operation, exactly until a timer runs out, the ballpark is settled or a zero docking delay stops the timer |
| JumpTargets.ExecutesExactly | src/eve-server/Client.cpp:575-676 | a tick executes the pending jump exactly when its timer runs out in space with a ship, the ballpark not settled in the same tick and a target point stored; no other jump is executed |
| JumpTargets.UndockRedirects | src/eve-server/Client.cpp:1179-1212 | a client that undocks with a jump still pending is moved to the jump's system at the direction of the dock |
| JumpTargets.KilledThenUndocked | src/eve-server/Client.cpp:1468-1517 | such a run exists: let through a gate, killed, undocked from the clone's station before the jump's timer runs out |
| JumpTargets.LandingPoint | src/eve-server/Client.cpp:2065-2123 | a wormhole jump is aimed at the far wormhole, or at the origin without one, exactly when the far end is known or no earlier point is left over |
| JumpTargets.UndockLeavesPoint | src/eve-server/Client.cpp:608-613 | after an undocking the client is free to jump with the dock exit still stored as target point |
| Arrivals.MoveSettles | src/eve-server/Client.cpp:845-1033 | a move to a station or system that boots or is left standing puts client, character and ship there, in the hangar or in space, with the dock exit, the flags of updates and ballpark, and the whole of the session told to the client and nothing else of it changed |
| Arrivals.MoveStrands | src/eve-server/Client.cpp:901-907 | a system that does not boot leaves the client alone at the location, in no system and told nothing |
| Arrivals.MoveWithin | src/eve-server/Client.cpp:854-859 | a move within the system of the client only places the ship, asks for the full state anew, and sets the session timer for a new ship |
| Arrivals.MoveGoes | src/eve-server/Client.cpp:862-866 | a move to any station or system ends at that location, however it goes |
| Arrivals.DockSettles | src/eve-server/Client.cpp:1145-1177 | docking ends in the hangar of the chosen station, idle, the client shown that station and the time of its session timer |
| Arrivals.UndockSettles | src/eve-server/Client.cpp:1179-1212 | undocking ends in space in the system of the station, the direction of the dock stored, the timer running, the client shown that system and its ship |
| Arrivals.DockUndockGo | src/eve-server/Client.cpp:1171-1208 | docking and undocking end where they should whether or not the system boots |
| Expiries.JumpGoes | src/eve-server/Client.cpp:2127-2250 | every jump executed, of any kind and whether or not the system boots, puts the client into the system stored for it |
| Expiries.GateJumpLands | src/eve-server/Client.cpp:2127-2179 | a gate jump that is due settles client, character and ship in its system, sends the full state, clears the target and leaves the client idle |
| Expiries.DriveJumpLands | src/eve-server/Client.cpp:2181-2198 | a drive jump too, but it waits for the ballpark and keeps its state |
| Expiries.WormholeJumpLands | src/eve-server/Client.cpp:2200-2250 | a wormhole jump waits for the ballpark idle and out of the wormhole |
| Expiries.DockingDue | src/eve-server/Client.cpp:603-606 | a docking that is due ends in the hangar of the chosen station, and the client is told |
| Expiries.DueSeen | src/eve-server/Client.cpp:2719-2757 | after it the client's view is that of the station, after a gate jump that of the system, and none on the way was a mixture |
| Expiries.BallParkSettlesAll | src/eve-server/Client.cpp:1075-1114 | with the ballpark bound and the full state due, the full state goes out except during a login, and timer and any jump are over |
| Expiries.BallParkDue | src/eve-server/Client.cpp:546-574 | the ballpark timer alone asks for the ballpark |
| Expiries.BothDue | src/eve-server/Client.cpp:550-577 | with both timers due in space, a tick is the ballpark's and then the state's |
| Expiries.UndockingDue | src/eve-server/Client.cpp:607-612 | an undocking that is due asks for the ballpark and leaves the client idle |
| Expiries.ShipLossDue | src/eve-server/Client.cpp:613-626 | after a loss or a boarding that is due the client is up to date and idle, and nothing else changed |
| Expiries.IdleDue | src/eve-server/Client.cpp:580-602 | after an autopilot jump the idle client is told once of a session change in thirty seconds |
| Expiries.LoginDue | src/eve-server/Client.cpp:627-635 | a login that is due in space is over; the ballpark is asked for, the full state sent, and the login warp timed |
| Expiries.LoginOutside | src/eve-server/Client.cpp:722-746 | the same for a ship without a bubble, which is placed in its system anew |
| Expiries.DueAtStation | src/eve-server/Client.cpp:476-500 | at a station every wait ends idle, and a login is over |
| Requests.JumpRefused | src/eve-server/Client.cpp:1652-1690 | no jump is accepted while a move is pending, nor through a gate without data or into a system security forbids |
| Requests.JumpStored | src/eve-server/Client.cpp:1712-1720 | a gate or drive jump of a free client stores the system and the point of the request, times it, and changes nothing else |
| Requests.GateCrossed | src/eve-server/Client.cpp:1722-1767 | on autopilot the client settles in the system of the gate at once, is sent the full state, and waits for a second session change |
| Requests.GateGoes | src/eve-server/Client.cpp:1724-1726 | on autopilot the client is in the system of the gate, whether or not it boots |
| Requests.DockRequested | src/eve-server/Client.cpp:2335-2353 | a docking is timed unless a timer runs, and a zero delay stops any timer |
| Requests.BallParkBound | src/eve-server/ship/BeyonceService.cpp:154-156 | binding the ballpark settles it at once exactly during a login with the full state due |
| Requests.WarpEnded | src/eve-server/Client.cpp:3990-4006 | the end of the login warp leaves the client idle and sends a full state that is due |
| Requests.FullStateAsked | src/eve-server/ship/BeyonceService.cpp:930-949 | a full state asked for is sent anew whether or not it was sent before |
| Requests.BoardedInSpace | src/eve-server/Client.cpp:1302-1347 | another ship is boarded exactly where there is a ship and a system, and the client told of it, its session timer and nothing else |
| Requests.BoardedInHangar | src/eve-server/Client.cpp:1280-1300 | in a hangar the same is stored and not sent, with no ship in space |
| Requests.ShipLost | src/eve-server/Client.cpp:1425-1466 | a lost ship leaves the client in its pod in space, told of it, the autopilot off |
| Requests.PodLost | src/eve-server/Client.cpp:1468-1517 | a lost pod leaves the client in a new one in the hangar of its clone's station, and shown that |
| Requests.ValuesShared | src/eve-server/Client.cpp:2764-2799 | shared values are stored under their names, the last of a name winning, all other keys stay, and a flush brings the client up to date |
| Logins.SessionInited | src/eve-server/Client.cpp:2642-2717 | the session of a row holds its place, its system and its named values; nothing is sent and the other keys stay |
| Logins.Selected | src/eve-server/Client.cpp:302-398 | a character chosen, whose system boots: client, character and ship settle at the place of the row, the client is up to date and shown it, and the login is timed |
| SessionKeys.UpdatedShows | src/eve-server/Client.cpp:2719-2757 | for every client and every hash, an update leaves each of the eleven keys with a value of the right hash: place, system, constellation, region, ship, autopilot and the time in twenty seconds; and the others as they were |
| SessionKeys.FlushShown | src/eve-server/Client.cpp:2842-2911 | a flush brings the client up to date on all keys but three and changes no value of the server |
| SessionKeys.FlushPlaces | src/eve-server/Client.cpp:2847-2862 | a flush without a location first gives the client that of its character, and tells it |
| BootedRuns.NeverAMixture | src/eve-server/Client.cpp:2642-2757 | after a login, over every run in which the systems to be entered boot: every view the client was brought to is station-shaped or space-shaped, client and character are at one place, the server's view is the one for it, and a clean session means the client's is |
| LocationRuns.AtomicView | src/eve-server/Client.cpp:2719-2757 | the same over every run, systems booting or not, in which no ship is boarded in a hangar astray |
| LocationRuns.StepLocated | src/eve-server/Client.cpp:2719-2799 | every operation keeps the view right, except exactly boarding another ship as in a hangar while the location is a system and the character still at a station |
| LocationRuns.HangarLocated | src/eve-server/Client.cpp:1280-1300 | boarding in a hangar keeps the view right exactly when the client is not astray, or is refused the ship it is in |
| LocationRuns.MoveTogether | src/eve-server/Client.cpp:857-914 | a move takes location and character apart exactly when the system has to be entered and does not boot |
| LocationRuns.TogetherNotAstray | src/eve-server/Client.cpp:1027-1032 | a client at the place of its character is not astray |
| LocationRuns.SelectLocated | src/eve-server/Client.cpp:302-378 | a login from a consistent database row ends with the client shown exactly where its character is |
| LocationRuns.BootFailureMixesView | src/eve-server/Client.cpp:901-907 | a docked client sent to a system that does not boot, and given a ship in its hangar, is shown a mixture at the next flush |
| LocationView.UpdatedView | src/eve-server/Client.cpp:2719-2757 | setting the location keys makes the server's view station-shaped or space-shaped for the character's place, whatever known values it held |
| Wormholes.MassBound | src/eve-server/Client.cpp:2036-2055 | with n clients in any interleaving and masses unchanged in flight, the remaining mass of a linked pair stays above -n times the largest mass let through |
| Wormholes.MassConserved | src/eve-server/Client.cpp:2208-2236 | the two ends of a linked pair lose the same, and in all exactly the whole tons of the jumps made through either |
| Wormholes.BoundReached | src/eve-server/Client.cpp:2047-2055 | the bound is the best one: for every n there is a run that ends at 1 - n times the largest mass |
| Wormholes.FlightStep | src/eve-server/Client.cpp:2025-2055 | a client is in a wormhole after a step only if it was before, uncommitted, with the same wormhole and mass, or asked for one its ship fits |
| WormholePairs.PairMade | src/eve-server/system/cosmicMgrs/WormholeMgr.cpp:453-508 | a new exit lies in the given system with the masses of its source; the two lead to each other and are linked; other wormholes stay |
| WormholePairs.EnteredMakingExit | src/eve-server/Client.cpp:2095-2123 | a request for an entrance without an exit ends with the two linked, the exit in the system the entrance leads to, and the client aimed at it |
| WormholePairs.EnteredWithExit | src/eve-server/Client.cpp:2095-2107 | an entrance that has its exit aims the client at it |
| WormholePairs.EnteredWithoutExit | src/eve-server/Client.cpp:2108-2123 | one whose exit cannot be made aims it at the point left over |
| WormholePairs.LeftByExit | src/eve-server/Client.cpp:2065-2094 | an exit aims the client at its far end, by the first target or else the second; without one the request only leaves its marks |
| WormholePairs.WormholeRefused | src/eve-server/Client.cpp:2025-2052 | a request is refused unless the client is free and in a ship, and the wormhole stands and the ship fits, where no largest mass means any ship |
| WormholePairs.MassTaken | src/eve-server/Client.cpp:2208-2232 | a jump takes the tons from the wormhole and from the exit it leads to, and from no other |
| WormholePairs.TickTakes | src/eve-server/Client.cpp:2200-2236 | a tick takes mass exactly when it executes a wormhole jump: the whole tons the ship has by then |
| WormholePairs.MassByJumps | src/eve-server/Client.cpp:2208-2236 | over every run a linked pair has its first mass less what the jumps through either end took |
| WormholePairs.MadePairConserves | src/eve-server/Client.cpp:2108-2236 | so has a pair made by a request, over every run from then on |
| ClientObject.DestinyQueue.FlushPendingDestinyUpdates | src/eve-server/Client.cpp:3901-3933 | the loop packs the readable held-back updates bare, in order, into one packet and empties the lane |
| ClientService.Perform | src/eve-server/Client.cpp:441-676 | any request, tick or other operation does to a client object and the wormholes what one step of a run says |
| ClientService.PerformAll | src/eve-server/Client.cpp:845-2250 | any sequence of them on the object is a run |
| ClientService.Serve | src/eve-server/Client.cpp:75-145 | an object made, logged in and put through any operations: its jumps went where they were accepted for, its updates are accounted for and readable, held-back ones came behind a full state and the view is right, unless a step of the run is one of the exceptions named |
| ClientService.RunKeeps | src/eve-server/Client.cpp:302-398 | the same of the run from the login of a new client |
| NewClient.StartsIdle | src/eve-server/Client.cpp:75-145 | a new client is logging in, idle with no timer running, nowhere, without a ship, with the default session and empty queues |
| NewClient.StartsRight | src/eve-server/Client.cpp:75-145 | a new client, once its initial session state is out, meets the assumptions of the theorems about runs |
| ClientObject.Client.UpdateShared | src/eve-server/Client.cpp:2764-2799 | corporation or fleet values stored one after the other, then flushed |
| ClientObject.Client.WormholeJump | src/eve-server/Client.cpp:2025-2125 | refused unless idle, in a ship, through a wormhole it fits; otherwise aimed at the far end and timed, an exit created if none is usable |
| ClientObject.Client.ProcessClient | src/eve-server/Client.cpp:441-676 | one tick: docked only the state timer; in space with a ship first the ballpark timer, then the state timer |
| Matrix4.AdjointRight | dep/gangsta/GaTypes.cpp:259-291 | m times its adjoint is its determinant times the identity, for every matrix |
| Matrix4.AdjointLeft | dep/gangsta/GaTypes.cpp:259-291 | the adjoint times m is the determinant times the identity |
| Matrix4.DeterminantLeibniz | dep/gangsta/GaTypes.cpp:283-291 | the expansion by minors is the sum of the 24 signed products |
| Matrix4.AdjointCofactor | dep/gangsta/GaTypes.cpp:259-281 | every entry of the adjoint of any matrix is the determinant of the matrix with a unit row in place of that of the entry |
| Matrix4.DeterminantProduct | dep/gangsta/GaTypes.h:370-395 | the determinant of a product is the product of the determinants |
| Matrix4.TimesAssociative | dep/gangsta/GaTypes.h:370-395 | the product is associative |
| Matrix4.InverseTwoSided | dep/gangsta/GaTypes.cpp:293-296 | with a nonzero determinant the inverse is one from both sides |
| Matrix4.InvertibleIff | dep/gangsta/GaTypes.cpp:293-296 | a matrix has an inverse exactly when its determinant is not zero |
| Matrix4.InverseUnique | dep/gangsta/GaTypes.cpp:293-296 | any right inverse is the one computed |
| Matrix4.InverseProduct | dep/gangsta/GaTypes.cpp:293-296 | the inverse of a product is the product of the inverses the other way round |
| Projective.Composition | dep/gangsta/GaTypes.h:409-419 | transforming by a product is transforming twice whenever the two denominators are nonzero, and then its own is nonzero |
| Projective.TransformSolves | dep/gangsta/GaTypes.h:409-419 | the transformed point times the last row at the point is the first three rows at it |
| MatrixArrays.Multiply | dep/gangsta/GaTypes.h:370-395 | the array filled entry by entry holds the product |
| MatrixArrays.FromRigid | dep/gangsta/GaTypes.h:295-368 | the array filled from the twelve products holds the rigid transform |
| Rotation.QuatTimesAssociative | dep/gangsta/GaTypes.h:246-255 | the quaternion product is associative |
| Rotation.NormTimes | dep/gangsta/GaTypes.h:246-255 | the squared norm is multiplicative |
| Rotation.TurnTimes | dep/gangsta/GaTypes.h:235-255 | turning by a product of unit quaternions is turning twice |
| Rotation.RigidApplies | dep/gangsta/GaTypes.h:295-368 | a rigid transform applied to a point turns it and moves it, so the matrix of a quaternion turns as the quaternion does |
| Rotation.RigidTransforms | dep/gangsta/GaTypes.h:409-419 | so does its homogeneous transform, whose denominator is 1 |
| Rotation.RigidTimes | dep/gangsta/GaTypes.h:360-395 | the product of rigid transforms is the rigid transform of the turned and moved point and the product of the quaternions |
| Rotation.QuatInverseTwoSided | dep/gangsta/GaTypes.cpp:338-350 | every quaternion but zero times its inverse, either way, is the unit |
| Rotation.RigidInverse | dep/gangsta/GaTypes.cpp:293-296 | the inverse of a rigid transform is the rigid transform that turns and moves back |
| Rotation.RigidDeterminant | dep/gangsta/GaTypes.cpp:283-291 | its determinant is 1 |
| Shoemake.RadicandAtLeastOne | dep/gangsta/GaTypes.cpp:298-336 | for every matrix, a rotation or not, the root is taken of at least 1, so no branch divides by zero |
| Shoemake.FromMatrix | dep/gangsta/GaTypes.cpp:298-336 | the writes through the array of components give each branch's quaternion |
| Shoemake.PivotPositive | dep/gangsta/GaTypes.cpp:298-336 | for every matrix, half the root stands in the component the branch works on: the real one with a positive trace, else that of the first largest diagonal entry |
| Shoemake.QuaternionRoundTrip | dep/gangsta/GaTypes.cpp:298-336 | for every unit q, in every branch, the matrix of q converts to q or -q, whichever has a positive pivot component, and back to the same matrix |
| RotationMatrices.EveryRotation | dep/gangsta/GaTypes.cpp:298-336 | for every matrix with orthonormal rows and determinant 1, in every branch, the quaternion built is a unit one whose matrix is the one given |
| RotationMatrices.MatrixOfUnit | dep/gangsta/GaTypes.h:295-319 | the matrix of every unit quaternion has orthonormal rows and determinant 1 |
| Base64Tables.EncodingTable | dep/utils/Base64.cpp:37-41 | the encoding table is the alphabet of section 4 of RFC 4648 |
| Base64Tables.DecodingTable | dep/utils/Base64.cpp:43-51 | the decoding table is its inverse and 0 elsewhere |
| Base64Values.Alphabet | dep/utils/Base64.cpp:37-51 | symbols and values are the places of the alphabet of section 4 of RFC 4648, and other chars have the value 0 |
| Base64Values.Examples | dep/utils/Base64.cpp:99-132 | the encoders give the examples of section 10 of RFC 4648 |
| Base64Values.SameNumber | dep/utils/Base64.cpp:109-128 | three bytes and the four sextets of their text are one number |
| Base64Values.GroupNumber | dep/utils/Base64.cpp:180-197 | any group of chars of the table, well formed or not, is read as the bytes of the number it writes, a missing fourth counting as 0 and padding leaving out a byte |
| Base64Values.DecodesExactly | dep/utils/Base64.cpp:171-201 | a text without line breaks is decoded exactly when its chars are in the table and its last group has at least three |
| Base64Values.DecodedInParts | dep/utils/Base64.cpp:171-201 | whole groups decode to what they do by themselves, and then the rest |
| Base64Values.BreaksSkipped | dep/utils/Base64.cpp:176-178 | line breaks of either kind between groups, before the first or behind the last mean nothing |
| Base64.EncodeSigned | dep/utils/Base64.cpp:99-132 | the encoder of signed chars gives the text of the bytes |
| Base64.EncodeUnsigned | dep/utils/Base64.cpp:135-168 | the encoder of unsigned chars gives the same text |
| Base64.EncodeFile | dep/utils/Base64.cpp:54-90 | reading in threes, only the last read short, gives the same text |
| Base64.Decode | dep/utils/Base64.cpp:171-201 | the bytes of the groups, line breaks before groups skipped, padding looked at in each place; or a read outside text or table |
| Base64.DecodeTo | dep/utils/Base64.cpp:204-247 | the buffer gets the same bytes and keeps the rest; without a buffer the same size is reported |
| Base64.DecodeLength | dep/utils/Base64.cpp:250-260 | the size by whole groups and the padding of the last |
| Base64Laws.RoundTrip | dep/utils/Base64.cpp:99-201 | decoding undoes encoding, for every byte string, wrapped or not, with every index in range |
| Base64Laws.CanonicalTexts | dep/utils/Base64.cpp:99-201 | a text that decodes survives decoding and encoding exactly when it is canonical: whole groups, padding at the end only, zero bits under it |
| Base64Laws.CanonicalDecodes | dep/utils/Base64.cpp:99-201 | every canonical text decodes, to the bytes whose text it is |
| Base64Layout.Layout | dep/utils/Base64.cpp:99-132 | with n symbols, wrapped text has n + (n - 1) / 76 chars with a line break after exactly every 76 symbols and none at the end; unwrapped text has n |
| Base64Layout.AnnouncedLength | dep/utils/Base64.cpp:250-260 | on unwrapped text the announced length is the decoded size exactly when no group before the last holds padding |
| Base64Layout.AnnouncedOfEncoded | dep/utils/Base64.cpp:250-260 | on an encoder's unwrapped output it is the number of bytes |
| Base64Values.WrappedIsUnwrapped | dep/utils/Base64.cpp:104-107 | wrapped text without its line breaks is the unwrapped text |
| Base64Values.AnnouncedOfWrapped | dep/utils/Base64.cpp:250-260 | on wrapped output the announced length is the number of bytes exactly when there is one line |
| GrowingBuffer.VsprintfString | src/eve-core/eve-compat.cpp:144-173 | the string is what it was and the whole text, the length is returned, and the loop ends with the first pass that succeeds, after the least number of doublings |
| GrowingBuffer.Vasprintf | src/eve-core/eve-compat.cpp:70-103 | a buffer of exactly the text and a terminator, after the first pass that succeeds |
| GrowingBuffer.LeastDoublings | src/eve-core/eve-compat.cpp:153-168 | the text fits after j doublings exactly when j is at least the number made |
| GrowingBuffer.Pass | src/eve-core/eve-compat.cpp:158-163 | one pass succeeds exactly when the whole text and its terminator fit the size, and has written it then |
| GrowingBuffer.LoopsEnd | src/eve-core/eve-compat.cpp:153-168 | there is a first pass that succeeds, which is where both loops end, exactly when the format makes a text; after an error none ever does |
| EmbedFs.ReadEmbedFs | tools/extract_localization.py:28-45 | the two loops read directory and blobs as specified, or meet a short number |
| EmbedFs.ReadBack | tools/extract_localization.py:5-9 | reading an archive of any writable files with any footer gives each name its last file, and no number is short |
| EmbedFs.DistinctNames | tools/extract_localization.py:5-9 | with distinct names every file is found under its name, and no other name is |
| EmbedFs.LastFileWins | tools/extract_localization.py:41-44 | of several files of one name the last is read |
| EmbedFs.AnyName | tools/extract_localization.py:33-38 | a name of any bytes, ended by any byte, is read with the replacement char for what is not ASCII |
| EmbedFs.CutShort | tools/extract_localization.py:28-40 | an archive cut short cannot be read exactly when the cut is before the end of its last number |
| EmbedFs.DataCut | tools/extract_localization.py:41-45 | data cut short gives of each file what is there |

## Left out

- Database, network, packet encoding, logs, notifications other than destiny and session packets, and
  effects such as gate activity and cloaking: they change nothing the properties speak of. An effect
  queued as a destiny update is an offer to the lanes, which runs may hold anywhere between operations.
- What `DestinyManager`, `SystemManager` and ships do when told to stop, warp or enter a system.
- Missing objects: boarding or losing a ship in space and asking for the full state do nothing without
  the ship or system the server needs for them; the other operations the server would crash in are
  modelled as if it went on.
- Refusals of requests while a session change or a warp is going on: such a request is not in the run.
- Hulls: whether the ship left is a pod; and the rookie ship given to a client that has none.
- Timers as durations: they run or not, and a tick says which have run out, so that every timing is covered.
- `WormholeMgr::OnJump`: the collapse of a wormhole and the notices of its state; and the way
  `CreateExit` takes when the far system is loaded.
- Contraband, security status and police: a gate says whether security allows the jump.
- Values wider than their types: 32-bit truncation of session integers and doubling of a buffer beyond
  the address range. Item numbers are cut to 32 bits where the code does.
- The fields of the pending move and of the place are grouped in two records of the client object, replaced
  a field at a time; the queues are an object of their own.
- ClientObject.Client.SelectCharacter: the ship of the database row exists, so that no other is picked.
- Aliasing of the reference-counted tuples: updates and session values are values.
- LocationRuns.AtomicView: assumes that the hash of None is no station, system or ship number; in
  the server it is part of an address, and such a number could not be told from None.
- ClientObject.Client.MoveToLocation: positions, fleets, hangars and modules are not in the state.
- Base64.DecodeTo: where the text is not decodable a buffer's contents are not specified.
- GrowingBuffer.VsprintfString: assumes a formatter whose result does not depend on the size, and so
  that the argument list may be read again on each pass, which the code does without copying it.
- The square root, rounding, not-a-number and epsilon tests of the geometry; angles, interpolation and the
  axis-angle constructor.
- `MapDB`, skills, standing, trade, crime watch and the other services that only read what is modelled.
