# A verified model of the mbdeploy fleet daemon and its client

mbdeploy shares the BBC micro:bits plugged into one machine over the network. A
daemon (`serve`) watches USB, gives each board a serial service and a flash service,
and advertises both over mDNS; a client connects to a board's console or sends it
firmware. This project models that system in Dafny and proves what its code keeps.

Five layers, each in the form its source has:

- **Occupancy and preemption** (`Board.dfy`, `Fleet.dfy`, `FleetInvariant.dfy`, `FleetSafety.dfy`,
  `FleetTheorems.dfy`, `FleetSteps.dfy`, `FleetLives.dfy`, `FleetWitnesses.dfy`). A board has one occupant, changed only in four short
  lock-protected rules. `Fleet` interleaves any number of boards, connection handlers,
  relay reader threads, the accept loop, the Supervisor and the main thread; taking the lock, reading
  the occupant, storing the new one and dropping the lock are separate steps, and a
  bounded join may fire before its target has exited. The theorems are about every
  reachable state: who may still be running without being the occupant, who alone owes
  that session a `terminate`, exactly when a second firmware write can get under way,
  who can still be running beside one and why, how claims balance, why nothing
  deadlocks, what a refused connection keeps off, and in what order everything ends.
- **The FLASH exchange** (`FlashHeader.dfy`, `FlashWire.dfy`, `FlashWireInvariant.dfy`, `FlashWireSafety.dfy`,
  `FlashWireScript.dfy`, `FlashWireTalk.dfy`, `FlashWireProgress.dfy`,
  `FlashWireCompletion.dfy`, `FlashWireDaemon.dfy`, with `Sockets.dfy` for the daemon's two read loops and
  `FlashWireReads.dfy` for their place in the exchange).
  `deploy_over_network` and `serve_flash` are two machines joined by two bounded FIFO
  byte streams with arbitrary chunking; any send may break off, any read may fail, the
  handler may die. Safety holds under every fault, and on the daemon's side against any
  client; completeness holds without any fault.
  `FlashHex.dfy` models the recovery that `flash_hex` attempts, over every script of
  subprocess results, and `RemoteFlash.dfy` joins the two: what the client's exit code
  and output say about the board.
- **The byte adapters** (`SocketSerial.dfy`, `Relay.dfy`, `SendCommand.dfy`): buffers,
  chunks, two threads and one stop flag, a deadline and an idle gap.
- **Hotplug and the sequential logic** (`Supervisor.dfy`, `PortPool.dfy`, `Mdns.dfy`,
  `Listeners.dfy`, `Shutdown.dfy`; `Registry.dfy`, `Announcements.dfy`,
  `FriendlyName.dfy`, `Targets.dfy`, `Discovery.dfy`): reconciliation of boards,
  advertisements, listeners and port pairs with any history of probe lists;
  the registry over any history of `probe_all`; the base-5 board name; which board a
  target means; and how the client reads a browse.
- **Shutdown** (`Teardown.dfy`, `ShutdownGuard.dfy`, `ShutdownSignals.dfy`). Any number of
  invocations of the signal handler at its guard, the one that gets in taking down
  listeners, advertisements and accept loop one call at a time, and the Supervisor
  opening and closing boards beside it, as one machine; and the same guard under signals
  that land on top of one another in the main thread.

A class stands where the source has an object it updates, a function or a step relation
where it computes. Each method is proved against a specification that its `ensures`
states, and what is promised of that specification is proved in the lemmas beside it.
A byte of a stream is a `char`; text is ASCII.

Five tempting claims are false of this code; each has runs or inputs that break it, and
a condition that says exactly when it holds.

- *A displaced session has ended before firmware is written.* A flash is past its join
  beside the session it displaced exactly when that join ran out (`OutlivedIffGaveUp`,
  `FlashBesideDisplacedSession`). Past its join a flash is alone on a board, departed or
  not, exactly when nobody else occupies the board, the session a departure took is not
  running, and no session still runs whose displacer gave up on it or was itself taken
  (`AloneIff`, `NobodyElse`; `AloneIffNoneOutlives` where no departure took anyone).
  Runs that break it: `FlashBesideDisplacedSession`, `FlashBesideSweptSession`,
  `FlashBesideSweptDisplacer`, `TwoFlashesAfterDeparture`.
- *One firmware write at a time on a board.* While one flash is in flight, another gets
  in exactly when the departure has taken the first one off the board before
  (`SecondFlashGetsInIff`, `TwoFlashesAfterDeparture`).
- *A board's UID addresses it.* A UID of decimal digits does exactly when it is the
  board's own enum; any other exactly when it is no path, and is 40 to 52 hex digits or
  happens to be a word that names the board first (`UidAddressesBoard`,
  `DigitUidMissesItsBoard`, `ShortUidMissesItsBoard`).
- *When the handler returns, nothing is left open.* At the moment the handler reads the
  Supervisor's table, some way of going on leaves something open exactly when the
  Supervisor is within a tick, since the join ran out, or had died in the middle of
  opening or closing a board (`LeavesSomethingIff`); if no join ran out and no exception
  ended the Supervisor, nothing is (`UndisturbedTearsDown`).
- *A repeated signal is a silent no-op.* It is, except that the handler never returns
  exactly when a signal interrupted an invocation between taking the guard's lock and
  dropping it (`ReturnsIff`).

Where the documentation and the code disagree the code is followed:
`docs/design/specification.md` and the docstring of `flash_hex` describe an erase after
any failed first write, while the code erases only for a failure that looks locked.

## Model

| member | source | states |
|---|---|---|
| Occupancy.Board.ClaimSerial | src/mbdeploy/server.py:211-223 | a serial session gets a board exactly when nobody has it; otherwise nothing changes |
| Occupancy.Board.ClaimFlash | src/mbdeploy/server.py:225-243 | a flash gets a board unless a flash has it, and then learns whom it displaced; only a serial session is ever displaced |
| Occupancy.Board.Release | src/mbdeploy/server.py:245-255 | only the current occupant is cleared; a session that was displaced clears nobody |
| Occupancy.Board.TakeOccupant | src/mbdeploy/server.py:257-272 | the board is left empty and the former occupant handed over |
| Occupancy.Session.Terminate | src/mbdeploy/server.py:101-118 | the stop flag is up and the socket shut down and closed |
| FleetSafety.NextKeeps | src/mbdeploy/server.py:211-272 | every step of every thread keeps the whole invariant |
| FleetSafety.Reachable | src/mbdeploy/server.py:480-694 | the invariant holds after every run from the start |
| FleetTheorems.SessionsAccountedFor | src/mbdeploy/server.py:151-272 | a session between its claim and its release is the occupant, or was displaced exactly once and has its stop flag up or its displacer still bound to raise it |
| FleetTheorems.OneCreditor | src/mbdeploy/server.py:151-165 | at most one thread owes a session a `terminate`, and it is the one that displaced it |
| FleetTheorems.OccupantLosesOnlyTo | src/mbdeploy/server.py:225-272 | an occupant loses a board only by its own release, to a flash if it is a serial session, or to the departure |
| FleetTheorems.LateReleaseIsHarmless | src/mbdeploy/server.py:245-255 | no step of a displaced session changes who occupies any board |
| FleetTheorems.SecondFlashNeedsDeparture | src/mbdeploy/server.py:225-243 | two firmware writes on one board at once mean that a departure took one of them off it |
| FleetTheorems.OccupiesUnlessSwept | src/mbdeploy/server.py:225-272 | a flash in flight is its board's occupant exactly when the departure has not taken it off |
| FleetTheorems.SecondFlashGetsInIff | src/mbdeploy/server.py:238-243 | while one flash alone is in flight, the claim of another succeeds exactly when the departure has taken the first off the board |
| FleetTheorems.NeverThreeFlashes | src/mbdeploy/server.py:225-272 | never three at once |
| FleetWitnesses.TwoFlashesAfterDeparture | src/mbdeploy/server.py:887-929 | a run with two firmware writes at once on a departed board |
| FleetTheorems.DisplacedBeforeFlash | src/mbdeploy/server.py:642-657 | once a flash has gone past its join, the displaced session has its stop flag up, its socket closed, and its thread has exited unless the join ran out |
| FleetTheorems.WhoRunsBeside | src/mbdeploy/server.py:151-272 | a session that runs on beside a flash past its join was taken by the departure, or that flash was, or the flash that displaced it was or gave up waiting for it; nothing else is possible |
| FleetTheorems.AloneIff | src/mbdeploy/server.py:642-657 | on any board, departed or not, a flash past its join is alone exactly when nobody else occupies the board, nobody the departure took still runs, and no session still runs whose displacer gave up on it or was itself taken |
| FleetTheorems.AloneIffNoneOutlives | src/mbdeploy/server.py:642-657 | the special case of `AloneIff` where it reads shortest: on a board that no departure took anyone from, a flash past its join is alone exactly when every session a flash gave up waiting for has let go since |
| FleetTheorems.OutlivedIffGaveUp | src/mbdeploy/server.py:131-136 | over whole runs, a flash was ever past its join beside a living victim exactly when its join ran out |
| FleetWitnesses.FlashBesideSweptSession | src/mbdeploy/server.py:907-909 | a run in which no join runs out and firmware is written beside a session that the departure took and has not told to stop |
| FleetWitnesses.FlashBesideSweptDisplacer | src/mbdeploy/server.py:907-909 | a run in which firmware is written beside a session whose displacer the departure took |
| FleetWitnesses.FlashBesideDisplacedSession | src/mbdeploy/server.py:120-136 | a run in which a join runs out and firmware is written beside the displaced session |
| FleetTheorems.ClaimsBalance | src/mbdeploy/server.py:211-272 | per board, claims = releases that took effect + preemptions + departures' takes + the occupant |
| FleetTheorems.FinishedLeavesNothing | src/mbdeploy/server.py:480-694 | a handler that is done has its connection closed, occupies nothing, and never claimed, let go once or was displaced once |
| FleetTheorems.HoldersNeverWait | src/mbdeploy/server.py:211-272 | no thread waits for a lock or in a join while it holds a board's lock |
| FleetTheorems.JoinsGoDown | src/mbdeploy/cli.py:1002-1035 | every join is for an unfinished thread of lower rank: main, Supervisor, flash handler, serial handler, relay reader and accept loop; any other wait is for the holder of a lock |
| FleetTheorems.FreeThreadsMove | src/mbdeploy/server.py:480-694 | a thread that is neither finished nor waiting can take its next step |
| FleetTheorems.NoDeadlock | src/mbdeploy/server.py:120-136 | following the waits of any unfinished thread, with every join taken as unbounded, leads within rank + 1 waits to a thread that can move |
| FleetTheorems.StoppedHandlersWindDown | src/mbdeploy/server.py:480-525 | once its stop flag is up, every step of a handler brings it nearer its end |
| FleetLives.RefusedKeepsOff | src/mbdeploy/server.py:604-640 | over whole runs, a connection refused before its claim keeps off for good: the log never mentions it, no board ever has it as occupant, and it displaces nobody |
| FleetLives.NoPortNoRelay | src/mbdeploy/server.py:509-525 | a serial session whose port does not open never relays: it lets its board go and never has a reader |
| FleetLives.NoPayloadNoWrite | src/mbdeploy/server.py:658-690 | a flash whose payload does not arrive, or is not what was announced, never gets to writing, whatever follows |
| FleetLives.RelaysGoOn | src/mbdeploy/console.py:152-186 | a relay and its reader go round until the stop flag is up or their connection fails, and then raise the flag and end |
| FleetLives.RelaysEndStopped | src/mbdeploy/console.py:152-186 | whichever of a relay's two threads ends first, the flag is up; only a session that came to relay has a reader |
| FleetLives.ReaderGoesFirst | src/mbdeploy/console.py:184-186 | unless its join runs out, a session lets its board go only after its reader has ended |
| FleetLives.WaitersWait | src/mbdeploy/server.py:120-136 | a thread that waits does not go on: at a lock never, in a join exactly if the join runs out |
| FleetLives.EndsInOrder | src/mbdeploy/cli.py:1062-1090 | the Supervisor ends only when told to, the accept loop only after the main thread is done with the Supervisor; if no join of the main thread runs out, it returns with both gone |
| FleetLives.EndsWhenTold | src/mbdeploy/cli.py:1062-1090 | told to end, the Supervisor and the accept loop do at their next look round |
| FleetLives.NothingNewAfter | src/mbdeploy/cli.py:1062-1090 | after the Supervisor has ended no board comes or goes, after the accept loop has ended nobody connects |
| FlashHeader.ParseFlashHeader | src/mbdeploy/server.py:532-551 | a line without a decimal size is malformed, one with more than 4300 digits raises, any other is read: the size is the second word, the flag is set exactly when its word is there, the digest is that of the last `sha256=`, in any order and among any other words |
| FlashHeader.OptionsMean | src/mbdeploy/server.py:541-551 | the left-to-right pass over the words arrives at what they mean |
| FlashHeader.OneMeaning | src/mbdeploy/server.py:541-551 | the words mean one header only |
| FlashHeader.HeaderRoundTrip | src/mbdeploy/remote.py:563-575 | the header the client prints is parsed back to the size, digest and flag it was printed from |
| FlashHeader.HeaderIsOneLine | src/mbdeploy/remote.py:563-575 | the printed header holds no newline and needs no stripping |
| Text.DecRoundTrip | src/mbdeploy/server.py:541-543 | printing a number and reading it back gives the number |
| Sockets.ReadLine | src/mbdeploy/server.py:393-423 | a line comes back whole with not a byte read beyond its newline; without faults and in time, nothing comes back only at end of stream or past the length limit |
| FlashWireReads.LineReadsAgree | src/mbdeploy/server.py:393-423 | whatever the line read may answer for the bytes it took, the daemon of the exchange goes on with the same answer after the same bytes |
| FlashWireReads.PayloadReadsAgree | src/mbdeploy/server.py:426-451 | the same for the payload read, short or not |
| Sockets.ReadExact | src/mbdeploy/server.py:426-451 | exactly the next bytes, never more than asked; without faults and in time, fewer only at end of stream |
| FlashWireInvariant.HeaderUnderstood | src/mbdeploy/server.py:605-640 | the daemon reads the client's header for what it is, accepts it exactly when nothing refuses it, and never mistakes it for an authentication |
| FlashWireInvariant.OnlyWholeSuccess | src/mbdeploy/server.py:372-379 | a line sent after one that broke off reads as `OK flashed` only if it is that very line |
| FlashWireSafety.NextKeeps | src/mbdeploy/server.py:583-694 | every step, faults included, keeps the invariant of the two machines |
| FlashWireSafety.SuccessMeansFlashed | src/mbdeploy/remote.py:494-607 | under any faults, a client that returns 0 had `flash_hex` run exactly once, on byte for byte its file, and return 0; no token, no `--no-flash`, no relay unless forced |
| FlashWireSafety.OnlyTheFileIsWritten | src/mbdeploy/server.py:604-690 | whatever the outcome, nothing but the client's file is handed to `flash_hex`, at most once, and never past an access control |
| FlashWireDaemon.OnlyEarnedWrites | src/mbdeploy/server.py:604-685 | against any client, any bytes, any chunking and any faults: `flash_hex` is called at most once, after the token if one is set, after one command line that nothing forbids, with exactly the bytes that followed it, as many as declared and of the declared digest |
| FlashWireDaemon.OnlyIntactPayloads | src/mbdeploy/server.py:658-672 | in any state whatever, a step that hands a payload on hands on one of the announced size and, if one was announced, digest |
| FlashWireDaemon.WholePayload | src/mbdeploy/server.py:658-685 | a payload that arrives whole is handed on exactly if its digest is right, and answered with the mismatch otherwise |
| FlashWireDaemon.BrokenPayload | src/mbdeploy/server.py:658-662 | one that breaks off is answered as short and not handed on |
| FlashWireDaemon.OnlyTheTokenAuthenticates | src/mbdeploy/server.py:454-473 | exactly the line with the very token lets a client through; any other is told that a token is required |
| FlashWireDaemon.CommandAnswers | src/mbdeploy/server.py:608-640 | INFO is answered whatever else goes on; with flashing disabled every FLASH is told so, whatever else is wrong with it; a bad header comes before a refused relay, and that before a busy board; an empty line is not answered |
| FlashWireDaemon.LineEndsMakeNoDifference | src/mbdeploy/server.py:608-612 | white space after a command, such as a carriage return, makes no difference |
| FlashWireDaemon.AcceptedIff | src/mbdeploy/server.py:608-657 | a payload is asked for exactly after a well-formed header that nothing forbids |
| FlashWireDaemon.RefusalsDiffer | src/mbdeploy/server.py:604-690 | no two refusals are told in the same words |
| FlashWireDaemon.BrokenSendGoesOn | src/mbdeploy/server.py:372-378 | a reply that cannot be sent leaves the daemon as if it had been |
| FlashWireProgress.EachStepMovesBytes | src/mbdeploy/remote.py:550-607 | every step without a fault moves bytes, so that runs end |
| FlashWireCompletion.NeverStuck | src/mbdeploy/remote.py:550-607 | without faults one of the two machines can always go on until the client has returned |
| FlashWireCompletion.FaultFreeRunsComplete | src/mbdeploy/remote.py:550-607 | without faults or refusals every run, whatever the length of the logged lines, is bounded by the bytes to move and cannot stop early; it ends with 0 exactly when `flash_hex` returned 0 and every logged line was within the client's limit, with exactly the lines before the first that was not relayed, in order |
| FlashWireCompletion.SomeRunCompletes | src/mbdeploy/remote.py:550-607 | from anywhere in such an exchange there is a rest of it in which the client returns |
| RemoteFlash.ZeroMeansRunning | src/mbdeploy/flash.py:219-290 | `flash_hex` returns 0 exactly when the last write was of its file, on its board, and succeeded, and the reset after it did |
| RemoteFlash.RemoteSuccessMeansRunning | src/mbdeploy/remote.py:494-607 | under any faults, a client that returns 0 has its own file on the board: valid, written last by a write that succeeded, the board reset after it |
| RemoteFlash.ExitCodeTellsTheBoard | src/mbdeploy/remote.py:494-607 | without faults the exit code is 0 exactly when the client's file was left running and every logged line was within the client's limit; the client prints those up to the first that was not; a file that is not valid Intel HEX is not written, the code is 1 and the reason is the one line logged |
| FlashRecovery.Pyocd.StreamLines | src/mbdeploy/flash.py:154-163 | every output line is logged once, in order, and returned |
| FlashRecovery.FlashHex | src/mbdeploy/flash.py:219-290 | a file that is not valid is refused before any process; else every process is for this board and every write of this file; at most five processes and one erase; the erase exactly when the deciding attempt looks locked; a reset exactly when the last write succeeded; the answer is the last process's; the remarks logged are those the processes call for, "no firmware" exactly when an erase worked and no later write did |
| FlashRecovery.OneLineSuffices | src/mbdeploy/flash.py:87-121 | one output line that names a signature, in any case, is enough for the whole output to name it |
| FlashRecovery.SignatureAnywhere | src/mbdeploy/flash.py:76-121 | a signature is recognised wherever it stands in the output and in whatever case |
| FlashRecovery.LockedIsNotTransient | src/mbdeploy/flash.py:104-121 | each wording of a protected board looks locked wherever it stands; the bare fault code does not look transient |
| FlashRecovery.TransientIsNotLocked | src/mbdeploy/flash.py:76-91 | each wording of a flaky probe looks transient wherever it stands; the bare probe layer does not look locked |
| FlashRecovery.UnknownIsNeither | src/mbdeploy/flash.py:87-121 | output with none of the wordings is neither |
| FlashRecovery.ShapeIsRecovery | src/mbdeploy/flash.py:219-290 | attempts followed by what may follow them meet every promise about the processes |
| FlashRecovery.ShapeLeavesEmpty | src/mbdeploy/flash.py:256-277 | the board is left without firmware exactly when the run ends with a failed write after an erase that worked |
| SerialAdapter.SocketSerial.ReadLine | src/mbdeploy/remote.py:126-160 | the answer is taken from the front of what is pending, is one line, and without faults is exactly the first line; after end of stream nothing more is received |
| SerialAdapter.SocketSerial.Read | src/mbdeploy/remote.py:162-189 | at most the bytes asked for, from the front; without faults exactly as many as there are |
| SerialAdapter.SocketSerial.InWaiting | src/mbdeploy/remote.py:191-203 | the number of bytes buffered, with nothing consumed |
| SerialAdapter.SocketSerial.DrainNonblocking | src/mbdeploy/remote.py:216-243 | what has arrived joins the buffer, until a receive has nothing to give; nothing is lost or reordered |
| SerialAdapter.SocketSerial.ResetInputBuffer | src/mbdeploy/remote.py:104-112 | what is thrown away is an initial part of what was pending, and the buffer is empty |
| SerialAdapter.SocketSerial.ReadLines | src/mbdeploy/remote.py:126-203 | however the stream is chunked and wherever `in_waiting` is asked in between, `readline` answers the same lines |
| SerialAdapter.FirstLineSplits | src/mbdeploy/remote.py:126-160 | the first answer is the first newline-terminated line, and the rest of the stream has the other lines |
| SerialAdapter.LineStreamIsSplit | src/mbdeploy/remote.py:126-160 | the answers are the lines of the stream, then its unfinished tail, then nothing for ever |
| Relay.RelaysFaithfully | src/mbdeploy/console.py:152-186 | each way, what is delivered is what was taken but for a part of the last chunk; after the stop flag is up at most one chunk is taken and at most one delivered |
| Relay.ReturnsStopped | src/mbdeploy/console.py:169-186 | the stop flag is up whenever the relay returns |
| Relay.EndsOnlyOnStopOrError | src/mbdeploy/console.py:152-183 | a direction ends exactly when it finds the flag up or one of its two sides fails; silence does not end it |
| Relay.DeliversWhatWentOut | src/mbdeploy/console.py:152-183 | a chunk that goes out counts whole, one that breaks off as far as it went, and nothing else is delivered |
| Relay.EitherEndsBoth | src/mbdeploy/console.py:155-186 | once the reader has ended the flag is up; once the handler's loop has ended it comes up at the next step |
| Relay.ReturnsAfterPump | src/mbdeploy/console.py:184-186 | unless its join runs out, the relay returns with both directions ended |
| Relay.StoppedDirectionsEnd | src/mbdeploy/console.py:152-183 | once the flag is up, every step of either direction brings it nearer its end |
| OneShot.SendCommand | src/mbdeploy/console.py:72-99 | the reply is exactly the non-blank lines read, in order; no read starts at or after the deadline or once the device has answered and been quiet for the gap; before the deadline it ends only then |
| OneShot.ChompShape | src/mbdeploy/console.py:72-99 | of a line read only line ends are dropped, and all of them |
| PortPool.Reuse | src/mbdeploy/server.py:933-946 | giving a free pair to a board keeps free pairs and used pairs disjoint and together exactly the pairs made |
| PortPool.Make | src/mbdeploy/server.py:946-950 | so does making the next pair when none is free |
| PortPool.GiveBack | src/mbdeploy/server.py:926-929 | so does giving a departed board's pair back |
| Supervision.Supervisor.AllocPorts | src/mbdeploy/server.py:933-950 | the last free pair, or the next pair when none is free |
| Supervision.Supervisor.OnArrival | src/mbdeploy/server.py:832-883 | the board is added with two new handles, two open registered listeners and a pair of its own; pairs are made only when more boards are live than ever before |
| Occupancy.SweepOut | src/mbdeploy/server.py:905-909 | the board is left idle, and its occupant, if any, told to stop with its socket shut and closed |
| Supervision.Supervisor.OnDeparture | src/mbdeploy/server.py:911-929 | the board is gone, its two handles withdrawn in order, its listeners closed, its ports free again |
| Supervision.Supervisor.Tick | src/mbdeploy/server.py:810-828 | afterwards boards = known UIDs = the UIDs of the list; live handles and listeners are exactly the two of each board; boards that stayed keep everything; the same list again changes nothing |
| Supervision.Supervisor.Watch | src/mbdeploy/server.py:963-979 | after any history of probe lists the peak of pairs is exactly the largest number of distinct UIDs in one list |
| Supervision.Supervisor.PortsExactlyToPeak | src/mbdeploy/server.py:933-950 | pairs in use and free pairs are together exactly (B+2i, B+2i+1) for i below that peak, disjoint, and no two boards share one |
| Supervision.Supervisor.ResourcesAreDistinct | src/mbdeploy/server.py:852-880 | no handle and no listener serves two services |
| Supervision.AdvertiseBoard | src/mbdeploy/server.py:859-864 | two new handles keep the advertisements exactly two per live board |
| Supervision.WithdrawBoard | src/mbdeploy/server.py:911-916 | withdrawing a board's two handles keeps them exactly two per remaining board |
| Supervision.SilenceBoard | src/mbdeploy/server.py:918-925 | closing a board's two listeners keeps listeners exactly two per remaining board |
| Mdns.Advertiser.Register | src/mbdeploy/mdns.py:145-169 | a handle never used before, registered |
| Mdns.Advertiser.Unregister | src/mbdeploy/mdns.py:171-179 | exactly that handle is withdrawn; a second call does nothing |
| Mdns.Advertiser.Close | src/mbdeploy/mdns.py:181-192 | every handle ever issued ends up withdrawn exactly once; a second call does nothing |
| Teardown.DeparturesThenArrivals | src/mbdeploy/server.py:810-830 | in one tick all departures come before the first arrival, and neither kind stops at one |
| Teardown.OnlyTicksRaise | src/mbdeploy/server.py:963-979 | the Supervisor dies of an exception only within a tick, and then does nothing more |
| Teardown.WatchOk | src/mbdeploy/server.py:832-931 | each step of an arrival or a departure, or an exception in one, keeps listeners, registrations and advertisements those of the table and of the board being opened or closed, and every advertisement up or withdrawn once, until the body reads the table; the counts also after |
| Teardown.CanProceed | src/mbdeploy/cli.py:1008-1035 | the body can always take its next step, once a join may run out; each brings it closer to its end and closes nothing but what it read |
| ShutdownGuard.BodyRunsOnce | src/mbdeploy/cli.py:1002-1035 | under any number of concurrent invocations, every step of the guard, the teardown and the Supervisor interleaved, the body is begun at most once, closes no listener twice, no advertisement is withdrawn twice or forgotten, and once the flag is up and the lock free the body was begun |
| ShutdownGuard.SettledTearsDown | src/mbdeploy/cli.py:1008-1035 | if the Supervisor is out of the way when the body reads its table, then by the end, whatever else happens, no listener is open or registered, and every advertisement ever made was withdrawn exactly once |
| ShutdownGuard.JoinWaits | src/mbdeploy/cli.py:1010-1019 | the body goes on past its join exactly if the Supervisor is not running or the join has run out |
| ShutdownGuard.UndisturbedTearsDown | src/mbdeploy/cli.py:1002-1035 | over whole runs from the start: if no join ran out on a running Supervisor and no exception ended it, then at the end everything is taken down |
| ShutdownGuard.LeavesSomethingIff | src/mbdeploy/cli.py:1010-1035 | from the reading of the table some run to the end leaves something exactly if the Supervisor is within a tick there, or had died in the middle of opening or closing a board |
| ShutdownSignals.ReturnsIff | src/mbdeploy/cli.py:1002-1006 | nested in one thread, the invocations under way can all return exactly if none was interrupted by another between taking the lock and dropping it |
| Shutdown.ServeShutdown.Invoke | src/mbdeploy/cli.py:1008-1035 | however many further signals arrive between any of its steps, the body runs once, and leaves no handle, every handle withdrawn exactly once, and no listener open or registered |
| Registry.NextEnum | src/mbdeploy/devices.py:307-315 | in a well-formed registry the largest enum is the number of boards, so a new board is numbered next |
| Registry.StoreKeeps | src/mbdeploy/devices.py:371-396 | merging one board's answers keeps the registry well formed: keys are UIDs, enums a permutation of 1..n, announcement fields all absent or all from that entry's own announcement, board name = name of its device id |
| Registry.StoreExtends | src/mbdeploy/devices.py:371-396 | it changes that board alone, and of it neither enum nor a board name once set |
| Registry.LearningTwice | src/mbdeploy/devices.py:371-396 | merging the same answers again changes nothing |
| Registry.ProbeAll | src/mbdeploy/devices.py:323-399 | refused exactly when asked to clear and to narrow; else the in-place loop computes the merge of every board in scope, in order |
| Registry.MergedKeeps | src/mbdeploy/devices.py:333-357 | the merge is well formed, extends what it started from, leaves every board out of scope exactly as it was, and every board asked holds what its own answers taught on top of what was known |
| Registry.AskedBoardsLearn | src/mbdeploy/devices.py:371-396 | of every board asked: the port is that of its answers; if it has one, the first text that parses replaces all five announcement fields, and without one they stay; a nameless board gets the device id read and its name, a named one keeps both |
| Registry.InScopeIsInScope | src/mbdeploy/devices.py:365-369 | the boards asked are exactly the connected ones that the call was narrowed to |
| Registry.RearrangedKeeps | src/mbdeploy/devices.py:293-304 | a registry saved and loaded in another key order is as well formed and says the same of every board |
| Registry.HistoryKeeps | src/mbdeploy/devices.py:323-399 | over any history of calls, clears and refusals, each loading what the last saved, the registry stays well formed; without a clear it only grows, and a connected board that no call was narrowed to is as it was |
| Registry.SinceTheLastClear | src/mbdeploy/devices.py:323-369 | after the last clear the registry holds only boards asked since then, and has grown from what that call found |
| Announcements.FirstAnnouncement | src/mbdeploy/devices.py:149-197 | the first line read that parses in either dialect is the announcement |
| Announcements.AnnouncesIff | src/mbdeploy/devices.py:175-197 | a line announces a board exactly if it starts with `DEVICE:` and has at least four colons, or with `device ` and has at least five words; it is kept whole |
| Announcements.JoinOfSplit | src/mbdeploy/devices.py:177-181 | splitting at colons and joining again gives the text, so a serial keeps its colons |
| Announcements.ColonDialect | src/mbdeploy/devices.py:177-181 | the relay's line gives its four fields back, even with colons in the serial |
| Announcements.SpaceDialect | src/mbdeploy/devices.py:182-188 | the robot's line gives its four fields back, whatever follows the serial |
| FriendlyNames.ComputeName | src/mbdeploy/devices.py:205-218 | the in-place loop spells the low 32 bits in base 5, most significant letter first |
| FriendlyNames.NamesArePronounceable | src/mbdeploy/devices.py:45-51 | every name is consonant, vowel, consonant, vowel, consonant of the codebook |
| FriendlyNames.KnownNames | src/mbdeploy/devices.py:205-218 | the names of four known device ids |
| FriendlyNames.NameDecodes | src/mbdeploy/devices.py:205-218 | the name decodes to the low 32 bits of the id modulo 3125 |
| FriendlyNames.SameNameIffSameResidue | src/mbdeploy/devices.py:205-218 | two ids share a name exactly when those residues agree |
| FriendlyNames.EveryNameIsReached | src/mbdeploy/devices.py:45-51 | every string of codebook letters is the name of the number it decodes to |
| Targets.DeployIgnoresRecordedPorts | src/mbdeploy/cli.py:618-711 | registries that differ only in recorded ports and labels lead to the same board or the same refusal, for every target and for none |
| Targets.PathMeansTheLiveBoard | src/mbdeploy/cli.py:545-580 | a path flashes a board exactly when that board is on it now, is registered, connected, and no relay unless forced |
| Targets.OnlyAllowedBoards | src/mbdeploy/cli.py:646-691 | whatever the target, the board flashed is registered, connected, and a relay only when forced |
| Targets.NoTargetPicksTheSoleCandidate | src/mbdeploy/cli.py:655-678 | with no target or an empty one: a board is flashed exactly if it is the only one registered that is no relay, and connected; two such are ambiguous, none is nothing to flash |
| Targets.WordFlashesItsBoard | src/mbdeploy/cli.py:643-697 | a word flashes the board it means, if connected and no relay unless forced; else the first reason that applies is given |
| Targets.PathRefusals | src/mbdeploy/cli.py:545-580 | why a path flashes nothing, in the order in which it is found out |
| Roles.RelayWords | src/mbdeploy/devices.py:277-286 | either word names a relay, whatever stands around it and in whatever case |
| Roles.OtherRoles | src/mbdeploy/devices.py:277-286 | without either word it is no relay, nor is an empty or absent role |
| Targets.EnumAddressesBoard | src/mbdeploy/devices.py:445-451 | in a well-formed registry a board's enum addresses exactly it |
| Targets.WordAddressesBoard | src/mbdeploy/devices.py:445-475 | any word leads to a given board exactly when it is a number and the board's enum, or of UID shape and the board's UID, or else no path and a name that the board is the first to answer to, announced names before those read from silicon |
| Targets.UidLengths | src/mbdeploy/devices.py:461-467 | hex digits are taken for a UID exactly when there are 40 to 52 of them |
| Targets.PathsAddressNothing | src/mbdeploy/devices.py:453-459 | nothing with a slash in it, wherever, is looked up in the registry |
| Targets.UidAddressesBoard | src/mbdeploy/devices.py:445-475 | whatever a board's UID looks like, it addresses the board exactly when it is all digits and the board's own enum, or neither digits nor a path and either of UID shape or a name that the board is the first to answer to |
| Targets.ShortUidMissesItsBoard | src/mbdeploy/devices.py:63-72 | a registered board whose UID has 16 hex digits is not found by its UID |
| Targets.DigitUidMissesItsBoard | src/mbdeploy/devices.py:445-451 | a registered board whose UID has 48 decimal digits is not found by its UID |
| Targets.LabelAddressesBoard | src/mbdeploy/cli.py:499-510 | whatever label is quoted for a board, it addresses the board exactly when the label, taken as a word, does; quoted by its enum a nameless board always is addressed |
| Targets.LabelIsHowToTypeIt | src/mbdeploy/cli.py:499-510 | the label is the announced name, else the name read from silicon, else the number, never empty, and blind to the common name and the recorded port |
| Discovery.SuffixShape | src/mbdeploy/remote.py:59 | a name is changed exactly when it ends in a space and a bracketed number, possibly before a final newline |
| Discovery.ShortNameUndoesPrinting | src/mbdeploy/remote.py:246-260 | a printed service name gives the short name back exactly when that does not itself end in a space and a bracketed number; with such a suffix added it always does |
| Discovery.OtherTypesKeepTheirName | src/mbdeploy/remote.py:246-260 | a name that does not end in the service type is left alone exactly when it has no rename suffix |
| Discovery.OnlyTheSoleBearer | src/mbdeploy/remote.py:285-304 | a name resolves exactly when one answer alone bears it, and then to that answer; several are all reported |
| Discovery.FirstNonEmptyIsFirst | src/mbdeploy/remote.py:394-415 | a cell is empty only if no registration of the board fills it, else it is the first that does |
| Discovery.SeenSays | src/mbdeploy/remote.py:394-409 | a service enters the table with what it says, column by column, under its UID or else its name |
| Discovery.Join | src/mbdeploy/remote.py:394-416 | the joining loop makes one row per distinct board, in order of first sighting, each cell the first non-empty one |
| Discovery.SortSorts | src/mbdeploy/remote.py:417 | the rows come out sorted by name and UID, none lost or added |
| Discovery.SortedByNameThenUid | src/mbdeploy/remote.py:417 | no row stands after one of a greater name, nor of the same name and a greater UID |
| Discovery.LessIsLexicographic | src/mbdeploy/remote.py:417 | greater is meant lexicographically, by the first character that differs |
| Discovery.OnlyHostsAreShown | src/mbdeploy/remote.py:418-426 | the display lookup changes a non-empty host and nothing else |
| Discovery.ListRemote | src/mbdeploy/remote.py:394-427 | the listing is those rows, sorted, with host names looked up for display afterwards |

## Left out

- Real sockets, selectors, serial ports, pyOCD, zeroconf and the filesystem: each is an oracle that may answer anything its interface allows, or is left out.
- UTF-8 coding, Unicode digits and case folding: text is ASCII and a byte is a character, so that `isdigit` and `int` agree on what is a number.
- SHA-256 and the Intel HEX parser: the digest is any function to 64 lowercase hex characters, and validity of a file is an input.
- Wall-clock time: clocks only never go back, and a read that timed out took time.
- FlashWireSafety.SuccessMeansFlashed: assumes log messages hold no newline, which process output lines never do.
- Supervision.Supervisor.OnArrival: assumes that probing, binding and registering do not raise; a failed arrival is only in `Teardown`.
- Shutdown.ServeShutdown.Invoke: assumes the Supervisor thread has exited by the end of the join, and no signal inside a call of the body or in the guard; `ShutdownGuard` has every interleaving and every outcome of the join, `ShutdownSignals` the signals in the guard.
- ShutdownGuard.LeavesSomethingIff: a tick in progress may find another arrival; what a tick is going to find is not known to the machine.
- Supervision.Supervisor.OnDeparture: does not touch the occupant: taking it and telling it to end is `Occupancy.SweepOut`, and how that and the join interleave with handlers is `Fleet`; the three are not one machine.
- FlashWireInvariant.HeaderUnderstood: of sizes of more than 4300 digits, which Python neither prints nor reads, the exchange knows nothing special; `FlashHeader.ParseFlashHeader` has the exception.
- OneShot.SendCommand: counts on a device that says something only finitely often, and claims no bound on the time one `readline` takes, since a stream without newlines can hold it.
- Registry.HistoryKeeps: starts from a well-formed registry, such as an empty one; legacy entries without an enum are not modelled.
- Selecting and accepting: while the accept loop runs, a connection may arrive at any time on any board, departed ones included.
- The INFO payload, TXT records beyond the UID, instance-name fallbacks and reverse DNS: strings passed through.
- `interact`, `connect`, the argument parser, table printing, systemd units, `builder.py` and the spike scripts: user interface and installation.
- The optional build before a deploy: it runs after the board was chosen and does not change the choice.
- Timing resistance of the token comparison.
