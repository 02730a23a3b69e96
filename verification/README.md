# Verified model of the robot's firmware upgrade and power control

The repository holds the embedded software of a robot: boot loaders and applications for its power
boards, the host program that upgrades them over a shared RS-485 line, the power-up controllers of the
main board and of the control board with their fault policies, and the motor feedback service of the
hand. This project models the parts whose correctness spans many steps, and proves what they promise.

**Upgrade pipeline.** `Bytes`, `OctetBits`, `Crc` and `Frames` model the frame envelope: printing,
recognising in an arbitrary octet stream, and what the two checksums detect. `Session` is the board's
address filter, dispatcher and slot-B writer as a function of state, frame and flash behaviour, with a
bystander's record that says what a commit means; `Boards` is the same as an imperative program and
`AppSessions` the application's session around it. `Transfer` closes the system: the host's frames, a
channel that may lose, duplicate, delay and reorder, flash faults and power cycles. `Host` is the sender
program, with its own recogniser in `HostFrames`. `StaleStart` drives a board into commits that no file
matches. `Boot` models the two slots and the metadata record under power cuts at any primitive, and
`BootLoaders` the programs; `Upgrade` joins the download to the boot loader.

**Power control.** `SoftStart` and `PowerSequence` are the main board's two coupled state machines and
its fault policy, `PowerBoards` the program. `CtuPower` is the control board's sequence and policy for
every interleaving of the two tasks, `CtuRestart` a life on the board's own schedule, `CtuBoards` the
program. `Timers` is shared by both boards. `Motors` is one motor bus, `Pwm` the
control board's PWM group.

Conventions. Each imperative program is a class whose methods are proved equal to functions on values,
and the properties are lemmas about those functions over every run. Inputs that come from outside
(voltages, flags, clock readings, the fate of a flash operation, when power fails) are parameters,
universally quantified. `uint32_t` and `uint16_t` arithmetic is wrapped explicitly where it can wrap;
millisecond clocks are natural numbers. The state machine framework runs a state's entry action at the
first step taken in that state, not at the transition (`public_layer/m_middlewares/framework/fsm.c`);
the model does the same, and several results below depend on it.

Assumptions. The metadata record is replaced atomically. Flash programmes and erases only the cells it
is asked to; in the download session it may otherwise fail in any way, in the boot loader it fails only
through a power cut. Builds have two slots and `BOOT_SKIP_APP_VERIFY` equal to 0, the production
default of the source file; the build file of the control board's boot loader currently sets it to 1
(`E1_CTU_BOOT/CMakeLists.txt`), which switches the image checks and the resumption of commits off.

## Findings

Places where the code does less than its documentation or a first reading suggests. Each is proved with
the exact condition.

- The checksum declared in START is not used; what END commits is the running sum of the written octets.
  If a START was refused in mid-download that sum keeps the abandoned octets: the committed checksum is
  right if and only if the left-over sum is zero (`Session.CommitIsTheImage`). A run with one failed erase
  gets there (`StaleStart.FailedRestartCommits`), and since a commit in download mode promotes without
  checking, the board then runs neither image (`Upgrade.FailedRestartNeverRuns`).
- A START refused for its size in mid-download leaves the download open for an image of that size. The
  boot loader refuses to commit one below 16 octets, the application does not: without any fault its board
  ends in download mode with the old image unused (`Upgrade.TinyRestartStopsTheBoard`).
- A START accepted while a commit waits for its restart erases the waiting image, and the record no
  longer describes the old one: the board stays in download mode (`Boot.StartWhilePendingLosesBoth`; the
  pending image is finished if and only if slot B still matches, `Boot.PendingIsFinishedIff`).
- Main board: an emergency stop in the very millisecond in which the soft start finds no load is ignored
  by the power controller, and the charging output stays on for one more millisecond. The condition can be
  checked beforehand: the duty ramp 50 ms old, no over-current, the bus below a volt. Otherwise it is cut at once
  (`PowerSequence.EstopCutsPower`, `PowerSequence.NoLoadHappens`, `PowerSequence.NextMillisecondIsDark`).
- Main board: a trip caused by a fault is not cleared by pressing and releasing the button
  (`PowerSequence.FaultTripsIff`, `PowerSequence.FaultTripIsLatched`); releasing restores power if and only if
  the press was noticed (`PowerSequence.ReleaseRestartsIff`).
- Main board: the warm-start seed survives over-current retries, so a later cold ramp may jump; the jump
  stays within four per mille if and only if the seed is at most two (`SoftStart.StaleSeedJumps`,
  `SoftStart.StaleSeedHappens`).
- Main board: over-current is watched in the ramps but not in the steady state. After a step that sees it
  the charging output is on if and only if it was and the steady state had been reached
  (`SoftStart.OcpLeavesChargeIff`, `SoftStart.SteadyIgnoresOcp`).
- Main board: the steady state is reported with the charging output off if and only if it was not reached
  through the duty ramp, and sampling leads straight to it if and only if the bus is nearly full
  (`SoftStart.SteadyIsChargedIff`, `SoftStart.PrebiasIsFullIff`).
- Where comments and constants differ the model follows the constants: 60000 and 65000 mV on the control
  board (comments: 58 V and 60 V), 20 ms of cleared output on the main board (comments: 5 ms).
- Control board: the latch is cleared by either edge of the button, and the press trips it again.
  Power-good timers are frozen while the board is not powered, so after an over-voltage restart the first
  check may trip (`CtuRestart.RestartSkipsTheWindow`). The window is given if and only if no earlier check
  had recorded the enable (`CtuPower.WindowIsGivenIff`).
- Motor polling is fair if and only if three does not divide the number of motors on the bus
  (`Motors.FairPolling`, `Motors.UnfairPolling`).

## Model

| member | source | states |
|---|---|---|
| `Crc.Crc8DetectsOneOctet` | E1_CTU_BOOT/host/boot_protocol.py:84-99 | messages of equal length, any length, that differ in exactly one octet have different CRC-8 |
| `Crc.Crc16DetectsTwoAdjacentOctets` | E1_CTU_BOOT/service/boot_proto.c:30-41 | messages of equal length that differ only within two adjacent octets have different CRC-16/XMODEM |
| `Crc.BuildTable` | E1_CTU_BOOT/host/boot_protocol.py:84-92 | the host's table loop yields, for each of 256 indices, eight conditional shifts of the index |
| `Crc.Crc8ByTable` | E1_CTU_BOOT/host/boot_protocol.py:95-99 | the table-driven loop computes the bit-serial CRC-8 |
| `Crc.BlockCrc` | E1_CTU_BOOT/service/boot_proto.c:30-41 | the shift loop of the device computes the CRC-16 carried in a DATA frame |
| `Crc.CheckValues` | E1_CTU_BOOT/service/boot_proto.c:30-41 | the digits 1 to 9 have the CRC-8 0x0B and the CRC-16 0x31C3: the parameters are those of the published check values |
| `Frames.PrintedFrameDispatches` | E1_CTU_BOOT/service/boot_proto.c:203-260 | from the idle state a printed frame is dispatched exactly once, on its last octet, and only collected before |
| `Frames.EveryDispatchWasPrinted` | E1_CTU_BOOT/service/boot_proto.c:203-260 | at every dispatch in any stream the octets just fed are the printed form of the frame, payload at most 253 |
| `Frames.BackToIdle` | E1_CTU_BOOT/service/boot_proto.c:203-260 | whatever follows a header, the parser is idle again within 257 octets |
| `Frames.StreamIsRecovered` | E1_CTU_BOOT/service/boot_proto.c:203-260 | frames separated by header-free noise are all dispatched, once each and in order |
| `Frames.DamagedFrameIsDropped` | E1_CTU_BOOT/service/boot_proto.c:247-255 | a frame damaged in one octet other than header and length is dropped and leaves the parser idle |
| `Frames.DecodedIsPrinted` | E1_CTU_BOOT/host/boot_protocol.py:116-119 | printing what a complete buffer decodes to gives the buffer back |
| `Frames.PrintedDecodes` | E1_CTU_BOOT/host/boot_protocol.py:116-119 | decoding a printed frame gives the frame back |
| `Frames.FrameParser.FeedByte` | E1_CTU_BOOT/service/boot_proto.c:203-260 | the six-state program over a 258-octet buffer implements the recogniser, in bounds, for every octet |
| `Session.DispatchKeepsInv` | E1_CTU_BOOT/service/boot_proto.c:83-188 | every frame with any flash behaviour keeps counters, slot contents and checksum in step with the acknowledged blocks |
| `Session.SelectVerdict` | E1_CTU_BOOT/service/boot_proto.c:97-109 | SELECT is granted exactly for the target and the octet 1, and ends any download |
| `Session.StartVerdict` | E1_CTU_BOOT/service/boot_proto.c:110-130 | START is granted exactly to a selected board, for nine octets, a size from 16 to 98304 and a successful erase, with the error code of each failure; sizes, sum and counters are taken from the octets, and a failed erase leaves what the flash made of the slot |
| `Session.DataVerdict` | E1_CTU_BOOT/service/boot_proto.c:131-162 | the verdict on every DATA frame from its raw octets: order of the tests, error codes, echoed number, what is in the slot afterwards whether or not the block is taken, and no change by anything but the expected block |
| `Session.EndVerdict` | E1_CTU_BOOT/service/boot_proto.c:163-177 | END is acknowledged exactly when as many octets have arrived as were declared in an open download |
| `Session.AbortVerdict` | E1_CTU_BOOT/service/boot_proto.c:178-184 | an addressed ABORT is acknowledged, aborts, commits nothing and changes nothing but a missing identity |
| `Session.AbortsIff` | E1_CTU_BOOT/service/boot_proto.c:163-184 | over all commands: the board aborts on an addressed ABORT, on an addressed END that finds the lengths apart, and on nothing else |
| `Session.LearnsIdentity` | E1_CTU_BOOT/service/boot_proto.c:68-91 | a board without identity takes the target it is addressed by, and reports exactly that; others keep theirs |
| `Session.RepliesIff` | E1_CTU_BOOT/service/boot_proto.c:83-188 | a reply is drawn exactly by the five commands, addressed to this board, to all, or to a board without identity |
| `Session.NoGaps` | E1_CTU_BOOT/service/boot_session.c:141-160 | received length and write offset agree exactly when every block but the last is 248 octets |
| `Session.SlotHoldsConcat` | E1_CTU_BOOT/service/boot_session.c:112-139 | acknowledged blocks without gaps lie end to end in slot B |
| `Session.CommitIsTheImage` | E1_CTU_BOOT/service/boot_session.c:141-160 | a commit covers exactly the acknowledged blocks; its checksum is theirs if and only if no stale sum was left over |
| `Session.EndCommitsExactly` | E1_CTU_BOOT/service/boot_proto.c:163-177 | after an accepted START, END commits if and only if a download is on, all octets came and no block was short, and aborts if and only if one was |
| `Session.EveryCommitIsFaithful` | E1_CTU_BOOT/service/boot_proto.c:83-188 | over every run of frames and flash faults from a fresh session, commits are faithful in that sense |
| `Session.RetransmissionIsHarmless` | E1_CTU_BOOT/service/boot_proto.c:131-162 | a block acknowledged once is acknowledged again with the same reply and changes nothing, whatever the flash does |
| `Session.EndRepeats` | E1_CTU_BOOT/service/boot_proto.c:163-177 | END changes nothing but a missing identity; repeated, it draws the same reply and the same commit or abort again |
| `Session.ForeignFramesAreIgnored` | E1_CTU_BOOT/service/boot_proto.c:68-91 | a frame for another identity changes nothing and draws no reply |
| `Session.RepliesAreIdentified` | E1_CTU_BOOT/service/boot_proto.c:68-188 | a nonzero identity never changes; a reply carries it and answers the command received |
| `Session.UnicastDrawsOneReply` | E1_CTU_BOOT/service/boot_proto.c:68-91 | on boards with distinct fixed identities a unicast frame draws at most one reply in all |
| `Boards.Board.SessionStart` | E1_CTU_BOOT/service/boot_session.c:89-110 | START's callback: size limits, erase of slot B, totals cleared only on success |
| `Boards.Board.SessionData` | E1_CTU_BOOT/service/boot_session.c:112-139 | DATA's callback: bounds, write, read-back, wrapped checksum loop, new offset |
| `Boards.Board.VerifyBlock` | E1_CTU_BOOT/service/boot_flash.c:282-306 | the read-back loop reports equality of the cells with the data |
| `Boards.Board.OnFrame` | E1_CTU_BOOT/service/boot_proto.c:83-188 | the in-place dispatcher does to its fields exactly what the session function says, reply and callbacks included |
| `Boards.Board.FeedByte` | E1_CTU_BOOT/service/boot_proto.c:203-260 | one octet from the line yields at most one dispatch and its printed reply, otherwise no change |
| `AppSessions.ServingIsDispatching` | E1_MASTER_POWER_CTU/service/srv_boot_ctrl.c:106-114 | serving octets one at a time equals recognising the frames and dispatching them in order, each with its own flash fate |
| `AppSessions.ChunkIsObeyed` | E1_MASTER_POWER_CTU/service/srv_boot_ctrl.c:106-114 | a chunk of printed frames with noise between is obeyed frame by frame, each with its own flash fate |
| `AppSessions.AppSession.EnterUpgrade` | E1_MASTER_POWER_CTU/service/srv_boot_ctrl.c:71-99 | entering starts a fresh session over slot B with the board's own identity |
| `AppSessions.AppSession.FeedChunk` | E1_MASTER_POWER_CTU/service/srv_boot_ctrl.c:106-114 | an inactive session ignores the line; an active one serves the whole chunk and stays active exactly if that drew neither commit nor abort |
| `AppImage.CheckAppImage` | E1_CTU_BOOT/host/boot_protocol.py:102-113 | the host accepts exactly images of 16 octets or more whose vector table the boot loader finds sane |
| `AppImage.SaneInSlot` | E1_CTU_BOOT/tasks/boot_task.c:271-286 | an image in the slot is sane if and only if the slot is |
| `AppImage.SaneVectors` | E1_CTU_BOOT/tasks/boot_task.c:271-286 | the vector test on raw octets: stack within 0x20000000 to 0x2000C000, odd reset vector from 0x08008000 below 0x08020000 |
| `Transfer.ChunksAssemble` | E1_CTU_BOOT/host/boot_protocol.py:193-207 | the chunks sent so far are a prefix of the image, all of it once the last has been sent |
| `Transfer.WireFormat` | E1_CTU_BOOT/host/boot_protocol.py:219-265 | every frame of the host octet by octet: header, command, length, target, then sizes, sums and numbers little-endian |
| `Transfer.DeliveryKeepsLoading` | E1_CTU_BOOT/service/boot_proto.c:83-188 | whatever frame of the transfer arrives, late or repeated, the download stays on the image |
| `Transfer.TransferCommitIsFaithful` | E1_CTU_BOOT/service/boot_session.c:141-160 | a commit during the transfer is the whole image, with its checksum unless an erase failed |
| `Transfer.EndAcceptedCommits` | E1_CTU_BOOT/service/boot_proto.c:163-177 | a successful reply to END comes only with a commit |
| `Transfer.NextIsSafe` | E1_CTU_BOOT/host/boot_protocol.py:157-310 | every event of the adversary keeps the system safe |
| `Transfer.AnswersStayOnTheWire` | E1_CTU_BOOT/service/boot_proto.c:83-188 | a delivered frame that is answered puts its answer on the wire for good, beside all earlier ones and all commits |
| `Transfer.PowerCycleForgets` | E1_CTU_BOOT/service/boot_proto.c:192-201 | a power cycle forgets the session and nothing that is on the wire |
| `Transfer.EveryScheduleIsFaithful` | E1_CTU_BOOT/host/boot_protocol.py:157-310 | end-to-end integrity over every schedule of loss, duplication, delay, reordering, flash faults and power cycles |
| `Transfer.CleanTransferCommits` | E1_CTU_BOOT/host/boot_protocol.py:157-216 | undisturbed, any acceptable image is downloaded and committed from any board state |
| `StaleStart.RefusedStartLeavesStaleSum` | E1_CTU_BOOT/service/boot_proto.c:110-130 | a START refused in mid-download, for its size or by the flash, restarts the counters and keeps the running sum |
| `StaleStart.FailedRestartCommits` | E1_CTU_BOOT/service/boot_session.c:96-106 | a run from any slot, onto erased cells only and with one failed erase, that commits an image of legal size with another one's sum added |
| `StaleStart.SumIsWrongIff` | E1_CTU_BOOT/service/boot_session.c:141-160 | that sum is the image's own if and only if the other one's is zero |
| `StaleStart.TinyRestartCommits` | E1_CTU_BOOT/service/boot_session.c:96-98 | a run without any fault that commits an image below the minimum size |
| `HostFrames.ExtractFromStream` | E1_CTU_BOOT/host/boot_protocol.py:312-343 | however a stream of printed frames, noise and damaged frames is cut, the host takes the first good frame exactly when it is whole and goes on behind it |
| `HostFrames.DamagedReplyIsProper` | E1_CTU_BOOT/host/boot_protocol.py:339-342 | a reply damaged in one octet other than header and length is a damaged frame of such a stream |
| `HostFrames.ExtractedWasPrinted` | E1_CTU_BOOT/host/boot_protocol.py:312-343 | on any octets, an extracted frame is there in printed form and the rest of the buffer follows it |
| `HostFrames.DrainContinues` | E1_CTU_BOOT/host/boot_protocol.py:312-343 | on any octets, cut anywhere: what is recognised piece by piece is what is recognised at once, and no frame is lost, added or reordered |
| `HostFrames.StreamDrains` | E1_CTU_BOOT/host/boot_protocol.py:312-343 | from a whole stream the recogniser takes every good frame, in order |
| `Host.BootProtoSender.ExtractFrame` | E1_CTU_BOOT/host/boot_protocol.py:324-342 | the buffer loop implements the recogniser |
| `Host.BootProtoSender.ReadFrame` | E1_CTU_BOOT/host/boot_protocol.py:312-343 | a frame read is one the board sent; without one and without a cancel the deadline has passed, the port is empty and no good frame is left in what was received; every good frame received is heard in order (`Onward` keeps `Listened`) |
| `Host.BootProtoSender.WaitReply` | E1_CTU_BOOT/host/boot_protocol.py:294-310 | an accepted reply is one the board sent, with the awaited command; without one none was heard, and the time is up, the user cancelled, or an error was reported |
| `Host.BootProtoSender.Command` | E1_CTU_BOOT/host/boot_protocol.py:271-286 | retransmission: success exactly at the first acknowledgement heard; giving up means cancelled, all transmissions used, or, for a command that is not persistent, the first error reply heard; a silent line is waited out in full each time, and a cancelled sender sends nothing |
| `Host.BootProtoSender.Start` | E1_CTU_BOOT/host/boot_protocol.py:235-238 | START: up to four transmissions, fewer only when acknowledged, refused or cancelled; 20 s of silence before giving up |
| `Host.BootProtoSender.End` | E1_CTU_BOOT/host/boot_protocol.py:260-261 | END: up to four transmissions, fewer only when acknowledged, refused or cancelled; 120 s of silence before giving up |
| `Host.BootProtoSender.SendBlock` | E1_CTU_BOOT/host/boot_protocol.py:241-258 | one to eight transmissions and an acknowledgement, or cancelled or all eight transmissions and an ABORT as the last frame, no sooner than after 16 s of silence |
| `Host.BootProtoSender.SendBlocks` | E1_CTU_BOOT/host/boot_protocol.py:193-207 | every block of the image in order, each acknowledged before the next; a failing one was sent eight times or the user cancelled, and the board is told |
| `Host.BootProtoSender.Transfer` | E1_CTU_BOOT/host/boot_protocol.py:157-216 | true only after END was acknowledged and the image committed, with every frame in its order; a failed transfer of an acceptable file was cancelled, refused at START or END, or has used up the tries of one command, with every frame sent accounted for; nothing is sent for an unacceptable file; every commit is the image |
| `Boot.PromoteCompletes` | E1_CTU_BOOT/service/boot_flash.c:403-445 | promotion completes exactly when power lasts for the erase and every chunk, and then A equals B over the size |
| `Boot.CutTearsA` | E1_CTU_BOOT/service/boot_flash.c:403-445 | what the guarantee is up against: a start cut in the erase leaves anything at all in A, one cut in a chunk anything in that chunk |
| `Boot.CopyCompletes` | E1_CTU_BOOT/service/boot_flash.c:427-439 | the chunked copy never meets a cell that was not erased and stops only for lack of power |
| `Boot.ChunksIsCeiling` | E1_CTU_BOOT/service/boot_flash.c:433-434 | the number of chunks is the size over 1024, rounded up |
| `Boot.StartKeepsInv` | E1_CTU_BOOT/tasks/boot_task.c:101-185 | a start under any cut keeps the guarantee, and a start that jumps has exactly the last committed image in A |
| `Boot.ResumeKeepsInv` | E1_CTU_BOOT/tasks/boot_task.c:121-137 | with a commit pending a start either loses power or promotes and resets, exactly by the power budget |
| `Boot.PoweredStartRuns` | E1_CTU_BOOT/tasks/boot_task.c:101-185 | with power on, the last committed image runs after at most one reset |
| `Boot.AbortRunsTheOldImage` | E1_CTU_BOOT/tasks/boot_task.c:475-482 | with power on, an abort in download mode resets, and the next start runs the image that was in A all along |
| `Boot.AbortLeadsToRunning` | E1_CTU_BOOT/tasks/boot_task.c:475-482 | the same over a life: abort, start, and the old image is running |
| `Boot.AbortClearsOnlyTheFlag` | E1_CTU_BOOT/tasks/boot_task.c:475-482 | an abort clears the flag and changes nothing else |
| `Boot.DownloadModeSurvives` | E1_CTU_BOOT/tasks/boot_task.c:187-200 | a board that entered download mode is in it again after any number of starts, with both slots untouched |
| `Boot.BootCommitRuns` | E1_CTU_BOOT/tasks/boot_task.c:434-472 | with power on, a commit in download mode resets, and the next start runs the committed image |
| `Boot.ImpossibleCommitAborts` | E1_CTU_BOOT/tasks/boot_task.c:434-445 | a commit of a size below 16 or above 98304 does what an abort does |
| `Boot.StartIsCounted` | E1_CTU_BOOT/service/boot_flash.c:92-175 | a start keeps identity, version and magic and raises the count of starts by one |
| `Boot.IdentityIsRecorded` | E1_CTU_BOOT/tasks/boot_task.c:484-490 | saving a learnt identity changes that field only |
| `Boot.CommitsRaiseVersion` | E1_MASTER_POWER_CTU/service/srv_boot_ctrl.c:139-164 | both commits raise the version by one modulo 2^16; the fields of the application's record |
| `Boot.BlankChipDownloads` | E1_CTU_BOOT/service/boot_flash.c:92-175 | a blank chip gets a record that describes no image and starts in download mode |
| `Boot.WrongMagicDownloads` | E1_CTU_BOOT/tasks/boot_task.c:101-118 | a record with a wrong magic number starts nothing and the slots stay |
| `Boot.PoweredStartHeals` | E1_CTU_BOOT/tasks/boot_task.c:168-181 | on any memory with A bad, B the recorded image and nothing waiting, a powered start makes A equal to B and jumps if and only if B is sane |
| `Boot.HealingIsRestartable` | E1_CTU_BOOT/tasks/boot_task.c:154-181 | cut anywhere, that rebuild leaves the memory as healable as before, and the next powered start finishes it unless A already passes its check |
| `Boot.TouchesAOnlyFromBackup` | E1_CTU_BOOT/tasks/boot_task.c:121-181 | on any memory and under any cut, A changes only while B matches the record, and B and the recorded size and sum stay |
| `Boot.CommitTouchesAOnlyFromRecord` | E1_CTU_BOOT/tasks/boot_task.c:434-472 | the commit in download mode keeps B and changes A only once the record describes the committed image |
| `Boot.PendingIsFinishedIff` | E1_CTU_BOOT/tasks/boot_task.c:121-137 | a powered start finishes a pending commit if and only if B matches the record |
| `Boot.StartWhilePendingLosesBoth` | E1_CTU_BOOT/service/boot_session.c:99-103 | an accepted START while a commit is pending leaves the board in download mode with the old image unused |
| `Boot.WrongSumCommitNeverRuns` | E1_CTU_BOOT/tasks/boot_task.c:434-472 | committed in download mode with a checksum not its own, an image replaces the one in A and is refused at the next start |
| `Boot.TinyCommitStopsTheBoard` | E1_MASTER_POWER_CTU/service/srv_boot_ctrl.c:139-164 | the application records a commit below the minimum size, and the next start ends in download mode with A unused |
| `Boot.AppCommitKeepsInv` | E1_MASTER_POWER_CTU/service/srv_boot_ctrl.c:139-164 | the application's commit switches from the old image to the new one in one step |
| `Boot.BootCommitKeepsInv` | E1_CTU_BOOT/tasks/boot_task.c:434-472 | the boot loader's commit keeps the guarantee under any cut |
| `Boot.EveryJumpRunsTheLastImage` | E1_CTU_BOOT/tasks/boot_task.c:101-185 | over any life of starts, cuts, downloads, commits and aborts every jump runs exactly the last committed image |
| `BootLoaders.Flash.PromoteToA` | E1_CTU_BOOT/service/boot_flash.c:403-445 | the erase and copy loops perform the promotion step for every cut |
| `BootLoaders.Flash.WriteMetadata` | E1_CTU_BOOT/service/boot_flash.c:336-368 | the record is replaced as a whole or not at all, and its count of starts is kept whatever the caller passes |
| `BootLoaders.Flash.Init` | E1_CTU_BOOT/service/boot_flash.c:92-175 | initialisation counts the start and creates the record on a blank chip |
| `BootLoaders.SumOf` | E1_CTU_BOOT/tasks/boot_task.c:299-309 | the summing loop computes the wrapped checksum of the slot's first octets |
| `BootLoaders.BootTask.BootAppOk` | E1_CTU_BOOT/tasks/boot_task.c:314-341 | A is judged by size limits, checksum and vector table |
| `BootLoaders.BootTask.BootBackupMatchesMeta` | E1_CTU_BOOT/tasks/boot_task.c:344-351 | B is judged by size limits and checksum |
| `BootLoaders.BootTask.TryBootApp` | E1_CTU_BOOT/tasks/boot_task.c:101-185 | the start-up program performs the start step, branch by branch, for every cut |
| `BootLoaders.BootTask.OnCommit` | E1_CTU_BOOT/tasks/boot_task.c:434-472 | record, promote, clear, reset |
| `BootLoaders.BootTask.OnAbort` | E1_CTU_BOOT/tasks/boot_task.c:475-482 | clear the flag and reset |
| `BootLoaders.BootTask.OnId` | E1_CTU_BOOT/tasks/boot_task.c:484-490 | the learnt identity is recorded |
| `BootLoaders.BootTask.EnterDownload` | E1_CTU_BOOT/tasks/boot_task.c:187-200 | download mode is marked so that it survives a reset |
| `BootLoaders.CommitInApp` | E1_MASTER_POWER_CTU/service/srv_boot_ctrl.c:139-164 | one metadata write with flag 2, size, checksum, identity and the next version |
| `Upgrade.SessionCommitIsDownloaded` | E1_MASTER_POWER_CTU/service/srv_boot_ctrl.c:139-164 | what the session commits meets what the boot loader demands of a commit |
| `Upgrade.TransferRuns` | E1_CTU_BOOT/tasks/boot_task.c:101-185 | end to end: some life of the board goes through any schedule of a transfer up to its first commit, the commit may be recorded, and from there a life leads to the file sent running |
| `Upgrade.FailedRestartNeverRuns` | E1_CTU_BOOT/tasks/boot_task.c:434-472 | the run with the failed erase, committed in download mode, leaves a board that runs neither image |
| `Upgrade.TinyRestartStopsTheBoard` | E1_MASTER_POWER_CTU/service/srv_boot_ctrl.c:139-164 | the run without faults, committed by the application, leaves a board in download mode with its old image unused |
| `SoftStart.StepKeepsInv` | E1_Master_Power_Manage/service/srv_pwr_ctrl.c:519-544 | the charging output is driven only in the ramps and the steady state, and for one step before a no-load fault is entered |
| `SoftStart.StepProgresses` | E1_Master_Power_Manage/service/srv_pwr_ctrl.c:659-844 | every step of at least a millisecond brings the end nearer, whatever the inputs |
| `SoftStart.SoftStartEnds` | E1_Master_Power_Manage/service/srv_pwr_ctrl.c:519-544 | within 2129 steps of the request the soft start is steady and done or failed with a reason, after at most three retries |
| `SoftStart.OcpCutsCharge` | E1_Master_Power_Manage/service/srv_pwr_ctrl.c:532-541 | over-current in a watched phase switches the output off within the same step |
| `SoftStart.SteadyIgnoresOcp` | E1_Master_Power_Manage/service/srv_pwr_ctrl.c:532-541 | in the steady state the over-current flag changes nothing |
| `SoftStart.OcpLeavesChargeIff` | E1_Master_Power_Manage/service/srv_pwr_ctrl.c:532-541 | after a step that sees over-current the charging output is on if and only if it was and the steady state had been reached |
| `SoftStart.WarmSeedIsClose` | E1_Master_Power_Manage/service/srv_pwr_ctrl.c:719-731 | the ramp at the computed seed is at most three per mille below the warm duty and never above |
| `SoftStart.RampsAreLinear` | E1_Master_Power_Manage/service/srv_pwr_ctrl.c:858-879 | duty and frequency of every phase as straight lines of time, in numbers, and flat behind their ends |
| `SoftStart.StartFollowsTheBus` | E1_Master_Power_Manage/service/srv_pwr_ctrl.c:692-736 | where a start begins, from the sampled voltages: below a tenth of the supply at the bottom, up to 95 percent at most three per mille below the bus ratio capped at 900, above that in the steady state |
| `SoftStart.RecoveryEnds` | E1_Master_Power_Manage/service/srv_pwr_ctrl.c:826-844 | after 10 ms off a trip is retried, three times; the fourth is a short circuit |
| `SoftStart.DutyRampEnds` | E1_Master_Power_Manage/service/srv_pwr_ctrl.c:780-812 | the duty ramp fails after 50 ms below a volt and is steady after 450 ms |
| `SoftStart.AttemptStaysOnRamp` | E1_Master_Power_Manage/service/srv_pwr_ctrl.c:858-879 | from the start request on, through any inputs and retries, duty and frequency are the phase's values, at most 900 per mille, 50 to 600 kHz while driven, and zero duty while not |
| `SoftStart.AttemptIsGradual` | E1_Master_Power_Manage/service/srv_pwr_ctrl.c:742-812 | wherever an attempt has got to on its ramp, the next millisecond lowers neither output and raises duty by at most four per mille, across phase changes too; excepted is only phase four entered cold on a retry with a seed left over |
| `SoftStart.StaleSeedJumps` | E1_Master_Power_Manage/service/srv_pwr_ctrl.c:597-651 | entering phase four with a left-over seed jumps by more than four per mille if and only if the seed exceeds two |
| `SoftStart.StaleSeedHappens` | E1_Master_Power_Manage/service/srv_pwr_ctrl.c:692-736 | 103 milliseconds from any start request, warm start, over-current, retry and cold ramp, that end in such a jump |
| `SoftStart.SeedIsKept` | E1_Master_Power_Manage/service/srv_pwr_ctrl.c:692-736 | only a warm start sets the seed |
| `SoftStart.PrebiasIsFullIff` | E1_Master_Power_Manage/service/srv_pwr_ctrl.c:692-736 | sampling leads straight to the steady state if and only if the sampled bus is at 95 percent of a present supply |
| `SoftStart.SteadyIsChargedIff` | E1_Master_Power_Manage/service/srv_pwr_ctrl.c:597-651 | the steady state is reported done with the charging output on if and only if it was reached through the duty ramp |
| `PowerSequence.BoardStepKeepsInv` | E1_Master_Power_Manage/service/srv_pwr_ctrl.c:254-262 | one step of both machines keeps them coupled and the rails in order |
| `PowerSequence.RailOrder` | E1_Master_Power_Manage/service/srv_pwr_ctrl.c:352-412 | motor rail implies request and one of the last two stages; powered implies charging off and soft start idle; brake excludes both |
| `PowerSequence.MotorNeedsSteady` | E1_Master_Power_Manage/service/srv_pwr_ctrl.c:422-455 | the motor rail comes on only after a soft start that is steady, done and without failure |
| `PowerSequence.HandsOverIff` | E1_Master_Power_Manage/service/srv_pwr_ctrl.c:375-412 | with the motor rail on, the charging output is dropped exactly at 98 percent of the supply or after 200 ms, and the board is powered exactly when that has happened and 50 ms have passed |
| `PowerSequence.HandedOverIsPowered` | E1_Master_Power_Manage/service/srv_pwr_ctrl.c:375-412 | a board that has handed over is powered after 50 ms in the stage |
| `PowerSequence.StagesEnd` | E1_Master_Power_Manage/service/srv_pwr_ctrl.c:346-373 | the first stage lasts 50 ms, the soft start until it is done |
| `PowerSequence.StageClock` | E1_Master_Power_Manage/service/srv_pwr_ctrl.c:254-262 | the clock of a stage starts at zero with its first step, whatever went before, and counts modulo 2^16 |
| `PowerSequence.EmergencyOffCuts` | E1_Master_Power_Manage/service/srv_pwr_ctrl.c:272-297 | emergency off leaves the motor rail off and unwanted, AUX on, and the charging output on only if it was on without a request; with a request the brake is on, the soft start reset and the duty zero |
| `PowerSequence.EstopCutsPower` | E1_Master_Power_Manage/applications/app_fault_policy.c:59-102 | every millisecond that samples the button leaves the motor rail off; charging is left on if and only if the duty ramp is 50 ms old, the bus below a volt and there is no over-current |
| `PowerSequence.NoLoadHappens` | E1_Master_Power_Manage/service/srv_pwr_ctrl.c:780-797 | a life from switch-on, with a dead bus, that reaches that exception |
| `PowerSequence.NextMillisecondIsDark` | E1_Master_Power_Manage/applications/app_fault_policy.c:59-102 | one millisecond later everything is off, whatever happens in it |
| `PowerSequence.EstopOverWholeLives` | E1_Master_Power_Manage/applications/app_fault_policy.c:48-115 | over any life of presses, releases, faults and resets a tripped board requests nothing, and a press leaves nothing on but the charging output, under the exact condition above |
| `PowerSequence.LifeStaysOnRamp` | E1_Master_Power_Manage/service/srv_pwr_ctrl.c:858-879 | over any life duty and frequency are the phase's values and within their limits, and the duty is zero while the charging output is off, the steady state aside |
| `PowerSequence.FaultTripsIff` | E1_Master_Power_Manage/applications/app_fault_policy.c:76-93 | a powered board with the button up trips if and only if a critical fault is seen, and such a trip has noticed no press |
| `PowerSequence.FaultTripIsLatched` | E1_Master_Power_Manage/applications/app_fault_policy.c:67-101 | a trip not caused by the button survives any use of the button |
| `PowerSequence.ReleaseRestartsIff` | E1_Master_Power_Manage/applications/app_fault_policy.c:95-101 | on a tripped board, letting the button go restores the request if and only if its press was noticed |
| `PowerSequence.ReleaseRestarts` | E1_Master_Power_Manage/applications/app_fault_policy.c:95-101 | wherever a noticed press came from, letting go clears the trip and restores the request |
| `PowerSequence.ResetThenButtonRestores` | E1_Master_Power_Manage/applications/app_fault_policy.c:48-57 | after an operator reset, pressing and letting go restores the request |
| `PowerSequence.BrakeIsReleased` | E1_Master_Power_Manage/service/srv_pwr_ctrl.c:321-344 | at rest the brake resistor is off after at most 3002 steps, whatever the bus voltage |
| `PowerSequence.BrakeLastsExactly` | E1_Master_Power_Manage/service/srv_pwr_ctrl.c:321-344 | on a bus that stays at five volts or more the brake resistor is on for exactly 3001 steps, and its count is cleared for the next time |
| `PowerSequence.RestingStep` | E1_Master_Power_Manage/service/srv_pwr_ctrl.c:321-344 | at rest the brake is exactly on while the bus is at 5000 mV or more and its 3000 ms have not passed |
| `PowerSequence.BoardStepProgresses` | E1_Master_Power_Manage/service/srv_pwr_ctrl.c:321-412 | every step brings the power-up nearer its end |
| `PowerSequence.PowerUpEnds` | E1_Master_Power_Manage/service/srv_pwr_ctrl.c:352-412 | without an emergency, within 2384 steps the board is powered or has given up and is at rest |
| `PowerSequence.EveryLifeSettles` | E1_Master_Power_Manage/service/srv_pwr_ctrl.c:352-412 | the same from wherever a life has led |
| `PowerSequence.SoundSupplyPowersUp` | E1_Master_Power_Manage/service/srv_pwr_ctrl.c:352-412 | asked to power up, with bus readings of a volt or more and no over-current, the board is powered with the motor rail on after 2384 steps |
| `PowerBoards.MainBoard.PrechargeStep` | E1_Master_Power_Manage/service/srv_pwr_ctrl.c:519-544 | sampling, over-current detection, entry and handler, with the interlock at every write to a rail |
| `PowerBoards.MainBoard.PrechargeHandler` | E1_Master_Power_Manage/service/srv_pwr_ctrl.c:659-852 | the nine state handlers |
| `PowerBoards.MainBoard.PhaseRamp` | E1_Master_Power_Manage/service/srv_pwr_ctrl.c:858-879 | linear interpolation of frequency and duty by capped progress |
| `PowerBoards.MainBoard.StageHandler` | E1_Master_Power_Manage/service/srv_pwr_ctrl.c:321-418 | the five stage handlers, brake discharge and hand-over included |
| `PowerBoards.MainBoard.EmergencyOff` | E1_Master_Power_Manage/service/srv_pwr_ctrl.c:272-297 | the order of writes keeps the brake resistor from meeting a driven rail |
| `PowerBoards.MainBoard.PolicyStep` | E1_Master_Power_Manage/applications/app_fault_policy.c:59-102 | the policy program performs the policy step |
| `PowerBoards.MainBoard.Millisecond` | E1_Master_Power_Manage/tasks/power_task.c:76-90 | one millisecond of the power task: one step, one policy check, and with the button pressed the rails as stated above |
| `CtuPower.RailOrder` | E1_MASTER_POWER_CTU/service/srv_pwr_ctrl.c:231-372 | in every reachable state 24 V implies VIN_DC-DC implies AUX, and the motor rail implies the powered stage |
| `CtuPower.NextKeepsInv` | E1_MASTER_POWER_CTU/tasks/power_task.c:82-94 | power steps, policy checks and operator resets keep that order and the latch, in any interleaving |
| `CtuPower.EstopHolds` | E1_MASTER_POWER_CTU/applications/app_fault_policy.c:83-127 | from a check that sees the button until one that sees it released, the motor rail is off and unwanted |
| `CtuPower.TripIsLatched` | E1_MASTER_POWER_CTU/applications/app_fault_policy.c:83-140 | a trip keeps the motor rail off until a reset, over-voltage restarts included |
| `CtuPower.TripClearsIff` | E1_MASTER_POWER_CTU/applications/app_fault_policy.c:93-96 | a check clears a trip if and only if it sees the button let go |
| `CtuPower.ResetRestores` | E1_MASTER_POWER_CTU/applications/app_fault_policy.c:104-127 | after an operator reset the next check of a powered board with the button up restores the motor rail |
| `CtuPower.WantedMotorComesOn` | E1_MASTER_POWER_CTU/service/srv_pwr_ctrl.c:340-372 | a wanted motor rail is on after a step in the powered stage, unless 5000 ms of over-voltage end it in that step |
| `CtuPower.CheckTripsIff` | E1_MASTER_POWER_CTU/applications/app_fault_policy.c:144-176 | exactly when a check reports the motor rail lost |
| `CtuPower.GoodCheckRestartsDebounce` | E1_MASTER_POWER_CTU/applications/app_fault_policy.c:144-176 | a settled check that finds power-good starts the debounce anew: for 250 ms no check trips, in any run |
| `CtuPower.EveryFreshEnableHasItsWindow` | E1_MASTER_POWER_CTU/applications/app_fault_policy.c:144-176 | in any life, when no earlier check recorded the enable first seen at t0, no check before t0 + 910 ms + 250 ms trips |
| `CtuPower.WindowIsGivenIff` | E1_MASTER_POWER_CTU/applications/app_fault_policy.c:144-176 | with the motor rail on at t0, no run of checks before t0 + 910 ms + 250 ms trips if and only if no earlier check had recorded the enable |
| `CtuPower.EveryLifeGivesTheWindowIff` | E1_MASTER_POWER_CTU/applications/app_fault_policy.c:144-176 | the same in any life from switch-on |
| `CtuRestart.RestartSkipsTheWindow` | E1_MASTER_POWER_CTU/applications/app_fault_policy.c:111-176 | a life on the board's own schedule in which the first check after an over-voltage restart trips |
| `CtuPower.TimersFreezeOutsidePowered` | E1_MASTER_POWER_CTU/applications/app_fault_policy.c:111-118 | the power-good timers do not change while the board is not powered |
| `CtuPower.PoweredUntilOverVoltage` | E1_MASTER_POWER_CTU/service/srv_pwr_ctrl.c:340-372 | the powered stage lasts exactly until an unbroken over-voltage adds up to 5000 ms, and then all rails go off |
| `CtuPower.DarkUntilInRange` | E1_MASTER_POWER_CTU/service/srv_pwr_ctrl.c:231-283 | until the supply is within 36000 to 60000 mV no rail comes on |
| `CtuPower.RangeIsAskedFor` | E1_MASTER_POWER_CTU/service/srv_pwr_ctrl.c:231-283 | a waiting board goes on, with AUX on, and a board shut down starts again, exactly at 36000 to 60000 mV |
| `CtuPower.DcdcIsAskedFor` | E1_MASTER_POWER_CTU/service/srv_pwr_ctrl.c:286-305 | VIN_DC-DC is enabled exactly when it measures 90 percent of a present supply, in 32-bit arithmetic |
| `CtuPower.DcdcIsAskedForPlainly` | E1_MASTER_POWER_CTU/service/srv_pwr_ctrl.c:286-305 | short of overflow that is the plain ratio of the two readings |
| `CtuPower.VinNeedsDcdc` | E1_MASTER_POWER_CTU/service/srv_pwr_ctrl.c:286-305 | over every run from the first check, VIN_DC-DC is on only if some earlier reading met that ratio |
| `CtuPower.EnablesWait` | E1_MASTER_POWER_CTU/service/srv_pwr_ctrl.c:309-338 | 24 V comes on only after 100 ms of VIN_DC-DC, and the powered stage only after ten good steps in a row |
| `CtuPower.SequenceIgnoresPolicy` | E1_MASTER_POWER_CTU/service/srv_pwr_ctrl.c:179-211 | the supply rails do not depend on how the policy interleaves |
| `CtuPower.GoodSupplyPowersUp` | E1_MASTER_POWER_CTU/service/srv_pwr_ctrl.c:259-338 | 113 steps of good supply reach the powered stage from any reachable state |
| `CtuBoards.ControlBoard.Step` | E1_MASTER_POWER_CTU/service/srv_pwr_ctrl.c:179-187 | entry actions and handlers perform the sequence's step |
| `CtuBoards.ControlBoard.StatePowered` | E1_MASTER_POWER_CTU/service/srv_pwr_ctrl.c:340-372 | over-voltage timing, shut-down and deferred motor enable |
| `CtuBoards.ControlBoard.Critical` | E1_MASTER_POWER_CTU/applications/app_fault_policy.c:144-176 | the power-good judgement and its timers |
| `CtuBoards.ControlBoard.EdgeDetect` | public_layer/m_middlewares/algorithm/math/utils_math.c:664-687 | either edge counts, the first sample does not |
| `CtuBoards.ControlBoard.PolicyTask` | E1_MASTER_POWER_CTU/applications/app_fault_policy.c:83-127 | the policy program performs the policy step; with the button pressed the motor rail is off and unwanted |
| `Motors.PollsInTurn` | E1_Hand_G474/service/srv_motor.c:807-835 | poll k goes to registered motor k modulo their number and asks INFO_01 every third time |
| `Motors.FairPolling` | E1_Hand_G474/service/srv_motor.c:807-835 | if three does not divide the number, each motor is asked INFO_01 exactly once in any three rounds |
| `Motors.UnfairPolling` | E1_Hand_G474/service/srv_motor.c:807-835 | if it does, a motor is asked INFO_01 always or never, by its place |
| `Motors.MotorGroup.Register` | E1_Hand_G474/service/srv_motor.c:304-330 | identities 1 to 6, once each, counted |
| `Motors.MotorGroup.FindSlot` | E1_Hand_G474/service/srv_motor.c:812-819 | the slot search finds the registered motor at the cursor |
| `Motors.MotorGroup.PollOne` | E1_Hand_G474/service/srv_motor.c:807-835 | one poll: motor, query and next cursor |
| `Motors.MotorGroup.StartupStep` | E1_Hand_G474/service/srv_motor.c:503-567 | every motor is enabled once in slot order, then after 1500 ms of calibration given its mode once in slot order; a step on a free bus always makes progress |
| `Pwm.FindDivider` | E1_MASTER_POWER_CTU/device_drivers/drv_pwm.c:210-230 | the search ends with the least prescaler whose period fits 16 bits |
| `Pwm.DividerIsAccurate` | E1_MASTER_POWER_CTU/device_drivers/drv_pwm.c:219-230 | the output is never slower than asked and the period is short by less than one prescaled tick |
| `Pwm.DividerIsUnique` | E1_MASTER_POWER_CTU/device_drivers/drv_pwm.c:219-230 | the frequency determines the divider |
| `Pwm.PrescalerIsSmall` | E1_MASTER_POWER_CTU/device_drivers/drv_pwm.c:223-228 | the prescaler never exceeds 1098 |
| `Pwm.PeriodIsShort` | E1_MASTER_POWER_CTU/device_drivers/drv_pwm.c:210-230 | no legal frequency has a period of 65536 ticks |
| `Pwm.DutyIsAPart` | E1_MASTER_POWER_CTU/device_drivers/drv_pwm.c:127-152 | off and full on are exact and a 16-bit compare register truncates no duty |
| `Pwm.DutyIsProportional` | E1_MASTER_POWER_CTU/device_drivers/drv_pwm.c:238-245 | between the ends the compare value is the duty's share of the period, rounded down |
| `Pwm.OrderDoesNotMatter` | E1_MASTER_POWER_CTU/device_drivers/drv_pwm.c:127-152 | setting duty then frequency equals setting frequency then duty |
| `Pwm.SettingsDetermineOutputs` | E1_MASTER_POWER_CTU/device_drivers/drv_pwm.c:238-245 | compare registers depend only on divider and stored duties |
| `Pwm.PwmGroup.SetDuty` | E1_MASTER_POWER_CTU/device_drivers/drv_pwm.c:127-152 | one channel's duty, capped at 1000 per mille, and its compare value, as a 16-bit register keeps it; the other channels stay |
| `Pwm.PwmGroup.SetFrequency` | E1_MASTER_POWER_CTU/device_drivers/drv_pwm.c:154-173 | rejects frequencies outside 1 Hz to half the clock; otherwise every channel keeps its duty |

## Left out

- Host.BootProtoSender.ReadFrame: what the host hears is made of whole replies of the board, any of them and any number of times, of frames that fail their checks and of octets that are no header, in pieces of any size; a stray header or a damaged length, which shift the frame boundaries, and damage the CRC-8 misses are not modelled there. On arbitrary octets it still holds that an extracted frame stands in them in printed form (`HostFrames.ExtractedWasPrinted`).
- Transfer.EveryScheduleIsFaithful: frames damaged on the line count as lost; damage beyond what CRC-8 is proved to detect is not modelled.
- Boot.EveryJumpRunsTheLastImage: assumes, as the design does, that slot B is not written between a commit and the start that promotes it; what happens otherwise is `Boot.StartWhilePendingLosesBoth`.
- SoftStart.AttemptIsGradual: is about one-millisecond steps; longer steps only change the size of the increments.
- PowerSequence.PowerUpEnds: steps longer than 60 s are excluded, since the 16-bit stage timer could then wrap for ever.
- The 256-entry literal table of the firmware's CRC library is not compared with the polynomial; the host's generated table is.
- Serial, GPIO, timer and ADC registers, DMA and interrupts: rails, duties and readings are plain variables.
- The ring storage under the metadata record: its atomicity is assumed. Hardware faults of flash in the boot loader are not modelled.
- Start-up of a board whose record carries a wrong magic number is modelled, but the guarantee assumes a right one: such a board stays in download mode, and a commit does not repair it.
- Builds with one slot or with image verification skipped; the jump sequence, log draining and reset waits.
- Logs, LEDs, buzzer patterns, fan control, GUIs, the debug-probe tool and status reports: input and output without state worth a theorem.
- The fan commands of the main board's policy and the high-side switch rails, which nothing switches on.
- Broadcast and limit frames of the motor service, feedback parsing and temperature conversion.
- Wrap-around of the millisecond clock.
- Host.BootProtoSender.Transfer: over an arbitrarily bad channel it may fail although the board has committed, when every reply to END is lost; that the host then ends is by its deadlines, on a clock that moves by a millisecond or more at each look at the port.
