# Verified model of USB/IP

USB/IP shares a USB device over a network. A virtual host controller on the client
(`vhci_*.c`) turns URBs into messages, a stub driver on the server (`stub_*.c`) submits
them to the real device, and both share the wire format of `usbip_common.c`. Around that
core the repository has a filter that streams camera previews between a client's own PTP
transactions (`filter_ptp.c`), an event handler (`usbip_event.c`), and user-space code for
descriptors, device lists and names. This project models these parts and proves what they
are for.

## The parts

- **URB protocol** (`UrbProtocol`, `UrbInvariants`, `UrbServerSteps`, `UrbRuns`, `UrbFifo`,
  `UrbNumbers`, `UrbOrder`, `UrbOvertaking`, `UrbCounterexamples`, `UrbDrain`, `UrbShutdown`). A
  state machine over the queues of client and server and two FIFO channels. Every section of code
  run under a spinlock is one atomic event; sequence numbers are unbounded and name the URB they
  were given to. The transmit loops are modelled as the code has them, inner loop by inner loop.
  `VhciDevice` and `StubDevice` hold the same operations as classes with the source's loops, each
  method proved against the function the runs are made of.
- **Wire format** (`Wire`, `Transport`, `Iso`, `Framing`, `Replies`). Headers in memory of
  either byte order, converted in place; the receive loop; isochronous data gathered and
  spread in place; and whole byte streams in both directions, cut up by the receivers.
- **PTP filter** (`PtpParser`, `PtpContainers`, `PtpReading`, `PtpIds`, `PtpFilter`, `PtpStreams`,
  `PtpSpeech`, `PtpFilterSafety`, `PtpProgress`, `PtpPrompt`, `PtpServing`, `PtpTurns`,
  `PtpTransparent`, `PtpWitnesses`, `PtpHandlers`). The container parser over arbitrary divisions
  of a stream, shown to find what a plain reader finds; and the ten-state machine, whose handlers
  are atomic steps. Events carry bytes: every transfer goes through the parser of its direction,
  and the camera and the client read the headers that arrive.
- **Descriptors** (`Descriptors`, `DescriptorParser`, `DescriptorRoundTrip`, `DescriptorLayout`),
  **bus and device lists** (`BusLists`, `BusScan`), **events** (`Events`), **names** (`Names`,
  `NameTables`, `NameFile`, `NameFileRoundTrip`, `NameLines`). `Bags` and `Bytes` are shared vocabulary.

## What the proofs found

- The reply to a submit request does not always find its URB. The comment in
  `stub_tx.c:377-390` relies on results going before unlink answers, but the inner unlink
  loops of both sides do not look at the submit queue again. Two concrete runs of the model reach
  the TCP error branch. On any run a reply fails exactly when a RET_UNLINK gave its URB back before;
  for either inner loop it is proved what follows once it has overtaken.
- An ordered drain can stall: a transmit thread inside its unlink loop keeps the order only by
  not going on. The exact states are proved, and a run that reaches one.
- When a connection goes down, unlink requests that were not yet sent are dropped without
  giving their URBs back. Since the USB core accepts an unlink only once, such a URB never
  reaches its driver again.
- Padding is restored without looking at the direction, so the reply to an isochronous OUT
  transfer rewrites the driver's own buffer unless its packets lie without gaps; the exact
  condition is proved. For IN transfers the loop never moves packet 0, so contents are restored
  exactly when that packet starts the buffer or is empty.
- On the server a connection closed in order inside an OUT payload still leads to a submitted
  URB, padded with zeros, after the error has been reported.
- Clearing a bit of the event word is not atomic: an event added at that moment can be lost,
  and so can one added while its own callback runs; it is proved that nothing else is lost, and
  that the order of the callbacks always holds.
- A PTP container that announces less than its own header moves the parser's cursor out of
  the transfer. The model stops there.
- A session opened or closed while a preview of the filter's own is under way overlaps it,
  and only then.
- A preview that is queued for want of room survives a session change, and the next stream adds
  a second one. Then a client's command can come to wait behind a preview that is not sent while
  the buffer has no room, and the client, waiting for its answer, reads nothing that would make
  any. Without such a session change a command that waits always goes when the preview under way
  ends.
- A client may ask for a preview while one is being dropped. If no frame is buffered then, the
  filter falls asleep at the end of the drop with that client waiting for a frame, and nothing
  wakes it again. The exact condition is proved, and a run that reaches it.
- In the file of names a vendor or class number of `ffffffff` opens no section: the reader keeps
  it where it keeps that none is open.
- An empty OUT transfer between a command and its data is taken for that command again, and the
  preview test reads its code through a buffer that was never allocated.

## Assumptions

- URB protocol: memory allocation succeeds; a reply's payload and descriptors arrive once its
  header has; the filter passes everything; a device completes URBs in any order with any
  result, except the status that teardown uses; the server does not shut down; after a TCP
  error the client takes no further reply; picking a URB up and giving it back are one step;
  the USB core refuses to unlink a URB a second time.
- Wire format: both ends know the same endpoint types, and each reply answers a pending URB of
  the same endpoint; `URB_NO_TRANSFER_DMA_MAP` is the kernel's 0x0004.
- PTP filter: the client runs one transaction at a time, reads only within one, sends a command
  whole in one transfer, and sends its data, under the command's id and with no empty transfer
  before it, before the camera answers; a response is the last thing in its transfer, and what the
  filter reads for itself or serves comes in pieces of one container. How transfers divide containers is otherwise arbitrary, and
  so are all contents, the buffer's room and how long the timer, once set, takes to fire; a timer
  that has expired and not yet run is stopped like any other. Each handler is one step
  although `ptp_parse` runs outside `filter->lock`; an OUT transfer of the client's completes
  in the step that submits it. The number of frames in the buffer is a parameter.

## Model

| member | source | states |
|---|---|---|
| `UrbInvariants.TxQuietKeepsInv` | vhci_tx.c:203-224 | sending, ending a drain loop, falling asleep and waking move no entry to another place |
| `UrbRuns.StepKeepsInv` | vhci_hcd.c:575-710 | every atomic step of client, server, device and shutdown keeps the invariant that ties the nine queues, the two channels and the history together |
| `UrbRuns.EveryEnqueueNumbered` | vhci_hcd.c:426-457 | on every run, exactly as many URBs are on record as were enqueued, so every enqueue gets a number of its own |
| `UrbRuns.EachUrbInOnePlace` | vhci_hcd.c:426-710 | on every run without any ordering hypothesis, each enqueued URB is in exactly one of `priv_tx`, `priv_rx` and the giveback log, exactly once, and nothing else is there |
| `UrbRuns.GivebackIsTrue` | vhci_rx.c:70-185 | a URB given back through RET_SUBMIT carries exactly what the device produced for its own CMD_SUBMIT; through RET_UNLINK, the status the cancellation produced, or zero when nothing was cancelled |
| `UrbRuns.ServerAnswersOnce` | stub_tx.c:65-115 | each CMD_SUBMIT received is in progress, waiting, answered or cancelled, exactly one of these; each CMD_UNLINK likewise; a request that cancelled has its own answer; no answer is invented |
| `UrbRuns.RenamingNeverAliases` | stub_rx.c:228-302 | numbers in `priv_init` stay pairwise distinct although cancelled entries are renamed, and no unlink request, past or on its way, targets a renamed entry |
| `UrbFifo.SubmitsInOrder` | vhci_hcd.c:453-456 | on every run that leaves the connection up, the requests the server has received, those on their way and those still in `priv_tx` are together the requests enqueued, in the order of their enqueues |
| `UrbFifo.UnlinksInOrder` | vhci_hcd.c:675-704 | likewise the targets of the unlink requests are the URBs whose dequeue was accepted, in that order |
| `UrbFifo.ResultsInOrder` | stub_tx.c:65-115 | on every run the results received, on their way and in `priv_tx` are together the completions of URBs that were not cancelled, each with its outcome, in the order of completion |
| `UrbFifo.AnswersInOrder` | stub_tx.c:37-115 | on every run the answers of unlink requests come in the order in which they came about: with the completion of the cancelled URB, or at once with status zero where the target is not in `priv_init` |
| `UrbFifo.FreedAfterReply` | stub_tx.c:142-310 | on every run the server has freed, or is about to free, exactly the entries whose replies it has made, in that order, none twice |
| `UrbNumbers.NumbersRise` | vhci_hcd.c:426-457 | on every run, the shutdown included, sequence numbers rise strictly along the URBs sent and then `priv_tx`, along the unlink requests sent and then `unlink_tx`, along `priv_rx` and then `priv_tx`, along `unlink_rx` and then `unlink_tx`, and along the URBs at the device and on their way to it |
| `UrbNumbers.NumbersUsed` | vhci_hcd.c:445-704 | on every run the numbers from one up to the counter are exactly those of the URBs enqueued and the unlink requests made |
| `UrbNumbers.LogsGrow` | vhci_rx.c:70-185 | no step takes back a giveback or a received message, or puts one before another |
| `UrbServerSteps.StubRxTruth` | stub_rx.c:228-302 | receiving a command keeps every entry and message true to the history, including the renaming of a cancelled URB |
| `UrbServerSteps.StubRxCounts` | stub_rx.c:228-302 | receiving a command keeps the conservation counts of URBs and unlink requests |
| `UrbServerSteps.DeviceDoneCounts` | stub_tx.c:65-115 | a completion turns the URB into exactly one answer: its own result, or that of the request that cancelled it |
| `UrbOrder.ReplyFindsItsUrb` | vhci_rx.c:76-86 | on every run in which no unlink message overtakes its target's submit message, the TCP error branch is never taken and a RET_SUBMIT always finds its URB |
| `UrbOrder.SubmitsFirstReplyFindsItsUrb` | stub_tx.c:377-390 | so the branch is unreachable when both transmit threads take an unlink message only with an empty submit queue, the order the comment relies on |
| `UrbOvertaking.ReplyFindsItsUrbIff` | vhci_rx.c:76-86 | on every run at all: a RET_SUBMIT about to be received finds its URB if and only if the URB was not already given back by a RET_UNLINK |
| `UrbOvertaking.OvertakenReplyFails` | stub_tx.c:323 | the server's guard is exact: once an answer is taken while its target's result waits in `priv_tx`, the later RET_SUBMIT is always an error |
| `UrbOvertaking.ClientOvertakenFailsIff` | vhci_tx.c:163 | the client's side: once an unlink request is taken while its target is still in `priv_tx`, the target's later RET_SUBMIT is an error if and only if an answer was picked up while the target was in `priv_rx` |
| `UrbCounterexamples.ServerLoopOvertakes` | stub_tx.c:323 | a concrete run through the server's inner unlink loop, which does not look at `priv_tx` again, reaches the TCP error branch |
| `UrbCounterexamples.ClientLoopOvertakes` | vhci_tx.c:163 | a concrete run through the client's inner unlink loop, which does not look at `priv_tx` again, reaches it too |
| `UrbDrain.DrainStepDecreases` | vhci_tx.c:203-224 | with no new work, every step of any thread lowers a weighted count over all queues and channels |
| `UrbDrain.DrainNotStuck` | stub_tx.c:368-404 | while the count is not zero some thread can move |
| `UrbDrain.QuietMeansAllGivenBack` | vhci_rx.c:70-185 | when the transmit and server queues and both channels are empty, wherever the threads stand, so are `priv_rx` and `unlink_rx`, and every URB has been given back exactly once |
| `UrbDrain.NoOrderlyStepIff` | vhci_tx.c:153-224 | no step keeps the order if and only if nothing is left to do or the state is stalled: a transmit thread stands in its unlink loop with an empty hand before a request whose target is still queued, the other likewise or asleep, and nothing is under way |
| `UrbDrain.DrainCompletes` | vhci_tx.c:203-224 | an ordered run without new work has bounded length, can be continued in order unless it is stalled or nothing is left to do, and in the latter case every URB has been given back exactly once |
| `UrbDrain.DrainEnds` | stub_tx.c:368-404 | without any ordering hypothesis a run without new work has bounded length, and if it cannot go on every URB has been given back exactly once or the TCP error was raised |
| `UrbDrain.StalledReached` | stub_tx.c:312-366 | an ordered run reaches a stalled state with a URB not given back |
| `UrbShutdown.CleanupRun` | vhci_hcd.c:712-763 | the cleanup loop ends after as many turns as `unlink_rx` had entries, whatever drivers dequeue while its locks are dropped, and takes from `priv_rx` only URBs named there |
| `UrbShutdown.CleanupGivesBackNamed` | vhci_hcd.c:712-763 | it leaves both unlink lists empty and gives back, once each, exactly the pending URBs named in `unlink_rx` |
| `UrbShutdown.LeftBehindIff` | vhci_hcd.c:719-723 | of the URBs whose unlink was accepted, it leaves behind exactly those not named in `unlink_rx`: entries of `unlink_tx` are dropped without a giveback |
| `UrbShutdown.StrandedUnlessNeverUnlinked` | vhci_hcd.c:640-673 | on every run past the cleanup, a URB still pending reaches its driver on some continuation if and only if its unlink was never accepted |
| `UrbShutdown.UnsentUnlinkStrandsUrb` | vhci_hcd.c:719-723 | a concrete run that strands a URB for ever |
| `VhciDevice.Device.Enqueue` | vhci_hcd.c:426-457 | the step whose order and numbering `UrbFifo` and `UrbNumbers` prove on all runs: the URB gets the next number and goes behind the others |
| `VhciDevice.Device.PickupUrbAndFreePriv` | vhci_rx.c:27-68 | the search loop removes exactly the first entry of that number from `priv_rx`, or nothing |
| `VhciDevice.Device.UrbDequeue` | vhci_hcd.c:621-710 | the whole new state of a dequeue: ignored, an unlink request queued, or the URB given back at once |
| `VhciDevice.Device.RecvRetSubmit` | vhci_rx.c:70-116 | gives back the URB of a result, or reports the error when there is none |
| `VhciDevice.Device.DequeuePendingUnlink` | vhci_rx.c:118-140 | the search loop takes exactly the answered request off `unlink_rx` |
| `VhciDevice.Device.RecvRetUnlink` | vhci_rx.c:142-185 | drops the request and gives back its target if it is still pending |
| `VhciDevice.Device.SendCmdSubmit` | vhci_tx.c:64-134 | the drain loop moves all of `priv_tx` to `priv_rx` in order and sends one CMD_SUBMIT for each |
| `VhciDevice.Device.SendCmdUnlink` | vhci_tx.c:153-201 | the drain loop moves all of `unlink_tx` to `unlink_rx` in order and sends one CMD_UNLINK for each |
| `VhciDevice.Device.CleanupTurn` | vhci_hcd.c:725-759 | one turn of the cleanup loop |
| `VhciDevice.Device.UnlinkCleanup` | vhci_hcd.c:712-763 | the cleanup method, its loop and its unlocked windows, equals the specified cleanup |
| `VhciDevice.CleanupIsRun` | vhci_hcd.c:712-763 | that cleanup is a run of the state machine, so what holds of runs holds of the method |
| `StubDevice.Device.RecvCmdSubmit` | stub_rx.c:321-350 | a new URB enters `priv_init` |
| `StubDevice.Device.RecvCmdUnlink` | stub_rx.c:228-302 | the loop cancels and renames the entry of that number, or queues the answer |
| `StubDevice.Device.Complete` | stub_tx.c:65-115 | a completed URB leaves `priv_init` for `priv_tx`, or as the answer of the request that cancelled it |
| `StubDevice.Device.SendRetSubmit` | stub_tx.c:161-292 | the drain loop sends one RET_SUBMIT for each entry of `priv_tx` in order, then frees them |
| `StubDevice.Device.SendRetUnlink` | stub_tx.c:312-366 | the drain loop sends one RET_UNLINK for each entry of `unlink_tx` in order, then frees them |
| `Wire.ConvertedWordIsBigEndian` | usbip_common.c:506-577 | a converted word lies most significant byte first whatever the processor |
| `Wire.CorrectEndian` | usbip_common.c:579-609 | the in-place conversion of a header, reading the command before converting when sending and after when receiving |
| `Wire.HeaderIsBigEndian` | usbip_common.c:579-609 | the header sent is the message's fields in network order, for all four commands and both byte orders |
| `Wire.HeaderLayout` | usbip_common.c:443-504 | for each of the four commands every field of the header lies, most significant byte first, at its own offset in the 48 bytes, whatever the sender's processor |
| `Wire.HeaderCrosses` | usbip_common.c:443-609 | round trip: any message packed and converted by one processor is read unchanged by another |
| `Wire.PacketsCross` | usbip_common.c:612-668 | round trip of isochronous descriptors between any two processors |
| `Wire.PacketLayout` | usbip_common.c:612-668 | the four words of the i-th descriptor lie at 16 i, 16 i + 4, 16 i + 8 and 16 i + 12 |
| `Wire.AllocPacketPdu` | usbip_common.c:646-668 | the packing loop lays out all descriptors, each converted where it lies |
| `Transport.Socket.Recv` | usbip_common.c:349-404 | the receive loop yields exactly the bytes asked for or the connection's own result, however the bytes are divided |
| `Framing.RequestArrivesIff` | stub_rx.c:456-529 | the server cuts exactly one request out of the stream and has the client's URB, with its OUT data or a zeroed buffer, for every direction, type and length, if and only if fresh isochronous lengths add up to zero |
| `Framing.FlagsArrive` | usbip_common.c:437-441 | of a request that crosses the server has every transfer flag but `URB_NO_TRANSFER_DMA_MAP`, which is clear |
| `Framing.WrongRequestRefused` | stub_rx.c:568-617 | the server takes no reply, no request for another device, none for an endpoint it does not know, and no isochronous one with an impossible number of packets |
| `Framing.TruncatedRequestIff` | stub_rx.c:456-617 | a request cut off anywhere by the end of the connection is taken if and only if what is missing is part of an OUT payload with no descriptors to follow and the connection was closed in order |
| `Framing.RequestsFramed` | vhci_tx.c:64-201 | any row of requests is cut back into the same requests up to the first it refuses; nothing is left exactly when it refuses none |
| `Framing.ShortPayloadSubmittedIff` | usbip_common.c:795-806 | a connection ending inside an OUT payload still leads to a submitted URB if and only if it was closed in order and no descriptors follow |
| `Replies.ReplyArrivesIff` | vhci_rx.c:70-116 | a reply is cut out of the stream exactly, direction and type recovered from the pending URB, if and only if its isochronous lengths add up |
| `Replies.ResultsGivenBack` | usbip_common.c:477-504 | the URB given back has the device's status, lengths, counts and packets, and is the driver's own in all else |
| `Replies.TruncatedReplyRefused` | vhci_rx.c:70-116 | a reply cut off anywhere by the end of the connection is refused |
| `Replies.WrongReplyRefused` | vhci_rx.c:197-256 | the client takes no request, no result of a URB it does not wait for, and none of an isochronous one with an impossible number of packets |
| `Replies.OneSettled` | vhci_rx.c:27-185 | a reply takes exactly one URB off those awaited or none, its own or the target of the request it answers, and changes no other |
| `Replies.SecondResultRefused` | vhci_rx.c:76-86 | a second result for a URB is refused, whatever follows |
| `Replies.RepliesFramed` | stub_tx.c:161-366 | any row of results and answers, each for a URB or request still pending, is cut into the same replies with nothing left over |
| `Replies.ResultAfterAnswerRefused` | vhci_rx.c:76-86 | a result for a URB that an answer has already given back is refused, whatever follows |
| `Replies.InDataComesBack` | stub_tx.c:209-247 | IN data reaches the driver's buffer: all of it, or for an isochronous transfer each packet at its own offset |
| `Replies.OutBufferKeptIff` | usbip_common.c:739-769 | padding does not look at the direction: the reply to an isochronous OUT transfer leaves the driver's buffer alone, whatever it holds, if and only if every packet beyond the first that moved anything starts where the bytes moved before it end |
| `Replies.OutBufferKept` | usbip_common.c:739-769 | so a reply that moved all of the buffer or none of it leaves it alone, and so does every ordinary one |
| `Iso.PrefixBelowOffset` | usbip_common.c:760-768 | gathered bytes never lie beyond the slot they belong to, so moving the last packet first overwrites nothing still to be read |
| `Iso.PadRestoresEveryPacket` | usbip_common.c:739-769 | gathering without padding and spreading in place puts every packet back at its own offset with its own bytes, early returns included |
| `Iso.FullMeansNoPadding` | usbip_common.c:753-758 | the early return is sound: when the data fills the buffer every offset already equals the sum before it |
| `Iso.RestoredIff` | usbip_common.c:739-769 | every content a device can leave is restored if and only if there is no packet, the first slot starts the buffer or the first packet moved nothing, since the loop stops before packet 0 |
| `Iso.SpreadSlot` | usbip_common.c:764-768 | after the loop each packet but the first holds exactly the bytes that lay at its place in the gathered data |
| `Iso.PadKeepsIff` | usbip_common.c:739-769 | padding changes no buffer at all if and only if every packet beyond the first lies in place already |
| `Iso.PadInPlace` | usbip_common.c:739-769 | the right-to-left loop on the buffer itself equals the specified spreading |
| `DescriptorParser.ParseDescriptor` | userspace/client/libusb0/descriptors.c:32-67 | the loop over a format string reads the fields it names and returns their total width |
| `DescriptorParser.FieldsPrinted` | userspace/client/libusb0/descriptors.c:32-67 | reading fields inverts writing them for every format of byte, word and dword fields |
| `DescriptorParser.FieldsWeigh` | userspace/client/libusb0/descriptors.c:32-67 | what each format letter reads, byte by byte, and its width; capitals keep the processor's order, other letters name no field |
| `DescriptorParser.EndpointFieldsRead` | userspace/client/libusb0/descriptors.c:97-101 | both endpoint formats read exactly what the parsing functions keep of an endpoint, on any memory |
| `DescriptorParser.SettingFieldsRead` | userspace/client/libusb0/descriptors.c:183 | likewise for an interface setting |
| `DescriptorParser.ConfigurationFieldsRead` | userspace/client/libusb0/descriptors.c:297 | likewise for a configuration |
| `DescriptorParser.UsbParseEndpoint` | userspace/client/libusb0/descriptors.c:74-159 | an endpoint with the class and vendor bytes after it, all error returns included |
| `DescriptorParser.UsbParseSetting` | userspace/client/libusb0/descriptors.c:170-279 | one turn of the interface loop |
| `DescriptorParser.UsbParseInterface` | userspace/client/libusb0/descriptors.c:161-289 | the outer loop over settings, which ends on any memory contents |
| `DescriptorParser.UsbParseConfiguration` | userspace/client/libusb0/descriptors.c:291-386 | the loop over interfaces, keeping class and vendor bytes once |
| `Descriptors.ParseSetting` | userspace/client/libusb0/descriptors.c:170-279 | a turn that does not fail uses at least one byte, even at a descriptor of length zero |
| `DescriptorRoundTrip.EndpointParses` | userspace/client/libusb0/descriptors.c:74-159 | an endpoint of 7 or 9 bytes printed before anything well formed is parsed back with its extras |
| `DescriptorRoundTrip.InterfaceParses` | userspace/client/libusb0/descriptors.c:161-289 | an interface with any number of alternate settings is parsed back and its end is found |
| `DescriptorRoundTrip.ConfigurationParses` | userspace/client/libusb0/descriptors.c:291-386 | every well-formed configuration tree is rebuilt from its printed form with zero bytes left, whatever lies in memory behind it |
| `DescriptorLayout.ParsedIff` | userspace/client/libusb0/descriptors.c:74-386 | for all memory, however malformed: the parser fills in this tree and leaves so many bytes if and only if the memory is laid out as that tree, told by the places where descriptors begin |
| `DescriptorLayout.FailsIff` | userspace/client/libusb0/descriptors.c:74-386 | and it fails exactly where there is no such layout |
| `DescriptorLayout.SkipIff` | userspace/client/libusb0/descriptors.c:104-148 | each loop over class and vendor descriptors passes exactly a row of them, up to a standard descriptor or the end |
| `PtpParser.ScanSplits` | filter_ptp.c:812-912 | parsing a transfer in two parts equals parsing it whole when the first part ends well |
| `PtpParser.ChunksAreOne` | filter_ptp.c:812-912 | chunk independence: parsing any division of a stream succeeds if and only if no transfer cuts a header and the whole parses; bytes, ids, state and response count then agree |
| `PtpParser.OnlyIdsChange` | filter_ptp.c:846-862 | no byte outside a transaction-id field changes, however malformed the data |
| `PtpContainers.ContainersParse` | filter_ptp.c:812-912 | a row of whole containers parses to the end, each header relabelled, all other bytes unchanged, responses counted exactly |
| `PtpReading.ScanHears` | filter_ptp.c:812-912 | the parser with its phases and unsigned counters refines a plain reader of containers: for any data both fail or both end well, with the same responses counted and the same rest of a container to come |
| `PtpReading.ScanStops` | filter_ptp.c:812-912 | and where a scan does not end well, it ends for the reader's own reason: a header cut off, of an unknown kind, or announcing less than itself |
| `PtpIds.IdsNoted` | filter_ptp.c:797-905 | any transfer that reads well leaves the ids like this: from the client the latest id is noted, a session opened restarts the running one and a change is noted; else the running id moves by the responses that end, unless the filter serves |
| `PtpIds.HeaderLeaves` | filter_ptp.c:840-867 | any header of any transfer, whatever stands before or behind it, leaves under the id that its direction, the headers and the responses before it determine |
| `PtpIds.IdsWhereStopped` | filter_ptp.c:824-867 | where a header stops a scan, the scan ends for its reason with the ids noted up to it, that header's own included unless it is cut off |
| `PtpReading.ScanBlank` | filter_ptp.c:846-862 | whatever a parser does to a transfer that reads well, nothing but ids changes |
| `PtpReading.CursorLeavesIff` | filter_ptp.c:890-899 | for any transfer and any state of the parser, the cursor leaves the transfer if and only if, after bytes that read well, a whole header of a known kind announces less than its own twelve bytes |
| `PtpReading.EmptyContainerLeaves` | filter_ptp.c:890-899 | a concrete transfer that leads every parser there |
| `PtpReading.OneIdThroughout` | filter_ptp.c:846-862 | for any data, cut anywhere but in a header, all headers leave with one id and the stream is otherwise unchanged for its reader |
| `PtpReading.ClientSeesItsOwnId` | filter_ptp.c:850-853 | every header of any transfer towards the client carries the client's latest id |
| `PtpReading.CameraSeesRunningId` | filter_ptp.c:854-860 | every header of any transfer submitted after a delay carries the running id |
| `PtpContainers.RunningIdCounts` | filter_ptp.c:899-905 | what comes from the camera moves the running id by the number of responses finished, for any data, with 32-bit wrap-around |
| `PtpContainers.ServingKeepsId` | filter_ptp.c:903-905 | a reply served from the buffer leaves the ids alone |
| `PtpContainers.Filter.ParseHeader` | filter_ptp.c:840-867 | the header branch: noted, a new session recognised, the id rewritten in place |
| `PtpContainers.Filter.Parse` | filter_ptp.c:812-912 | the cursor loop over one transfer equals the specified scan and ends |
| `PtpFilterSafety.StepKeeps` | filter_ptp.c:405-1113 | every handler keeps the invariant that ties the state to the camera, the queue, the URBs and the ids |
| `PtpFilterSafety.OneTransactionAtATime` | filter_ptp.c:405-476 | on every run no command reaches the camera while another transaction awaits its response; one is under way exactly in states command, busy, wait, drop and sleep_wait; and the filter is never driven into bypass |
| `PtpFilterSafety.IdsAreConsistent` | filter_ptp.c:797-905 | on every run the running id is the number of responses the camera has sent since it heard the session open; every header of every transfer, forwarded, delayed or the filter's own, reaches the camera under it; every header returned, answered or served, reaches the client under its own id |
| `PtpFilterSafety.NothingIsLost` | filter_ptp.c:269-291 | the filter's two URBs are free, queued or in use, and a client's command is at the camera or queued exactly once |
| `PtpFilterSafety.SessionOverlapsIff` | filter_ptp.c:797-810 | a session change overlaps another transaction if and only if a preview of the filter's own is under way |
| `PtpFilterSafety.ShortTransferFaultsIff` | filter_ptp.c:784-795 | the preview test reads a code that a transfer is too short to hold if and only if a command is the parser's latest container, finished before the transfer or by it; for all transfers shorter than the code field's end and all states of the parser |
| `PtpFilterSafety.StepFaultsIff` | filter_ptp.c:1009-1022 | of all steps that can follow a run, exactly the empty OUT transfers between a command and its data do so |
| `PtpWitnesses.FaultReached` | filter_ptp.c:1009-1022 | a run from the start to such a step |
| `PtpStreams.CommandScanned` | filter_ptp.c:812-912 | a command passes the rewriting parsers as a command with only its id new |
| `PtpStreams.DataScanned` | filter_ptp.c:812-912 | a client's data, however divided, move no id and end no transaction |
| `PtpStreams.TrackerFollows` | filter_ptp.c:705-719 | the byte counters of the frame buffer's two ends agree with the parser on where a container ends and whether it was a response |
| `PtpSpeech.SendClientSpoken` | filter_ptp.c:437-454 | a command that had to wait carries a stale id, is stamped anew and reaches the camera under the running one |
| `PtpSpeech.DataSpoken` | filter_ptp.c:1003-1014 | the client's data reach the camera within its transaction under the running id |
| `PtpSpeech.OwnDataSpoken` | filter_ptp.c:673-719 | a piece of a preview moves the running id exactly when it ends the response |
| `PtpSpeech.AnsweredSpoken` | filter_ptp.c:914-935 | an answer reaches the client under its own id and moves the running id when it ends |
| `PtpSpeech.ServedSpoken` | filter_ptp.c:570-671 | a served frame reaches the client under its own id and leaves the running id alone |
| `PtpProgress.ClientSentIff` | filter_ptp.c:405-476 | on any run, a client's command that waits is sent by a step if and only if that step ends one of the filter's own previews and then either the filter falls asleep or the command is at the head of the queue |
| `PtpPrompt.OneAheadWhileAwake` | filter_ptp.c:735-745 | on every run whose session changes find no preview of the filter's own in the queue: while the filter is awake exactly one of them is under way, queued or to be started by the timer, and none otherwise; and a client's command waits only while one is under way |
| `PtpPrompt.ClientSentAtPreviewEnd` | filter_ptp.c:405-476 | on such runs a command that waits is sent by a step if and only if that step ends the preview under way |
| `PtpServing.FramesBounded` | filter_ptp.c:722-735 | on every run no more frames are buffered than the limit, and one more only while a client is being served |
| `PtpServing.ServedUnlessStarved` | filter_ptp.c:1020-1083 | on every run with such session changes, a client that is being served has a frame in the buffer or a preview ahead, unless the filter is asleep with nothing buffered |
| `PtpServing.StarvedIff` | filter_ptp.c:724-728 | after any run, a step leads there if and only if it ends a preview that is dropped while a client is being served and no frame is buffered |
| `PtpServing.StarvedForGood` | filter_ptp.c:313-321 | then nothing that can happen changes it: the client waits for ever |
| `PtpServing.StateChanges` | filter_ptp.c:405-1117 | after any run, exactly when a step makes the filter intercept, wakes it, puts it to sleep or makes it drop a frame, and what it does to the number of frames |
| `PtpTurns.TurnsTaken` | filter_ptp.c:269-556 | after any run, for every step: the queue and the timer afterwards, and whose transfer it sends to the camera, if any |
| `PtpTransparent.FilterUnnoticed` | filter_ptp.c:405-1117 | on every run, but for the ids: the camera has got the transfers the client sent, unchanged, in order and once each, save a command that still waits; the client has got what was answered or served, likewise; and whatever else the camera got is the client's first preview command |
| `PtpWitnesses.StarvedReached` | filter_ptp.c:724-728 | for every limit of two or more, a run to a client that waits for ever |
| `PtpProgress.BlockedForGood` | filter_ptp.c:426-435 | a command that waits behind a preview without room never reaches the camera as long as no room is made |
| `PtpWitnesses.BlockedReached` | filter_ptp.c:797-810 | a preview left in the queue by a session change lets two get ahead, and a run with the timer firing only when set leads to such a state |
| `PtpWitnesses.OverlapReached` | filter_ptp.c:797-810 | with a buffer for two frames a client at rest can open a session in the middle of the filter's own preview |
| `PtpHandlers.Handlers.Change` | filter_ptp.c:269-291 | a state change: its loop moves the filter's own commands off the queue when falling asleep, and the timer is stopped then and on leaving interception |
| `PtpHandlers.Handlers.ProduceOne` | filter_ptp.c:405-556 | the decision for one request: send, leave queued or queue |
| `PtpHandlers.Handlers.OnTimer` | filter_ptp.c:306-341 | a preview is started if the state and a free URB allow |
| `PtpHandlers.Handlers.Expire` | filter_ptp.c:306-341 | the timer fires once for each time it was set |
| `PtpHandlers.Handlers.OnRx` | filter_ptp.c:965-1117 | a client's transfer: a preview command, which starts a preview or sets the timer, another command, data, or one too short to test; what each does on every run is stated by `PtpTurns`, `PtpServing` and `PtpTransparent` |
| `PtpHandlers.Handlers.CmdComplete` | filter_ptp.c:753-782 | the filter's command was accepted and its data is read |
| `PtpHandlers.Handlers.DataComplete` | filter_ptp.c:673-751 | a piece of a preview came, parsed and counted, and the end of its response chooses the next state and sets the timer |
| `PtpHandlers.Handlers.OnTx` | filter_ptp.c:914-962 | the camera's answer is parsed on its way to the client, and its end chooses the next state |
| `PtpHandlers.Handlers.Consume` | filter_ptp.c:570-671 | a piece of a buffered frame is counted, parsed and served, and its end |
| `BusLists.ListAdd` | userspace/client/libusb0/usbi.h:11-20 | the macro prepends a node to a doubly linked list and keeps all links |
| `BusLists.ListDel` | userspace/client/libusb0/usbi.h:22-32 | the macro takes any node out of a doubly linked list and keeps all other links |
| `BusLists.ReconciledNames` | userspace/client/libusb0/usb.c:19-87 | afterwards the list has exactly the reported names, each as often as reported, even when names repeat |
| `BusLists.CompareRanks` | userspace/client/libusb0/usb.c:35-64 | whatever names repeat: of each name as many known nodes stay, the first ones, as are reported, and of the reported ones as many, again the first, are not new |
| `BusLists.BackwardsAt` | userspace/client/libusb0/usb.c:70-84 | the new nodes stand in front, the last reported first |
| `BusLists.CompareSeparates` | userspace/client/libusb0/usb.c:35-64 | with distinct names the nodes that stay are exactly the known ones still reported, and the new ones exactly those not known |
| `BusScan.ScanKeepsNodes` | userspace/client/libusb0/usb.c:19-87 | with distinct names: surviving names keep their old node, and the result counts those removed plus those added |
| `BusScan.TakeReported` | userspace/client/libusb0/usb.c:40-54 | the inner loop takes the first entry of that name off the report |
| `BusScan.TakeMissing` | userspace/client/libusb0/usb.c:35-64 | the first walk, on the linked nodes |
| `BusScan.AddNew` | userspace/client/libusb0/usb.c:70-84 | the second walk, on the linked nodes |
| `BusScan.Usb.FindBusses` | userspace/client/libusb0/usb.c:19-87 | the scan leaves the well-formed reconciled list and returns the number of changes, or the error with nothing changed |
| `BusScan.FindDevices` | userspace/client/libusb0/usb.c:89-179 | each bus's device list is reconciled in turn up to the first bus whose scan failed |
| `Events.PendingMeansShutdown` | usbip_event.c:30-67 | whatever is added whenever, a nonzero word at the loop head has the shutdown bit |
| `Events.ShutdownPrecedes` | usbip_event.c:38-58 | every reset and every unusable callback comes after a shutdown callback of the same iteration |
| `Events.CallbacksInOrder` | usbip_event.c:38-58 | within an iteration each callback runs at most once, and a reset before what makes the device unusable |
| `Events.CallbacksRequested` | usbip_event.c:30-67 | on every run no callback has run more often than its bit was added, less the one still before the handler; and the handler ends only when told to |
| `Events.EventLostIff` | usbip_event.c:30-67 | after any run, a reported event can come to rest without its callback running again if and only if the handler is not ending and the bit was added while its own callback ran, or between the load and the store of a clearing that does not keep it |
| `Events.EventLost` | usbip_event.c:50 | a concrete run in which a reported error is lost for good |
| `Events.UsbipDevice.EventHandler` | usbip_event.c:30-67 | for any schedule of additions the handler loop is a run of the machine, with its word and its callbacks, that has added what the schedule says; it ends with a zero word or when told to |
| `Names.HashNum` | userspace/libsrc/names.c:84-92 | the mask loop computes the remainder modulo x^4 + x over GF(2), with a quotient |
| `Names.DivisionIsUnique` | userspace/libsrc/names.c:84-92 | a polynomial has one remainder below 16, and it is the hash |
| `Names.HashLinear` | userspace/libsrc/names.c:84-92 | the hash respects exclusive or |
| `NameTables.Add` | userspace/libsrc/names.c:206-307 | a `new_` function: refuses a key that has a name, and otherwise the table stands for the extended map |
| `NameTables.LookUp` | userspace/libsrc/names.c:101-157 | a `names_` function returns what the map has |
| `NameTables.NameDatabase.NewName` | userspace/libsrc/names.c:206-307 | the five insertions on the five tables, with their packed keys |
| `NameTables.NameDatabase.NameOf` | userspace/libsrc/names.c:101-157 | the five lookups |
| `NameTables.FirstNameStays` | userspace/libsrc/names.c:206-307 | after any insertions a key has the name it had, or else the first it was given |
| `NameTables.NumbersApart` | userspace/libsrc/names.c:206-307 | the parts of a key stand side by side in the number that is hashed, so no two keys of a table share one |
| `NameFile.NeverTwoSections` | userspace/libsrc/names.c:309-490 | whatever the file holds, at most one of the four sections is open and a subclass only inside a class |
| `NameFile.Parse` | userspace/libsrc/names.c:309-490 | the reading loop fills the tables with exactly what its lines name, in order; what that is for any file is stated by `NameLines.FileMeans` |
| `NameLines.EntryReads` | userspace/libsrc/names.c:328-480 | a line of any of the six shapes, whatever its spacing and the case of its digits, opens the section or gives the name it says |
| `NameLines.OthersRead` | userspace/libsrc/names.c:322-489 | any other line changes nothing |
| `NameLines.FileMeans` | userspace/libsrc/names.c:309-490 | any file at all: what is named, in order, is what each line names by looking back, to the last heading above it and inside a class to the last line with one tab since |
| `NameLines.OtherSectionsNameNothing` | userspace/libsrc/names.c:350-480 | under a language or usage heading, as before any, indented lines name nothing |
| `NameLines.PassedOver` | userspace/libsrc/names.c:328-489 | comments, empty lines and the ten kinds of line that are passed over say nothing |
| `NameFileRoundTrip.FileRead` | userspace/libsrc/names.c:309-490 | a printed file of vendors with products and classes with subclasses and protocols is read back as exactly those names |

## Left out

- UrbProtocol: does not model the 32-bit wrap-around of sequence numbers, device number 0 in enqueue, root-hub and port emulation, reference counts, or the server's own shutdown.
- UrbRuns.GivebackIsTrue: data is the abstract result of the device; how its bytes cross the wire is stated separately in `Replies`.
- VhciDevice.Device.RecvRetSubmit: the result comes unpacked; receiving and unpacking it is in `Replies`.
- VhciDevice.Device.SendCmdSubmit: does not model a failing send or a failing allocation, which end the thread.
- VhciDevice.Device.SendCmdUnlink: does not model a failing send, which ends the thread.
- StubDevice.Device.SendRetSubmit: does not model a failing send, a failing allocation or the length check, which end the thread.
- StubDevice.Device.SendRetUnlink: does not model a failing send, which ends the thread.
- Framing.RequestArrivesIff: packet counts whose descriptors do not fit an `int` are refused outright; clearing of unsupported flags and special control requests on the server are not modelled.
- Replies.ReplyArrivesIff: replies longer than the driver's buffer, or with packets reaching outside it, are given back unpadded in the model, where the source does not check them.
- Transport.Socket.Recv: an error in the middle of the bytes ends the stream for good, as it does for all callers but an idle header read that times out.
- DescriptorParser.ParseDescriptor: returns the field values; their alignment inside the destination structure is not modelled, nor are failing allocations.
- PtpParser.ChunksAreOne: the whole stream must be countable by the source's 32-bit length, so that parsing it in one call is meaningful.
- PtpFilterSafety.OneTransactionAtATime: failed URBs, failed allocations and impossible lengths, which make the filter give up, are not modelled, nor is the device-info probing before a session.
- PtpFilterSafety.ShortTransferFaultsIff: what happens after the read beyond a transfer's end is not modelled; the model stops in a state of its own.
- PtpWitnesses.OverlapReached: with a buffer for one frame no such run is claimed, nor excluded.
- PtpHandlers.Handlers.ProduceOne: the ring buffer's space arithmetic, and with it the dropping of an earlier frame, is abstracted to whether there is room.
- PtpHandlers.Handlers.OnRx: the client's reads are a step of their own (`PtpFilter.OnRead`).
- PtpHandlers.Handlers.DataComplete: the buffer's positions are not modelled.
- PtpHandlers.Handlers.Consume: served bytes are any bytes, not tied to those received into the ring buffer; one step serves one read.
- PtpContainers.Filter.ParseHeader: the lock that `ptp_check_new_session` takes and does not release is not modelled; `PtpWitnesses.OverlapReached` and `PtpWitnesses.BlockedReached` go through a session change as if it were released.
- Events.UsbipDevice.EventHandler: the callbacks themselves and the wait for the next event are not modelled.
- BusScan.FindDevices: fetching descriptors of new devices and determining children are not modelled; the list of buses is a sequence.
- NameFile.Parse: lines come as `fgets` returns them; messages about bad lines are not modelled.
- The command-line tools, `userspace/client/client.c`, gadgetfs, platform back ends, sysfs files and the busid table are plumbing around these parts.
