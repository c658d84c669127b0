# Verification of the RS485 bridge's update and onboarding firmware

A Dafny model of the USB-bootstrap firmware (`firmware/usb_bootstrap`) and of the host scripts that deploy to it, with
proofs of what the firmware promises: a signed A/B update that survives a power cut anywhere, a two-task download that
behaves like one sequential writer, a configuration store that recovers from every interruption, and the byte formats
underneath. `dafny verify dfyconfig.toml` checks everything.

## How it is built

- `Bytes`, `Crc`, `Utf8`, `Wifi`, `Json`, `JsonText`, `JsonReader`, `Chunked`, `ChunkedText`, `Manifest`, `Digest`: byte-level
  formats and the replay table, each against an independent specification.
- `Hardware`, `ConfigStore`, `ConfigRuns`, `Network`, `Policy`: the board with its faults, the configuration store, its runs,
  the connection machine and onboarding, the automatic-update switch.
- `OtaSpec`, `OtaRuns`, `OtaSafety`, `OtaLive`, `OtaDevice`, `Health`: updater, flash writer and boot-time runtime as functions,
  whole-device runs, their safety, exactly when each operation says yes, the objects that refine them, and the health window in
  true time.
- `Protocol`, `ProtocolSafety`, `SystemRuns`, `Delivery`, `Release`, `Pull`, `Worker`: the download protocol as interleaved
  atomic steps, its refinement, runs of both tasks through resets, what a response must deliver and what its messages install,
  and both tasks' code against it.
- `MainLoop`, `Trail`, `Firmware`: the main loop's glue on values, what ties the objects to the models of store and device, and
  `main.cpp` over all objects.
- `Deploy`: `ota_controller.py` and `dmota_remote.py` under crashes.

Code that changes fields or buffers in the firmware is a class here (`Chunked.Body`, `JsonReader.Reader`, `Store`,
`NetworkState`, `EspWriter`, `Updater`, `Runtime`, `Coordinator`, `Task`, `AutomaticPolicy`, `Bridge`, `DigestAuth`,
`StateDirectory`). Its methods are proved equal to functions of the old state, and the theorems are about those functions. A
method that uses hardware returns, as a ghost result, what the hardware answered. `Board.log` lists every durable state the
board was in; methods say which ones they add, and a power cut is a stop at any of them. `Board.sound` marks a board whose
calls all work: there every method's answers are the working ones, so none can give up by blaming the hardware.
`Firmware.Bridge` runs the real store, switch, updater and coordinator; its ghost fields `trail` and `moves` are the run of
the configuration model (`Onboarding`) that the device has made so far, through all its boots, and its protocol steps are
those of `Protocol`. What a pass gets from outside is its argument (`Firmware.Inputs`), and the ghost object `Firmware.Watch`
keeps the boot-time runtime's calls with their true times and the parts of the passes in order.

## Assumptions

- Time: `millis()` is the true time modulo 2^32. A timeout that fires has really passed. The converse needs a true gap below
  2^32 ms; theorems that use it say so in their preconditions (`Health.Regular`, `Digest.ReplayFreedom`).
- NVS: a blob write or erase takes effect or does not, and may report failure either way; a reported success is durable.
  Reads may fail.
- Flash: a failed erase or write leaves anything in the slot being written. A failed change of the boot partition has no
  effect.
- Bootloader: a selected image goes on trial at the next reset; a reset while the running image is on trial boots the other
  slot.
- Ed25519, SHA-256 and the identity compiled into an image are arbitrary functions (`OtaSpec.Kit`, `Digest.Setup`).
- The acknowledgement's sequence number has 32 bits and wraps. An exchange takes a number that the acknowledgement left in
  the queue, if any, does not carry (`Protocol.FreshNumber`): always so below 2^32 exchanges
  (`ProtocolSafety.FreshBeforeWrap`), and without it the protocol does go wrong (`ProtocolSafety.PrematureExactly`).
- Taking a message, handling it and replying are one step: what the worker can do in between (give up, queue its final
  result, drop a stale acknowledgement) neither reads nor changes what those three touch in another order.
- `WiFiClient::fd()` becomes negative only through `closeClient`.

## What the proofs brought out

- A legacy push is not checked against the durable attempt again when it starts. The attempt fence still holds
  (`OtaSafety.AttemptFence`), because only one attempt can be in hand, and no context is written between its check and its
  start.
- "Valid within 30 s" is not true of a device that is not polled for 2^32 ms (`Health.UnpolledConfirmIsLate`), a gap that the
  device's 10 s watchdog rules out. A marking is on time exactly when the clock has not wrapped since arm
  (`Health.OnTimeUnlessWrapped`), and polls less than 2^32 - 30000 ms apart ensure that (`Health.MarkedMeansHealthy`).
- The chunked decoder accepts texts that section 7.1 of RFC 9112 does not allow, in two ways. It cuts a size line at its first
  NUL (`ChunkedText.NulSizeLineAccepted`), and it takes any nonempty line for a trailer
  (`ChunkedText.ColonlessTrailerAccepted`). Accepted texts conform if and only if no size line holds a NUL and every trailer
  line is a field line (`ChunkedText.AcceptedIsRfcExactly`). The 2048 bytes allowed for trailers include the last size line.
- A stale acknowledgement is told from the awaited one by 32 bits only; it is mistaken for it exactly when it waited while the
  counter came round (`ProtocolSafety.PrematureExactly`).
- After `discardTrial`, memory equals a fresh load exactly when the kept slot is undamaged and loses the revision comparison:
  kept in A it may be as new as the discarded record, kept in B it must be older (`ConfigRuns.DiscardAgreesExactly`). From a
  store that has only seen its own operations this always holds (`ConfigRuns.ReturnKeepsInv`).

## Model

The table has two parts. The results come first, up to `RemoteDeploy.ValidWasReported`. The rows from `Crc.Compute` on say
of each object and loop which function or run its contract ties it to; the results are about those.

| member | source | states |
|---|---|---|
| `Clock.ElapsedIsSound` | firmware/usb_bootstrap/core.cpp:124 | an elapsed timeout never fires early, across any number of wraps; below 2^32 ms it fires exactly when due |
| `Crc.BitStepInjective` | firmware/usb_bootstrap/core.cpp:134-138 | one shift-and-xor step merges no two register values |
| `Crc.SuffixInjective` | firmware/usb_bootstrap/core.cpp:132-139 | equal registers after a common suffix were equal before it |
| `Crc.WindowIsOneXor` | firmware/usb_bootstrap/core.cpp:132-139 | absorbing a window of bytes is one xor of its little-endian value followed by plain steps |
| `Crc.SealIsSealed` | firmware/usb_bootstrap/ota_context.h:21-22 | a record with its CRC appended passes the check |
| `Crc.SealedIsSeal` | firmware/usb_bootstrap/ota_context.h:32-34 | a record passes the check only if it is its body with that CRC |
| `Crc.ConstantResidue` | firmware/usb_bootstrap/core.cpp:132-139 | the register over any valid record, CRC included, is one constant |
| `Crc.BurstDetected` | firmware/usb_bootstrap/core.cpp:132-139 | valid records of one length that agree outside four consecutive bytes are equal, also across the stored CRC |
| `Crc.DistinctSealedRecordsDifferFarApart` | firmware/usb_bootstrap/core.cpp:132-139 | different valid records of one length differ at two places at least four bytes apart |
| `Crc.CheckValues` | firmware/usb_bootstrap/core.cpp:132-139 | the CRC has the values of IEEE 802.3's CRC-32 on the empty text, on four ff bytes and on these with 80 behind: they fix first register, polynomial, direction and inversion |
| `Utf8.AcceptsExactlyUtf8` | firmware/usb_bootstrap/core.cpp:29-47 | accepted texts are exactly the UTF-8 encodings (sections 3 and 4 of RFC 3629) of scalar values that are no C0 control or DEL |
| `JsonReader.Encoded` | firmware/usb_bootstrap/core.cpp:91-97 | the escape's output is the UTF-8 encoding of its scalar value |
| `JsonText.ParsesExactlyDocuments` | firmware/usb_bootstrap/core.cpp:150-178 | a configuration is returned exactly for the texts of at most 1024 bytes that spell it, in any field order, white space and mix of literal and escaped characters |
| `Wifi.DecodeOfEncode` | firmware/usb_bootstrap/core.cpp:179-203 | a stored valid configuration reads back |
| `Wifi.EncodeOfDecode` | firmware/usb_bootstrap/core.cpp:190-203 | an accepted record is the canonical record of a valid configuration with nonzero revision |
| `Wifi.RecordBurst` | firmware/usb_bootstrap/core.cpp:190-203 | two accepted records never differ only within four consecutive bytes |
| `Chunked.FeedAllKeepsBounds` | firmware/usb_bootstrap/github_core.cpp:230-259 | on any input received plus announced bytes stay within the limit, every payload byte is counted, and a failed decoder takes nothing more |
| `ChunkedText.DecodesExactlyEncodings` | firmware/usb_bootstrap/github_core.cpp:230-259 | the decoder completes exactly on chunked encodings (within its line and trailer limits) and marks exactly their data, in order |
| `ChunkedText.CompletesOnLastByte` | firmware/usb_bootstrap/github_core.cpp:246-258 | completion comes with the last byte and not before |
| `ChunkedText.EncodingUnique` | firmware/usb_bootstrap/github_core.cpp:230-259 | a text has one reading: chunks, last size line and trailers |
| `ChunkedText.AcceptedIsRfcExactly` | firmware/usb_bootstrap/github_core.cpp:241-258 | an accepted text conforms to section 7.1 of RFC 9112 if and only if no size line holds a NUL and every trailer line is a field line |
| `ChunkedText.DecodedIsRfcExactly` | firmware/usb_bootstrap/github_core.cpp:230-259 | what the decoder marks is the content of a conforming text exactly when the text is an encoding whose size and trailer lines are such |
| `ChunkedText.NulSizeLineAccepted` | firmware/usb_bootstrap/github_core.cpp:244-249 | an accepted text with a NUL in its size line, which does not conform, exists |
| `ChunkedText.ColonlessTrailerAccepted` | firmware/usb_bootstrap/github_core.cpp:241-246 | an accepted text with a trailer line that is no field line, which does not conform, exists |
| `ChunkedText.LengthBodyTakesItsBytes` | firmware/usb_bootstrap/github_core.cpp:233-238 | a body with a length takes exactly that many bytes, all payload |
| `Manifest.DecodeOfEncode` | firmware/usb_bootstrap/ota_core.cpp:27-42 | an encoded DMOTA1 manifest decodes to its fields |
| `Manifest.EncodeOfDecode` | firmware/usb_bootstrap/ota_core.cpp:27-42 | a decodable DMOTA1 manifest is canonical and encodes to the same bytes |
| `Manifest.EncodeInjective` | firmware/usb_bootstrap/ota_core.cpp:37-42 | equal encodings have equal DMOTA1 fields |
| `Manifest.DecodeOfEncodePackage` | firmware/usb_bootstrap/ota_core.cpp:43-56 | an encoded DMOTA2 manifest decodes to its fields |
| `Manifest.EncodeOfDecodePackage` | firmware/usb_bootstrap/ota_core.cpp:43-56 | a decodable DMOTA2 manifest is canonical and encodes to the same bytes |
| `Manifest.DecodeOfEncodeContext` | firmware/usb_bootstrap/ota_context.h:16-39 | a written attempt context reads back, up to the fields DMOTA1 does not carry |
| `Manifest.EncodeOfDecodeContext` | firmware/usb_bootstrap/ota_context.h:16-39 | a readable context is the canonical record of a package attempt |
| `Manifest.DecodeOfEncodeJournal` | firmware/usb_bootstrap/ota_runtime.h:79-85 | a written boot journal reads back as its manifest and transaction |
| `Manifest.HostAcceptsDeviceManifests` | scripts/dmota_package.py:27-35 | the packaging tool accepts exactly the device's stable-channel, protocol-2 manifests for this board with at least 32 image bytes, and both read the same fields |
| `Manifest.HostUnpackIsDecode` | scripts/ota_controller.py:104-119 | the controller accepts exactly the device's DMOTA1 manifests for this board with at least 32 image bytes, and reads the same fields |
| `Manifest.DeviceReadsHostPackage` | scripts/dmota_package.py:20-24 | every package manifest the tool builds decodes on the device to the fields it was built from |
| `ConfigStore.LoadsUnlessReadsFail` | firmware/usb_bootstrap/core.cpp:208-242 | without a failed read that is the load of what is stored, and any failed read leaves the store corrupt |
| `ConfigRuns.StageIsAtomic` | firmware/usb_bootstrap/core.cpp:243-256 | a power cut anywhere in stage loads as the old state, as empty with the revision spent, or as the new trial; never corrupt |
| `ConfigRuns.PromoteIsAtomic` | firmware/usb_bootstrap/core.cpp:257-263 | a power cut anywhere in promote loads as the trial or the same configuration active |
| `ConfigRuns.DiscardIsAtomic` | firmware/usb_bootstrap/core.cpp:264-274 | a power cut anywhere in discard loads as the trial or as empty at the same revision |
| `ConfigRuns.StageAgrees` | firmware/usb_bootstrap/core.cpp:243-256 | after a successful stage a fresh load equals memory |
| `ConfigRuns.ReturnKeepsInv` | firmware/usb_bootstrap/core.cpp:243-274 | after any returning operation, memory that is not corrupt equals a fresh load, next slot included when empty |
| `ConfigRuns.StageKeepsNewest` | firmware/usb_bootstrap/core.cpp:243-251 | stage never overwrites the newest valid record, wherever it is cut |
| `ConfigRuns.DiscardAgreesExactly` | firmware/usb_bootstrap/core.cpp:264-274 | in any state that loads as trial, memory equals a fresh load after discard if and only if the kept slot is undamaged and loses the revision comparison, which slot B wins at equal revisions |
| `ConfigRuns.WipedIsUnrelated` | firmware/usb_bootstrap/core.cpp:412-415 | erasing the six keys leaves exactly the unrelated ones |
| `ConfigRuns.ResumeCutKeepsMarker` | firmware/usb_bootstrap/core.cpp:405-421 | an interrupted reset keeps its marker until everything else is gone |
| `ConfigRuns.ResetSurvivesCrashes` | firmware/usb_bootstrap/main.cpp:531-538 | after the marker is durable, whatever number of boots is interrupted, unrelated keys never change and no boot gets past the reset with anything but an empty configuration at revision 0 |
| `ConfigRuns.RunsStayRecoverable` | firmware/usb_bootstrap/core.cpp:204-274 | in every run of operations, faults and power cuts the store loads without corruption, absent read errors, and memory agrees with it |
| `ConfigRuns.ActiveIsNeverOverwritten` | firmware/usb_bootstrap/core.cpp:243-274 | in every run without a reset the durable active reference and its record stay |
| `Network.After` | firmware/usb_bootstrap/core.cpp:295-301 | over any samples the retry delay stays within 5 to 60 s and a tick never changes the mode |
| `Network.PromotionNeedsStableLink` | firmware/usb_bootstrap/core.cpp:284-294 | tick asks for promotion only after an unbroken run of link-up ticks that spans 5 s of true time |
| `Network.TrialEndsExactly` | firmware/usb_bootstrap/core.cpp:284-294 | over any ticks of a trial below the clock's wrap promotion is asked for exactly when every tick of the last 5000 ms saw the link up, and withdrawal exactly when not so and 60000 ms have passed |
| `Network.NoEarlyWithdrawal` | firmware/usb_bootstrap/core.cpp:291-294 | also across wraps no trial is withdrawn before 60000 ms |
| `Network.RetriesDouble` | firmware/usb_bootstrap/core.cpp:295-301 | the delays between attempts that fail double from 5 s up to 60 s, jitter included |
| `Network.RetriesWhenDue` | firmware/usb_bootstrap/core.cpp:295-301 | with the link down the next attempt comes exactly when its delay has passed |
| `Network.StationReconnects` | firmware/usb_bootstrap/core.cpp:284-302 | a station's ticks ask for connections only, and 5 s after the link was lost at the earliest |
| `Network.RebootsExactly` | firmware/usb_bootstrap/core.cpp:285 | a reboot is asked for exactly from 1000 ms after it was entered |
| `Onboarding.PromotionNeedsProof` | firmware/usb_bootstrap/main.cpp:173-212 | the durable active reference is written only by promotion, only for the configuration loaded as trial in this boot, after such a run |
| `Onboarding.RunsStayConsistent` | firmware/usb_bootstrap/main.cpp:173-212 | mode and store state belong together in every run of boots, ticks, saves and faults |
| `Onboarding.BootFollowsStore` | firmware/usb_bootstrap/main.cpp:526-559 | a boot tries a trial, uses an active configuration, provisions an empty store and stops on a corrupt one |
| `Policy.DecodesExactly` | firmware/usb_bootstrap/automatic_policy.h:11-23 | checks start by themselves only if the eight stored bytes say on; off is trusted if nothing or off is stored |
| `Onboarding.ResetContinues` | firmware/usb_bootstrap/main.cpp:526-559 | a reset at any durable state that an operation started in the run leaves is itself one more step of a run |
| `OtaSafety.ExamineIsSound` | firmware/usb_bootstrap/ota_core.cpp:95-105 | the checks pass only a signed, canonical manifest newer than the running image |
| `OtaSafety.HostPackagePasses` | scripts/dmota_package.py:20-24 | a package the host tool built, signed with the device's key, passes every check of a device running an older version |
| `OtaSafety.PrepareOutcome` | firmware/usb_bootstrap/ota_core.cpp:89-111 | prepare refuses while busy, fails, or holds the whole attempt, available and with a valid token |
| `OtaLive.ExaminesExactly` | firmware/usb_bootstrap/ota_core.cpp:93-105 | the checks pass an envelope exactly if it is the canonical encoding of the manifest with a signature under the key, for this board by name, within its schema, updater 2 at most, channel "stable" if a package, and newer than what runs |
| `OtaLive.PreparesExactly` | firmware/usb_bootstrap/ota_core.cpp:89-111 | prepare accepts exactly such an envelope above the recorded attempt, with nothing good in hand, a usable key, a valid new token and a readable or absent record, and then holds exactly that attempt |
| `OtaLive.RefusalLeaves` | firmware/usb_bootstrap/ota_core.cpp:89-111 | a refused preparation leaves a transaction that is still good as it was |
| `OtaLive.OnlyFittingSelected` | firmware/usb_bootstrap/ota_core.cpp:99-104 | in every run, wherever power is cut, what is in hand and everything ever selected for boot is for this board by name, within its schema, updater 2 at most, and on channel "stable" if a package |
| `OtaLive.StartsExactly` | firmware/usb_bootstrap/ota_core.cpp:112-122 | whatever the hardware answers, start opens the transfer exactly for the prepared token and size, within 30 s, if the image fits the slot and the calls it needs work |
| `OtaLive.StrangersChangeNothing` | firmware/usb_bootstrap/ota_core.cpp:112-116 | a start under another token, or with none prepared, changes nothing about a transaction that is still good |
| `OtaLive.ChunksExactly` | firmware/usb_bootstrap/ota_core.cpp:123-137 | whatever the hardware answers, a chunk is taken exactly within the deadlines, 1024 bytes and the image, if it is stored; the last one selects the image exactly if its digest is the signed one and the calls that needs work, the attempt's record among them for a package |
| `OtaLive.TransfersExactly` | firmware/usb_bootstrap/ota_core.cpp:123-137 | bytes that arrive in time are selected for boot, exactly as they arrived, if and only if their digest is the signed one |
| `OtaLive.UpdateInstalls` | firmware/usb_bootstrap/ota_core.cpp:89-137 | a sound update on working hardware, prepared, started and sent in time, ends installed in the other slot |
| `OtaLive.ArmsExactly` | firmware/usb_bootstrap/ota_runtime.h:107-123 | arm finds a trial exactly if the SDK knows the image to be on one, and a fault exactly if its state or the watchdog cannot be had |
| `OtaLive.FaultStops` | firmware/usb_bootstrap/ota_runtime.h:151-176 | with a fault nothing is offered or confirmed, and the first poll gives a trial up |
| `OtaLive.OffersExactly` | firmware/usb_bootstrap/ota_runtime.h:124-176 | off trial, updates are offered exactly with no fault, a usable key, and records that can be read |
| `OtaLive.TrialSurvivesExactly` | firmware/usb_bootstrap/ota_runtime.h:124-150 | begin keeps a trial exactly if the image is the release it was selected as and the records can be read, and then under that attempt's transaction and origin |
| `OtaSafety.AuthorizeKeeps` | firmware/usb_bootstrap/ota_runtime.h:36-48 | authorize records at most its own context, keeps the device's durable invariant at every cut, and agrees only above the fence |
| `OtaSafety.BeginKeeps` | firmware/usb_bootstrap/ota_runtime.h:51-59 | begin touches only the slot that does not run, behind the fence |
| `OtaSafety.JournalKeepsOrigin` | firmware/usb_bootstrap/ota_runtime.h:72-85 | the journal select leaves, read with the durable context, gives back exactly the origin of its attempt, by version order for a legacy push |
| `OtaSafety.SelectKeeps` | firmware/usb_bootstrap/ota_runtime.h:72-87 | only a complete image with the signed length and digest is selected; every durable state on the way is safe |
| `OtaSafety.StartKeeps` | firmware/usb_bootstrap/ota_core.cpp:112-122 | start keeps the device invariant at its end and at every durable state on the way |
| `OtaSafety.ChunkKeeps` | firmware/usb_bootstrap/ota_core.cpp:123-137 | chunk likewise, over write, finish, digest check, journal and selection |
| `OtaSafety.PollKeeps` | firmware/usb_bootstrap/ota_runtime.h:151-160 | poll likewise, confirmation and rollback included |
| `OtaSafety.ConfirmKeeps` | firmware/usb_bootstrap/ota_runtime.h:161-170 | confirm likewise |
| `OtaSafety.BeginRunKeeps` | firmware/usb_bootstrap/ota_runtime.h:124-150 | the boot-time reading of journal and context likewise; a trial goes on only under the origin read from both |
| `OtaSafety.PowerOnKeeps` | firmware/usb_bootstrap/ota_runtime.h:107-123 | any safe durable state powers on into the device invariant |
| `OtaSafety.ExecKeeps` | firmware/usb_bootstrap/ota_core.cpp:76-148 | every operation, with every fault, keeps the invariant, never touches the running slot, nor the other one during a trial |
| `OtaSafety.BootSlotIntegrity` | firmware/usb_bootstrap/ota_runtime.h:51-87 | in every run, wherever power is cut, the slot the next reset boots holds a baseline image or one that arrived complete under an accepted signature; the running slot is never written, nor the other during a trial |
| `OtaSafety.AttemptFence` | firmware/usb_bootstrap/ota_runtime.h:27-48 | in every run across power cuts, once a context is durable no flash is begun for its version or below but by its own attempt right after it; every package begin follows its durable context; attempted versions rise; no legacy push is marked valid by poll |
| `OtaSafety.OriginSurvivesReboot` | firmware/usb_bootstrap/ota_runtime.h:124-145 | in every run a pending image runs under exactly the origin it was selected with |
| `OtaSafety.MarkedIsSelected` | firmware/usb_bootstrap/ota_runtime.h:161-189 | an image is marked valid only if it is on trial and the manifest it was selected with names the running release |
| `OtaSafety.StartInTime` | firmware/usb_bootstrap/ota_core.cpp:112-122 | a token opens a transfer only within 30 s of prepare, in true time below 2^32 ms |
| `OtaSafety.ChunkInTime` | firmware/usb_bootstrap/ota_core.cpp:123-142 | a chunk is accepted only within 120 s of the start and 8 s of the last progress |
| `OtaDevice.LogStaysSafe` | firmware/usb_bootstrap/ota_runtime.h:51-87 | an operation that keeps the invariant lists only safe durable states on the board |
| `Health.BootStartsTrial` | firmware/usb_bootstrap/ota_runtime.h:107-150 | arm of an image on trial and begin without rollback leave the timers the traces start from |
| `Health.MarkedMeansHealthy` | firmware/usb_bootstrap/ota_runtime.h:151-170 | marked valid means less than 30 s after arm, journal matching, and for packages a run of healthy polls less than 250 ms apart from at least 5 s ago up to now, across clock wrap |
| `Health.LatePollGivesUp` | firmware/usb_bootstrap/ota_runtime.h:151-153 | the first poll 30 s after arm or later asks for the rollback if the trial is still going |
| `Health.ConfirmsExactly` | firmware/usb_bootstrap/ota_runtime.h:151-170 | over any polls within 30 s of arm the trial of a package whose journal matches is confirmed exactly once they have been healthy for 5000 ms less than 250 ms apart |
| `Health.LegacyConfirmsExactly` | firmware/usb_bootstrap/ota_runtime.h:161-170 | the trial of a legacy push is confirmed exactly by a healthy request with its transaction within 30000 ms of arm |
| `Health.OnTimeUnlessWrapped` | firmware/usb_bootstrap/ota_runtime.h:161-168 | any marking is on time if and only if less than 2^32 ms passed since arm |
| `Health.UnpolledConfirmIsLate` | firmware/usb_bootstrap/ota_runtime.h:161-168 | the concrete late confirmation of a device that was not polled for 2^32 ms; the watchdog of 10 s rules that gap out on the device |
| `ProtocolSafety.FeedAllExtends` | firmware/usb_bootstrap/github_worker.h:184-194 | decoding one byte more extends what was decoded |
| `ProtocolSafety.NextKeeps` | firmware/usb_bootstrap/github_worker.h:88-107 | every step of either task keeps the joint invariant of queues, stream, transfer and device |
| `ProtocolSafety.MessageHandled` | firmware/usb_bootstrap/github_pull.h:118-135 | handling a message leaves our transfer, opens it empty for the announced size, or appends exactly the message's bytes |
| `ProtocolSafety.StepRefines` | firmware/usb_bootstrap/github_worker.h:201-235 | refinement: every step of any interleaving is one step, or none, of a single sequential writer fed by the decoded stream; selection is a step only when the body is complete |
| `ProtocolSafety.QueuesSuffice` | firmware/usb_bootstrap/github_worker.h:88-107 | in every run each exchange finds the message queue empty and the final result always fits |
| `ProtocolSafety.WrittenIsPrefix` | firmware/usb_bootstrap/github_worker.h:201-235 | in every run, with late, stale, lost or timed-out acknowledgements, the slot holds exactly a prefix of the decoded image, without gap or repetition |
| `ProtocolSafety.SelectedIsComplete` | firmware/usb_bootstrap/github_worker.h:226-232 | in every run a selected GitHub image is the whole payload after the header, and the response body had ended at the announced size |
| `ProtocolSafety.SelectedIsEncoding` | firmware/usb_bootstrap/github_worker.h:212-232 | a chunked response behind it was, byte for byte, one chunked encoding of the package |
| `Delivery.WholeExactly` | firmware/usb_bootstrap/github_worker.h:184-235 | a response is complete exactly if it is the announced bytes themselves or one chunked encoding of as many |
| `Delivery.RefusedIsHopeless` | firmware/usb_bootstrap/github_worker.h:184-194 | a byte the decoder refuses can be followed by nothing that completes the response |
| `Release.HeaderTakenExactly` | firmware/usb_bootstrap/github_pull.h:118-131 | a header is accepted exactly if it is fresh, in a job that runs, on a healthy device that may update, is an admissible envelope above the recorded attempt that names the announced version and size, nothing good is in hand and the calls work; without the first four nothing changes |
| `Release.ImageTakenExactly` | firmware/usb_bootstrap/github_pull.h:118-134 | an image's message is accepted exactly if so welcome and its bytes extend or complete an open transfer of ours; otherwise nothing of another's changes |
| `Release.JobLimitEnds` | firmware/usb_bootstrap/github_pull.h:99-102 | the limit of 180 s ends an open transfer of ours |
| `Release.ImageInstalls` | firmware/usb_bootstrap/github_pull.h:118-143 | an image's messages, handled in time on working hardware, are all accepted exactly if the digest is the signed one, and then it is installed |
| `Release.ReleaseInstalls` | firmware/usb_bootstrap/github_pull.h:118-143 | a whole release, in the messages the worker sends, to a device that should take it: all accepted and exactly the image installed, if and only if its digest is the signed one |
| `ProtocolSafety.OneWriter` | firmware/usb_bootstrap/github_pull.h:123-147 | in every run an open transfer is GitHub's exactly while a job runs |
| `ProtocolSafety.FreshBeforeWrap` | firmware/usb_bootstrap/github_worker.h:88-107 | an exchange takes a fresh number as long as fewer than 2^32 were counted |
| `ProtocolSafety.PrematureExactly` | firmware/usb_bootstrap/github_worker.h:88-107 | right after posting, the worker takes an acknowledgement for its own before the loop has seen the message if and only if the one left in the queue carries the new number |
| `ProtocolSafety.StepPerforms` | firmware/usb_bootstrap/github_worker.h:88-107 | every step of either task is a sequence of update operations, each enabled where it runs, through exactly their durable states |
| `SystemRuns.SystemKeeps` | firmware/usb_bootstrap/main.cpp:591-616 | in every run of both tasks from the factory on, through any resets, the joint invariant holds and the device is one that a run of update operations reaches |
| `SystemRuns.SystemIsSafe` | firmware/usb_bootstrap/main.cpp:591-616 | every durable state any step of such a run passes through boots a good image, keeps the attempt fence and has no self-confirmed legacy push |
| `Firmware.ResetBoots` | firmware/usb_bootstrap/main.cpp:560-571 | the circle closes: the durable state at any moment meets what the next setup asks for |
| `Firmware.PowerCutIsHarmless` | firmware/usb_bootstrap/main.cpp:591-616 | whenever power is cut, the next boot runs a good image, and loads a configuration or finishes the reset under way unless a read fails |
| `Firmware.PromotedOnProof` | firmware/usb_bootstrap/main.cpp:198-201 | through all boots of a device the active configuration changes only to the one on trial in that boot, after a link that was up for 5 s |
| `Trail.FactoryMayBoot` | firmware/usb_bootstrap/main.cpp:560-571 | a factory board with a clean configuration store is such a durable state |
| `Firmware.Bridge.Pass` | firmware/usb_bootstrap/main.cpp:591-616 | every pass polls first, on the health of that moment (environment, active store, station mode), and all its parts follow once, in order, on its inputs; by a poll the image is marked valid only after passes that all found the device healthy for 5000 ms less than 250 ms apart, by a request only on a healthy device, for its transaction, and for a package after such passes too, both within 30000 ms of arm; a trial 30000 ms old is given up; the pass is a sequence of enabled protocol steps and of steps of the configuration model, and wherever the device is reset, the durable state is safe and left by that run |
| `MainLoop.PassSumsUp` | firmware/usb_bootstrap/main.cpp:600 | what a pass's calls of the runtime say about its markings and about a trial's end |
| `MainLoop.StepsMarkNothing` | firmware/usb_bootstrap/ota_runtime.h:161-170 | no step of worker, coordinator, network or upload marks an image valid |
| `Firmware.ConfirmedByHealth` | firmware/usb_bootstrap/main.cpp:600 | a package's trial on a device that was only polled is confirmed exactly once its passes have been healthy for 5 s |
| `MainLoop.StartOpensUpload` | firmware/usb_bootstrap/ota_core.cpp:112-122 | a transfer started over HTTP is never GitHub's, begins empty, and has the token and size of its request |
| `MainLoop.ChunkExtendsUpload` | firmware/usb_bootstrap/main.cpp:484-504 | a chunk extends the transfer by exactly its bytes, and selection means the request's whole body is in the slot |
| `MainLoop.WorkerLeavesPass` | firmware/usb_bootstrap/github_worker.h:261-270 | any run of the worker task leaves the main loop's invariant and the device alone |
| `MainLoop.PullLeavesUpload` | firmware/usb_bootstrap/github_pull.h:146-153 | beside an allowed upload the coordinator's poll at most starts a job, only once the upload's transfer has failed, and leaves the device alone |
| `Digest.SlotFound` | firmware/usb_bootstrap/core.cpp:471-475 | a nonce gets its own entry, else the first blank one, else none only when eight others fill the table |
| `Digest.NoReplay` | firmware/usb_bootstrap/core.cpp:433-486 | over any requests accepted counts rise per client nonce and are remembered in a table of distinct nonces |
| `Digest.ReplayFreedom` | firmware/usb_bootstrap/core.cpp:423-486 | between two begins no pair of client nonce and count is accepted twice, at most eight client nonces are accepted, and nothing 300 s after begin (section 3.4 of RFC 7616) |
| `Digest.VerifiesExactly` | firmware/usb_bootstrap/core.cpp:423-486 | between two begins a request is accepted exactly if its nine parameters are right, its uri is the request's path, its response is hash(hash(username:realm:key):nonce:nc:cnonce:auth:hash(method:path)), less than 300 s have passed, its count is higher than its client nonce's before and the table has a place (section 3.4 of RFC 7616) |
| `Digest.OneResponse` | firmware/usb_bootstrap/core.cpp:478-482 | of two requests that differ in the response only, at most one is ever accepted |
| `Deploy.ReconciledIsReported` | scripts/ota_controller.py:254-257 | success means the device reported VALID with the release's build, version, key and transaction |
| `Deploy.ReconciledExactly` | scripts/ota_controller.py:250-266 | reconciling succeeds exactly if some answer reports the release valid before any reports it rolled back, whatever else or nothing was answered |
| `Deploy.DeploysExactly` | scripts/ota_controller.py:295-321 | a run under a clear record that is not killed uploads once if prepared and recorded, and records SUCCESS exactly if reconciled, else FAILED |
| `Deploy.SettlesExactly` | scripts/ota_controller.py:283-294 | a run that finds its release unsettled uploads nothing and records what its transaction came to |
| `Deploy.UploadsAtMostOnce` | scripts/ota_controller.py:269-321 | over any runs killed anywhere, uploads are at most one more than the recorded successes, and none more when the next run may upload |
| `Deploy.NoUploadForgotten` | scripts/ota_controller.py:283-320 | over any such runs every token uploaded under had its success recorded or is the transaction of the unsettled record, which the next run reads first |
| `Deploy.SuccessWasReported` | scripts/ota_controller.py:286-293 | SUCCESS is recorded only for a transaction the device reported VALID with the matching release |
| `RemoteDeploy.OneUploadPerFence` | scripts/dmota_remote.py:74-124 | over any commands killed anywhere, at most one upload per fence file, and none the record does not admit |
| `RemoteDeploy.ConfirmedExactly` | scripts/dmota_remote.py:85-100 | the outcome is confirmed exactly if the first answer that decides reports the transaction valid and ready at the candidate's version |
| `RemoteDeploy.DeploysExactly` | scripts/dmota_remote.py:103-124 | a deployment that nothing stops uploads once and records VALID exactly if confirmed |
| `RemoteDeploy.ValidWasReported` | scripts/dmota_remote.py:85-100 | VALID enters the fence only for the transaction the device reported valid, ready and at the candidate's version |
| `Crc.Compute` | firmware/usb_bootstrap/core.cpp:132-139 | the bit loop computes the register recurrence, inverted |
| `Utf8.Check` | firmware/usb_bootstrap/core.cpp:29-47 | the checking loop decides the specification |
| `JsonReader.Reader.ReadEscape` | firmware/usb_bootstrap/core.cpp:83-90 | a \u escape or surrogate pair yields a nonzero scalar value and consumes exactly its text |
| `JsonReader.Reader.ReadString` | firmware/usb_bootstrap/core.cpp:73-106 | the string cursor yields the specified value within its capacity and leaves the specified rest |
| `JsonReader.Reader.ReadNumberValue` | firmware/usb_bootstrap/core.cpp:53-64 | the number cursor accepts exactly the specified decimal numbers of 32 bits |
| `JsonReader.ParseConfigText` | firmware/usb_bootstrap/core.cpp:150-178 | the field loop computes the specified parse |
| `Chunked.SizeLoopExact` | firmware/usb_bootstrap/github_core.cpp:248-255 | the guarded digit loop yields the hexadecimal number exactly when it fits the room left, without overflow |
| `Chunked.Body.FeedByte` | firmware/usb_bootstrap/github_core.cpp:230-259 | the object's byte step is the specified one, buffers included |
| `Manifest.CheckTextField` | firmware/usb_bootstrap/ota_core.cpp:15-25 | the field loop accepts exactly nonempty identifier text, terminated and zero-padded |
| `ConfigStore.Store.CheckedWrite` | firmware/usb_bootstrap/core.cpp:204-207 | success means durable; failure means written or not; the durable states passed through are listed |
| `ConfigStore.Store.LoadStore` | firmware/usb_bootstrap/core.cpp:208-242 | memory is the specified reading of what the four reads returned, each of them the stored record or an error; on a sound board it is the load of what is stored |
| `ConfigStore.Store.Stage` | firmware/usb_bootstrap/core.cpp:243-256 | record, then trial reference; every durable state on the way is a listed cut of stage; on a sound board a stage that may be made succeeds |
| `ConfigStore.Store.Promote` | firmware/usb_bootstrap/core.cpp:257-263 | the active reference becomes the trial's; cuts listed; on a sound board every trial is promoted and its reference erased |
| `ConfigStore.Store.DiscardTrial` | firmware/usb_bootstrap/core.cpp:264-274 | the trial reference is withdrawn and memory reset; cuts listed; on a sound board every trial can be |
| `ConfigStore.Store.ResumeReset` | firmware/usb_bootstrap/core.cpp:405-421 | the six keys are erased in order, the marker last; cuts listed; on a sound board it fails only on a damaged marker |
| `ConfigStore.Store.ResetWifi` | firmware/usb_bootstrap/core.cpp:399-404 | the marker is durable before the first erase; cuts listed |
| `ConfigStore.Store.Boot` | firmware/usb_bootstrap/main.cpp:531-538 | a reset asked for or pending is finished before anything is loaded, or the boot ends in fault; every durable state on the way is a listed cut of a reset; on a sound board the store is empty after a reset, and the load of what is stored otherwise, unless the marker is damaged |
| `Network.NetworkState.TickAt` | firmware/usb_bootstrap/core.cpp:284-302 | the object's tick is the specified one |
| `Network.NetworkState.BeginWith` | firmware/usb_bootstrap/core.cpp:275-283 | the object's begin is the specified one |
| `OtaDevice.LoadContext` | firmware/usb_bootstrap/ota_context.h:24-39 | the stored context is read as specified, read faults included |
| `OtaDevice.EspWriter.AvailableFor` | firmware/usb_bootstrap/ota_runtime.h:27-35 | the object answers and notes as specified, and on a sound board every call works |
| `OtaDevice.EspWriter.AuthorizeFor` | firmware/usb_bootstrap/ota_runtime.h:36-48 | the object's authorize is the specified one; durable states listed, and on a sound board every call works |
| `OtaDevice.EspWriter.BeginImage` | firmware/usb_bootstrap/ota_runtime.h:51-59 | the object's begin is the specified one; durable states listed, and on a sound board every call works |
| `OtaDevice.EspWriter.WriteImage` | firmware/usb_bootstrap/ota_runtime.h:60-63 | the object's write is the specified one; durable states listed, and on a sound board every call works |
| `OtaDevice.EspWriter.FinishImage` | firmware/usb_bootstrap/ota_runtime.h:64-71 | the object's finish is the specified one, and on a sound board every call works |
| `OtaDevice.EspWriter.SelectImage` | firmware/usb_bootstrap/ota_runtime.h:72-87 | the object's select is the specified one; durable states listed, and on a sound board every call works |
| `OtaDevice.Updater.ExamineEnvelope` | firmware/usb_bootstrap/ota_core.cpp:93-105 | the envelope's checks in order give the specified verdict |
| `OtaDevice.Updater.PrepareFrom` | firmware/usb_bootstrap/ota_core.cpp:89-111 | the object's prepare is the specified run, and on a sound board every call works |
| `OtaDevice.Updater.StartTransfer` | firmware/usb_bootstrap/ota_core.cpp:112-122 | the object's start is the specified run, with no other durable state on the way, and on a sound board every call works |
| `OtaDevice.Updater.ReceiveChunk` | firmware/usb_bootstrap/ota_core.cpp:123-137 | the object's chunk is the specified run, with no other durable state on the way, and on a sound board every call works |
| `OtaDevice.Updater.TickAt` | firmware/usb_bootstrap/ota_core.cpp:138-142 | the object's tick is the specified one, aborting the writer when a transfer times out |
| `OtaDevice.Runtime.ArmAt` | firmware/usb_bootstrap/ota_runtime.h:107-123 | the object's arm gives the specified device, and on a sound board every call works |
| `OtaDevice.Runtime.BeginBoot` | firmware/usb_bootstrap/ota_runtime.h:124-150 | the object's begin is the specified run; it resets the device exactly if the rollback it asks for works, which it does on a sound board |
| `OtaDevice.Runtime.PollAt` | firmware/usb_bootstrap/ota_runtime.h:151-160 | the object's poll is the specified run; it resets the device exactly if the rollback it asks for works, which it does on a sound board |
| `OtaDevice.Runtime.ConfirmWith` | firmware/usb_bootstrap/ota_runtime.h:161-170 | the object's confirm marks exactly when specified, and says yes exactly then and when repeated afterwards |
| `Health.PollOfDevice` | firmware/usb_bootstrap/ota_runtime.h:151-160 | the traces' poll is the device's, and the device records a marking by poll exactly when it marks |
| `Health.ConfirmOfDevice` | firmware/usb_bootstrap/ota_runtime.h:161-170 | the traces' confirm is the device's, and the device records a marking by request exactly when it marks |
| `Pull.Coordinator.PollAt` | firmware/usb_bootstrap/github_pull.h:97-155 | the loop's poll is a sequence of enabled protocol steps: with a job its limit of 180 s and at most one message behind exactly the gates of its age, the job's and health; without one a job's start exactly if the device is healthy, may update, is idle and a check is asked for or due; only safe durable states are listed, and only update records differ in them |
| `Pull.Coordinator.ServeJob` | firmware/usb_bootstrap/github_pull.h:98-145 | poll while a job runs |
| `Pull.Coordinator.MaybeStart` | firmware/usb_bootstrap/github_pull.h:146-155 | poll while none does: the job starts exactly then, at that time |
| `Pull.Coordinator.HandleMessage` | firmware/usb_bootstrap/github_pull.h:118-143 | gates, header and image branches as specified, on the updater object |
| `Pull.Coordinator.HandleDone` | firmware/usb_bootstrap/github_pull.h:105-109 | a job's end asks for a reboot exactly when its image is selected, and leaves no transfer of its own open |
| `Pull.Coordinator.Request` | firmware/usb_bootstrap/github_pull.h:79-83 | a check is accepted exactly when none is queued or running, the last one was started 60 s ago or never, and a rate limit has run out |
| `Pull.Coordinator.SetAutomatic` | firmware/usb_bootstrap/github_pull.h:88-91 | switching touches no running job and shortens no back-off; the first automatic check comes 30 to 60 s after it is switched on |
| `Worker.Task.FillBuffer` | firmware/usb_bootstrap/github_worker.h:184-194 | under any interference a full buffer holds exactly the next decoded bytes, in enabled worker steps |
| `Worker.Task.CloseBody` | firmware/usb_bootstrap/github_worker.h:226-229 | the last message waits for the end of the body's framing and takes no further payload |
| `Worker.Task.ExchangeBuffer` | firmware/usb_bootstrap/github_worker.h:88-107 | an exchange under a fresh number posts the buffer once and either has it acknowledged or ends the job, for a cause |
| `Worker.Task.Download` | firmware/usb_bootstrap/github_worker.h:201-235 | the result is Updated exactly if everything announced was acknowledged; the messages posted are exactly the payload's first 192 bytes and its slices of 1024, in order; and any other result for a release of 192 bytes or more has a cause: a refusal, a link that died, or bytes that nothing could have completed |
| `Worker.Task.RunJob` | firmware/usb_bootstrap/github_worker.h:261-275 | a job is the download of what the check found, or none, and ends with its result queued at once |
| `Firmware.SetUp` | firmware/usb_bootstrap/main.cpp:560-571 | from anything a reset can leave, the boot establishes the main loop's invariant, with the runtime's timers at the true time of arm |
| `Firmware.Bridge.StartApplication` | firmware/usb_bootstrap/main.cpp:526-559 | the store's boot, the switch, the attempt's records and the network in order, each able to fail: what is up afterwards is what the records say, on a sound board a trial is given up exactly if begin asks for it, the invariant holds, and a rollback's reset can be booted from |
| `Firmware.Bridge.PollRuntime` | firmware/usb_bootstrap/main.cpp:600 | the poll at the head of a pass is on the health of this moment; it marks the image valid exactly if the call does, and on a sound board resets the device exactly if the call asks for the rollback |
| `Firmware.Bridge.ConfirmRoute` | firmware/usb_bootstrap/main.cpp:393-399 | a confirmation is on the health of this moment, and marks the image valid exactly if the call does |
| `Firmware.Bridge.PollPull` | firmware/usb_bootstrap/main.cpp:601-603 | the coordinator is polled on the health of this moment, and not at all healthy while a reboot waits |
| `Firmware.Bridge.RebootIfReady` | firmware/usb_bootstrap/main.cpp:604 | a reboot is asked for exactly when the pull's image is selected and none has begun |
| `Firmware.Bridge.ServeNetwork` | firmware/usb_bootstrap/main.cpp:612 | unless a reboot waits, exactly one tick on this link and its action are recorded and done |
| `Firmware.Bridge.ServeUpload` | firmware/usb_bootstrap/main.cpp:484-504 | received bytes enter only the transfer this request's token opened; a reboot is asked for only with the whole body in the slot |
| `Firmware.Bridge.PushBytes` | firmware/usb_bootstrap/main.cpp:494-503 | they are appended, in order, to what the request has sent before; at completion the selected slot holds exactly the body, of the announced length |
| `Firmware.Bridge.StartUpload` | firmware/usb_bootstrap/main.cpp:418-423 | an upload is start with its token and length, and is allowed only with its own fresh transfer |
| `Firmware.Bridge.HeaderGate` | firmware/usb_bootstrap/main.cpp:368-430 | behind the gates a request does exactly what it asks of the update code, and else nothing; a configuration's body is read only while provisioning an empty store |
| `Firmware.Bridge.AutomaticRoute` | firmware/usb_bootstrap/main.cpp:371-392 | off always stops automatic checks, even if it cannot be stored; success is claimed only for the stored switch, and on only on a healthy device that is idle and ready; on a sound board every change that may be made is |
| `Firmware.Bridge.SaveConfig` | firmware/usb_bootstrap/main.cpp:432-445 | a valid document against the present revision is staged and a reboot asked for, always so on a sound board with an empty store; a failed stage ends in the fault mode; anything else changes nothing |
| `Firmware.Bridge.CloseClient` | firmware/usb_bootstrap/main.cpp:115-124 | closing interrupts at most the client's own transfer |
| `Firmware.Bridge.ApplyAction` | firmware/usb_bootstrap/main.cpp:173-212 | promotion, withdrawal, radio and restart, on the real store, are exactly the recorded step of the configuration model, and open no upload |
| `Firmware.Bridge.ServiceHttp` | firmware/usb_bootstrap/main.cpp:460-523 | one service of the client does exactly what its input asks of the update code at this point, enters a waiting reboot once the answer is out, and re-establishes the invariant between passes |
| `Policy.AutomaticPolicy.Load` | firmware/usb_bootstrap/automatic_policy.h:11-23 | absent is off, a read error or any other record is off and untrusted |
| `Policy.AutomaticPolicy.Save` | firmware/usb_bootstrap/automatic_policy.h:24-33 | a change is claimed only after the record read back; a failure leaves the old record or the new one and the switch off and untrusted |
| `Digest.DigestAuth.BeginNonce` | firmware/usb_bootstrap/core.cpp:423-431 | begin blanks the whole table and takes the nonce and its time |
| `Digest.DigestAuth.FindSlot` | firmware/usb_bootstrap/core.cpp:471-475 | the table loop finds the specified entry |
| `Digest.DigestAuth.CountOf` | firmware/usb_bootstrap/core.cpp:468-469 | the digit loop computes the specified count |
| `Digest.DigestAuth.VerifyRequest` | firmware/usb_bootstrap/core.cpp:433-486 | the object's verify is the specified one, table included |
| `Deploy.ReconcileLoop` | scripts/ota_controller.py:250-266 | the polling loop decides the specified verdict |
| `Deploy.StateDirectory.DeployRelease` | scripts/ota_controller.py:269-321 | a run passes through exactly the specified lasting actions |

## Left out

- TLS, sockets, DNS, NTP, the Wi-Fi driver, mDNS and heap sampling: only their outcomes appear, given from outside.
- HTTP request and response head parsing, `Authorization` splitting, JSON and HTML output: string handling around the modelled
  decisions; `Digest.Request` takes the nine parameters as already split.
- `parseRelease`, `parseUrl`, the release JSON reader and `retryDelay`: the protocol takes the announced version and size as
  given, and nothing proved depends on the delay.
- Failure counters, ETags and diagnostics of `Pull`; the delay a finished job asks for is given from outside.
- `BootResetGate`, enrollment of the install key, and the request and authentication rate limits: whether they let a boot or a
  request through is given from outside (`Firmware.Beginning`, `Firmware.Socket`).
- USB upload and upgrade scripts, key handling, packaging of image files and the milestone validators.
- Firmware.Bridge.ServeRequest: takes the outcome of reading a request, a route or a body, from outside, so it does not model the
  header limits.
- `OtaSpec.Recall`: on a malformed journal the fields kept for display are blank, where the firmware may show a partly decoded
  manifest; the runtime is faulted in both.
- Aliasing of byte buffers between the tasks: messages are values, as the queues copy them.
