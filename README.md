# MacVM core, modelled in Dafny

MacVM is a small macOS app that installs and runs one macOS guest per document on Apple's
Virtualization framework. This project models the sequential logic at its core and proves
properties of that model:

- **Content** (`content.dfy`): the persisted configuration record `VMContent`, its memberwise
  initialiser with defaults, the `empty` constant, and its keyed encoding and decoding. A
  serialized record is an abstract keyed container (`map<string, Value>`), not JSON text. The
  decoder follows the rules of a keyed decoding container. A missing key throws `keyNotFound`.
  A null throws `valueNotFound`. A value of the wrong type throws `typeMismatch`. A number
  outside the field's integer range throws `dataCorrupted`. `decodeIfPresent` gives nil for an
  absent key or a null. The one tolerant field is `bootFromRecovery`: any failure reading it
  gives `false`.
- **Settings** (`settings.dfy`): the settings form. This covers the memory-menu loop, the
  GiB/byte conversions, the `UInt64(String)` parse behind the disk-size field, the CPU menu,
  and the change handlers that write into the bound content (class `SettingsView`).
- **DocumentFile** (`document_file.dfy`): the document package. It is a directory of entries.
  Opening reads and decodes the `metadata` entry. Saving replaces `metadata`, either in place
  in the existing directory or in a new directory.
- **Configuration** (`configuration.dfy`): the machine configuration that `getVMConfiguration`
  assembles, as a record of device lists.
- **Session** (`session.dfy`): the classes `VMInstallationState`, `VMDocument` and
  `VMInstance`. This is the installation workflow and the start/stop controller. Each engine
  or OS step is an input (`InstallSteps`, `StartSteps`, `LoadResult`). Each asynchronous
  callback is its own method: `RestoreImageLoaded`, `InstallCompleted`, `StartCompleted`,
  `StopCompleted`, `GuestDidStop`, `DidStopWithError`. Counters of pending callbacks make
  the first four run only after the call that schedules them. The two delegate methods,
  `GuestDidStop` and `DidStopWithError`, have no such guard. `completions` records every call
  of the installer's completion handler.
- **Scenarios** (`scenarios.dfy`): client methods that drive whole workflows through the
  Session contracts. They cover a skipped install, an install the engine fails, a failed
  load, start/stop, and a start without identity.

The model keeps the source's behaviour, including these quirks:

- The hardware identity is written before the disk step, and stays written on every later failure.
- A `dd` that cannot be launched is only logged, and `dd`'s exit status is never read; the workflow goes on either way.
- The installer's completion reports `true` even when the engine's install fails.
- `start` never consults `installed`.
- The auxiliary storage is recreated, with overwrite, by every configuration assembly. That
  includes the assembly on the start path.
- Nothing rejects a second `startInstaller` while one is in flight. Only the UI's disabled
  button guards against it.
- `VMInstallationState.isInstalled` is set once, from the content, and never updated.

## Model

| member | source | states |
|---|---|---|
| `Content.Make` | MacVM/VMContent.swift:24-40 | the initialiser stores every argument unchanged in the field of the same name |
| `Content.MakeDefaults` | MacVM/VMContent.swift:24-31 | given only an identifier: not installed, no recovery boot, both identity blobs nil, 2 CPUs, 4 GiB of memory, a 32 GB disk |
| `Content.EmptyIsBlank` | MacVM/VMContent.swift:63-72 | `empty` has an empty identifier, both flags false, both blobs nil, and zero CPU count, memory and disk size |
| `Content.Decode` | MacVM/VMContent.swift:42-58 | decoding succeeds exactly when every mandatory field has the right type and range and each blob is absent, null or data; `bootFromRecovery` plays no part in success; on success each field is the stored value, a blob is nil when absent or null, and `bootFromRecovery` is true only when a Bool `true` is stored; a bad identifier is the error reported |
| `Content.Encode` | MacVM/VMContent.swift:11-22 | the synthesized encoder writes only coding keys, writes a blob key exactly when that blob is present, and always produces a decodable record |
| `Content.EncodeDecodeRoundTrip` | MacVM/VMContent.swift:11-58 | decoding the encoding of any record gives back that record |
| `Content.BootFromRecoveryDefaultsToFalse` | MacVM/VMContent.swift:47-51 | with `bootFromRecovery` missing, null or not a Bool, decoding gives exactly what it gives when the field is `false`, and never fails because of it |
| `Content.AbsentIdentityDecodesAsNil` | MacVM/VMContent.swift:53-54 | an absent identity blob decodes as nil and does not by itself make decoding fail |
| `Content.MissingMandatoryFieldFails` | MacVM/VMContent.swift:44-57 | decoding fails if `identifier`, `installed`, `cpuCount`, `memorySize` or `diskSize` is missing |
| `Content.UnknownKeysIgnored` | MacVM/VMContent.swift:42-58 | a key outside the coding keys does not change the decoding result |
| `Settings.MemoryOptions` | MacVM/VMSettingsView.swift:26-38 | the menu is 2, 4, 6, …; its length n satisfies n·2 GiB ≤ physical memory < (n+1)·2 GiB |
| `Settings.AvailableMemoryOptions` | MacVM/VMSettingsView.swift:26-38 | the while loop's output equals `MemoryOptions` of the physical memory, and its checked `UInt64` product never overflows |
| `Settings.MemoryOptionsFitAndAreMaximal` | MacVM/VMSettingsView.swift:30-35 | every option is even and its byte size fits in physical memory; the options strictly ascend from 2; the next even count would not fit |
| `Settings.MemoryOptionsEmpty` | MacVM/VMSettingsView.swift:30-32 | the menu is empty exactly when physical memory is below 2 GiB |
| `Settings.MemoryOptionsFitUInt64` | MacVM/VMSettingsView.swift:32-34 | below the no-trap bound, every option's byte count fits in a `UInt64` |
| `Settings.GiBFromBytes` | MacVM/VMSettingsView.swift:21 | the picker starts at the whole number of GiB n with n GiB ≤ bytes < (n+1) GiB |
| `Settings.BytesFromGiB` | MacVM/VMSettingsView.swift:63-65 | picking n writes a whole number of GiB that converts back to n |
| `Settings.MemoryRoundTrip` | MacVM/VMSettingsView.swift:21-64 | a byte count that is a multiple of 2^30 is unchanged by the trip to the picker and back |
| `Settings.DecimalString` | MacVM/VMSettingsView.swift:22 | the initial disk text is a non-empty string of decimal digits without a leading zero |
| `Settings.ParseUInt64` | MacVM/VMSettingsView.swift:67 | the text parses exactly when, after an optional `+` or `-`, it is one or more ASCII digits whose value is below 2^64 (exactly zero after `-`), and the result is that value |
| `Settings.DecimalParseRoundTrip` | MacVM/VMSettingsView.swift:22-68 | the decimal form of `diskSize` parses back to `diskSize` |
| `Settings.NonNumericTextRejected` | MacVM/VMSettingsView.swift:67-69 | text with a non-digit anywhere except a leading sign does not parse, so the content keeps its disk size |
| `Settings.OverflowRejected` | MacVM/VMSettingsView.swift:67-69 | a digit string worth 2^64 or more does not parse, with or without a leading `+` |
| `Settings.NegativeTextRejected` | MacVM/VMSettingsView.swift:67-69 | a minus sign in front of a non-zero number does not parse |
| `Settings.CpuOptions` | MacVM/VMSettingsView.swift:43-47 | the CPU choices are exactly 1 through the processor count, ascending |
| `Settings.SettingsView.constructor` | MacVM/VMSettingsView.swift:19-38 | the form starts at `memorySize / 2^30` GiB, with the decimal text of `diskSize` (which parses back to it), the content's recovery flag and the memory menu |
| `Settings.SettingsView.ChangeCpuCount` | MacVM/VMSettingsView.swift:43 | the CPU picker writes `cpuCount` and nothing else |
| `Settings.SettingsView.ChangeMemorySize` | MacVM/VMSettingsView.swift:63-65 | a changed selection of n GiB sets `content.memorySize` to n·2^30 and changes no other field |
| `Settings.SettingsView.ChangeDiskSize` | MacVM/VMSettingsView.swift:66-70 | changed text updates `content.diskSize` only when it parses as a `UInt64`; otherwise the content is unchanged |
| `Settings.SettingsView.ChangeBootFromRecovery` | MacVM/VMSettingsView.swift:71-73 | the toggle writes its value to `content.bootFromRecovery` and changes no other field |
| `DocumentFile.ReadContent` | MacVM/VMDocument.swift:41-49 | opening fails with the corrupt-file error when there is no `metadata` entry; it succeeds exactly when `metadata` is a regular file holding a decodable record, and the content is then the decoded record |
| `DocumentFile.SavedEntries` | MacVM/VMDocument.swift:51-72 | after a save, `metadata` holds the new snapshot and every other existing entry is untouched; with no existing file, `metadata` is the only entry |
| `DocumentFile.SaveThenOpen` | MacVM/VMDocument.swift:41-72 | opening a saved document gives back the saved snapshot, whatever the directory held before |
| `DocumentFile.SaveOverwrites` | MacVM/VMDocument.swift:57-62 | saving twice over the same directory leaves what saving the second snapshot once leaves |
| `DocumentFile.FileWrapperFor` | MacVM/VMDocument.swift:51-72 | an existing directory is edited in place and returned itself with the saved entries; otherwise a fresh directory is made |
| `Configuration.AssembleConfiguration` | MacVM/VMInstance.swift:208-277 | the CPU count and memory size come from the content; the platform carries the given identity; there is exactly one entropy, NAT network, graphics, keyboard, pointing and audio device; the audio device has an output stream then an input stream; there is one read-write storage device on the disk path when it opens, else none; with no screens there is a single 2560×1600 display at 220 ppi |
| `Session.StartIgnoresInstalled` | MacVM/VMInstance.swift:152-161 | the identity guard that every `Start` clause is stated through does not depend on `installed`, so neither do `Start`'s outcomes |
| `Session.VMInstallationState.constructor` | MacVM/VMInstance.swift:19-22 | a new installation state is not installing, has no progress, and has `isInstalled` equal to `content.installed` |
| `Session.VMDocument.constructor` | MacVM/VMDocument.swift:35-39 | a new document has default content with the given identifier (not installed), an installation state that is not installing, no instance, and `isRunning` false |
| `Session.VMDocument.FromContent` | MacVM/VMDocument.swift:47-48 | a document built from decoded content holds it and derives its installation state from it |
| `Session.VMDocument.Open` | MacVM/VMDocument.swift:41-49 | opening throws exactly the error `ReadContent` reports; otherwise the document's content is the decoded metadata |
| `Session.VMDocument.Snapshot` | MacVM/VMDocument.swift:31-33 | the snapshot is the current content, unchanged |
| `Session.VMDocument.CreateVMInstance` | MacVM/VMDocument.swift:74-80 | an existing instance is kept; otherwise exactly one new instance is created, tied to this document and idle |
| `Session.VMInstance.constructor` | MacVM/VMInstance.swift:41-45 | a new instance has no machine or installer, is not installing, and owes no callbacks |
| `Session.VMInstance.SetIsInstalling` | MacVM/VMInstance.swift:35-39 | every assignment to `isInstalling` is copied into the document's installation state |
| `Session.VMInstance.SetDiskImageSize` | MacVM/VMInstance.swift:32 | the disk size used by the later `dd` is the value assigned |
| `Session.VMInstance.ReleaseDocument` | MacVM/VMInstance.swift:27 | the weak document reference becomes nil |
| `Session.VMInstance.StartInstaller` | MacVM/VMInstance.swift:47-67 | `isInstalling` becomes true before any load outcome is processed, and one more load is in flight |
| `Session.VMInstance.RestoreImageLoaded` | MacVM/VMInstance.swift:51-66 | the load is consumed; a failed load aborts (not installing, completion `false`, content and machines unchanged); a loaded image continues as `startForInstallation` with that load's skip flag |
| `Session.VMInstance.StartForInstallation` | MacVM/VMInstance.swift:69-150 | no supported configuration aborts; otherwise the identity is written first and stays written; a `dd` that fails to launch or to run changes nothing else; the skip path installs and completes with `true` with no machine; a nil or invalid configuration aborts with `false`; otherwise one machine and its installer are created, progress is published and the completion is owed |
| `Session.VMInstance.WriteIdentity` | MacVM/VMInstance.swift:79-82 | the content gets the hardware-model and machine-identifier data, all else unchanged |
| `Session.VMInstance.ProvisionDisk` | MacVM/VMInstance.swift:84-100 | a `dd` that launches and exits successfully leaves `disk.img` at `diskImageSize` GiB; one that fails to launch or to run changes nothing |
| `Session.VMInstance.FinishSkippedInstallation` | MacVM/VMInstance.swift:102-107 | `installed` becomes true, `isInstalling` false, and completion is called with `true` |
| `Session.VMInstance.InstallWithConfiguration` | MacVM/VMInstance.swift:109-149 | a missing document or a failed validation aborts with `false`; otherwise the machine's configuration is assembled from the content and identity, the installer restores from the image, and progress is published |
| `Session.VMInstance.InstallCompleted` | MacVM/VMInstance.swift:127-139 | `installed` becomes true only on engine success; in both outcomes `isInstalling` becomes false and completion is called with `true` |
| `Session.VMInstance.CreateMachine` | MacVM/VMInstance.swift:123 | each machine object is new, with the next serial number and the given configuration |
| `Session.VMInstance.GetVMConfiguration` | MacVM/VMInstance.swift:200-278 | nil once the document is gone; otherwise the assembled configuration, with the auxiliary storage recreated whenever the host allows, on every path |
| `Session.VMInstance.Start` | MacVM/VMInstance.swift:152-192 | no machine is created when either blob is missing or undecodable, or validation fails; otherwise one machine is created from the stored identity and content and its start is requested; `isRunning` is not touched |
| `Session.VMInstance.StartCompleted` | MacVM/VMInstance.swift:178-186 | `isRunning` becomes true on success; a failure leaves it unchanged |
| `Session.VMInstance.Stop` | MacVM/VMInstance.swift:194-198 | a stop is requested only when there is a machine; with none nothing happens |
| `Session.VMInstance.StopCompleted` | MacVM/VMInstance.swift:195-197 | `isRunning` becomes false whatever the result |
| `Session.VMInstance.GuestDidStop` | MacVM/VMInstance.swift:280-282 | `isRunning` becomes false |
| `Session.VMInstance.DidStopWithError` | MacVM/VMInstance.swift:284-286 | `isRunning` becomes false, the same outcome as a clean stop |

## Left out

- Virtualization-framework objects (restore image, machine, installer, devices, auxiliary storage) are plain values. Every call into the framework is an outcome input.
- The `dd` process is reduced to its outcome. Success sets the modelled length of `disk.img`; sparse allocation is not modelled.
- The source cannot tell a `dd` that runs and fails from one that succeeds, because it never reads the exit status. The model's `ddSucceeded` input is the real outcome, and nothing in the workflow branches on it.
- The settings form edits its own `content` value. The `@Binding` write-through to `VMDocument.content` is not modelled.
- `DispatchQueue.main.async` and the completion closures are sequential event methods. Concurrency is not modelled. The index `k` in `RestoreImageLoaded` lets load callbacks arrive in any order.
- The `[weak self]` captures in the install and start callbacks are not modelled: the instance is assumed alive. The weak `document` reference is modelled; `ReleaseDocument` clears it.
- Display sizes derived from `NSScreen` frames and backing scale factors are floating point. They enter as `Host.screenDisplays`; only the no-screen fallback is computed.
- `AVCaptureDevice.requestAccess` is a permission prompt with no effect on the configuration.
- The JSON byte format and Base64 encoding of `Data` are replaced by the abstract keyed container.
- The UndoManager-based `save()` and the SwiftUI views outside the settings form have no independent logic.
- The installer's `Progress` object is modelled only as being published, not its fraction.
- `VMInstance.isRunning` (declared, never assigned) and `VMDocument.diskURL` / `auxStorageURL` (never used) are not modelled.
- `Settings.SettingsView.ChangeDiskSize`: the text field is disabled in the UI once `installed` is true. The handler does not check this itself, so the model does not either.
- `Settings.AvailableMemoryOptions`: requires physical memory below 2^64 − 2^31. Above that, Swift's checked multiplication traps. The trap is not modelled.
- `Settings.SettingsView.ChangeMemorySize`: requires that n·2^30 fits in a `UInt64`. Otherwise the source's multiplication traps. `MemoryOptionsFitUInt64` shows every menu option meets this.
- `Settings.CpuOptions`: requires a processor count of at least 1. Otherwise the closed range `1...n` traps.
- `Settings.SettingsView.constructor`: has the same requirement as `AvailableMemoryOptions`, because the form builds its menu with that loop.
- `Session.VMInstance.GuestDidStop`, `Session.VMInstance.DidStopWithError`: the source attaches the delegate only to a machine it created. The model does not require a machine before these callbacks.
