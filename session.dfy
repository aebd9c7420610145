/**
 * The document object and the installation / session controller
 * (`VMDocument`, `VMInstallationState`, `VMInstance`).
 *
 * Every call into the virtualization engine or the OS is an input: whether
 * the restore image loaded and what it supports, whether `dd` launched and exited successfully, what the
 * host reports to the configuration assembly, whether validation passed.
 * Each asynchronous callback is its own method; the bookkeeping fields
 * `pendingLoads`, `pendingInstalls`, `pendingStarts` and `pendingStops`
 * count the callbacks still owed, so a callback method can only run after
 * the call that schedules it. `completions` records every call of the
 * installer's completion handler, in order.
 */
module Session {
  import opened Wrappers
  import opened Content
  import opened Configuration
  import DocumentFile

  datatype SupportedConfiguration = SupportedConfiguration(hardwareModel: HardwareModel)

  datatype RestoreImage = RestoreImage(
    url: string,
    mostFeaturefulSupportedConfiguration: Option<SupportedConfiguration>)

  /** What `VZMacOSRestoreImage.load(from:)` delivers. */
  datatype LoadResult = Loaded(image: RestoreImage) | LoadFailed

  /** A virtual machine object; `serial` tells apart the machines one instance creates. */
  datatype Machine = Machine(serial: nat, configuration: MachineConfiguration)

  datatype Installer = Installer(virtualMachine: Machine, restoringFromImageAt: string)

  datatype Progress = InstallerProgress(installer: Installer)

  /** The outcomes of the synchronous steps of `startForInstallation`. */
  datatype InstallSteps = InstallSteps(
    newMachineIdentifier: MachineIdentifier, // `VZMacMachineIdentifier()`: freshly generated
    ddSucceeded: bool,                       // whether `dd` launched and exited successfully
    host: Host,                              // what the configuration assembly finds
    validates: bool)                         // whether `validate()` accepts the configuration

  /** The outcomes of the synchronous steps of `start`. */
  datatype StartSteps = StartSteps(
    hardwareModelDecodes: bool,              // `VZMacHardwareModel(dataRepresentation:)` is non-nil
    machineIdentifierDecodes: bool,          // `VZMacMachineIdentifier(dataRepresentation:)` is non-nil
    host: Host,
    validates: bool)

  function DiskPath(documentURL: string): string { documentURL + "/disk.img" }

  function AuxiliaryStoragePath(documentURL: string): string { documentURL + "/aux.img" }

  /** Whether `start` gets past its identity guards; `installed` plays no part. */
  predicate IdentityUsable(content: VMContent, steps: StartSteps)
  {
    && content.hardwareModelData.Some? && content.machineIdentifierData.Some?
    && steps.hardwareModelDecodes && steps.machineIdentifierDecodes
  }

  /**
   * Every clause of `Start`'s contract is stated through `IdentityUsable`, the
   * content's identity blobs and the steps, so this lemma records that the
   * outcome of `start` does not depend on `installed`.
   */
  lemma StartIgnoresInstalled(content: VMContent, steps: StartSteps, installed: bool)
    ensures IdentityUsable(content.(installed := installed), steps) == IdentityUsable(content, steps)
  {
  }

  class VMInstallationState {
    var isInstalled: bool
    var isInstalling: bool
    var progress: Option<Progress>

    constructor (content: VMContent)
      ensures !isInstalling && isInstalled == content.installed && progress == None
    {
      isInstalling := false;
      isInstalled := content.installed;
      progress := None;
    }
  }

  class VMDocument {
    var content: VMContent
    var vmInstance: VMInstance?
    var vmInstallationState: VMInstallationState
    var isRunning: bool

    /** Until an instance exists nothing can have set the installation state installing. */
    ghost predicate Valid()
      reads this, vmInstallationState
    {
      vmInstance == null ==> !vmInstallationState.isInstalling
    }

    /** `init()`: a new document; `identifier` is the freshly generated UUID string. */
    constructor (identifier: string)
      ensures content == Make(identifier) && !content.installed
      ensures fresh(vmInstallationState)
      ensures !vmInstallationState.isInstalling && !vmInstallationState.isInstalled
      ensures vmInstallationState.progress == None
      ensures vmInstance == null && !isRunning
      ensures Valid()
    {
      var c := Make(identifier);
      content := c;
      vmInstance := null;
      isRunning := false;
      vmInstallationState := new VMInstallationState(c);
    }

    constructor FromContent(content: VMContent)
      ensures this.content == content
      ensures fresh(vmInstallationState)
      ensures !vmInstallationState.isInstalling && vmInstallationState.isInstalled == content.installed
      ensures vmInstallationState.progress == None
      ensures vmInstance == null && !isRunning
      ensures Valid()
    {
      this.content := content;
      vmInstance := null;
      isRunning := false;
      vmInstallationState := new VMInstallationState(content);
    }

    /** `init(configuration:)`: opening fails exactly when reading the metadata does. */
    static method Open(fileWrappers: Option<DocumentFile.Entries>)
      returns (r: Result<VMDocument, DocumentFile.OpenError>)
      ensures r.Failure? <==> DocumentFile.ReadContent(fileWrappers).Failure?
      ensures r.Failure? ==> r.error == DocumentFile.ReadContent(fileWrappers).error
      ensures r.Success? ==>
        && fresh(r.value) && fresh(r.value.vmInstallationState)
        && r.value.content == DocumentFile.ReadContent(fileWrappers).value
        && !r.value.vmInstallationState.isInstalling
        && r.value.vmInstallationState.isInstalled == r.value.content.installed
        && r.value.vmInstance == null && !r.value.isRunning
        && r.value.Valid()
    {
      var read := DocumentFile.ReadContent(fileWrappers);
      if read.Failure? {
        return Failure(read.error);
      }
      var document := new VMDocument.FromContent(read.value);
      r := Success(document);
    }

    /** `snapshot(contentType:)`: what is saved is the current content, as it is. */
    function Snapshot(): (s: VMContent)
      reads this
      ensures s == content
    {
      content
    }

    /** `createVMInstance(with:)`: creates the instance once; later calls do nothing. */
    method CreateVMInstance(documentURL: string)
      requires Valid()
      modifies this`vmInstance
      ensures old(vmInstance) != null ==> vmInstance == old(vmInstance)
      ensures old(vmInstance) == null ==>
        && vmInstance != null && fresh(vmInstance)
        && vmInstance.document == this && vmInstance.documentURL == documentURL
        && vmInstance.Idle() && vmInstance.Valid()
      ensures Valid()
    {
      if vmInstance != null {
        return;
      }
      vmInstance := new VMInstance(this, documentURL);
    }
  }

  class VMInstance {
    /** The owning document, held weakly: it becomes null once the document is gone. */
    var document: VMDocument?
    const documentURL: string
    var virtualMachine: Option<Machine>
    var installer: Option<Installer>
    var diskImageSize: UInt64
    var isInstalling: bool

    /** The length of `disk.img` in GiB as the last successful `dd` left it, if any. */
    var provisionedDiskSize: Option<UInt64>
    /** How many times the auxiliary storage was (re)created, overwriting `aux.img`. */
    var auxiliaryStorageCreations: nat
    var machinesCreated: nat

    var pendingLoads: seq<bool>  // the skip flag of each restore-image load in flight
    var pendingInstalls: nat
    var pendingStarts: nat
    var pendingStops: nat
    var completions: seq<bool>

    constructor (document: VMDocument, documentURL: string)
      ensures this.document == document && this.documentURL == documentURL
      ensures Idle()
    {
      this.document := document;
      this.documentURL := documentURL;
      virtualMachine := None;
      installer := None;
      diskImageSize := 0;
      isInstalling := false;
      provisionedDiskSize := None;
      auxiliaryStorageCreations := 0;
      machinesCreated := 0;
      pendingLoads := [];
      pendingInstalls := 0;
      pendingStarts := 0;
      pendingStops := 0;
      completions := [];
    }

    /** The state of a newly created instance. */
    ghost predicate Idle()
      reads this
    {
      && virtualMachine == None && installer == None && diskImageSize == 0 && !isInstalling
      && provisionedDiskSize == None && auxiliaryStorageCreations == 0 && machinesCreated == 0
      && pendingLoads == [] && pendingInstalls == 0 && pendingStarts == 0 && pendingStops == 0
      && completions == []
    }

    function Docs(): set<VMDocument>
      reads this
    {
      if document == null then {} else {document}
    }

    function States(): set<VMInstallationState>
      reads this, Docs()
    {
      if document == null then {} else {document.vmInstallationState}
    }

    /** The `didSet` mirror: the document's installation state agrees with `isInstalling`. */
    ghost predicate Valid()
      reads this, Docs(), States()
    {
      document != null ==> document.vmInstallationState.isInstalling == isInstalling
    }

    /** Setting `isInstalling`, with its `didSet` observer. */
    method SetIsInstalling(value: bool)
      modifies this`isInstalling, States()`isInstalling
      ensures isInstalling == value
      ensures Valid()
    {
      isInstalling := value;
      if document != null {
        document.vmInstallationState.isInstalling := value;
      }
    }

    /** The caller sets the disk size before starting the installer. */
    method SetDiskImageSize(size: UInt64)
      modifies this`diskImageSize
      ensures diskImageSize == size
    {
      diskImageSize := size;
    }

    /** The weak reference to the document is cleared once the document is released. */
    method ReleaseDocument()
      modifies this`document
      ensures document == null
      ensures Valid()
    {
      document := null;
    }

    /**
     * `startInstaller(with:skipActualInstallation:completion:)`: marks the
     * instance installing before anything else and schedules the image load.
     * Nothing rejects a second call while one is in flight.
     */
    method StartInstaller(skipActualInstallation: bool)
      requires Valid()
      modifies this`isInstalling, this`pendingLoads, States()`isInstalling
      ensures Valid() && isInstalling
      ensures pendingLoads == old(pendingLoads) + [skipActualInstallation]
    {
      SetIsInstalling(true);
      pendingLoads := pendingLoads + [skipActualInstallation];
    }

    /** An early abort of the installation: `isInstalling` cleared, completion called with `false`, no machine made. */
    twostate predicate Aborted()
      reads this
    {
      && !isInstalling
      && completions == old(completions) + [false]
      && virtualMachine == old(virtualMachine) && installer == old(installer)
      && machinesCreated == old(machinesCreated) && pendingInstalls == old(pendingInstalls)
    }

    /** What the document's content becomes once the identity is written. */
    static function WithIdentity(c: VMContent, hardwareModel: HardwareModel,
                                 machineIdentifier: MachineIdentifier): VMContent
    {
      c.(hardwareModelData := Some(hardwareModel.dataRepresentation),
         machineIdentifierData := Some(machineIdentifier.dataRepresentation))
    }

    /** The effect of `startForInstallation`, path by path. */
    twostate predicate StartedForInstallation(image: RestoreImage, skip: bool, steps: InstallSteps)
      reads this, Docs(), States()
    {
      var supported := image.mostFeaturefulSupportedConfiguration;
      && document == old(document)
      && pendingStarts == old(pendingStarts) && pendingStops == old(pendingStops)
      // no supported configuration: abort before anything is written
      && (supported.None? ==>
            && Aborted()
            && (document != null ==> document.content == old(document.content))
            && provisionedDiskSize == old(provisionedDiskSize)
            && auxiliaryStorageCreations == old(auxiliaryStorageCreations))
      // otherwise the identity is written first, whatever happens next
      && (supported.Some? ==>
            && (document != null ==>
                  document.content ==
                    WithIdentity(old(document.content), supported.value.hardwareModel,
                                 steps.newMachineIdentifier).(installed := skip || old(document.content.installed)))
            // a `dd` that fails, to launch or to run, changes nothing here
            && provisionedDiskSize == (if steps.ddSucceeded then Some(old(diskImageSize))
                                       else old(provisionedDiskSize)))
      // skipped installation: installed, done, no machine
      && (supported.Some? && skip ==>
            && !isInstalling && completions == old(completions) + [true]
            && virtualMachine == old(virtualMachine) && installer == old(installer)
            && machinesCreated == old(machinesCreated) && pendingInstalls == old(pendingInstalls)
            && auxiliaryStorageCreations == old(auxiliaryStorageCreations))
      // the configuration is nil because the document is gone
      && (supported.Some? && !skip && document == null ==>
            Aborted() && auxiliaryStorageCreations == old(auxiliaryStorageCreations))
      // the configuration was assembled, recreating the auxiliary storage
      && (supported.Some? && !skip && document != null ==>
            auxiliaryStorageCreations ==
              old(auxiliaryStorageCreations) + (if steps.host.auxiliaryStorageCreated then 1 else 0))
      // validation rejected it
      && (supported.Some? && !skip && document != null && !steps.validates ==> Aborted())
      // the installation is under way, and its completion is owed
      && (supported.Some? && !skip && document != null && steps.validates ==>
            && isInstalling == old(isInstalling) && completions == old(completions)
            && machinesCreated == old(machinesCreated) + 1
            && virtualMachine.Some? && virtualMachine.value.serial == old(machinesCreated)
            && AssembledFrom(virtualMachine.value.configuration, document.content,
                             supported.value.hardwareModel, steps.newMachineIdentifier,
                             DiskPath(documentURL), AuxiliaryStoragePath(documentURL), steps.host)
            && installer == Some(Installer(virtualMachine.value, image.url))
            && pendingInstalls == old(pendingInstalls) + 1
            && document.vmInstallationState.progress == Some(InstallerProgress(installer.value)))
      && (!(supported.Some? && !skip && document != null && steps.validates) ==>
            document != null ==> document.vmInstallationState.progress == old(document.vmInstallationState.progress))
    }

    /**
     * The restore-image load callback for the `k`-th load in flight: a failed
     * load aborts; a loaded image goes on to `startForInstallation`.
     */
    method RestoreImageLoaded(k: nat, result: LoadResult, steps: InstallSteps)
      requires Valid() && k < |pendingLoads|
      modifies this`isInstalling, this`pendingLoads, this`completions, this`virtualMachine,
               this`installer, this`pendingInstalls, this`machinesCreated,
               this`auxiliaryStorageCreations, this`provisionedDiskSize,
               Docs()`content, States()`isInstalling, States()`progress
      ensures Valid()
      ensures pendingLoads == old(pendingLoads[..k] + pendingLoads[k + 1..])
      ensures result.LoadFailed? ==>
        && Aborted()
        && (document != null ==> document.content == old(document.content))
        && (document != null ==> document.vmInstallationState.progress == old(document.vmInstallationState.progress))
        && provisionedDiskSize == old(provisionedDiskSize)
        && auxiliaryStorageCreations == old(auxiliaryStorageCreations)
      ensures result.Loaded? ==> StartedForInstallation(result.image, old(pendingLoads[k]), steps)
    {
      var skip := pendingLoads[k];
      pendingLoads := pendingLoads[..k] + pendingLoads[k + 1..];
      match result
      case LoadFailed =>
        SetIsInstalling(false);
        completions := completions + [false];
      case Loaded(image) =>
        StartForInstallation(image, skip, steps);
    }

    /** `startForInstallation(image:skipActualInstallation:completion:)`. */
    method StartForInstallation(image: RestoreImage, skip: bool, steps: InstallSteps)
      requires Valid()
      modifies this`isInstalling, this`completions, this`virtualMachine, this`installer,
               this`pendingInstalls, this`machinesCreated, this`auxiliaryStorageCreations,
               this`provisionedDiskSize, Docs()`content, States()`isInstalling, States()`progress
      ensures Valid()
      ensures StartedForInstallation(image, skip, steps)
    {
      if image.mostFeaturefulSupportedConfiguration.None? {
        SetIsInstalling(false);
        completions := completions + [false];
        return;
      }
      var supportedConfig := image.mostFeaturefulSupportedConfiguration.value;
      WriteIdentity(supportedConfig.hardwareModel, steps.newMachineIdentifier);
      ProvisionDisk(steps.ddSucceeded);
      if skip {
        FinishSkippedInstallation();
        return;
      }
      InstallWithConfiguration(image, supportedConfig.hardwareModel, steps);
    }

    /** The identity is written into the content before the disk or the engine is touched. */
    method WriteIdentity(hardwareModel: HardwareModel, machineIdentifier: MachineIdentifier)
      modifies Docs()`content
      ensures document != null ==>
        document.content == WithIdentity(old(document.content), hardwareModel, machineIdentifier)
    {
      if document != null {
        document.content := document.content.(hardwareModelData := Some(hardwareModel.dataRepresentation));
      }
      if document != null {
        document.content := document.content.(machineIdentifierData := Some(machineIdentifier.dataRepresentation));
      }
    }

    /** `dd if=/dev/zero of=disk.img bs=1024m seek=diskImageSize count=0`; only a failed launch is logged, and the exit status is never read. */
    method ProvisionDisk(ddSucceeded: bool)
      modifies this`provisionedDiskSize
      ensures provisionedDiskSize == if ddSucceeded then Some(diskImageSize) else old(provisionedDiskSize)
    {
      if ddSucceeded {
        provisionedDiskSize := Some(diskImageSize);
      }
    }

    /** The skipped-installation path: installed, not installing, completion with `true`. */
    method FinishSkippedInstallation()
      requires Valid()
      modifies this`isInstalling, this`completions, Docs()`content, States()`isInstalling
      ensures Valid()
      ensures !isInstalling && completions == old(completions) + [true]
      ensures document != null ==> document.content == old(document.content).(installed := true)
    {
      if document != null {
        document.content := document.content.(installed := true);
      }
      SetIsInstalling(false);
      completions := completions + [true];
    }

    /** The rest of `startForInstallation`: assemble, validate, create the machine and its installer. */
    method InstallWithConfiguration(image: RestoreImage, hardwareModel: HardwareModel, steps: InstallSteps)
      requires Valid()
      modifies this`isInstalling, this`completions, this`virtualMachine, this`installer,
               this`pendingInstalls, this`machinesCreated, this`auxiliaryStorageCreations,
               States()`isInstalling, States()`progress
      ensures Valid()
      ensures document == null ==> Aborted() && auxiliaryStorageCreations == old(auxiliaryStorageCreations)
      ensures document != null ==>
        auxiliaryStorageCreations ==
          old(auxiliaryStorageCreations) + (if steps.host.auxiliaryStorageCreated then 1 else 0)
      ensures document != null && !steps.validates ==> Aborted()
      ensures document != null && steps.validates ==>
        && isInstalling == old(isInstalling) && completions == old(completions)
        && machinesCreated == old(machinesCreated) + 1
        && virtualMachine.Some? && virtualMachine.value.serial == old(machinesCreated)
        && AssembledFrom(virtualMachine.value.configuration, document.content,
                         hardwareModel, steps.newMachineIdentifier,
                         DiskPath(documentURL), AuxiliaryStoragePath(documentURL), steps.host)
        && installer == Some(Installer(virtualMachine.value, image.url))
        && pendingInstalls == old(pendingInstalls) + 1
        && document.vmInstallationState.progress == Some(InstallerProgress(installer.value))
      ensures !(document != null && steps.validates) ==>
        document != null ==> document.vmInstallationState.progress == old(document.vmInstallationState.progress)
    {
      var configuration := GetVMConfiguration(hardwareModel, steps.newMachineIdentifier,
                                              DiskPath(documentURL), AuxiliaryStoragePath(documentURL), steps.host);
      if configuration.None? {
        SetIsInstalling(false);
        completions := completions + [false];
        return;
      }
      if !steps.validates {
        SetIsInstalling(false);
        completions := completions + [false];
        return;
      }
      var vm := CreateMachine(configuration.value);
      var newInstaller := Installer(vm, image.url);
      pendingInstalls := pendingInstalls + 1;
      virtualMachine := Some(vm);
      installer := Some(newInstaller);
      if document != null {
        document.vmInstallationState.progress := Some(InstallerProgress(newInstaller));
      }
    }

    /** The installer's completion: `installed` only on success, but completion reports `true` either way. */
    method InstallCompleted(succeeded: bool)
      requires Valid() && pendingInstalls > 0
      modifies this`pendingInstalls, this`isInstalling, this`completions,
               Docs()`content, States()`isInstalling
      ensures Valid()
      ensures pendingInstalls == old(pendingInstalls) - 1
      ensures !isInstalling && completions == old(completions) + [true]
      ensures document != null ==>
        document.content == if succeeded then old(document.content).(installed := true) else old(document.content)
    {
      pendingInstalls := pendingInstalls - 1;
      if succeeded && document != null {
        document.content := document.content.(installed := true);
      }
      SetIsInstalling(false);
      completions := completions + [true];
    }

    /** A new virtual machine object for the given configuration. */
    method CreateMachine(configuration: MachineConfiguration) returns (vm: Machine)
      modifies this`machinesCreated
      ensures vm == Machine(old(machinesCreated), configuration)
      ensures machinesCreated == old(machinesCreated) + 1
    {
      vm := Machine(machinesCreated, configuration);
      machinesCreated := machinesCreated + 1;
    }

    /**
     * `getVMConfiguration`: nil once the document is gone; otherwise the
     * assembled configuration, having recreated the auxiliary storage
     * (with overwrite) when the host allowed it.
     */
    method GetVMConfiguration(hardwareModel: HardwareModel, machineIdentifier: MachineIdentifier,
                              diskPath: string, auxiliaryStoragePath: string, host: Host)
      returns (configuration: Option<MachineConfiguration>)
      modifies this`auxiliaryStorageCreations
      ensures document == null ==>
        configuration == None && auxiliaryStorageCreations == old(auxiliaryStorageCreations)
      ensures document != null ==>
        && configuration.Some?
        && AssembledFrom(configuration.value, document.content, hardwareModel, machineIdentifier,
                         diskPath, auxiliaryStoragePath, host)
        && auxiliaryStorageCreations ==
             old(auxiliaryStorageCreations) + (if host.auxiliaryStorageCreated then 1 else 0)
    {
      if document == null {
        return None;
      }
      if host.auxiliaryStorageCreated {
        auxiliaryStorageCreations := auxiliaryStorageCreations + 1;
      }
      var cfg := AssembleConfiguration(document.content, hardwareModel, machineIdentifier,
                                       diskPath, auxiliaryStoragePath, host);
      return Some(cfg);
    }

    /**
     * `start()`: needs both identity blobs, present and decodable; never looks
     * at `installed`. A configuration that validates gets a new machine,
     * whose start is requested; `isRunning` waits for the callback.
     */
    method Start(steps: StartSteps)
      requires Valid()
      modifies this`virtualMachine, this`machinesCreated, this`pendingStarts,
               this`auxiliaryStorageCreations
      ensures Valid()
      ensures document != null && IdentityUsable(old(document.content), steps) ==>
        auxiliaryStorageCreations ==
          old(auxiliaryStorageCreations) + (if steps.host.auxiliaryStorageCreated then 1 else 0)
      ensures !(document != null && IdentityUsable(document.content, steps) && steps.validates) ==>
        && virtualMachine == old(virtualMachine) && machinesCreated == old(machinesCreated)
        && pendingStarts == old(pendingStarts)
      ensures !(document != null && IdentityUsable(document.content, steps)) ==>
        auxiliaryStorageCreations == old(auxiliaryStorageCreations)
      ensures document != null && IdentityUsable(document.content, steps) && steps.validates ==>
        && machinesCreated == old(machinesCreated) + 1
        && pendingStarts == old(pendingStarts) + 1
        && virtualMachine.Some? && virtualMachine.value.serial == old(machinesCreated)
        && AssembledFrom(virtualMachine.value.configuration, document.content,
                         HardwareModel(document.content.hardwareModelData.value),
                         MachineIdentifier(document.content.machineIdentifierData.value),
                         DiskPath(documentURL), AuxiliaryStoragePath(documentURL), steps.host)
    {
      if document == null || document.content.hardwareModelData.None?
         || document.content.machineIdentifierData.None? {
        return;
      }
      if !steps.hardwareModelDecodes || !steps.machineIdentifierDecodes {
        return;
      }
      var hardwareModel := HardwareModel(document.content.hardwareModelData.value);
      var machineIdentifier := MachineIdentifier(document.content.machineIdentifierData.value);

      var configuration := GetVMConfiguration(hardwareModel, machineIdentifier,
                                              DiskPath(documentURL), AuxiliaryStoragePath(documentURL), steps.host);
      if configuration.None? {
        return;
      }
      if !steps.validates {
        return;
      }
      var vm := CreateMachine(configuration.value);
      pendingStarts := pendingStarts + 1;
      virtualMachine := Some(vm);
    }

    /** The start callback: `isRunning` becomes true on success; a failure changes nothing. */
    method StartCompleted(succeeded: bool)
      requires pendingStarts > 0
      modifies this`pendingStarts, Docs()`isRunning
      ensures pendingStarts == old(pendingStarts) - 1
      ensures document != null ==> document.isRunning == (succeeded || old(document.isRunning))
    {
      pendingStarts := pendingStarts - 1;
      if succeeded && document != null {
        document.isRunning := true;
      }
    }

    /** `stop()`: requests a stop of the current machine, if there is one. */
    method Stop()
      modifies this`pendingStops
      ensures pendingStops == old(pendingStops) + (if virtualMachine.Some? then 1 else 0)
    {
      if virtualMachine.Some? {
        pendingStops := pendingStops + 1;
      }
    }

    /** The stop callback: not running, whatever the result. */
    method StopCompleted(succeeded: bool)
      requires pendingStops > 0
      modifies this`pendingStops, Docs()`isRunning
      ensures pendingStops == old(pendingStops) - 1
      ensures document != null ==> !document.isRunning
    {
      pendingStops := pendingStops - 1;
      if document != null {
        document.isRunning := false;
      }
    }

    /** `guestDidStop(_:)`. */
    method GuestDidStop()
      modifies Docs()`isRunning
      ensures document != null ==> !document.isRunning
    {
      if document != null {
        document.isRunning := false;
      }
    }

    /** `virtualMachine(_:didStopWithError:)`: the same outcome as a clean stop. */
    method DidStopWithError()
      modifies Docs()`isRunning
      ensures document != null ==> !document.isRunning
    {
      if document != null {
        document.isRunning := false;
      }
    }
  }
}
