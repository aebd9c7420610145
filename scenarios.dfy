/**
 * Client code that drives the document and its instance through whole
 * workflows, using nothing but the contracts of the Session methods.
 */
module Scenarios {
  import opened Wrappers
  import opened Content
  import opened Configuration
  import opened Session

  /** A fresh document, a skipped installation: installed, no machine, not installing. */
  method SkippedInstallation(image: RestoreImage, steps: InstallSteps)
    requires image.mostFeaturefulSupportedConfiguration.Some?
  {
    var document := new VMDocument("abc");
    assert document.content.cpuCount == 2 && document.content.diskSize == 32;
    document.CreateVMInstance("/vm.macvm");
    var instance := document.vmInstance;
    instance.SetDiskImageSize(document.content.diskSize);
    instance.StartInstaller(true);
    assert document.vmInstallationState.isInstalling;
    instance.RestoreImageLoaded(0, Loaded(image), steps);
    assert document.content.installed && document.content.hardwareModelData.Some?;
    assert instance.virtualMachine == None && instance.installer == None && instance.machinesCreated == 0;
    assert !document.vmInstallationState.isInstalling;
    assert instance.completions == [true];
    assert document.content.identifier == "abc";

    // a second call creates no second instance
    document.CreateVMInstance("/elsewhere.macvm");
    assert document.vmInstance == instance;
  }

  /** An installation the engine fails: completion still says `true`, and the identity stays written. */
  method FailedInstallation(image: RestoreImage, steps: InstallSteps)
    requires image.mostFeaturefulSupportedConfiguration.Some? && steps.validates
  {
    var document := new VMDocument("abc");
    document.CreateVMInstance("/vm.macvm");
    var instance := document.vmInstance;
    instance.StartInstaller(false);
    instance.RestoreImageLoaded(0, Loaded(image), steps);
    assert instance.machinesCreated == 1 && instance.pendingInstalls == 1;
    assert document.vmInstallationState.isInstalling && document.vmInstallationState.progress.Some?;
    instance.InstallCompleted(false);
    assert !document.content.installed;
    assert document.content.hardwareModelData.Some? && document.content.machineIdentifierData.Some?;
    assert instance.completions == [true];
    assert !document.vmInstallationState.isInstalling;
  }

  /** A load failure aborts with `false` and leaves the content as it was. */
  method FailedLoad(steps: InstallSteps)
  {
    var document := new VMDocument("abc");
    document.CreateVMInstance("/vm.macvm");
    var instance := document.vmInstance;
    instance.StartInstaller(false);
    instance.RestoreImageLoaded(0, LoadFailed, steps);
    assert document.content == Make("abc");
    assert instance.completions == [false] && !document.vmInstallationState.isInstalling;
  }

  /** Start, a confirmed start, an engine-reported stop; then a user stop. */
  method RunAndStop(content: VMContent, steps: StartSteps)
    requires IdentityUsable(content, steps) && steps.validates
  {
    var document := new VMDocument.FromContent(content);
    document.CreateVMInstance("/vm.macvm");
    var instance := document.vmInstance;
    instance.Start(steps);
    assert instance.virtualMachine.Some? && !document.isRunning;
    assert instance.virtualMachine.value.configuration.cpuCount == content.cpuCount;
    instance.StartCompleted(true);
    assert document.isRunning;
    instance.DidStopWithError();
    assert !document.isRunning;

    instance.Start(steps);
    instance.StartCompleted(true);
    assert document.isRunning;
    instance.Stop();
    assert instance.pendingStops == 1;
    instance.StopCompleted(false);
    assert !document.isRunning;
  }

  /** Without identity blobs `start` creates nothing, even for installed content. */
  method StartWithoutIdentity(steps: StartSteps)
  {
    var document := new VMDocument.FromContent(Make("abc", installed := true));
    document.CreateVMInstance("/vm.macvm");
    var instance := document.vmInstance;
    instance.Start(steps);
    assert instance.virtualMachine == None && instance.machinesCreated == 0;
    instance.Stop();
    assert instance.pendingStops == 0;
  }
}
