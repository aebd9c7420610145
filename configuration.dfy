/**
 * The machine configuration `getVMConfiguration` assembles, as a record of
 * device lists. Engine objects are plain values here; the parts of the
 * assembly that consult the host or can fail are inputs.
 */
module Configuration {
  import opened Wrappers
  import opened Content

  datatype HardwareModel = HardwareModel(dataRepresentation: Data)
  datatype MachineIdentifier = MachineIdentifier(dataRepresentation: Data)

  datatype BootLoader = MacOSBootLoader
  datatype EntropyDevice = VirtioEntropyDevice
  datatype NetworkAttachment = NATAttachment
  datatype NetworkDevice = VirtioNetworkDevice(attachment: NetworkAttachment)
  datatype Display = Display(widthInPixels: int, heightInPixels: int, pixelsPerInch: int)
  datatype GraphicsDevice = MacGraphicsDevice(displays: seq<Display>)
  datatype Keyboard = USBKeyboard
  datatype PointingDevice = USBScreenCoordinatePointingDevice
  datatype StorageDevice = VirtioBlockDevice(diskPath: string, readOnly: bool)
  datatype SoundStream = OutputStream(toHostSink: bool) | InputStream(fromHostSource: bool)
  datatype SoundDevice = VirtioSoundDevice(streams: seq<SoundStream>)
  datatype AuxiliaryStorage = AuxiliaryStorage(path: string, hardwareModel: HardwareModel)
  datatype Platform = MacPlatform(hardwareModel: HardwareModel, machineIdentifier: MachineIdentifier,
                                  auxiliaryStorage: Option<AuxiliaryStorage>)

  datatype MachineConfiguration = MachineConfiguration(
    bootLoader: BootLoader,
    platform: Platform,
    cpuCount: Int64,
    memorySize: UInt64,
    entropyDevices: seq<EntropyDevice>,
    networkDevices: seq<NetworkDevice>,
    graphicsDevices: seq<GraphicsDevice>,
    keyboards: seq<Keyboard>,
    pointingDevices: seq<PointingDevice>,
    storageDevices: seq<StorageDevice>,
    audioDevices: seq<SoundDevice>)

  /**
   * What the assembly learns from the host: one display per host screen
   * (their sizes come from floating-point screen geometry and are taken as
   * given), whether the disk image attachment could be opened, and whether
   * the auxiliary storage could be created.
   */
  datatype Host = Host(screenDisplays: seq<Display>, diskAttachmentOpens: bool, auxiliaryStorageCreated: bool)

  /** The display used when the host reports no screens. */
  const FallbackDisplay := Display(2560, 1600, 220)

  /** One of each fixed device, and a sound device with an output and then an input stream. */
  predicate HasStandardDevices(cfg: MachineConfiguration)
  {
    && |cfg.entropyDevices| == 1
    && cfg.networkDevices == [VirtioNetworkDevice(NATAttachment)]
    && |cfg.graphicsDevices| == 1 && |cfg.graphicsDevices[0].displays| >= 1
    && |cfg.keyboards| == 1
    && |cfg.pointingDevices| == 1
    && |cfg.storageDevices| <= 1
    && |cfg.audioDevices| == 1
    && cfg.audioDevices[0].streams == [OutputStream(true), InputStream(true)]
  }

  /** The promises of the assembly, relating a configuration to what it was built from. */
  predicate AssembledFrom(cfg: MachineConfiguration, content: VMContent,
                          hardwareModel: HardwareModel, machineIdentifier: MachineIdentifier,
                          diskPath: string, auxiliaryStoragePath: string, host: Host)
  {
    && HasStandardDevices(cfg)
    && cfg.cpuCount == content.cpuCount
    && cfg.memorySize == content.memorySize
    && cfg.platform.hardwareModel == hardwareModel
    && cfg.platform.machineIdentifier == machineIdentifier
    && (cfg.platform.auxiliaryStorage.Some? <==> host.auxiliaryStorageCreated)
    && (host.auxiliaryStorageCreated ==>
          cfg.platform.auxiliaryStorage.value == AuxiliaryStorage(auxiliaryStoragePath, hardwareModel))
    && cfg.storageDevices == (if host.diskAttachmentOpens then [VirtioBlockDevice(diskPath, false)] else [])
    && cfg.graphicsDevices[0].displays ==
         (if |host.screenDisplays| > 0 then host.screenDisplays else [FallbackDisplay])
  }

  /** The body of `getVMConfiguration` after its guard, building the device lists by appending. */
  method AssembleConfiguration(content: VMContent, hardwareModel: HardwareModel,
                               machineIdentifier: MachineIdentifier, diskPath: string,
                               auxiliaryStoragePath: string, host: Host)
    returns (cfg: MachineConfiguration)
    ensures AssembledFrom(cfg, content, hardwareModel, machineIdentifier, diskPath, auxiliaryStoragePath, host)
  {
    var entropy := VirtioEntropyDevice;
    var networkDevice := VirtioNetworkDevice(NATAttachment);
    var graphics := MacGraphicsDevice(
      if |host.screenDisplays| > 0 then host.screenDisplays else [FallbackDisplay]);

    var storages: seq<StorageDevice> := [];
    if host.diskAttachmentOpens {
      storages := storages + [VirtioBlockDevice(diskPath, false)];
    }

    var streams: seq<SoundStream> := [];
    streams := streams + [OutputStream(true)];
    streams := streams + [InputStream(true)];

    var auxiliaryStorage := if host.auxiliaryStorageCreated
      then Some(AuxiliaryStorage(auxiliaryStoragePath, hardwareModel)) else None;
    var platform := MacPlatform(hardwareModel, machineIdentifier, auxiliaryStorage);

    cfg := MachineConfiguration(MacOSBootLoader, platform, content.cpuCount, content.memorySize,
                                [entropy], [networkDevice], [graphics], [USBKeyboard],
                                [USBScreenCoordinatePointingDevice], storages,
                                [VirtioSoundDevice(streams)]);
  }
}
