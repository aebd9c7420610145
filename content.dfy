/**
 * The persisted VM configuration record (`VMContent`): its fields, the
 * memberwise initialiser with its defaults, the `empty` constant, and the
 * keyed encoding and decoding of the record.
 *
 * The JSON text is not modelled: a serialized record is an abstract keyed
 * container, a map from coding key to a typed value.
 */
module Content {
  import opened Wrappers

  /** Swift's `Int` on a 64-bit host. */
  type Int64 = x: int | -0x8000_0000_0000_0000 <= x < 0x8000_0000_0000_0000

  /** Swift's `UInt64`. */
  type UInt64 = x: int | 0 <= x < 0x1_0000_0000_0000_0000

  /** Foundation's `Data`. */
  type Data = seq<bv8>

  datatype VMContent = VMContent(
    identifier: string,
    installed: bool,
    bootFromRecovery: bool,
    hardwareModelData: Option<Data>,
    machineIdentifierData: Option<Data>,
    cpuCount: Int64,
    memorySize: UInt64,
    diskSize: UInt64)

  /** The memberwise initialiser, with the source's default arguments. */
  function Make(identifier: string,
                installed: bool := false,
                bootFromRecovery: bool := false,
                hardwareModelData: Option<Data> := None,
                machineIdentifierData: Option<Data> := None,
                cpuCount: Int64 := 2,
                memorySize: UInt64 := 4 * 1024 * 1024 * 1024,
                diskSize: UInt64 := 32): (c: VMContent)
    ensures c.identifier == identifier && c.installed == installed
    ensures c.bootFromRecovery == bootFromRecovery
    ensures c.hardwareModelData == hardwareModelData
    ensures c.machineIdentifierData == machineIdentifierData
    ensures c.cpuCount == cpuCount && c.memorySize == memorySize && c.diskSize == diskSize
  {
    VMContent(identifier, installed, bootFromRecovery, hardwareModelData,
              machineIdentifierData, cpuCount, memorySize, diskSize)
  }

  /** `VMContent.empty`: the placeholder the settings sheet starts from. */
  const Empty: VMContent := Make("", false, false, None, None, 0, 0, 0)

  /** A record made with only an identifier carries the documented defaults. */
  lemma MakeDefaults(identifier: string)
    ensures var c := Make(identifier);
      && c.identifier == identifier
      && !c.installed && !c.bootFromRecovery
      && c.hardwareModelData == None && c.machineIdentifierData == None
      && c.cpuCount == 2 && c.memorySize == 4_294_967_296 && c.diskSize == 32
  {
  }

  lemma EmptyIsBlank()
    ensures Empty.identifier == "" && !Empty.installed && !Empty.bootFromRecovery
    ensures Empty.hardwareModelData == None && Empty.machineIdentifierData == None
    ensures Empty.cpuCount == 0 && Empty.memorySize == 0 && Empty.diskSize == 0
  {
  }

  // ---------------------------------------------------------------------------
  // The keyed container

  /** A value stored under a key of a serialized record. */
  datatype Value = Null | Bool(b: bool) | Number(n: int) | Text(s: string) | Bytes(data: Data)

  type Container = map<string, Value>

  /** The errors a keyed decoding container throws. */
  datatype DecodeError =
    | KeyNotFound(key: string)     // the key is absent
    | ValueNotFound(key: string)   // the key holds null where a value is required
    | TypeMismatch(key: string)    // the key holds a value of another type
    | DataCorrupted(key: string)   // a number that does not fit the field's integer type

  // The synthesized coding keys: the property names.
  const IdentifierKey := "identifier"
  const InstalledKey := "installed"
  const BootFromRecoveryKey := "bootFromRecovery"
  const HardwareModelDataKey := "hardwareModelData"
  const MachineIdentifierDataKey := "machineIdentifierData"
  const CpuCountKey := "cpuCount"
  const MemorySizeKey := "memorySize"
  const DiskSizeKey := "diskSize"

  const CodingKeys: set<string> := {IdentifierKey, InstalledKey, BootFromRecoveryKey,
    HardwareModelDataKey, MachineIdentifierDataKey, CpuCountKey, MemorySizeKey, DiskSizeKey}

  /** The value under `key`, or the error `decode` throws for a missing key or a null. */
  function Present(m: Container, key: string): Result<Value, DecodeError>
  {
    if key !in m then Failure(KeyNotFound(key))
    else if m[key].Null? then Failure(ValueNotFound(key))
    else Success(m[key])
  }

  function DecodeString(m: Container, key: string): Result<string, DecodeError>
  {
    var v :- Present(m, key);
    if v.Text? then Success(v.s) else Failure(TypeMismatch(key))
  }

  function DecodeBool(m: Container, key: string): Result<bool, DecodeError>
  {
    var v :- Present(m, key);
    if v.Bool? then Success(v.b) else Failure(TypeMismatch(key))
  }

  function DecodeInt(m: Container, key: string): Result<Int64, DecodeError>
  {
    var v :- Present(m, key);
    if !v.Number? then Failure(TypeMismatch(key))
    else if -0x8000_0000_0000_0000 <= v.n < 0x8000_0000_0000_0000 then Success(v.n)
    else Failure(DataCorrupted(key))
  }

  function DecodeUInt64(m: Container, key: string): Result<UInt64, DecodeError>
  {
    var v :- Present(m, key);
    if !v.Number? then Failure(TypeMismatch(key))
    else if 0 <= v.n < 0x1_0000_0000_0000_0000 then Success(v.n)
    else Failure(DataCorrupted(key))
  }

  /** `decodeIfPresent(Data.self, …)`: an absent key or a null gives nil. */
  function DecodeDataIfPresent(m: Container, key: string): Result<Option<Data>, DecodeError>
  {
    if key !in m || m[key].Null? then Success(None)
    else if m[key].Bytes? then Success(Some(m[key].data))
    else Failure(TypeMismatch(key))
  }

  // What each field accepts, stated on its own, independently of the decoder.
  predicate IsText(m: Container, key: string) { key in m && m[key].Text? }
  predicate IsBool(m: Container, key: string) { key in m && m[key].Bool? }
  predicate IsOptionalData(m: Container, key: string) { key !in m || m[key].Null? || m[key].Bytes? }
  predicate IsInt64(m: Container, key: string) {
    key in m && m[key].Number? && -0x8000_0000_0000_0000 <= m[key].n < 0x8000_0000_0000_0000
  }
  predicate IsUInt64(m: Container, key: string) {
    key in m && m[key].Number? && 0 <= m[key].n < 0x1_0000_0000_0000_0000
  }

  /** A container the decoder accepts. `bootFromRecovery` is deliberately not mentioned. */
  predicate Decodable(m: Container)
  {
    && IsText(m, IdentifierKey)
    && IsBool(m, InstalledKey)
    && IsOptionalData(m, HardwareModelDataKey)
    && IsOptionalData(m, MachineIdentifierDataKey)
    && IsInt64(m, CpuCountKey)
    && IsUInt64(m, MemorySizeKey)
    && IsUInt64(m, DiskSizeKey)
  }

  function OptionalData(m: Container, key: string): Option<Data>
    requires IsOptionalData(m, key)
  {
    if key in m && m[key].Bytes? then Some(m[key].data) else None
  }

  /**
   * `init(from:)`: keyed reads in declaration order, with the one tolerant
   * field — any failure reading `bootFromRecovery` makes it `false`.
   */
  function Decode(m: Container): (r: Result<VMContent, DecodeError>)
    ensures r.Success? <==> Decodable(m)
    ensures r.Success? ==>
      && r.value.identifier == m[IdentifierKey].s
      && r.value.installed == m[InstalledKey].b
      && r.value.bootFromRecovery == (IsBool(m, BootFromRecoveryKey) && m[BootFromRecoveryKey].b)
      && r.value.hardwareModelData == OptionalData(m, HardwareModelDataKey)
      && r.value.machineIdentifierData == OptionalData(m, MachineIdentifierDataKey)
      && r.value.cpuCount == m[CpuCountKey].n
      && r.value.memorySize == m[MemorySizeKey].n
      && r.value.diskSize == m[DiskSizeKey].n
    ensures !IsText(m, IdentifierKey) ==> r.Failure? && r.error.key == IdentifierKey
  {
    var identifier :- DecodeString(m, IdentifierKey);
    var installed :- DecodeBool(m, InstalledKey);
    var bootFromRecovery := match DecodeBool(m, BootFromRecoveryKey)
      case Success(b) => b
      case Failure(_) => false;
    var hardwareModelData :- DecodeDataIfPresent(m, HardwareModelDataKey);
    var machineIdentifierData :- DecodeDataIfPresent(m, MachineIdentifierDataKey);
    var cpuCount :- DecodeInt(m, CpuCountKey);
    var memorySize :- DecodeUInt64(m, MemorySizeKey);
    var diskSize :- DecodeUInt64(m, DiskSizeKey);
    Success(VMContent(identifier, installed, bootFromRecovery, hardwareModelData,
                      machineIdentifierData, cpuCount, memorySize, diskSize))
  }

  function EncodeIfPresent(m: Container, key: string, d: Option<Data>): Container
  {
    if d.Some? then m[key := Bytes(d.value)] else m
  }

  /** The synthesized `encode(to:)`: optionals are written only when present. */
  function Encode(c: VMContent): (m: Container)
    ensures m.Keys <= CodingKeys
    ensures HardwareModelDataKey in m <==> c.hardwareModelData.Some?
    ensures MachineIdentifierDataKey in m <==> c.machineIdentifierData.Some?
    ensures Decodable(m)
  {
    var m := map[IdentifierKey := Text(c.identifier),
                 InstalledKey := Bool(c.installed),
                 BootFromRecoveryKey := Bool(c.bootFromRecovery),
                 CpuCountKey := Number(c.cpuCount),
                 MemorySizeKey := Number(c.memorySize),
                 DiskSizeKey := Number(c.diskSize)];
    var m := EncodeIfPresent(m, HardwareModelDataKey, c.hardwareModelData);
    EncodeIfPresent(m, MachineIdentifierDataKey, c.machineIdentifierData)
  }

  /** Encoding every field and decoding the result gives back the same record. */
  lemma EncodeDecodeRoundTrip(c: VMContent)
    ensures Decode(Encode(c)) == Success(c)
  {
  }

  /**
   * A missing, null or mistyped `bootFromRecovery` never makes decoding fail:
   * the result is what it would be if the field said `false`.
   */
  lemma BootFromRecoveryDefaultsToFalse(m: Container)
    requires !IsBool(m, BootFromRecoveryKey)
    ensures Decode(m) == Decode(m[BootFromRecoveryKey := Bool(false)])
    ensures Decode(m).Success? ==> !Decode(m).value.bootFromRecovery
  {
  }

  /** Absent identity blobs decode as nil and do not make decoding fail. */
  lemma AbsentIdentityDecodesAsNil(m: Container, key: string)
    requires key == HardwareModelDataKey || key == MachineIdentifierDataKey
    requires key !in m
    ensures Decode(m).Success? <==> Decodable(m[key := Null])
    ensures Decode(m).Success? && key == HardwareModelDataKey ==> Decode(m).value.hardwareModelData == None
    ensures Decode(m).Success? && key == MachineIdentifierDataKey ==> Decode(m).value.machineIdentifierData == None
  {
  }

  /** Each mandatory field, when absent, makes decoding throw. */
  lemma MissingMandatoryFieldFails(m: Container, key: string)
    requires key in {IdentifierKey, InstalledKey, CpuCountKey, MemorySizeKey, DiskSizeKey}
    requires key !in m
    ensures Decode(m).Failure?
  {
  }

  /** Keys other than the coding keys are ignored, so later additions to the schema do not break decoding. */
  lemma UnknownKeysIgnored(m: Container, key: string, v: Value)
    requires key !in CodingKeys
    ensures Decode(m[key := v]) == Decode(m)
  {
  }
}
