/**
 * The arithmetic of the settings form (`VMSettingsView`): the memory menu,
 * the GiB <-> byte conversions, the disk-size text field and the CPU menu,
 * plus the form itself, whose change handlers write into the bound content.
 */
module Settings {
  import opened Wrappers
  import opened Content

  /** `memoryUnit`: one GiB. */
  const MemoryUnit: UInt64 := 1024 * 1024 * 1024

  /**
   * The memory loop multiplies in `UInt64`, which traps on overflow; below
   * this bound on physical memory the multiplication never overflows.
   */
  const MemoryLoopLimit: int := 0x1_0000_0000_0000_0000 - 2 * MemoryUnit

  // ---------------------------------------------------------------------------
  // The memory menu

  /** The even GiB counts 2, 4, 6, ... whose byte size fits in `physicalMemory`. */
  function MemoryOptions(physicalMemory: nat): (r: seq<nat>)
    ensures forall i :: 0 <= i < |r| ==> r[i] == 2 * (i + 1)
    ensures |r| * 2 * MemoryUnit <= physicalMemory < (|r| + 1) * 2 * MemoryUnit
  {
    seq(physicalMemory / (2 * MemoryUnit), i => 2 * (i + 1))
  }

  /** `availableMemoryOptions`: the loop that appends while the next size fits. */
  method AvailableMemoryOptions(physicalMemory: UInt64) returns (options: seq<UInt64>)
    requires physicalMemory < MemoryLoopLimit
    ensures options == MemoryOptions(physicalMemory)
  {
    options := [];
    var memorySize: UInt64 := 2;
    while memorySize * MemoryUnit <= physicalMemory
      invariant memorySize == 2 * (|options| + 1)
      invariant |options| * 2 * MemoryUnit <= physicalMemory
      invariant memorySize * MemoryUnit < 0x1_0000_0000_0000_0000
      invariant forall i :: 0 <= i < |options| ==> options[i] == 2 * (i + 1)
      decreases physicalMemory - |options| * 2 * MemoryUnit
    {
      options := options + [memorySize];
      memorySize := memorySize + 2;
    }
    CountIsQuotient(|options|, physicalMemory);
  }

  /** A count bracketed by the loop's invariant and exit test is the quotient. */
  lemma CountIsQuotient(n: nat, physicalMemory: nat)
    requires n * 2 * MemoryUnit <= physicalMemory < (n + 1) * 2 * MemoryUnit
    ensures n == physicalMemory / (2 * MemoryUnit)
  {
  }

  /** Every option fits, is even and the options ascend; the next even count would not fit. */
  lemma {:induction false} MemoryOptionsFitAndAreMaximal(physicalMemory: nat)
    ensures var r := MemoryOptions(physicalMemory);
      && (forall i :: 0 <= i < |r| ==> r[i] % 2 == 0 && r[i] * MemoryUnit <= physicalMemory)
      && (forall i, j :: 0 <= i < j < |r| ==> r[i] < r[j])
      && (|r| == 0 || r[0] == 2)
      && physicalMemory < (2 * (|r| + 1)) * MemoryUnit
  {
    var r := MemoryOptions(physicalMemory);
    forall i | 0 <= i < |r|
      ensures r[i] % 2 == 0 && r[i] * MemoryUnit <= physicalMemory
    {
      assert r[i] * MemoryUnit == (i + 1) * 2 * MemoryUnit;
      assert (i + 1) * 2 * MemoryUnit <= |r| * 2 * MemoryUnit;
    }
  }

  /** The menu is empty exactly when there is less than 2 GiB of memory. */
  lemma MemoryOptionsEmpty(physicalMemory: nat)
    ensures MemoryOptions(physicalMemory) == [] <==> physicalMemory < 2 * MemoryUnit
  {
  }

  /** The loop never overflows below the limit: every option's byte count is a `UInt64`. */
  lemma MemoryOptionsFitUInt64(physicalMemory: nat, i: nat)
    requires physicalMemory < MemoryLoopLimit
    requires i < |MemoryOptions(physicalMemory)|
    ensures MemoryOptions(physicalMemory)[i] * MemoryUnit < 0x1_0000_0000_0000_0000
  {
    MemoryOptionsFitAndAreMaximal(physicalMemory);
  }

  // ---------------------------------------------------------------------------
  // GiB <-> bytes

  /** The picker's starting value: `memorySize / memoryUnit`, truncating. */
  function GiBFromBytes(bytes: UInt64): (n: UInt64)
    ensures n * MemoryUnit <= bytes < (n + 1) * MemoryUnit
  {
    bytes / MemoryUnit
  }

  /** The byte count a picked GiB count is written back as (the product traps on overflow). */
  function BytesFromGiB(n: UInt64): (bytes: UInt64)
    requires n * MemoryUnit < 0x1_0000_0000_0000_0000
    ensures bytes % MemoryUnit == 0
    ensures GiBFromBytes(bytes) == n
  {
    n * MemoryUnit
  }

  /** A byte count that is a whole number of GiB survives the trip through the picker. */
  lemma MemoryRoundTrip(bytes: UInt64)
    requires bytes % MemoryUnit == 0
    ensures GiBFromBytes(bytes) * MemoryUnit < 0x1_0000_0000_0000_0000
    ensures BytesFromGiB(GiBFromBytes(bytes)) == bytes
  {
  }

  // ---------------------------------------------------------------------------
  // The disk-size text

  predicate IsDigit(ch: char) { '0' <= ch <= '9' }

  predicate AllDigits(s: string) { forall i :: 0 <= i < |s| ==> IsDigit(s[i]) }

  function DigitValue(ch: char): (d: nat)
    requires IsDigit(ch)
    ensures d < 10
  {
    ch as int - '0' as int
  }

  function DigitChar(d: nat): (ch: char)
    requires d < 10
    ensures IsDigit(ch) && DigitValue(ch) == d
  {
    ('0' as int + d) as char
  }

  /** The number a string of decimal digits denotes, most significant first. */
  function DigitsValue(s: string): nat
    requires AllDigits(s)
  {
    if s == [] then 0 else DigitsValue(s[..|s| - 1]) * 10 + DigitValue(s[|s| - 1])
  }

  /** String interpolation of an unsigned integer: decimal, no sign, no leading zeros. */
  function DecimalString(n: nat): (s: string)
    ensures |s| > 0 && AllDigits(s)
    ensures |s| > 1 ==> s[0] != '0'
  {
    if n < 10 then [DigitChar(n)] else DecimalString(n / 10) + [DigitChar(n % 10)]
  }

  /** Whether the text starts with a `-` sign. */
  predicate Negative(text: string) { |text| > 0 && text[0] == '-' }

  /** The text after its sign, if it has one. */
  function Unsigned(text: string): string
  {
    if |text| > 0 && (text[0] == '+' || text[0] == '-') then text[1..] else text
  }

  /**
   * `UInt64(text)`: an optional `+` or `-` sign, then one or more ASCII digits,
   * nothing else. A negative sign is accepted only in front of zeros (the
   * magnitude is accumulated by subtraction, which overflows for any other
   * digit); a value of 2^64 or more is rejected.
   */
  function ParseUInt64(text: string): (r: Option<UInt64>)
    ensures r.Some? ==> |text| > 0
    ensures r.Some? <==>
      && |Unsigned(text)| > 0 && AllDigits(Unsigned(text))
      && (if Negative(text) then DigitsValue(Unsigned(text)) == 0
          else DigitsValue(Unsigned(text)) < 0x1_0000_0000_0000_0000)
    ensures r.Some? ==> r.value == DigitsValue(Unsigned(text))
    ensures AllDigits(text) && |text| > 0 && DigitsValue(text) < 0x1_0000_0000_0000_0000 ==>
              r == Some(DigitsValue(text))
  {
    if |text| == 0 then None
    else if text[0] == '+' then ParseMagnitude(text[1..], true)
    else if text[0] == '-' then ParseMagnitude(text[1..], false)
    else ParseMagnitude(text, true)
  }

  function ParseMagnitude(digits: string, positive: bool): Option<UInt64>
  {
    if |digits| == 0 || !AllDigits(digits) then None
    else if positive then
      (if DigitsValue(digits) < 0x1_0000_0000_0000_0000 then Some(DigitsValue(digits)) else None)
    else if DigitsValue(digits) == 0 then Some(0)
    else None
  }

  lemma {:induction false} DecimalStringValue(n: nat)
    ensures DigitsValue(DecimalString(n)) == n
  {
    if n >= 10 {
      var s := DecimalString(n);
      assert s[..|s| - 1] == DecimalString(n / 10);
      DecimalStringValue(n / 10);
    }
  }

  /** The field's initial text is the decimal form of `diskSize`, which parses back to it. */
  lemma DecimalParseRoundTrip(n: UInt64)
    ensures ParseUInt64(DecimalString(n)) == Some(n)
  {
    DecimalStringValue(n);
  }

  /** Text with anything but an optional sign and digits never parses. */
  lemma NonNumericTextRejected(text: string, i: nat)
    requires i < |text| && !IsDigit(text[i])
    requires i == 0 ==> text[0] != '+' && text[0] != '-'
    ensures ParseUInt64(text) == None
  {
    if i > 0 && (text[0] == '+' || text[0] == '-') {
      assert text[1..][i - 1] == text[i];
    }
  }

  /** A digit string worth 2^64 or more does not parse, with or without a `+`. */
  lemma OverflowRejected(digits: string)
    requires |digits| > 0 && AllDigits(digits) && DigitsValue(digits) >= 0x1_0000_0000_0000_0000
    ensures ParseUInt64(digits) == None
    ensures ParseUInt64("+" + digits) == None
  {
    assert ("+" + digits)[1..] == digits;
  }

  /** A minus sign in front of anything but zeros never parses. */
  lemma NegativeTextRejected(digits: string)
    requires AllDigits(digits) && DigitsValue(digits) != 0
    ensures ParseUInt64("-" + digits) == None
  {
    assert ("-" + digits)[1..] == digits;
  }

  // ---------------------------------------------------------------------------
  // The CPU menu

  /** `1...processorCount`; the range traps if the count is below 1. */
  function CpuOptions(processorCount: int): (r: seq<int>)
    requires processorCount >= 1
    ensures |r| == processorCount
    ensures forall x :: x in r <==> 1 <= x <= processorCount
    ensures forall i, j :: 0 <= i < j < |r| ==> r[i] < r[j]
  {
    var r := seq(processorCount, i => i + 1);
    CountingUpContainsRange(r, processorCount);
    r
  }

  lemma CountingUpContainsRange(r: seq<int>, n: int)
    requires |r| == n && forall i :: 0 <= i < n ==> r[i] == i + 1
    ensures forall x :: x in r <==> 1 <= x <= n
  {
    forall x | 1 <= x <= n
      ensures x in r
    {
      assert r[x - 1] == x;
    }
  }

  // ---------------------------------------------------------------------------
  // The form

  /**
   * The form's state: `content` is the form's copy of the content it edits;
   * `memorySize` (in GiB), `diskSize` (text) and `bootFromRecovery` are the
   * form's own state. The handlers run when the corresponding state changes.
   */
  class SettingsView {
    var content: VMContent
    var memorySize: UInt64
    var diskSize: string
    var bootFromRecovery: bool
    const availableMemoryOptions: seq<UInt64>

    constructor (content: VMContent, physicalMemory: UInt64)
      requires physicalMemory < MemoryLoopLimit
      ensures this.content == content
      ensures memorySize == GiBFromBytes(content.memorySize)
      ensures diskSize == DecimalString(content.diskSize)
      ensures ParseUInt64(diskSize) == Some(content.diskSize)
      ensures bootFromRecovery == content.bootFromRecovery
      ensures availableMemoryOptions == MemoryOptions(physicalMemory)
    {
      var options := AvailableMemoryOptions(physicalMemory);
      this.content := content;
      memorySize := GiBFromBytes(content.memorySize);
      diskSize := DecimalString(content.diskSize);
      bootFromRecovery := content.bootFromRecovery;
      availableMemoryOptions := options;
      DecimalParseRoundTrip(content.diskSize);
    }

    /** The CPU picker is bound straight to `content.cpuCount`. */
    method ChangeCpuCount(count: Int64)
      modifies this`content
      ensures content == old(content).(cpuCount := count)
      ensures content.identifier == old(content).identifier
    {
      content := content.(cpuCount := count);
    }

    /** Picking `newValue` GiB: when the selection changes, the content gets that many bytes. */
    method ChangeMemorySize(newValue: UInt64)
      requires newValue * MemoryUnit < 0x1_0000_0000_0000_0000
      modifies this`memorySize, this`content
      ensures memorySize == newValue
      ensures content == if newValue == old(memorySize) then old(content)
                         else old(content).(memorySize := BytesFromGiB(newValue))
      ensures content.identifier == old(content).identifier
    {
      if newValue != memorySize {
        memorySize := newValue;
        content := content.(memorySize := BytesFromGiB(newValue));
      }
    }

    /** Editing the disk-size text: the content changes only when the text parses as a `UInt64`. */
    method ChangeDiskSize(newValue: string)
      modifies this`diskSize, this`content
      ensures diskSize == newValue
      ensures content == if newValue != old(diskSize) && ParseUInt64(newValue).Some?
                         then old(content).(diskSize := ParseUInt64(newValue).value)
                         else old(content)
      ensures content.identifier == old(content).identifier
    {
      if newValue != diskSize {
        diskSize := newValue;
        var parsed := ParseUInt64(newValue);
        if parsed.Some? {
          content := content.(diskSize := parsed.value);
        }
      }
    }

    /** The recovery toggle writes straight through to the content and touches nothing else. */
    method ChangeBootFromRecovery(newValue: bool)
      modifies this`bootFromRecovery, this`content
      ensures bootFromRecovery == newValue
      ensures content == if newValue == old(bootFromRecovery) then old(content)
                         else old(content).(bootFromRecovery := newValue)
      ensures content.identifier == old(content).identifier
    {
      if newValue != bootFromRecovery {
        bootFromRecovery := newValue;
        content := content.(bootFromRecovery := newValue);
      }
    }
  }
}
