/** The exit status of smartctl read as a set of eight flags (SmartResult). Bit k
    of the status is tested as `exitstatus & (1 << k) != 0`; the meaning of each bit
    is the one the RETURN VALUES section of the smartctl(8) manual page gives. */
module Smart {

  /** `Process::Status#exitstatus` of a process that exited normally: one byte. */
  type ExitCode = bv8

  /** `status & (1 << k) != 0`. */
  predicate Bit(s: ExitCode, k: nat)
    requires k < 8
  {
    s & (1 << k) != 0
  }

  /** Bit 0: the command line did not parse. */
  predicate CmdLine(s: ExitCode) { Bit(s, 0) }
  /** Bit 1: the device could not be opened or did not return IDENTIFY data. */
  predicate Identify(s: ExitCode) { Bit(s, 1) }
  /** Bit 2: a SMART command failed or a SMART structure had a checksum error. */
  predicate Checksum(s: ExitCode) { Bit(s, 2) }
  /** Bit 3: the SMART status check returned "DISK FAILING". */
  predicate Failing(s: ExitCode) { Bit(s, 3) }
  /** Bit 4: prefail attributes are at or below their threshold. */
  predicate Prefail(s: ExitCode) { Bit(s, 4) }
  /** Bit 5: some attributes were at or below their threshold in the past. */
  predicate PastPrefail(s: ExitCode) { Bit(s, 5) }
  /** Bit 6: the device error log contains records of errors. */
  predicate ErrorLog(s: ExitCode) { Bit(s, 6) }
  /** Bit 7: the device self-test log contains records of errors. */
  predicate SelfLog(s: ExitCode) { Bit(s, 7) }

  /** The eight flags of a status, bit 0 first. */
  datatype Flags = Flags(cmdLine: bool, identify: bool, checksum: bool, failing: bool,
                         prefail: bool, pastPrefail: bool, errorLog: bool, selfLog: bool)

  function Decode(s: ExitCode): Flags
  {
    Flags(CmdLine(s), Identify(s), Checksum(s), Failing(s),
          Prefail(s), PastPrefail(s), ErrorLog(s), SelfLog(s))
  }

  /** Bit `k` set exactly when `b` holds. */
  function B(b: bool, k: nat): ExitCode
    requires k < 8
  {
    if b then 1 << k else 0
  }

  /** The status whose bits are the given flags. */
  function Encode(f: Flags): ExitCode
  {
    B(f.cmdLine, 0) | B(f.identify, 1) | B(f.checksum, 2) | B(f.failing, 3)
      | B(f.prefail, 4) | B(f.pastPrefail, 5) | B(f.errorLog, 6) | B(f.selfLog, 7)
  }

  /** Every status is the union of its flags' bits: the eight predicates lose nothing. */
  lemma EncodeDecode(s: ExitCode)
    ensures Encode(Decode(s)) == s
  {
  }

  /** Each predicate reads back exactly the flag that was encoded. */
  lemma DecodeEncode(f: Flags)
    ensures Decode(Encode(f)) == f
  {
  }

  /** SmartTest's verdict: the check passed unless the device did not identify, a
      SMART command failed, the disk is failing, an attribute is or was below its
      threshold, or the self-test log holds errors. Bits 0 and 6 do not count. */
  predicate SmartPassed(s: ExitCode)
  {
    !(Identify(s) || Checksum(s) || Failing(s) || Prefail(s) || PastPrefail(s) || SelfLog(s))
  }

  /** The health failure the runner acts on: bits 3, 4, 5 and 7. */
  predicate HealthFailure(s: ExitCode)
  {
    Failing(s) || Prefail(s) || PastPrefail(s) || SelfLog(s)
  }

  /** The device does not speak SMART: bits 1 and 2. */
  predicate NoSmart(s: ExitCode)
  {
    Identify(s) || Checksum(s)
  }

  /** SmartTest passes exactly on the four statuses made of bits 0 and 6 alone. */
  lemma SmartPassedStatuses(s: ExitCode)
    ensures SmartPassed(s) <==> s in {0, 1, 64, 65}
  {
    EncodeDecode(s);
    if s in {0, 1, 64, 65} {
      DecodeEncode(Decode(s));
    }
  }

  /** The status with bit 6 flipped. */
  function ToggleErrorLog(s: ExitCode): (t: ExitCode)
    ensures ErrorLog(t) != ErrorLog(s)
    ensures CmdLine(t) == CmdLine(s) && Identify(t) == Identify(s)
    ensures Checksum(t) == Checksum(s) && Failing(t) == Failing(s)
    ensures Prefail(t) == Prefail(s) && PastPrefail(t) == PastPrefail(s)
    ensures SelfLog(t) == SelfLog(s)
  {
    var f := Decode(s);
    EncodeDecode(s);
    DecodeEncode(f.(errorLog := !f.errorLog));
    Encode(f.(errorLog := !f.errorLog))
  }
}
