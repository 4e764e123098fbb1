/** The C6 idle-state controller: the register table, the per-CPU register accessors,
  * and the enable/disable/query operations that fan out over every logical CPU. */
module C6 {
  import opened Outcome
  import opened MsrDevice
  import LittleEndian

  /** Where a feature lives: the MSR offset and the bits that make up the feature. */
  datatype RyzenC6Msr = RyzenC6Msr(offset: int, bit: bv64)

  const PackageC6: RyzenC6Msr := RyzenC6Msr(0xC0010292, 1 << 32)
  const CoreC6: RyzenC6Msr := RyzenC6Msr(0xC0010296, (1 << 22) | (1 << 14) | (1 << 6))

  /** The feature table, in the order every operation walks it. */
  const Msr: seq<RyzenC6Msr> := [PackageC6, CoreC6]

  /** The absolute value written for feature `m`: its mask to enable, the complement of its mask
    * to disable. Enabling sets exactly the mask bits; disabling clears them and sets all others. */
  function Target(m: RyzenC6Msr, enable: bool): (v: bv64)
    ensures v & m.bit == (if enable then m.bit else 0)
    ensures v | m.bit == (if enable then m.bit else 0xFFFF_FFFF_FFFF_FFFF)
  {
    if enable then m.bit else !m.bit
  }

  /** Register contents `data` show feature `m` enabled when every bit of its mask is set, that is,
    * when setting the mask would not change them. */
  predicate Holds(data: bv64, m: RyzenC6Msr): (on: bool)
    ensures on <==> data | m.bit == data
  {
    data & m.bit == m.bit
  }

  /** readMSR: the register at `offset` of `cpu`, decoded from the 8 bytes read; 0 and the error on failure. */
  method ReadMSR(dev: Device, offset: int, cpu: nat) returns (data: bv64, err: Option<Error>)
    ensures Accessible(dev.regs, dev.faulty, Addr(cpu, offset)) ==>
      err == None && data == dev.regs[Addr(cpu, offset)]
    ensures !Accessible(dev.regs, dev.faulty, Addr(cpu, offset)) ==>
      err == Some(MsrAccess(cpu, offset)) && data == 0
  {
    var buf := new bv8[8];
    err := dev.ReadInto(Addr(cpu, offset), buf);
    if err != None {
      return 0, err;
    }
    data := LittleEndian.Decode(buf[..]);
  }

  /** writeMSR: encodes `value` into an 8-byte buffer and writes it at `offset` of `cpu`. */
  method WriteMSR(dev: Device, offset: int, cpu: nat, value: bv64) returns (err: Option<Error>)
    modifies dev
    ensures Accessible(old(dev.regs), dev.faulty, Addr(cpu, offset)) ==>
      err == None && dev.regs == old(dev.regs)[Addr(cpu, offset) := value] &&
      dev.log == old(dev.log) + [Write(Addr(cpu, offset), value)]
    ensures !Accessible(old(dev.regs), dev.faulty, Addr(cpu, offset)) ==>
      err == Some(MsrAccess(cpu, offset)) && dev.regs == old(dev.regs) && dev.log == old(dev.log)
  {
    var buf := new bv8[8];
    LittleEndian.PutUint64(buf, value);
    err := dev.WriteAt(Addr(cpu, offset), buf);
  }

  /** The writes of one feature: `value` at `offset` on CPU 0 up to CPU cpus-1. */
  function Broadcast(offset: int, value: bv64, cpus: nat): seq<Write> {
    seq(cpus, c requires 0 <= c < cpus => Write(Addr(c, offset), value))
  }

  /** The writes changeC6 attempts, feature-major: every CPU for the first feature of `table`,
    * then every CPU for the next one. */
  function Plan(table: seq<RyzenC6Msr>, enable: bool, cpus: nat): seq<Write> {
    if table == [] then []
    else
      var m := table[|table| - 1];
      Plan(table[..|table| - 1], enable, cpus) + Broadcast(m.offset, Target(m, enable), cpus)
  }

  /** changeC6 as a function of the bank: the planned writes up to the first one that fails,
    * then that failure's error; nothing is undone. */
  function Change(enable: bool, cpus: nat, regs: Bank, faulty: set<Addr>): Run {
    Perform(regs, faulty, Plan(Msr, enable, cpus))
  }

  lemma PlanGrows(table: seq<RyzenC6Msr>, i: nat, enable: bool, cpus: nat)
    requires i < |table|
    ensures Plan(table[..i + 1], enable, cpus) ==
      Plan(table[..i], enable, cpus) + Broadcast(table[i].offset, Target(table[i], enable), cpus)
  {
    assert table[..i + 1][..i] == table[..i];
  }

  /** The writes for the first `n` features come first in the plan. */
  lemma {:induction false} PlanPrefix(table: seq<RyzenC6Msr>, n: nat, enable: bool, cpus: nat)
    requires n <= |table|
    ensures Plan(table[..n], enable, cpus) <= Plan(table, enable, cpus)
  {
    if n < |table| {
      PlanPrefix(table[..|table| - 1], n, enable, cpus);
      assert table[..|table| - 1][..n] == table[..n];
    } else {
      assert table[..n] == table;
    }
  }

  /** The inner loop of changeC6: writes `value` at `offset` on every CPU in ascending order and
    * stops at the first write that fails, returning its error. */
  method WriteAllCpus(dev: Device, offset: int, value: bv64, cpus: nat) returns (err: Option<Error>)
    modifies dev
    ensures var r := Perform(old(dev.regs), dev.faulty, Broadcast(offset, value, cpus));
      err == r.err && dev.regs == r.regs && dev.log == old(dev.log) + r.done
  {
    ghost var ws := Broadcast(offset, value, cpus);
    ghost var regs0, log0, faulty := dev.regs, dev.log, dev.faulty;
    for c := 0 to cpus
      invariant var r := Perform(regs0, faulty, ws[..c]);
        r.err == None && dev.regs == r.regs && dev.log == log0 + r.done
    {
      PerformStep(regs0, faulty, ws, c);
      err := WriteMSR(dev, offset, c, value);
      if err != None {
        PerformStopped(regs0, faulty, ws, ws[..c + 1]);
        return;
      }
    }
    assert ws[..cpus] == ws;
    err := None;
  }

  /** changeC6: writes each feature's target value to every CPU, feature by feature,
    * and stops at the first failing write, returning its error. */
  method ChangeC6(dev: Device, enable: bool, cpus: nat) returns (err: Option<Error>)
    modifies dev
    ensures var r := Change(enable, cpus, old(dev.regs), dev.faulty);
      err == r.err && dev.regs == r.regs && dev.log == old(dev.log) + r.done
  {
    ghost var regs0, log0, faulty := dev.regs, dev.log, dev.faulty;
    for i := 0 to |Msr|
      invariant var r := Perform(regs0, faulty, Plan(Msr[..i], enable, cpus));
        r.err == None && dev.regs == r.regs && dev.log == log0 + r.done
    {
      var m := Msr[i];
      var value := Target(m, enable);
      ghost var p := Plan(Msr[..i], enable, cpus);
      ghost var q := Broadcast(m.offset, value, cpus);
      ghost var mid := dev.regs;
      PlanGrows(Msr, i, enable, cpus);
      PerformConcat(regs0, faulty, p, q);
      AppendAssoc(log0, Perform(regs0, faulty, p).done, Perform(mid, faulty, q).done);
      err := WriteAllCpus(dev, m.offset, value, cpus);
      if err != None {
        PlanPrefix(Msr, i + 1, enable, cpus);
        PerformStopped(regs0, faulty, Plan(Msr, enable, cpus), Plan(Msr[..i + 1], enable, cpus));
        return;
      }
    }
    assert Msr[..|Msr|] == Msr;
    err := None;
  }

  /** One register check of c6Enabled: the CPU read and the feature looked for. */
  datatype Probe = Probe(cpu: nat, m: RyzenC6Msr) {
    function At(): Addr { Addr(cpu, m.offset) }
  }

  /** The checks made on one CPU, in table order. */
  function CpuProbes(table: seq<RyzenC6Msr>, c: nat): seq<Probe> {
    seq(|table|, f requires 0 <= f < |table| => Probe(c, table[f]))
  }

  /** The checks c6Enabled makes, CPU-major: every feature on CPU 0, then every feature on CPU 1, ... */
  function ScanOrder(table: seq<RyzenC6Msr>, cpus: nat): seq<Probe> {
    if cpus == 0 then [] else ScanOrder(table, cpus - 1) + CpuProbes(table, cpus - 1)
  }

  /** A check that neither fails nor finds its feature enabled, so the scan goes on past it. */
  predicate Passes(regs: Bank, faulty: set<Addr>, p: Probe) {
    Accessible(regs, faulty, p.At()) && !Holds(regs[p.At()], p.m)
  }

  /** The first `j` checks of `p` all pass. */
  predicate AllPass(p: seq<Probe>, j: nat, regs: Bank, faulty: set<Addr>) {
    j <= |p| && forall t :: 0 <= t < j ==> Passes(regs, faulty, p[t])
  }

  /** c6Enabled as a function of the bank: true at the first check whose feature is enabled,
    * the error of the first read that fails before that, false when every check passes. */
  function Scan(p: seq<Probe>, regs: Bank, faulty: set<Addr>): Reply {
    if p == [] then Reply(false, None)
    else if !Accessible(regs, faulty, p[0].At()) then Reply(false, Some(AccessError(p[0].At())))
    else if Holds(regs[p[0].At()], p[0].m) then Reply(true, None)
    else Scan(p[1..], regs, faulty)
  }

  /** Checks that all pass can be skipped: the scan's answer is decided by what follows them. */
  lemma {:induction false} ScanFrom(p: seq<Probe>, j: nat, regs: Bank, faulty: set<Addr>)
    requires AllPass(p, j, regs, faulty)
    ensures Scan(p, regs, faulty) == Scan(p[j..], regs, faulty)
  {
    if j > 0 {
      assert Passes(regs, faulty, p[0]);
      ScanFrom(p[1..], j - 1, regs, faulty);
      assert p[1..][j - 1..] == p[j..];
    }
  }

  /** The first check that does not pass decides the scan. */
  lemma ScanDecided(p: seq<Probe>, j: nat, regs: Bank, faulty: set<Addr>)
    requires j < |p| && !Passes(regs, faulty, p[j])
    requires AllPass(p, j, regs, faulty)
    ensures Scan(p, regs, faulty) ==
      if Accessible(regs, faulty, p[j].At()) then Reply(true, None) else Reply(false, Some(AccessError(p[j].At())))
  {
    ScanFrom(p, j, regs, faulty);
  }

  /** Where CPU `c`'s checks sit in the scan order: right after those of the lower CPUs. */
  lemma {:induction false} ScanOrderAt(table: seq<RyzenC6Msr>, c: nat, f: nat, cpus: nat)
    requires c < cpus && f < |table|
    ensures |ScanOrder(table, c + 1)| == |ScanOrder(table, c)| + |table| <= |ScanOrder(table, cpus)|
    ensures ScanOrder(table, cpus)[|ScanOrder(table, c)| + f] == Probe(c, table[f])
  {
    if c + 1 < cpus {
      ScanOrderAt(table, c, f, cpus - 1);
    }
  }

  /** One step of c6Enabled: the check of feature `f` on CPU `c` either passes, and the
    * scan goes on, or decides the answer. */
  lemma ScanStep(regs: Bank, faulty: set<Addr>, cpus: nat, c: nat, f: nat)
    requires c < cpus && f < |Msr|
    requires AllPass(ScanOrder(Msr, cpus), |ScanOrder(Msr, c)| + f, regs, faulty)
    ensures Passes(regs, faulty, Probe(c, Msr[f])) ==>
      AllPass(ScanOrder(Msr, cpus), |ScanOrder(Msr, c)| + f + 1, regs, faulty)
    ensures f + 1 == |Msr| ==> |ScanOrder(Msr, c + 1)| == |ScanOrder(Msr, c)| + f + 1
    ensures !Accessible(regs, faulty, Addr(c, Msr[f].offset)) ==>
      Scan(ScanOrder(Msr, cpus), regs, faulty) == Reply(false, Some(MsrAccess(c, Msr[f].offset)))
    ensures Accessible(regs, faulty, Addr(c, Msr[f].offset)) && Holds(regs[Addr(c, Msr[f].offset)], Msr[f]) ==>
      Scan(ScanOrder(Msr, cpus), regs, faulty) == Reply(true, None)
  {
    ScanOrderAt(Msr, c, f, cpus);
    if !Passes(regs, faulty, Probe(c, Msr[f])) {
      ScanDecided(ScanOrder(Msr, cpus), |ScanOrder(Msr, c)| + f, regs, faulty);
    }
  }

  /** c6Enabled: reads each feature's register on each CPU, CPU-major, and answers true at the
    * first one holding every bit of its mask, or the first read error met before that. */
  method C6Enabled(dev: Device, cpus: nat) returns (enabled: bool, err: Option<Error>)
    ensures Reply(enabled, err) == Scan(ScanOrder(Msr, cpus), dev.regs, dev.faulty)
  {
    ghost var regs, faulty := dev.regs, dev.faulty;
    for c := 0 to cpus
      invariant AllPass(ScanOrder(Msr, cpus), |ScanOrder(Msr, c)|, regs, faulty)
    {
      for f := 0 to |Msr|
        invariant AllPass(ScanOrder(Msr, cpus), |ScanOrder(Msr, c)| + f, regs, faulty)
      {
        var m := Msr[f];
        ScanStep(regs, faulty, cpus, c, f);
        var data;
        data, err := ReadMSR(dev, m.offset, c);
        if err != None {
          return false, err;
        }
        if Holds(data, m) {
          return true, None;
        }
      }
    }
    ScanFrom(ScanOrder(Msr, cpus), |ScanOrder(Msr, cpus)|, regs, faulty);
    return false, None;
  }

  /** Enable enables C6: changeC6(true). */
  method Enable(dev: Device, cpus: nat) returns (err: Option<Error>)
    modifies dev
    ensures var r := Change(true, cpus, old(dev.regs), dev.faulty);
      err == r.err && dev.regs == r.regs && dev.log == old(dev.log) + r.done
  {
    err := ChangeC6(dev, true, cpus);
  }

  /** Disable disables C6: changeC6(false). */
  method Disable(dev: Device, cpus: nat) returns (err: Option<Error>)
    modifies dev
    ensures var r := Change(false, cpus, old(dev.regs), dev.faulty);
      err == r.err && dev.regs == r.regs && dev.log == old(dev.log) + r.done
  {
    err := ChangeC6(dev, false, cpus);
  }

  /** Enabled is c6Enabled. */
  method Enabled(dev: Device, cpus: nat) returns (enabled: bool, err: Option<Error>)
    ensures Reply(enabled, err) == Scan(ScanOrder(Msr, cpus), dev.regs, dev.faulty)
  {
    enabled, err := C6Enabled(dev, cpus);
  }

  /** Disabled: the negation of c6Enabled when it succeeds; false and its error when it fails. */
  method Disabled(dev: Device, cpus: nat) returns (disabled: bool, err: Option<Error>)
    ensures var s := Scan(ScanOrder(Msr, cpus), dev.regs, dev.faulty);
      err == s.err && (disabled <==> s.err == None && !s.value)
  {
    var enabled;
    enabled, err := C6Enabled(dev, cpus);
    if err != None {
      return false, err;
    }
    disabled := !enabled;
  }
}
