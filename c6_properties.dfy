/** What the C6 controller promises: the register table, the shape of the writes it plans,
  * how a failing write ends an update, and how updates and queries fit together. */
module C6Properties {
  import opened Outcome
  import opened MsrDevice
  import opened C6

  /** The two features and their masks: package C6 is bit 32 of 0xC0010292, core C6 is
    * bits 22, 14 and 6 of 0xC0010296. */
  lemma MsrTable()
    ensures |Msr| == 2
    ensures Msr[0].offset == 0xC001_0292 && Msr[0].bit == 0x1_0000_0000
    ensures Msr[1].offset == 0xC001_0296 && Msr[1].bit == 0x40_4040
  {
  }

  /** Writing a feature's target value enables the feature exactly when enabling was asked for,
    * and disabling clears every bit of the mask while setting every other bit. */
  lemma TargetHolds(m: RyzenC6Msr, enable: bool)
    requires m.bit != 0
    ensures Holds(Target(m, enable), m) <==> enable
    ensures Target(m, false) & m.bit == 0 && Target(m, false) | m.bit == 0xFFFF_FFFF_FFFF_FFFF
  {
  }

  /** changeC6 plans 2 * cpus writes: package C6 on CPUs 0 .. cpus-1, then core C6 on CPUs 0 .. cpus-1. */
  lemma PlanShape(enable: bool, cpus: nat)
    ensures var w := Plan(Msr, enable, cpus);
      && |w| == 2 * cpus
      && (forall j :: 0 <= j < cpus ==> w[j] == Write(Addr(j, PackageC6.offset), Target(PackageC6, enable)))
      && (forall j :: 0 <= j < cpus ==> w[cpus + j] == Write(Addr(j, CoreC6.offset), Target(CoreC6, enable)))
  {
    assert Msr[..1] == [PackageC6] && Msr[..1][..0] == [];
    assert Plan(Msr, enable, cpus) ==
      Plan(Msr[..1], enable, cpus) + Broadcast(CoreC6.offset, Target(CoreC6, enable), cpus);
    assert Plan(Msr[..1], enable, cpus) == [] + Broadcast(PackageC6.offset, Target(PackageC6, enable), cpus);
  }

  /** Disabling on four CPUs plans eight writes, package C6 on CPUs 0-3 and then core C6 on
    * CPUs 0-3, each the complement of its feature's mask. */
  lemma DisableOnFourCpus()
    ensures Plan(Msr, false, 4) == [
      Write(Addr(0, 0xC001_0292), 0xFFFF_FFFE_FFFF_FFFF), Write(Addr(1, 0xC001_0292), 0xFFFF_FFFE_FFFF_FFFF),
      Write(Addr(2, 0xC001_0292), 0xFFFF_FFFE_FFFF_FFFF), Write(Addr(3, 0xC001_0292), 0xFFFF_FFFE_FFFF_FFFF),
      Write(Addr(0, 0xC001_0296), 0xFFFF_FFFF_FFBF_BFBF), Write(Addr(1, 0xC001_0296), 0xFFFF_FFFF_FFBF_BFBF),
      Write(Addr(2, 0xC001_0296), 0xFFFF_FFFF_FFBF_BFBF), Write(Addr(3, 0xC001_0296), 0xFFFF_FFFF_FFBF_BFBF)]
  {
    PlanShape(false, 4);
  }

  /** No register is written twice by one update. */
  lemma PlanDistinct(enable: bool, cpus: nat, s: nat, t: nat)
    requires s < t < |Plan(Msr, enable, cpus)|
    ensures Plan(Msr, enable, cpus)[s].at != Plan(Msr, enable, cpus)[t].at
  {
    PlanShape(enable, cpus);
    var w := Plan(Msr, enable, cpus);
    if t < cpus {
      assert w[s].at.cpu == s && w[t].at.cpu == t;
    } else if s >= cpus {
      assert w[s] == w[cpus + (s - cpus)] && w[t] == w[cpus + (t - cpus)];
    } else {
      assert w[t] == w[cpus + (t - cpus)];
    }
  }

  /** With no CPUs, changeC6 writes nothing and succeeds. */
  lemma ChangeNoCpus(enable: bool, regs: Bank, faulty: set<Addr>)
    ensures Change(enable, 0, regs, faulty) == Run(regs, [], None)
  {
    PlanShape(enable, 0);
    assert Plan(Msr, enable, 0) == [];
  }

  /** changeC6 succeeds exactly when both registers of every CPU can be written, and then it has
    * performed every planned write. */
  lemma ChangeSucceeds(enable: bool, cpus: nat, regs: Bank, faulty: set<Addr>)
    ensures var r := Change(enable, cpus, regs, faulty);
      && (r.err == None <==>
            forall c, f :: 0 <= c < cpus && 0 <= f < |Msr| ==> Accessible(regs, faulty, Addr(c, Msr[f].offset)))
      && (r.err == None ==>
            r.done == Plan(Msr, enable, cpus) && r.regs == Apply(regs, Plan(Msr, enable, cpus)))
  {
    var w := Plan(Msr, enable, cpus);
    var r := Change(enable, cpus, regs, faulty);
    PerformSpec(regs, faulty, w);
    PlanShape(enable, cpus);
    if r.err == None {
      forall c, f | 0 <= c < cpus && 0 <= f < |Msr|
        ensures Accessible(regs, faulty, Addr(c, Msr[f].offset))
      {
        if f == 0 {
          assert w[c].at == Addr(c, Msr[f].offset);
        } else {
          assert w[cpus + c].at == Addr(c, Msr[f].offset);
        }
      }
      assert r.done == w;
    } else {
      var k := |r.done|;
      if k < cpus {
        assert w[k].at == Addr(k, Msr[0].offset);
      } else {
        assert w[cpus + (k - cpus)].at == Addr(k - cpus, Msr[1].offset);
      }
    }
  }

  /** How an update ends: the planned writes before the first failing one are performed and stay
    * performed, the failing write's error is returned, and no register is added or removed. */
  lemma ChangeOutcome(enable: bool, cpus: nat, regs: Bank, faulty: set<Addr>)
    ensures var w := Plan(Msr, enable, cpus);
      var r := Change(enable, cpus, regs, faulty);
      && |r.done| <= |w| && r.done == w[..|r.done|]
      && r.regs == Apply(regs, r.done) && r.regs.Keys == regs.Keys
      && (forall t :: 0 <= t < |r.done| ==> Accessible(regs, faulty, w[t].at))
      && (r.err == None <==> |r.done| == 2 * cpus)
      && (r.err != None ==>
            |r.done| < |w| && !Accessible(regs, faulty, w[|r.done|].at) &&
            r.err == Some(MsrAccess(w[|r.done|].at.cpu, w[|r.done|].at.offset)))
  {
    PerformSpec(regs, faulty, Plan(Msr, enable, cpus));
    PlanShape(enable, cpus);
  }

  /** Every write performed before a failure keeps its value: no rollback. */
  lemma ChangeWritten(enable: bool, cpus: nat, regs: Bank, faulty: set<Addr>, t: nat)
    requires t < |Change(enable, cpus, regs, faulty).done|
    ensures var r := Change(enable, cpus, regs, faulty);
      r.done[t].at in r.regs && r.regs[r.done[t].at] == r.done[t].value
  {
    var w := Plan(Msr, enable, cpus);
    var r := Change(enable, cpus, regs, faulty);
    PerformSpec(regs, faulty, w);
    forall u | t < u < |r.done|
      ensures r.done[u].at != r.done[t].at
    {
      PlanDistinct(enable, cpus, t, u);
    }
    ApplyLast(regs, r.done, t);
  }

  /** A register that no performed write addresses keeps its contents; in particular every
    * register outside the two C6 offsets, and every register of a CPU beyond `cpus`. */
  lemma ChangeUntouched(enable: bool, cpus: nat, regs: Bank, faulty: set<Addr>, a: Addr)
    requires (a.offset != PackageC6.offset && a.offset != CoreC6.offset) || a.cpu >= cpus ||
      forall t :: 0 <= t < |Change(enable, cpus, regs, faulty).done| ==> Change(enable, cpus, regs, faulty).done[t].at != a
    ensures var r := Change(enable, cpus, regs, faulty);
      (a in r.regs <==> a in regs) && (a in regs ==> r.regs[a] == regs[a])
  {
    var w := Plan(Msr, enable, cpus);
    var r := Change(enable, cpus, regs, faulty);
    PerformSpec(regs, faulty, w);
    PlanShape(enable, cpus);
    forall t | 0 <= t < |r.done|
      ensures r.done[t].at != a
    {
      if t >= cpus {
        assert r.done[t] == w[cpus + (t - cpus)];
      }
    }
    ApplyUntouched(regs, r.done, a);
  }

  /** Enabling or disabling twice is the same as doing it once: the second update writes the
    * same registers with the values they already hold and ends with the same error. */
  lemma ChangeIdempotent(enable: bool, cpus: nat, regs: Bank, faulty: set<Addr>)
    ensures var r := Change(enable, cpus, regs, faulty);
      Change(enable, cpus, r.regs, faulty) == r
  {
    var w := Plan(Msr, enable, cpus);
    var r := Change(enable, cpus, regs, faulty);
    PerformSpec(regs, faulty, w);
    PerformSpec(r.regs, faulty, w);
    PerformKeysOnly(regs, r.regs, faulty, w);
    ApplyTwice(regs, r.done);
  }

  /** c6Enabled checks package C6 and then core C6 on CPU 0, then both on CPU 1, and so on;
    * every check is of a table feature on a CPU below `cpus`. */
  lemma {:induction false} ScanOrderShape(cpus: nat)
    ensures var p := ScanOrder(Msr, cpus);
      && |p| == 2 * cpus
      && (forall c :: 0 <= c < cpus ==> p[2 * c] == Probe(c, PackageC6) && p[2 * c + 1] == Probe(c, CoreC6))
      && (forall t :: 0 <= t < |p| ==> p[t].cpu < cpus && (p[t].m == PackageC6 || p[t].m == CoreC6))
  {
    if cpus > 0 {
      ScanOrderShape(cpus - 1);
    }
  }

  /** When every read succeeds, c6Enabled returns no error, and true exactly when some CPU has
    * either feature's mask fully set. */
  lemma {:induction false} ScanNoErrors(p: seq<Probe>, regs: Bank, faulty: set<Addr>)
    requires forall t :: 0 <= t < |p| ==> Accessible(regs, faulty, p[t].At())
    ensures Scan(p, regs, faulty).err == None
    ensures Scan(p, regs, faulty).value <==>
      exists t :: 0 <= t < |p| && p[t].At() in regs && Holds(regs[p[t].At()], p[t].m)
  {
    if p != [] {
      ScanNoErrors(p[1..], regs, faulty);
      if !Holds(regs[p[0].At()], p[0].m) {
        if exists t :: 0 <= t < |p| && p[t].At() in regs && Holds(regs[p[t].At()], p[t].m) {
          var t :| 0 <= t < |p| && p[t].At() in regs && Holds(regs[p[t].At()], p[t].m);
          assert p[1..][t - 1] == p[t];
        }
      }
    }
  }

  /** The check at position `t` of the scan order: a table feature `f` on a CPU below `cpus`. */
  lemma ProbeAt(cpus: nat, t: nat) returns (f: nat)
    requires t < |ScanOrder(Msr, cpus)|
    ensures var p := ScanOrder(Msr, cpus);
      f < |Msr| && p[t].cpu < cpus && p[t] == Probe(p[t].cpu, Msr[f])
  {
    ScanOrderShape(cpus);
    f := if ScanOrder(Msr, cpus)[t].m == PackageC6 then 0 else 1;
  }

  /** Feature `f` on CPU `c` is checked at position 2 * c + f of the scan order. */
  lemma ProbeOf(cpus: nat, c: nat, f: nat)
    requires c < cpus && f < |Msr|
    ensures 2 * c + f < |ScanOrder(Msr, cpus)| && ScanOrder(Msr, cpus)[2 * c + f] == Probe(c, Msr[f])
  {
    ScanOrderShape(cpus);
    if f == 0 {
      assert ScanOrder(Msr, cpus)[2 * c] == Probe(c, Msr[f]);
    } else {
      assert ScanOrder(Msr, cpus)[2 * c + 1] == Probe(c, Msr[f]);
    }
  }

  /** c6Enabled over readable registers: true exactly when some CPU has package C6 or core C6 enabled. */
  lemma EnabledIffAny(cpus: nat, regs: Bank, faulty: set<Addr>)
    requires forall c, f :: 0 <= c < cpus && 0 <= f < |Msr| ==> Accessible(regs, faulty, Addr(c, Msr[f].offset))
    ensures var s := Scan(ScanOrder(Msr, cpus), regs, faulty);
      && s.err == None
      && (s.value <==> exists c, f :: 0 <= c < cpus && 0 <= f < |Msr| && Addr(c, Msr[f].offset) in regs &&
                                     Holds(regs[Addr(c, Msr[f].offset)], Msr[f]))
  {
    var p := ScanOrder(Msr, cpus);
    forall t | 0 <= t < |p|
      ensures Accessible(regs, faulty, p[t].At())
    {
      var f := ProbeAt(cpus, t);
    }
    ScanNoErrors(p, regs, faulty);
    if Scan(p, regs, faulty).value {
      var t :| 0 <= t < |p| && p[t].At() in regs && Holds(regs[p[t].At()], p[t].m);
      var f := ProbeAt(cpus, t);
      assert p[t].At() == Addr(p[t].cpu, Msr[f].offset);
    }
    if exists c, f :: 0 <= c < cpus && 0 <= f < |Msr| && Addr(c, Msr[f].offset) in regs &&
                      Holds(regs[Addr(c, Msr[f].offset)], Msr[f]) {
      var c, f :| 0 <= c < cpus && 0 <= f < |Msr| && Addr(c, Msr[f].offset) in regs &&
                  Holds(regs[Addr(c, Msr[f].offset)], Msr[f]);
      ProbeOf(cpus, c, f);
    }
  }

  /** After a successful Enable on at least one CPU, Enabled reports true. */
  lemma EnableThenEnabled(cpus: nat, regs: Bank, faulty: set<Addr>)
    requires cpus >= 1
    ensures var r := Change(true, cpus, regs, faulty);
      r.err == None ==> Scan(ScanOrder(Msr, cpus), r.regs, faulty) == Reply(true, None)
  {
    var r := Change(true, cpus, regs, faulty);
    if r.err == None {
      var w := Plan(Msr, true, cpus);
      var p := ScanOrder(Msr, cpus);
      ChangeOutcome(true, cpus, regs, faulty);
      PlanShape(true, cpus);
      ChangeWritten(true, cpus, regs, faulty, 0);
      ScanOrderShape(cpus);
      TargetHolds(PackageC6, true);
      assert p[2 * 0] == Probe(0, PackageC6);
      assert r.done[0] == w[0] == Write(p[0].At(), PackageC6.bit);
      assert Accessible(r.regs, faulty, p[0].At());
    }
  }

  /** After a successful Disable, Enabled reports false (and Disabled reports true). */
  lemma DisableThenDisabled(cpus: nat, regs: Bank, faulty: set<Addr>)
    ensures var r := Change(false, cpus, regs, faulty);
      r.err == None ==> Scan(ScanOrder(Msr, cpus), r.regs, faulty) == Reply(false, None)
  {
    var r := Change(false, cpus, regs, faulty);
    if r.err == None {
      var p := ScanOrder(Msr, cpus);
      ScanOrderShape(cpus);
      forall t | 0 <= t < |p|
        ensures Passes(r.regs, faulty, p[t])
      {
        DisabledAt(cpus, regs, faulty, p[t].cpu, p[t].m == CoreC6);
      }
      ScanFrom(p, |p|, r.regs, faulty);
      assert p[|p|..] == [];
    }
  }

  /** After a successful Disable, every register c6Enabled reads is readable and shows its feature off. */
  lemma DisabledAt(cpus: nat, regs: Bank, faulty: set<Addr>, c: nat, core: bool)
    requires c < cpus && Change(false, cpus, regs, faulty).err == None
    ensures var m := if core then CoreC6 else PackageC6;
      Passes(Change(false, cpus, regs, faulty).regs, faulty, Probe(c, m))
  {
    var m := if core then CoreC6 else PackageC6;
    var w := Plan(Msr, false, cpus);
    ChangeOutcome(false, cpus, regs, faulty);
    PlanShape(false, cpus);
    TargetHolds(m, false);
    var i := if core then cpus + c else c;
    assert w[i] == Write(Probe(c, m).At(), Target(m, false));
    ChangeWritten(false, cpus, regs, faulty, i);
  }
}
