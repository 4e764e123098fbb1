/** The per-CPU model-specific-register files (/dev/cpu/<cpu>/msr) as an in-memory
  * register bank with injected failures and a log of the writes it received. */
module MsrDevice {
  import opened Outcome
  import LittleEndian

  /** A register address: the logical CPU whose msr file is opened and the offset sought to. */
  datatype Addr = Addr(cpu: nat, offset: int)

  /** One 64-bit register write, as the device receives it. */
  datatype Write = Write(at: Addr, value: bv64)

  /** Register contents; the keys are the implemented registers. */
  type Bank = map<Addr, bv64>

  /** An access at `a` succeeds when `a` is an implemented register and no failure is injected there. */
  predicate Accessible(regs: Bank, faulty: set<Addr>, a: Addr) {
    a in regs && a !in faulty
  }

  /** The error returned for a failed access at `a`. */
  function AccessError(a: Addr): Error {
    MsrAccess(a.cpu, a.offset)
  }

  /** The bank after the absolute writes `w`, performed in order. */
  function Apply(regs: Bank, w: seq<Write>): Bank {
    if w == [] then regs
    else Apply(regs, w[..|w| - 1])[w[|w| - 1].at := w[|w| - 1].value]
  }

  /** One more write at the end updates one register. */
  lemma ApplyAppend(regs: Bank, w: seq<Write>, x: Write)
    ensures Apply(regs, w + [x]) == Apply(regs, w)[x.at := x.value]
  {
  }

  /** A register no write in `w` addresses keeps its contents (and stays absent if it was absent). */
  lemma {:induction false} ApplyUntouched(regs: Bank, w: seq<Write>, a: Addr)
    requires forall t :: 0 <= t < |w| ==> w[t].at != a
    ensures a in Apply(regs, w) <==> a in regs
    ensures a in regs ==> Apply(regs, w)[a] == regs[a]
  {
    if w != [] {
      ApplyUntouched(regs, w[..|w| - 1], a);
    }
  }

  /** A register holds the value of the last write addressed to it. */
  lemma {:induction false} ApplyLast(regs: Bank, w: seq<Write>, t: nat)
    requires t < |w|
    requires forall u :: t < u < |w| ==> w[u].at != w[t].at
    ensures w[t].at in Apply(regs, w) && Apply(regs, w)[w[t].at] == w[t].value
  {
    if t < |w| - 1 {
      ApplyLast(regs, w[..|w| - 1], t);
    }
  }

  /** An earlier write to `a` is overwritten by a final write to `a`. */
  lemma {:induction false} ApplyShadowed(m: Bank, a: Addr, v: bv64, w: seq<Write>)
    ensures Apply(m[a := v], w)[a := v] == Apply(m, w)[a := v]
  {
    if w != [] {
      var x := w[|w| - 1];
      ApplyShadowed(m, a, v, w[..|w| - 1]);
      if x.at != a {
        assert Apply(m[a := v], w)[a := v] == Apply(m[a := v], w[..|w| - 1])[a := v][x.at := x.value];
        assert Apply(m, w)[a := v] == Apply(m, w[..|w| - 1])[a := v][x.at := x.value];
      } else {
        assert Apply(m[a := v], w)[a := v] == Apply(m[a := v], w[..|w| - 1])[a := v];
        assert Apply(m, w)[a := v] == Apply(m, w[..|w| - 1])[a := v];
      }
    }
  }

  /** Absolute writes are idempotent: performing `w` a second time changes nothing. */
  lemma {:induction false} ApplyTwice(regs: Bank, w: seq<Write>)
    ensures Apply(Apply(regs, w), w) == Apply(regs, w)
  {
    if w != [] {
      var p, x := w[..|w| - 1], w[|w| - 1];
      calc {
        Apply(Apply(regs, w), w);
        Apply(Apply(regs, p)[x.at := x.value], p)[x.at := x.value];
        { ApplyShadowed(Apply(regs, p), x.at, x.value, p); }
        Apply(Apply(regs, p), p)[x.at := x.value];
        { ApplyTwice(regs, p); }
        Apply(regs, p)[x.at := x.value];
        Apply(regs, w);
      }
    }
  }

  /** The first `j` writes of `w` address accessible registers. */
  predicate AllAccessible(w: seq<Write>, j: nat, regs: Bank, faulty: set<Addr>) {
    j <= |w| && forall t :: 0 <= t < j ==> Accessible(regs, faulty, w[t].at)
  }

  /** The outcome of performing writes until one fails: the bank afterwards, the writes
    * performed, and the error of the write that failed, if one did. */
  datatype Run = Run(regs: Bank, done: seq<Write>, err: Option<Error>)

  /** One more write `x` after the run `r`: skipped once a write has failed, otherwise
    * performed or failing. */
  function Step(r: Run, faulty: set<Addr>, x: Write): Run {
    if r.err != None then r
    else if !Accessible(r.regs, faulty, x.at) then Run(r.regs, r.done, Some(AccessError(x.at)))
    else Run(r.regs[x.at := x.value], r.done + [x], None)
  }

  /** Performs the writes `w` in order and stops at the first whose register cannot be
    * accessed; the writes before it stay performed. */
  function Perform(regs: Bank, faulty: set<Addr>, w: seq<Write>): Run {
    if w == [] then Run(regs, [], None)
    else Step(Perform(regs, faulty, w[..|w| - 1]), faulty, w[|w| - 1])
  }

  /** What Perform's outcome means: a prefix of `w` was performed, on implemented registers only,
    * and either it is all of `w` and no error is returned, or the write right after it failed
    * and its error is returned. */
  lemma {:induction false} PerformSpec(regs: Bank, faulty: set<Addr>, w: seq<Write>)
    ensures var r := Perform(regs, faulty, w);
      && r.done <= w && r.regs == Apply(regs, r.done) && r.regs.Keys == regs.Keys
      && AllAccessible(w, |r.done|, regs, faulty)
      && (r.err == None <==> |r.done| == |w|)
      && (r.err != None ==>
            |r.done| < |w| && !Accessible(regs, faulty, w[|r.done|].at) && r.err == Some(AccessError(w[|r.done|].at)))
  {
    if w != [] {
      PerformSpec(regs, faulty, w[..|w| - 1]);
      var r := Perform(regs, faulty, w[..|w| - 1]);
      ApplyAppend(regs, r.done, w[|w| - 1]);
      assert r.err == None ==> r.done + [w[|w| - 1]] == w;
    }
  }

  /** Which writes are performed, and which error is returned, depends only on which registers
    * are implemented, not on what they hold. */
  lemma PerformKeysOnly(r1: Bank, r2: Bank, faulty: set<Addr>, w: seq<Write>)
    requires r1.Keys == r2.Keys
    ensures Perform(r1, faulty, w).done == Perform(r2, faulty, w).done
    ensures Perform(r1, faulty, w).err == Perform(r2, faulty, w).err
  {
    PerformSpec(r1, faulty, w);
    PerformSpec(r2, faulty, w);
    var d1, d2 := Perform(r1, faulty, w).done, Perform(r2, faulty, w).done;
    assert d1 == w[..|d1|] && d2 == w[..|d2|];
  }

  /** Performing one more write: the unfolding of Perform at position `j`. */
  lemma PerformStep(regs: Bank, faulty: set<Addr>, w: seq<Write>, j: nat)
    requires j < |w|
    ensures Perform(regs, faulty, w[..j + 1]) == Step(Perform(regs, faulty, w[..j]), faulty, w[j])
  {
    assert w[..j + 1][..j] == w[..j];
  }

  /** Once a write has failed, the writes after it are not attempted. */
  lemma {:induction false} PerformStopped(regs: Bank, faulty: set<Addr>, w: seq<Write>, p: seq<Write>)
    requires p <= w && Perform(regs, faulty, p).err != None
    ensures Perform(regs, faulty, w) == Perform(regs, faulty, p)
  {
    if |w| > |p| {
      assert p <= w[..|w| - 1];
      PerformStopped(regs, faulty, w[..|w| - 1], p);
    } else {
      assert w == p;
    }
  }

  lemma AppendAssoc(a: seq<Write>, b: seq<Write>, c: seq<Write>)
    ensures a + b + c == a + (b + c)
  {
  }

  /** A step does not look at the writes performed before it. */
  lemma StepShift(a: Run, d: seq<Write>, faulty: set<Addr>, x: Write)
    ensures var b := Step(a, faulty, x);
      Step(Run(a.regs, d + a.done, a.err), faulty, x) == Run(b.regs, d + b.done, b.err)
  {
  }

  /** Performing `p + q` is performing `p` and then, if all of `p` succeeded, `q`. */
  lemma {:induction false} PerformConcat(regs: Bank, faulty: set<Addr>, p: seq<Write>, q: seq<Write>)
    ensures var r := Perform(regs, faulty, p);
      Perform(regs, faulty, p + q) ==
        if r.err != None then r
        else var s := Perform(r.regs, faulty, q); Run(s.regs, r.done + s.done, s.err)
  {
    var r := Perform(regs, faulty, p);
    if q == [] {
      assert p + q == p;
    } else if r.err != None {
      PerformStopped(regs, faulty, p + q, p);
    } else {
      var q', x := q[..|q| - 1], q[|q| - 1];
      PerformConcat(regs, faulty, p, q');
      assert (p + q)[..|p + q| - 1] == p + q';
      StepShift(Perform(r.regs, faulty, q'), r.done, faulty, x);
    }
  }

  /** The kernel's msr files for every logical CPU. */
  class Device {
    var regs: Bank
    const faulty: set<Addr>
    var log: seq<Write>

    constructor (regs: Bank, faulty: set<Addr>)
      ensures this.regs == regs && this.faulty == faulty && log == []
    {
      this.regs := regs;
      this.faulty := faulty;
      log := [];
    }

    /** Opening the file of `a.cpu`, seeking to `a.offset` and writing the 8 bytes of `data`:
      * the register receives their little-endian value. */
    method WriteAt(a: Addr, data: array<bv8>) returns (err: Option<Error>)
      requires data.Length == 8
      modifies this
      ensures Accessible(old(regs), faulty, a) ==>
        err == None && regs == old(regs)[a := LittleEndian.Decode(data[..])] &&
        log == old(log) + [Write(a, LittleEndian.Decode(data[..]))]
      ensures !Accessible(old(regs), faulty, a) ==>
        err == Some(AccessError(a)) && regs == old(regs) && log == old(log)
    {
      if !Accessible(regs, faulty, a) {
        return Some(AccessError(a));
      }
      var v := LittleEndian.Decode(data[..]);
      regs := regs[a := v];
      log := log + [Write(a, v)];
      err := None;
    }

    /** Opening the file of `a.cpu`, seeking to `a.offset` and reading 8 bytes into `data`:
      * the buffer receives the register's little-endian bytes. */
    method ReadInto(a: Addr, data: array<bv8>) returns (err: Option<Error>)
      requires data.Length == 8
      modifies data
      ensures Accessible(regs, faulty, a) ==> err == None && data[..] == LittleEndian.Encode(regs[a])
      ensures !Accessible(regs, faulty, a) ==> err == Some(AccessError(a)) && data[..] == old(data[..])
    {
      if !Accessible(regs, faulty, a) {
        return Some(AccessError(a));
      }
      var b := LittleEndian.Encode(regs[a]);
      forall i | 0 <= i < 8 {
        data[i] := b[i];
      }
      err := None;
    }
  }
}
