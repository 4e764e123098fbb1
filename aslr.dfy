/** Address space layout randomization, switched through the randomize_va_space control file:
  * "2" (full randomization) turns it on, "0" (no randomization) turns it off. */
module Aslr {
  import opened Outcome
  import opened ControlFile

  const AslrControlFile: string := "/proc/sys/kernel/randomize_va_space"

  /** The one-byte content written to the control file. */
  function Value(enable: bool): (v: string)
    ensures |v| == 1 && v[0] != '\n'
    ensures ReadsOn(v) <==> enable
  {
    if enable then "2" else "0"
  }

  /** changeASLR: replaces the whole content of the control file with the value
    * for `enable`; no other file changes, and a failed write changes nothing. */
  function ChangeAslr(fs: Files, enable: bool): (r: Written)
    ensures r.err == None <==> AslrControlFile in fs && fs[AslrControlFile].writable
    ensures r.err != None ==> r.fs == fs && r.err == Some(FileAccess(AslrControlFile))
    ensures r.err == None ==>
      r.fs == fs[AslrControlFile := fs[AslrControlFile].(content := Value(enable))]
  {
    WriteFile(fs, AslrControlFile, Value(enable))
  }

  /** Enabled: false with the error when the control file cannot be read; otherwise false
    * exactly when it holds "0", with any newlines before or after it. */
  function Enabled(fs: Files): (r: Reply)
    ensures r.err == None <==> AslrControlFile in fs && fs[AslrControlFile].readable
    ensures r.err != None ==> r == Reply(false, Some(FileAccess(AslrControlFile)))
    ensures r.err == None ==>
      (!r.value <==> exists a, b :: fs[AslrControlFile].content == Newlines(a) + "0" + Newlines(b))
  {
    EnabledIff(fs, AslrControlFile);
    ControlFile.Enabled(fs, AslrControlFile)
  }

  /** Disabled: the negation of Enabled when it succeeds, false and Enabled's error otherwise. */
  function Disabled(fs: Files): (r: Reply)
    ensures r.err == Enabled(fs).err
    ensures r.value <==> r.err == None && !Enabled(fs).value
  {
    ControlFile.Disabled(fs, AslrControlFile)
  }

  /** Enable: changeASLR(true); once it succeeds, Enabled reads true. */
  function Enable(fs: Files): (r: Written)
    ensures r == ChangeAslr(fs, true)
    ensures r.err == None && fs[AslrControlFile].readable ==> Enabled(r.fs) == Reply(true, None)
  {
    ChangeAslr(fs, true)
  }

  /** Disable: changeASLR(false); once it succeeds, Disabled reads true. */
  function Disable(fs: Files): (r: Written)
    ensures r == ChangeAslr(fs, false)
    ensures r.err == None && fs[AslrControlFile].readable ==> Disabled(r.fs) == Reply(true, None)
  {
    ChangeAslr(fs, false)
  }

  /** The written value reads back as written, also when the kernel adds newlines around it. */
  lemma ValueRoundTrip(enable: bool, a: nat, b: nat)
    ensures ReadsOn(Newlines(a) + Value(enable) + Newlines(b)) <==> enable
  {
    TrimPadded(a, Value(enable), b);
  }

  /** The conservative mode "1", which the toggle never writes, reads as enabled too. */
  lemma ConservativeReadsEnabled(fs: Files)
    requires AslrControlFile in fs && fs[AslrControlFile].readable && fs[AslrControlFile].content == "1"
    ensures Enabled(fs) == Reply(true, None)
  {
    TrimPadded(0, "1", 0);
    assert Newlines(0) + "1" + Newlines(0) == "1";
  }
}
