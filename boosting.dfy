/** Processor boosting, switched through the cpufreq boost control file: "1" turns it on,
  * "0" turns it off. */
module Boosting {
  import opened Outcome
  import opened ControlFile

  const BoostingControlFile: string := "/sys/devices/system/cpu/cpufreq/boost"

  /** The one-byte content written to the control file. */
  function Value(enable: bool): (v: string)
    ensures |v| == 1 && v[0] != '\n'
    ensures ReadsOn(v) <==> enable
  {
    if enable then "1" else "0"
  }

  /** changeProcessorBoosting: replaces the whole content of the control file with the value
    * for `enable`; no other file changes, and a failed write changes nothing. */
  function ChangeProcessorBoosting(fs: Files, enable: bool): (r: Written)
    ensures r.err == None <==> BoostingControlFile in fs && fs[BoostingControlFile].writable
    ensures r.err != None ==> r.fs == fs && r.err == Some(FileAccess(BoostingControlFile))
    ensures r.err == None ==>
      r.fs == fs[BoostingControlFile := fs[BoostingControlFile].(content := Value(enable))]
  {
    WriteFile(fs, BoostingControlFile, Value(enable))
  }

  /** Enabled: false with the error when the control file cannot be read; otherwise false
    * exactly when it holds "0", with any newlines before or after it. */
  function Enabled(fs: Files): (r: Reply)
    ensures r.err == None <==> BoostingControlFile in fs && fs[BoostingControlFile].readable
    ensures r.err != None ==> r == Reply(false, Some(FileAccess(BoostingControlFile)))
    ensures r.err == None ==>
      (!r.value <==> exists a, b :: fs[BoostingControlFile].content == Newlines(a) + "0" + Newlines(b))
  {
    EnabledIff(fs, BoostingControlFile);
    ControlFile.Enabled(fs, BoostingControlFile)
  }

  /** Disabled: the negation of Enabled when it succeeds, false and Enabled's error otherwise. */
  function Disabled(fs: Files): (r: Reply)
    ensures r.err == Enabled(fs).err
    ensures r.value <==> r.err == None && !Enabled(fs).value
  {
    ControlFile.Disabled(fs, BoostingControlFile)
  }

  /** Enable: changeProcessorBoosting(true); once it succeeds, Enabled reads true. */
  function Enable(fs: Files): (r: Written)
    ensures r == ChangeProcessorBoosting(fs, true)
    ensures r.err == None && fs[BoostingControlFile].readable ==> Enabled(r.fs) == Reply(true, None)
  {
    ChangeProcessorBoosting(fs, true)
  }

  /** Disable: changeProcessorBoosting(false); once it succeeds, Disabled reads true. */
  function Disable(fs: Files): (r: Written)
    ensures r == ChangeProcessorBoosting(fs, false)
    ensures r.err == None && fs[BoostingControlFile].readable ==> Disabled(r.fs) == Reply(true, None)
  {
    ChangeProcessorBoosting(fs, false)
  }

  /** The written value reads back as written, also when the kernel adds newlines around it. */
  lemma ValueRoundTrip(enable: bool, a: nat, b: nat)
    ensures ReadsOn(Newlines(a) + Value(enable) + Newlines(b)) <==> enable
  {
    TrimPadded(a, Value(enable), b);
  }
}
