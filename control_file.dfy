/** The kernel control files behind the boosting and ASLR toggles, as values: a small file
  * table, whole-file reads and writes that can fail, and the newline trimming both toggles
  * apply before they compare what they read. */
module ControlFile {
  import opened Outcome

  /** One control file: its content and whether reading and writing it succeed. */
  datatype Node = Node(content: string, readable: bool, writable: bool)

  /** The control files that exist, by path. */
  type Files = map<string, Node>

  /** What ioutil.ReadFile returns: the content, or the error. */
  datatype Read = Read(content: string, err: Option<Error>)

  /** What ioutil.WriteFile leaves behind: the files afterwards, and the error. */
  datatype Written = Written(fs: Files, err: Option<Error>)

  /** ioutil.ReadFile: the whole content of `path`, or an error when it is missing or unreadable. */
  function ReadFile(fs: Files, path: string): (r: Read)
    ensures r.err == None <==> path in fs && fs[path].readable
    ensures r.err == None ==> r.content == fs[path].content
    ensures r.err != None ==> r.err == Some(FileAccess(path))
  {
    if path in fs && fs[path].readable then Read(fs[path].content, None)
    else Read([], Some(FileAccess(path)))
  }

  /** ioutil.WriteFile: the whole content of `path` becomes `value`; when the file is missing
    * (control files cannot be created) or not writable, the error is returned and nothing changes. */
  function WriteFile(fs: Files, path: string, value: string): (r: Written)
    ensures r.fs.Keys == fs.Keys
    ensures forall p :: p in fs && p != path ==> r.fs[p] == fs[p]
    ensures r.err == None <==> path in fs && fs[path].writable
    ensures r.err == None ==> r.fs[path] == fs[path].(content := value)
    ensures r.err != None ==> r.fs == fs && r.err == Some(FileAccess(path))
  {
    if path in fs && fs[path].writable then Written(fs[path := fs[path].(content := value)], None)
    else Written(fs, Some(FileAccess(path)))
  }

  /** `n` newline characters. */
  function Newlines(n: nat): (s: string)
    ensures |s| == n && forall i :: 0 <= i < n ==> s[i] == '\n'
  {
    seq(n, _ => '\n')
  }

  /** strings.TrimLeft(s, "\n"): `s` without its leading newlines (TrimLeftSplit: what it drops
    * is a run of newlines). */
  function TrimLeft(s: string): (t: string)
    ensures |t| <= |s| && (t == [] || t[0] != '\n')
  {
    if s != [] && s[0] == '\n' then TrimLeft(s[1..]) else s
  }

  /** strings.TrimRight(s, "\n"): `s` without its trailing newlines (TrimRightSplit: what it drops
    * is a run of newlines). */
  function TrimRight(s: string): (t: string)
    ensures |t| <= |s| && (t == [] || t[|t| - 1] != '\n')
  {
    if s != [] && s[|s| - 1] == '\n' then TrimRight(s[..|s| - 1]) else s
  }

  /** strings.Trim(s, "\n"): `s` without its leading and trailing newlines; what is left neither
    * starts nor ends with one (TrimIff: exactly the newline padding is removed). */
  function Trim(s: string): (t: string)
    ensures |t| <= |s| && (t == [] || (t[0] != '\n' && t[|t| - 1] != '\n'))
  {
    TrimRightSplit(TrimLeft(s));
    TrimRight(TrimLeft(s))
  }

  /** TrimLeft removes exactly the newlines put in front of a text that does not start with one. */
  lemma {:induction false} TrimLeftPadded(a: nat, u: string)
    requires u == [] || u[0] != '\n'
    ensures TrimLeft(Newlines(a) + u) == u
  {
    if a > 0 {
      assert (Newlines(a) + u)[1..] == Newlines(a - 1) + u;
      TrimLeftPadded(a - 1, u);
    } else {
      assert Newlines(a) + u == u;
    }
  }

  /** TrimRight removes exactly the newlines put after a text that does not end with one. */
  lemma {:induction false} TrimRightPadded(u: string, b: nat)
    requires u == [] || u[|u| - 1] != '\n'
    ensures TrimRight(u + Newlines(b)) == u
  {
    if b > 0 {
      assert (u + Newlines(b))[..|u| + b - 1] == u + Newlines(b - 1);
      TrimRightPadded(u, b - 1);
    } else {
      assert u + Newlines(b) == u;
    }
  }

  /** Trim undoes any padding with newlines of a text that neither starts nor ends with one. */
  lemma TrimPadded(a: nat, t: string, b: nat)
    requires t == [] || (t[0] != '\n' && t[|t| - 1] != '\n')
    ensures Trim(Newlines(a) + t + Newlines(b)) == t
  {
    assert Newlines(a) + t + Newlines(b) == Newlines(a) + (t + Newlines(b));
    if t == [] {
      assert Newlines(a) + (t + Newlines(b)) == Newlines(a + b) + [];
      TrimLeftPadded(a + b, []);
    } else {
      TrimLeftPadded(a, t + Newlines(b));
      TrimRightPadded(t, b);
    }
  }

  /** TrimLeft drops a run of newlines from the front. */
  lemma {:induction false} TrimLeftSplit(s: string)
    ensures s == Newlines(|s| - |TrimLeft(s)|) + TrimLeft(s)
  {
    if s != [] && s[0] == '\n' {
      TrimLeftSplit(s[1..]);
      assert s == [s[0]] + s[1..];
      assert [s[0]] + Newlines(|s| - 1 - |TrimLeft(s)|) == Newlines(|s| - |TrimLeft(s)|);
    } else {
      assert Newlines(0) + s == s;
    }
  }

  /** TrimRight drops a run of newlines from the back. */
  lemma {:induction false} TrimRightSplit(s: string)
    ensures s == TrimRight(s) + Newlines(|s| - |TrimRight(s)|)
  {
    if s != [] && s[|s| - 1] == '\n' {
      TrimRightSplit(s[..|s| - 1]);
      assert s == s[..|s| - 1] + [s[|s| - 1]];
      assert Newlines(|s| - 1 - |TrimRight(s)|) + [s[|s| - 1]] == Newlines(|s| - |TrimRight(s)|);
    } else {
      assert s + Newlines(0) == s;
    }
  }

  /** Trim yields `t` exactly when the text is `t` padded with newlines, for a `t` that
    * neither starts nor ends with one. */
  lemma TrimIff(s: string, t: string)
    requires t != [] && t[0] != '\n' && t[|t| - 1] != '\n'
    ensures Trim(s) == t <==> exists a, b :: s == Newlines(a) + t + Newlines(b)
  {
    if exists a, b :: s == Newlines(a) + t + Newlines(b) {
      var a, b :| s == Newlines(a) + t + Newlines(b);
      TrimPadded(a, t, b);
    }
    if Trim(s) == t {
      var l := TrimLeft(s);
      TrimLeftSplit(s);
      TrimRightSplit(l);
      var a, b := |s| - |l|, |l| - |t|;
      assert s == Newlines(a) + (t + Newlines(b));
      assert s == Newlines(a) + t + Newlines(b);
    }
  }

  /** The decoding both toggles use: the feature is off exactly when the trimmed content is "0". */
  predicate ReadsOn(content: string): (on: bool)
    ensures !on <==> exists a, b :: content == Newlines(a) + "0" + Newlines(b)
  {
    TrimIff(content, "0");
    Trim(content) != "0"
  }

  /** The Enabled of a toggle at `path`: false with the error when the file cannot be read,
    * otherwise whether its content reads as on. */
  function Enabled(fs: Files, path: string): (r: Reply)
    ensures r.err == ReadFile(fs, path).err
    ensures r.value <==> r.err == None && ReadsOn(fs[path].content)
  {
    var rd := ReadFile(fs, path);
    if rd.err != None then Reply(false, rd.err) else Reply(ReadsOn(rd.content), None)
  }

  /** The Disabled of a toggle: the negation of Enabled when it succeeds, false and its error otherwise. */
  function Disabled(fs: Files, path: string): (r: Reply)
    ensures r.err == Enabled(fs, path).err
    ensures r.value <==> r.err == None && !Enabled(fs, path).value
  {
    var e := Enabled(fs, path);
    if e.err != None then Reply(false, e.err) else Reply(!e.value, None)
  }

  /** A toggle reads as off exactly when its file is readable and holds "0" padded with newlines. */
  lemma EnabledIff(fs: Files, path: string)
    ensures Enabled(fs, path) == Reply(false, None) <==>
      path in fs && fs[path].readable && exists a, b :: fs[path].content == Newlines(a) + "0" + Newlines(b)
  {
    if path in fs && fs[path].readable {
      TrimIff(fs[path].content, "0");
    }
  }
}
