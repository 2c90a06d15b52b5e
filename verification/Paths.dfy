/** Unix paths as `std::path` handles them: joining, and the last component. */
module Paths {
  import opened Wrappers

  /** `PathBuf::push` and `Path::join`: an absolute argument replaces the base, otherwise a
      separator is inserted where the base does not end in one. */
  function Push(base: string, t: string): string {
    if t != "" && t[0] == '/' then t
    else if base == "" || base[|base| - 1] == '/' then base + t
    else base + "/" + t
  }

  /** The number of characters up to and including the last slash. */
  function AfterSlash(p: string): (n: nat)
    ensures n <= |p|
    ensures forall i | n <= i < |p| :: p[i] != '/'
    ensures n > 0 ==> p[n - 1] == '/'
  {
    if p == "" then 0
    else if p[|p| - 1] == '/' then |p|
    else AfterSlash(p[..|p| - 1])
  }

  /** `Path::file_name`: the last component, when it is a normal one; empty and `.` components
      do not count. */
  function FileName(p: string): Option<string>
    decreases |p|
  {
    var n := AfterSlash(p);
    var last := p[n..];
    if last == "" || last == "." then
      if n == 0 then None else FileName(p[..n - 1])
    else if last == ".." then None
    else Some(last)
  }

  function LastDot(name: string): (n: nat)
    ensures n <= |name|
    ensures n < |name| ==> name[n] == '.' && forall i | n < i < |name| :: name[i] != '.'
  {
    if name == "" then 0
    else if name[|name| - 1] == '.' then |name| - 1
    else
      var n := LastDot(name[..|name| - 1]);
      if n == |name| - 1 then |name| else n
  }

  /** `Path::file_stem`: the file name without its extension; a leading dot starts no
      extension. */
  function FileStem(p: string): Option<string> {
    match FileName(p)
    case None => None
    case Some(name) =>
      var n := LastDot(name);
      Some(if n == 0 then name else name[..n])
  }

  /** Text that pushing adds as exactly one normal component. */
  predicate PlainComponent(t: string) {
    t != "" && t != "." && t != ".." && '/' !in t
  }

  lemma SlashPosition(p: string, n: nat)
    requires n <= |p|
    requires n == 0 || p[n - 1] == '/'
    requires forall i | n <= i < |p| :: p[i] != '/'
    ensures AfterSlash(p) == n
  {
  }

  /** A plain component pushed last is the file name read back. */
  lemma FileNameOfPush(base: string, t: string)
    requires PlainComponent(t)
    ensures FileName(Push(base, t)) == Some(t)
  {
    var p := Push(base, t);
    var n := |p| - |t|;
    assert p[n..] == t;
    forall i | n <= i < |p| ensures p[i] != '/' {
      assert p[i] == t[i - n];
    }
    SlashPosition(p, n);
  }

  lemma FileStemAt(base: string, name: string, n: nat)
    requires PlainComponent(name) && LastDot(name) == n
    ensures FileStem(Push(base, name)) == Some(if n == 0 then name else name[..n])
  {
    FileNameOfPush(base, name);
  }

  /** The stem of a file name ends before its last dot. */
  lemma FileStemWithExtension(base: string, stem: string, extension: string)
    requires stem != "" && '/' !in stem && '/' !in extension && '.' !in extension
    requires PlainComponent(stem + "." + extension)
    ensures FileStem(Push(base, stem + "." + extension)) == Some(stem)
  {
    var name := stem + "." + extension;
    DotPosition(name, |stem|);
    assert name[..|stem|] == stem;
    FileStemAt(base, name, |stem|);
  }

  /** A name without a dot, or with one at its start only, is its own stem. */
  lemma FileStemWithoutExtension(base: string, name: string)
    requires PlainComponent(name) && '.' !in name[1..]
    ensures FileStem(Push(base, name)) == Some(name)
  {
    var n := if name[0] == '.' then 0 else |name|;
    assert forall i | 0 < i < |name| :: name[i] == name[1..][i - 1];
    DotPosition(name, n);
    assert name[..|name|] == name;
    FileStemAt(base, name, n);
  }

  lemma DotPosition(name: string, n: nat)
    requires n <= |name| && (n < |name| ==> name[n] == '.')
    requires forall i | n < i < |name| :: name[i] != '.'
    requires n == |name| ==> '.' !in name
    ensures LastDot(name) == n
  {
  }

  /** Pushing puts the text below the base, unless it is absolute and takes the base's place. */
  lemma PushExactly(base: string, t: string)
    ensures t != "" && t[0] == '/' ==> Push(base, t) == t
    ensures (t == "" || t[0] != '/') && base != "" && base[|base| - 1] != '/' ==> Push(base, t) == base + "/" + t
    ensures (t == "" || t[0] != '/') && (base == "" || base[|base| - 1] == '/') ==> Push(base, t) == base + t
  {
  }

  /** Pushing different texts without slashes gives different paths. */
  lemma PushKeepsText(base: string, a: string, b: string)
    requires '/' !in a && '/' !in b
    ensures Push(base, a) == Push(base, b) <==> a == b
  {
    if Push(base, a) == Push(base, b) {
      var p, n := Push(base, a), |Push(base, a)| - |a|;
      assert |a| == |b| && p[n..] == a && p[n..] == b;
    }
  }

  /** Plain components give distinct children. */
  lemma PushInjective(base: string, a: string, b: string)
    requires PlainComponent(a) && PlainComponent(b)
    requires Push(base, a) == Push(base, b)
    ensures a == b
  {
    FileNameOfPush(base, a);
    FileNameOfPush(base, b);
  }
}
