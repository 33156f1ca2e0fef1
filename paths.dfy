/** POSIX path handling as the modelled code uses it: `Path(p).name`,
    `Path(p).suffix` (pathlib) and `os.path.join(a, b)`. */
module Paths {
  import opened Text

  /** `s.rfind(c)`: the last index holding `c`, or -1. */
  function LastIndexOf(s: string, c: char): (r: int)
    ensures -1 <= r < |s|
    ensures r >= 0 ==> s[r] == c
    ensures forall j :: r < j < |s| ==> s[j] != c
  {
    if |s| == 0 then -1
    else if s[|s| - 1] == c then |s| - 1
    else LastIndexOf(s[..|s| - 1], c)
  }

  /** `PurePosixPath(p).name`: the last component of `p`, empty and `.`
      components being skipped; empty when there is none. */
  function PathName(p: string): (r: string)
    ensures |r| <= |p|
    decreases |p|
  {
    var i := LastIndexOf(p, '/');
    if i + 1 < |p| && p[i + 1..] != "." then p[i + 1..]
    else if i < 0 then ""
    else PathName(p[..i])
  }

  /** A name never contains the separator and is never `.`. */
  lemma {:induction false} PathNameIsComponent(p: string)
    ensures '/' !in PathName(p)
    ensures PathName(p) != "."
    decreases |p|
  {
    var i := LastIndexOf(p, '/');
    if i + 1 < |p| && p[i + 1..] != "." {
      var t := p[i + 1..];
      forall j | 0 <= j < |t| ensures t[j] != '/' {
        assert t[j] == p[i + 1 + j];
      }
    } else if i >= 0 {
      PathNameIsComponent(p[..i]);
    }
  }

  /** A plain file name is its own name, alone or after any directory. */
  lemma PathNameOfFile(dir: string, name: string)
    requires name != "" && name != "." && '/' !in name
    ensures PathName(name) == name
    ensures PathName(dir + "/" + name) == name
  {
    assert LastIndexOf(name, '/') == -1;
    var p := dir + "/" + name;
    var i := LastIndexOf(p, '/');
    assert p[|dir|] == '/';
    assert forall j :: |dir| < j < |p| ==> p[j] == name[j - |dir| - 1];
    assert i == |dir|;
    assert p[i + 1..] == name;
  }

  /** `stem.ext` is a plain name when neither part holds a separator. */
  lemma DottedNameIsPlain(stem: string, ext: string)
    requires '/' !in stem && '/' !in ext
    ensures '/' !in stem + "." + ext
  {
    var name := stem + "." + ext;
    forall j | 0 <= j < |name| ensures name[j] != '/' {
      if j < |stem| { assert name[j] == stem[j]; }
      else if j > |stem| { assert name[j] == ext[j - |stem| - 1]; }
    }
  }

  /** `PurePosixPath(p).suffix` of a name: from its last dot on, provided
      that dot is neither the first nor the last character. */
  function Suffix(name: string): (r: string)
    ensures r == "" || (r[0] == '.' && 0 < |name| - |r| && EndsWith(name, r) && '.' !in r[1..] && |r| >= 2)
  {
    var i := LastIndexOf(name, '.');
    if 0 < i < |name| - 1 then
      var t := name[i + 1..];
      assert forall j :: 0 <= j < |t| ==> t[j] != '.';
      name[i..]
    else ""
  }

  /** The suffix of `stem.ext` is `.ext` when the stem is not empty and the
      extension is non-empty and dot-free. */
  lemma {:induction false} SuffixOfStemExt(stem: string, ext: string)
    requires stem != "" && ext != "" && '.' !in ext
    ensures Suffix(stem + "." + ext) == "." + ext
  {
    var name := stem + "." + ext;
    assert name[|stem|] == '.';
    assert forall j :: |stem| < j < |name| ==> name[j] == ext[j - |stem| - 1];
    assert LastIndexOf(name, '.') == |stem|;
    assert name[|stem|..] == "." + ext;
  }

  /** A name without a dot after its first character has no suffix. */
  lemma NoSuffixWithoutDot(name: string)
    requires |name| > 0 && '.' !in name[1..]
    ensures Suffix(name) == ""
  {
  }

  /** `os.path.join(a, b)`: an absolute `b` replaces `a`; otherwise the two
      are joined by a single separator unless `a` is empty or already ends
      with one. */
  function JoinPath(a: string, b: string): (r: string)
    ensures StartsWith(b, "/") ==> r == b
    ensures !StartsWith(b, "/") ==> EndsWith(r, b) && StartsWith(r, a)
    ensures !StartsWith(b, "/") && a != "" && !EndsWith(a, "/") ==> r == a + "/" + b
  {
    if StartsWith(b, "/") then b
    else if a == "" || EndsWith(a, "/") then a + b
    else a + "/" + b
  }

  /** Joining a plain file name keeps it as the name of the result. */
  lemma JoinPathName(dir: string, name: string)
    requires dir != "" && name != "" && name != "." && '/' !in name
    ensures PathName(JoinPath(dir, name)) == name
  {
    if EndsWith(dir, "/") {
      var d := dir[..|dir| - 1];
      assert dir == d + "/";
      assert dir + name == d + "/" + name;
      PathNameOfFile(d, name);
    } else {
      PathNameOfFile(dir, name);
    }
  }
}
