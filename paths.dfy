/** Unix path handling as the backend uses it through std::path: joining a
    directory and a name, and taking a path's file name, stem and parent.
    Separators are '/' only, and trailing separators and "." components are
    not normalised away. */
module Paths {
  import opened Common

  const Separator: char := '/'

  /** Index of the last occurrence of c in s, or -1 when there is none. */
  function LastIndexOf(s: string, c: char): (k: int)
    ensures -1 <= k < |s|
    ensures k >= 0 ==> s[k] == c
    ensures forall i :: k < i < |s| ==> s[i] != c
  {
    LastIndexBefore(s, c, |s|)
  }

  /** Index of the last occurrence of c among the first n characters of s. */
  function LastIndexBefore(s: string, c: char, n: nat): (k: int)
    requires n <= |s|
    ensures -1 <= k < n
    ensures k >= 0 ==> s[k] == c
    ensures forall i :: k < i < n ==> s[i] != c
  {
    if n == 0 then -1
    else if s[n - 1] == c then n - 1
    else LastIndexBefore(s, c, n - 1)
  }

  predicate IsAbsolute(p: string) {
    |p| > 0 && p[0] == Separator
  }

  /** PathBuf::join: an absolute name replaces the directory; otherwise a
      separator is put between the two unless the directory is empty or
      already ends in one. */
  function Join(dir: string, name: string): (p: string)
    ensures IsAbsolute(name) ==> p == name
  {
    if IsAbsolute(name) then name
    else if |dir| == 0 || dir[|dir| - 1] == Separator then dir + name
    else dir + [Separator] + name
  }

  /** The last component of p: what follows the last separator, absent when
      that is empty, "." or "..". */
  function FileName(p: string): (r: Option<string>)
    ensures r.Some? ==> r.value != "" && r.value != "." && r.value != ".."
  {
    var name := p[LastIndexOf(p, Separator) + 1..];
    if name == "" || name == "." || name == ".." then None else Some(name)
  }

  /** Path::file_stem: the file name without its last extension; a name
      whose only dot is its first character is its own stem. */
  function FileStem(p: string): (r: Option<string>)
    ensures r.Some? <==> FileName(p).Some?
    ensures r.Some? ==> r.value != ""
  {
    match FileName(p)
    case None => None
    case Some(name) =>
      var dot := LastIndexOf(name, '.');
      if dot <= 0 then Some(name) else Some(name[..dot])
  }

  /** Path::parent: p without its last component; the empty path and the
      root have none, and a bare name has the empty path as parent. */
  function Parent(p: string): (r: Option<string>)
    ensures r.None? <==> p == "" || p == [Separator]
  {
    if p == "" then None
    else
      var k := LastIndexOf(p, Separator);
      if k == -1 then Some("")
      else if k == 0 then (if |p| == 1 then None else Some([Separator]))
      else Some(p[..k])
  }

  /** A joined path ends with the name that was joined. */
  lemma JoinEndsWithName(dir: string, name: string)
    ensures |Join(dir, name)| >= |name| && Join(dir, name)[|Join(dir, name)| - |name|..] == name
  {
  }

  /** Joining onto one directory tells relative names apart. */
  lemma JoinNameInjective(dir: string, a: string, b: string)
    requires !IsAbsolute(a) && !IsAbsolute(b) && Join(dir, a) == Join(dir, b)
    ensures a == b
  {
    var prefix := if |dir| == 0 || dir[|dir| - 1] == Separator then dir else dir + [Separator];
    assert Join(dir, a) == prefix + a && Join(dir, b) == prefix + b;
    assert a == (prefix + a)[|prefix|..];
    assert b == (prefix + b)[|prefix|..];
  }

  /** The file name is a non-empty final component of the path: it holds
      no separator and is preceded by one unless it is the whole path. */
  lemma FileNameIsLastComponent(p: string)
    requires FileName(p).Some?
    ensures var n := FileName(p).value;
            && Separator !in n
            && |n| <= |p| && n == p[|p| - |n|..]
            && (|n| < |p| ==> p[|p| - |n| - 1] == Separator)
  {
  }

  /** The stem is the file name up to, and without, its last dot (a dot
      that is the name's first character does not count); it is the whole
      name exactly when no dot follows the name's first character. */
  lemma FileStemIsPrefix(p: string)
    requires FileStem(p).Some?
    ensures var n := FileName(p).value;
            var s := FileStem(p).value;
            && s <= n
            && (s != n ==> n[|s|] == '.' && '.' !in n[|s| + 1..])
            && (s == n ==> forall i :: 0 < i < |n| ==> n[i] != '.')
  {
  }

  /** The parent is a proper prefix of the path. */
  lemma ParentIsPrefix(p: string)
    requires Parent(p).Some?
    ensures |Parent(p).value| < |p| && Parent(p).value <= p
  {
  }

  /** The file name of a joined path is the name that was joined. */
  lemma {:induction false} FileNameOfJoin(dir: string, name: string)
    requires name != "" && name != "." && name != ".." && Separator !in name
    ensures FileName(Join(dir, name)) == Some(name)
  {
    var p := Join(dir, name);
    JoinEndsWithName(dir, name);
    var k := LastIndexOf(p, Separator);
    if |name| < |p| {
      assert p[|p| - |name| - 1] == Separator;
    }
    assert k == |p| - |name| - 1;
  }

  /** Joining a name onto a directory that does not end in a separator
      puts the result in that directory. */
  lemma {:induction false} ParentOfJoin(dir: string, name: string)
    requires name != "" && Separator !in name
    requires dir == [Separator] || (dir != "" && dir[|dir| - 1] != Separator) || dir == ""
    ensures Parent(Join(dir, name)) == Some(dir)
  {
    var p := Join(dir, name);
    var k := LastIndexOf(p, Separator);
    JoinEndsWithName(dir, name);
    if dir == "" {
      assert p == name;
      assert k == -1;
    } else if dir == [Separator] {
      assert p == [Separator] + name;
      assert p[0] == Separator;
      assert k == 0;
    } else {
      assert p == dir + [Separator] + name;
      assert p[|dir|] == Separator;
      assert k == |dir|;
      assert p[..k] == dir;
    }
  }
}
