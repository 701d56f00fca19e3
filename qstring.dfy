/** The few QString and QFileInfo operations the command queue and the upload
    command use to take paths apart: lastIndexOf, mid (with its default length
    of -1) and the last path component. */
module QtString {

  /** QString::lastIndexOf for a one-character needle: the index of the last
      occurrence of c in s, or -1 when s does not contain c. */
  function LastIndexOf(s: string, c: char): (r: int)
    ensures -1 <= r < |s|
    ensures r == -1 <==> c !in s
    ensures 0 <= r ==> s[r] == c
  {
    if s == [] then -1
    else if s[|s| - 1] == c then |s| - 1
    else LastIndexOf(s[..|s| - 1], c)
  }

  /** No occurrence of c follows the one LastIndexOf finds. */
  lemma {:induction false} LastIndexOfIsLast(s: string, c: char)
    ensures forall j :: LastIndexOf(s, c) < j < |s| ==> s[j] != c
  {
    if s != [] && s[|s| - 1] != c {
      var init := s[..|s| - 1];
      LastIndexOfIsLast(init, c);
      assert forall j :: LastIndexOf(s, c) < j < |s| - 1 ==> s[j] == init[j];
    }
  }

  /** QString::mid(position) with the default length -1: everything from
      position on; a negative position gives back the whole string. */
  function Mid(s: string, position: int): string
    requires position <= |s|
  {
    if position < 0 then s else s[position..]
  }

  /** mid(position) is the suffix of s that starts at position, and all of s
      when position is negative. */
  lemma MidIsSuffix(s: string, position: int)
    requires position <= |s|
    ensures position < 0 ==> Mid(s, position) == s
    ensures 0 <= position ==> |Mid(s, position)| == |s| - position && s[..position] + Mid(s, position) == s
  {
  }

  /** name is what follows the last '/' of path, or all of path when it has no '/'. */
  ghost predicate IsLastComponent(path: string, name: string) {
    |name| <= |path| && path[|path| - |name|..] == name && '/' !in name &&
    (|name| < |path| ==> path[|path| - |name| - 1] == '/')
  }

  /** The last component of a path, which QFileInfo::fileName gives: the
      characters after the last '/' (FileNameIsLastComponent), which
      path.mid(path.lastIndexOf("/") + 1) computes (FileNameIsMid). */
  function FileName(path: string): (name: string)
    ensures |name| <= |path| && '/' !in name
  {
    if path == [] || path[|path| - 1] == '/' then []
    else FileName(path[..|path| - 1]) + [path[|path| - 1]]
  }

  /** FileName gives the last component of the path. */
  lemma {:induction false} FileNameIsLastComponent(path: string)
    ensures IsLastComponent(path, FileName(path))
  {
    if path != [] && path[|path| - 1] != '/' {
      FileNameIsLastComponent(path[..|path| - 1]);
      LastComponentAppend(path, FileName(path[..|path| - 1]));
    }
  }

  /** A path whose last character is not '/' has as last component that of
      the path without it, followed by that character. */
  lemma LastComponentAppend(path: string, name: string)
    requires path != [] && path[|path| - 1] != '/'
    requires IsLastComponent(path[..|path| - 1], name)
    ensures IsLastComponent(path, name + [path[|path| - 1]])
  {
    var init, n := path[..|path| - 1], name + [path[|path| - 1]];
    assert path[|path| - |n|..] == init[|init| - |name|..] + [path[|path| - 1]];
    if |n| < |path| {
      assert path[|path| - |n| - 1] == init[|init| - |name| - 1];
    }
  }

  /** The last component is what mid after lastIndexOf("/") computes. */
  lemma {:induction false} FileNameIsMid(path: string)
    ensures FileName(path) == Mid(path, LastIndexOf(path, '/') + 1)
  {
    if path != [] && path[|path| - 1] != '/' {
      FileNameIsMid(path[..|path| - 1]);
      MidAppend(path, LastIndexOf(path[..|path| - 1], '/') + 1);
    }
  }

  /** Taking mid of a path from a position before its last character keeps
      that character at the end. */
  lemma MidAppend(path: string, position: int)
    requires 0 <= position < |path|
    ensures Mid(path, position) == Mid(path[..|path| - 1], position) + [path[|path| - 1]]
  {
    assert path[position..] == path[..|path| - 1][position..] + [path[|path| - 1]];
  }

  /** A longer suffix of path covers the '/' in front of a shorter one. */
  lemma LongerSuffixHoldsSlash(path: string, short: string, long: string)
    requires |short| < |long| <= |path|
    requires path[|path| - |long|..] == long
    requires path[|path| - |short| - 1] == '/'
    ensures '/' in long
  {
    assert long[|long| - |short| - 1] == path[|path| - |short| - 1];
  }

  /** At most one string is the last component of a path. */
  lemma LastComponentUnique(path: string, a: string, b: string)
    requires IsLastComponent(path, a) && IsLastComponent(path, b)
    ensures a == b
  {
    if |a| < |b| {
      LongerSuffixHoldsSlash(path, a, b);
      assert false;
    } else if |b| < |a| {
      LongerSuffixHoldsSlash(path, b, a);
      assert false;
    }
  }

  /** A name without '/' placed under a directory is that path's file name. */
  lemma FileNameUnder(dir: string, name: string)
    requires '/' !in name
    ensures FileName(dir + "/" + name) == name
  {
    var path := dir + "/" + name;
    assert path[|path| - |name|..] == name;
    assert |name| < |path| && path[|path| - |name| - 1] == '/';
    FileNameIsLastComponent(path);
    LastComponentUnique(path, name, FileName(path));
  }

  /** path.mid(path.lastIndexOf('/')): the last component WITH the '/' that
      precedes it, or the whole path when it has no '/'. */
  function SlashSuffix(path: string): (r: string)
    ensures '/' in path ==> r == "/" + FileName(path)
    ensures '/' !in path ==> r == path
  {
    FileNameIsMid(path);
    var i := LastIndexOf(path, '/');
    if 0 <= i then
      assert path[i..] == [path[i]] + path[i + 1..];
      Mid(path, i)
    else
      Mid(path, i)
  }
}
