// The .NET string and path helpers the helper class and the render scene call:
// String.Trim, String.IsNullOrWhiteSpace, Path.GetExtension and Path.Combine,
// following the .NET Framework rules on Windows (directory separators '\' and
// '/', volume separator ':').
module DotNetText {
  import opened Base

  /** Char.IsWhiteSpace: the Unicode space separators, line and paragraph
      separators, and the control characters U+0009..U+000D and U+0085. */
  predicate IsWhiteSpace(c: char)
  {
    var n := c as int;
    (0x09 <= n <= 0x0D) || n == 0x20 || n == 0x85 || n == 0xA0 || n == 0x1680
    || (0x2000 <= n <= 0x200A) || n == 0x2028 || n == 0x2029 || n == 0x202F
    || n == 0x205F || n == 0x3000
  }

  /** String.IsNullOrWhiteSpace for a non-null string: true exactly when
      trimming leaves nothing. */
  predicate IsNullOrWhiteSpace(s: string)
  {
    forall i :: 0 <= i < |s| ==> IsWhiteSpace(s[i])
  }

  /** String.TrimStart(): drops the leading white space and nothing else. */
  function TrimStart(s: string): (r: string)
    ensures |r| <= |s| && r == s[|s| - |r|..]
    ensures forall i :: 0 <= i < |s| - |r| ==> IsWhiteSpace(s[i])
    ensures r == [] || !IsWhiteSpace(r[0])
  {
    if |s| > 0 && IsWhiteSpace(s[0]) then TrimStart(s[1..]) else s
  }

  /** String.TrimEnd(): drops the trailing white space and nothing else. */
  function TrimEnd(s: string): (r: string)
    ensures |r| <= |s| && r == s[..|r|]
    ensures forall i :: |r| <= i < |s| ==> IsWhiteSpace(s[i])
    ensures r == [] || !IsWhiteSpace(r[|r| - 1])
  {
    if |s| > 0 && IsWhiteSpace(s[|s| - 1]) then TrimEnd(s[..|s| - 1]) else s
  }

  /** String.Trim(): the message with its leading and trailing white space
      removed and nothing else; the result neither starts nor ends with white
      space. */
  function Trim(s: string): (r: string)
    ensures |r| <= |s|
    ensures var a := |s| - |TrimStart(s)|;
      && a + |r| <= |s| && r == s[a..a + |r|]
      && (forall i :: 0 <= i < a ==> IsWhiteSpace(s[i]))
      && (forall i :: a + |r| <= i < |s| ==> IsWhiteSpace(s[i]))
    ensures r == [] || (!IsWhiteSpace(r[0]) && !IsWhiteSpace(r[|r| - 1]))
  {
    var t := TrimStart(s);
    TrimBothEnds(s, t, TrimEnd(t));
    TrimEnd(t)
  }

  /** Cutting a suffix `t` of `s` down to its prefix `r` leaves the slice of
      `s` that starts where `t` does; what was cut from `t` is still white
      space in `s`. */
  lemma TrimBothEnds(s: string, t: string, r: string)
    requires |t| <= |s| && t == s[|s| - |t|..]
    requires |r| <= |t| && r == t[..|r|]
    requires forall i :: |r| <= i < |t| ==> IsWhiteSpace(t[i])
    ensures |s| - |t| + |r| <= |s| && r == s[|s| - |t|..|s| - |t| + |r|]
    ensures forall i :: |s| - |t| + |r| <= i < |s| ==> IsWhiteSpace(s[i])
  {
    var a := |s| - |t|;
    forall i | a + |r| <= i < |s|
      ensures IsWhiteSpace(s[i])
    {
      assert s[i] == t[i - a];
    }
  }

  /** Trimming a string that is already trimmed changes nothing. */
  lemma TrimIdempotent(s: string)
    ensures Trim(Trim(s)) == Trim(s)
  {
    var t := Trim(s);
    assert TrimStart(t) == t;
    assert TrimEnd(t) == t;
  }

  /** A string is null-or-white-space exactly when trimming it leaves
      nothing. */
  lemma NullOrWhiteSpaceIffTrimmedEmpty(s: string)
    ensures IsNullOrWhiteSpace(s) <==> Trim(s) == []
  {
  }

  predicate IsSeparator(c: char)
  {
    c == '\\' || c == '/' || c == ':'
  }

  /** The index of the '.' that starts the file name's extension: the last '.'
      after the last separator, if there is one. */
  function ExtensionDot(path: string): (r: Option<nat>)
    ensures r.Some? ==> r.value < |path| && path[r.value] == '.'
    ensures r.Some? ==> forall i :: r.value < i < |path| ==> path[i] != '.' && !IsSeparator(path[i])
    ensures r.None? ==> forall i :: 0 <= i < |path| && path[i] == '.' ==>
      exists j :: i < j < |path| && IsSeparator(path[j])
  {
    if |path| == 0 then None
    else if path[|path| - 1] == '.' then Some(|path| - 1)
    else if IsSeparator(path[|path| - 1]) then None
    else
      var r := ExtensionDot(path[..|path| - 1]);
      assert forall i :: 0 <= i < |path| - 1 ==> path[..|path| - 1][i] == path[i];
      r
  }

  /** Path.GetExtension: the extension including its '.', or "" when the file
      name has none or ends with '.'. */
  function GetExtension(path: string): (r: string)
    ensures r == [] || (2 <= |r| <= |path| && r[0] == '.' && r == path[|path| - |r|..])
    ensures forall i :: 1 <= i < |r| ==> r[i] != '.' && !IsSeparator(r[i])
  {
    match ExtensionDot(path)
    case None => ""
    case Some(dot) => if dot == |path| - 1 then "" else path[dot..]
  }

  /** A path whose file name ends in "." + ext has exactly that extension. */
  lemma ExtensionOfFileName(stem: string, ext: string)
    requires ext != []
    requires forall i :: 0 <= i < |ext| ==> ext[i] != '.' && !IsSeparator(ext[i])
    ensures GetExtension(stem + "." + ext) == "." + ext
  {
    var path := stem + "." + ext;
    assert path[|stem|] == '.';
    assert forall i :: |stem| < i < |path| ==> path[i] == ext[i - |stem| - 1];
    assert path[|stem|..] == "." + ext;
  }

  predicate IsPathRooted(path: string)
  {
    (|path| >= 1 && (path[0] == '\\' || path[0] == '/')) || (|path| >= 2 && path[1] == ':')
  }

  /** Path.Combine(path1, path2): path2 alone when it is rooted or path1 is
      empty, otherwise the two joined by a '\' unless path1 already ends in a
      separator. */
  function Combine(path1: string, path2: string): (r: string)
    ensures path2 == "" ==> r == path1
    ensures path2 != "" ==> |r| >= |path2| && r[|r| - |path2|..] == path2
    ensures path2 != "" && path1 != "" && !IsPathRooted(path2) ==>
      |r| >= |path1| + |path2| && r[..|path1|] == path1
    ensures path2 != "" && (path1 == "" || IsPathRooted(path2)) ==> r == path2
    ensures path2 != "" && path1 != "" && !IsPathRooted(path2) ==>
      r == (if IsSeparator(path1[|path1| - 1]) then path1 + path2 else path1 + "\\" + path2)
  {
    if path2 == "" then path1
    else if path1 == "" || IsPathRooted(path2) then path2
    else if IsSeparator(path1[|path1| - 1]) then path1 + path2
    else path1 + "\\" + path2
  }

  /** Combining a base directory that does not end in a separator with two
      plain names joins all three with single '\' separators. */
  lemma CombineNested(basePath: string, dir: string, leaf: string)
    requires basePath != [] && !IsSeparator(basePath[|basePath| - 1])
    requires dir != [] && !IsPathRooted(dir) && !IsSeparator(dir[|dir| - 1])
    requires leaf != [] && !IsPathRooted(leaf)
    ensures Combine(Combine(basePath, dir), leaf) == basePath + "\\" + dir + "\\" + leaf
  {
    var first := basePath + "\\" + dir;
    assert Combine(basePath, dir) == first;
    assert first[|first| - 1] == dir[|dir| - 1];
  }
}
