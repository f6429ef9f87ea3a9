/**
 Path.GetFileNameWithoutExtension as the deck builder uses it to name each picture:
 the text after the last directory or volume separator, cut at its last '.'.
 The functions carry no contract of their own (they are unfolded inside every build);
 what they compute is stated by the lemmas below them.
 */
module Paths {

  /** The Windows directory separators and the volume separator. */
  predicate IsSeparator(c: char) {
    c == '\\' || c == '/' || c == ':'
  }

  /** The final path component. */
  function FileName(path: string): string
    decreases |path|
  {
    if path == [] || IsSeparator(path[|path| - 1]) then []
    else FileName(path[..|path| - 1]) + [path[|path| - 1]]
  }

  /** The name up to (not including) its last '.', or the whole name when it has none. */
  function WithoutExtension(name: string): string
    decreases |name|
  {
    if '.' !in name then name
    else if name[|name| - 1] == '.' then name[..|name| - 1]
    else
      var init := name[..|name| - 1];
      assert '.' in init;
      WithoutExtension(init)
  }

  function FileNameWithoutExtension(path: string): string {
    WithoutExtension(FileName(path))
  }

  /** FileName is the longest suffix of the path without a separator. */
  lemma {:induction false} FileNameIsLastComponent(path: string)
    ensures var r := FileName(path);
      && |r| <= |path| && r == path[|path| - |r|..]
      && (forall i :: 0 <= i < |r| ==> !IsSeparator(r[i]))
      && (|r| < |path| ==> IsSeparator(path[|path| - |r| - 1]))
    decreases |path|
  {
    if path != [] && !IsSeparator(path[|path| - 1]) {
      var init := path[..|path| - 1];
      FileNameIsLastComponent(init);
      var r0 := FileName(init);
      assert FileName(path) == r0 + [path[|path| - 1]];
      assert r0 + [path[|path| - 1]] == path[|path| - |r0| - 1..];
    }
  }

  /** WithoutExtension cuts the name just before its last '.', and leaves a name without '.' alone. */
  lemma {:induction false} WithoutExtensionCutsLastDot(name: string)
    ensures var r := WithoutExtension(name);
      && |r| <= |name| && r == name[..|r|]
      && ('.' !in name ==> r == name)
      && ('.' in name ==> |r| < |name| && name[|r|] == '.' && '.' !in name[|r| + 1..])
    decreases |name|
  {
    if '.' in name && name[|name| - 1] != '.' {
      var init := name[..|name| - 1];
      assert '.' in init;
      WithoutExtensionCutsLastDot(init);
      var r := WithoutExtension(init);
      assert name[..|r|] == init[..|r|];
      assert name[|r| + 1..] == init[|r| + 1..] + [name[|name| - 1]];
    }
  }

  /** The name given to a picture never contains a separator. */
  lemma FileNameWithoutExtensionHasNoSeparator(path: string)
    ensures var r := FileNameWithoutExtension(path);
      forall i :: 0 <= i < |r| ==> !IsSeparator(r[i])
  {
    FileNameIsLastComponent(path);
    WithoutExtensionCutsLastDot(FileName(path));
    var n := FileName(path);
    var r := WithoutExtension(n);
    forall i | 0 <= i < |r| ensures !IsSeparator(r[i]) {
      assert r[i] == n[i];
    }
  }
}
