/**
 * Values shared by the document control and the main window: positions,
 * brushes, and the two string operations both save paths apply to a file
 * name (its extension, folded to lower case).
 */
module Common {

  datatype Option<T> = None | Some(value: T)

  /** A position in a canvas's own coordinate space. */
  datatype Point = Point(x: real, y: real)

  /**
   * A brush is an opaque colour. The editor names a transparent brush (the
   * fill of every ellipse), a white one (the background of a blank canvas) and
   * a black one (the initial pen colour); any other colour comes from a colour
   * name the user picked.
   */
  datatype Brush = Transparent | Named(name: string)

  const BLACK: Brush := Named("Black")
  const WHITE: Brush := Named("White")

  function Min(a: real, b: real): (m: real)
    ensures m <= a && m <= b
    ensures m == a || m == b
  {
    if a <= b then a else b
  }

  function Abs(a: real): (r: real)
    ensures r >= 0.0
    ensures r == a || r == -a
  {
    if a < 0.0 then -a else a
  }

  /** The three bitmap encoders the editor can write with. */
  datatype Encoder = Png | Jpeg | Bmp

  // ---------------------------------------------------------------------------
  // Lower-case folding (string.ToLower, on the ASCII letters)

  function LowerChar(c: char): char {
    if 'A' <= c <= 'Z' then (c as int + 32) as char else c
  }

  function Lower(s: string): (r: string)
    ensures |r| == |s|
    ensures forall i :: 0 <= i < |s| ==> r[i] == LowerChar(s[i])
  {
    if s == [] then [] else Lower(s[..|s| - 1]) + [LowerChar(s[|s| - 1])]
  }

  lemma {:induction false} LowerOfSuffix(s: string, i: nat)
    requires i <= |s|
    ensures Lower(s[i..]) == Lower(s)[i..]
  {
    var a, b := Lower(s[i..]), Lower(s)[i..];
    assert |a| == |b|;
    forall k | 0 <= k < |a| ensures a[k] == b[k] {
      assert s[i..][k] == s[i + k];
    }
  }

  /** Folding twice is folding once. */
  lemma {:induction false} LowerIdempotent(s: string)
    ensures Lower(Lower(s)) == Lower(s)
  {
    var a, b := Lower(Lower(s)), Lower(s);
    assert |a| == |b|;
    forall k | 0 <= k < |a| ensures a[k] == b[k] {
      assert LowerChar(LowerChar(s[k])) == LowerChar(s[k]);
    }
  }

  // ---------------------------------------------------------------------------
  // File-name extension (Path.GetExtension)

  /** The two directory separators a Windows path may use. */
  predicate IsSeparator(c: char) {
    c == '\\' || c == '/'
  }

  /**
   * The '.' at index i starts the extension of path: it is not the last
   * character, and no '.' and no directory separator follows it.
   */
  predicate ExtensionAt(path: string, i: int) {
    0 <= i < |path| - 1 && path[i] == '.' &&
    forall k :: i < k < |path| ==> path[k] != '.' && !IsSeparator(path[k])
  }

  /**
   * The extension of a file name, with its leading '.': the text from the
   * last '.' of the last path component, or "" when that component has no
   * '.' or ends with one.
   */
  function Extension(path: string): (ext: string)
    ensures forall i :: ExtensionAt(path, i) ==> ext == path[i..]
    ensures ext == [] || exists i :: ExtensionAt(path, i) && ext == path[i..]
  {
    ExtensionBefore(path, |path|)
  }

  /** Scans path[..n] backwards; everything from n on is known to be plain text. */
  function ExtensionBefore(path: string, n: nat): (ext: string)
    requires n <= |path|
    requires forall k :: n <= k < |path| ==> path[k] != '.' && !IsSeparator(path[k])
    ensures forall i :: ExtensionAt(path, i) ==> ext == path[i..]
    ensures ext == [] || exists i :: ExtensionAt(path, i) && ext == path[i..]
    decreases n
  {
    if n == 0 then []
    else if path[n - 1] == '.' then
      (if n == |path| then [] else assert ExtensionAt(path, n - 1); path[n - 1..])
    else if IsSeparator(path[n - 1]) then []
    else ExtensionBefore(path, n - 1)
  }

  /** Case folding does not move the extension: '.' and the separators are not letters. */
  lemma ExtensionOfLower(path: string)
    ensures Extension(Lower(path)) == Lower(Extension(path))
  {
    var low := Lower(path);
    forall i ensures ExtensionAt(low, i) <==> ExtensionAt(path, i) {
      if 0 <= i < |path| {
        forall k | i <= k < |path|
          ensures (low[k] == '.' <==> path[k] == '.') && (IsSeparator(low[k]) <==> IsSeparator(path[k]))
        {
        }
      }
    }
    if i :| ExtensionAt(path, i) {
      LowerOfSuffix(path, i);
    }
  }

  // ---------------------------------------------------------------------------
  // File name (Path.GetFileName)

  /** The last component of a path: everything after its last directory separator. */
  function FileName(path: string): (name: string)
    ensures |name| <= |path|
  {
    if path == [] || IsSeparator(path[|path| - 1]) then []
    else FileName(path[..|path| - 1]) + [path[|path| - 1]]
  }

  /**
   * The file name is a suffix of the path with no separator in it, and
   * whatever precedes it in the path is a separator.
   */
  lemma {:induction false} FileNameIsLastComponent(path: string)
    ensures var name := FileName(path);
      name == path[|path| - |name|..] &&
      (forall k :: 0 <= k < |name| ==> !IsSeparator(name[k])) &&
      (|name| < |path| ==> IsSeparator(path[|path| - |name| - 1]))
  {
    if path != [] && !IsSeparator(path[|path| - 1]) {
      var init := path[..|path| - 1];
      FileNameIsLastComponent(init);
      var name := FileName(path);
      assert name == FileName(init) + [path[|path| - 1]];
      assert init[|init| - |FileName(init)|..] + [path[|path| - 1]] == path[|path| - |name|..];
    }
  }
}
