/**
 * Extension handling of the watermark package: lower-casing, the extension
 * of a path, the fixed allow-list with its validator `IsAllowExt`, and the
 * `switch` that maps a lower-cased extension to an image format.
 */
module Extensions {
  import opened Wrappers

  /** ASCII lower-casing of one character; every other character is kept. */
  function LowerChar(c: char): char {
    if 'A' <= c <= 'Z' then (c as int - 'A' as int + 'a' as int) as char else c
  }

  /** `strings.ToLower`, restricted to ASCII letters. */
  function Lower(s: string): (r: string)
    ensures |r| == |s|
    ensures forall i :: 0 <= i < |s| ==> r[i] == LowerChar(s[i])
  {
    if s == [] then [] else [LowerChar(s[0])] + Lower(s[1..])
  }

  /** Lower-casing twice is lower-casing once. */
  lemma {:induction false} LowerIdempotent(s: string)
    ensures Lower(Lower(s)) == Lower(s)
  {
    if s != [] {
      LowerIdempotent(s[1..]);
      assert Lower(s)[1..] == Lower(s[1..]);
    }
  }

  /** An element of a path never holds the separator. */
  const SEPARATOR: char := '/'

  /** Every '.' of `path` lies before some separator: the final element has no dot. */
  ghost predicate NoDotInFinalElement(path: string) {
    forall k :: 0 <= k < |path| && path[k] == '.' ==>
      exists j :: k < j < |path| && path[j] == SEPARATOR
  }

  /**
   * `filepath.Ext` for slash-separated paths: the suffix of `path` that starts
   * at the last '.' of its final element, or "" when that element has no dot.
   */
  function PathExt(path: string): (e: string)
    ensures |e| <= |path| && e == path[|path| - |e|..]
    ensures e != [] ==> e[0] == '.'
    ensures forall k :: 0 < k < |e| ==> e[k] != '.' && e[k] != SEPARATOR
    ensures e == [] ==> NoDotInFinalElement(path)
  {
    if path == [] then []
    else
      var c := path[|path| - 1];
      if c == SEPARATOR then
        []
      else if c == '.' then "."
      else
        var init := path[..|path| - 1];
        var e := PathExt(init);
        assert forall k :: 0 <= k < |init| ==> init[k] == path[k];
        if e == [] then [] else e + [c]
  }

  /** The extensions a watermark target may have: `allowExts`. */
  const ALLOW_EXTS: seq<string> := [".jpg", ".jpeg", ".png"]

  /** `ext` is on the allow-list once lower-cased. */
  predicate Allowed(ext: string)
  {
    Lower(ext) in ALLOW_EXTS
  }

  /** Every allowed extension is non-empty and starts with '.', so it passes both guards of `IsAllowExt`. */
  lemma AllowedIsDotPrefixed(ext: string)
    requires Allowed(ext)
    ensures ext != [] && ext[0] == '.'
  {
    assert LowerChar(ext[0]) == Lower(ext)[0] == '.';
  }

  /** The two argument errors on which `IsAllowExt` panics. */
  datatype ArgError = EmptyExt | MissingDot

  /**
   * `IsAllowExt`: an empty argument or one that does not start with '.' is a
   * contract violation; otherwise the lower-cased argument is looked up in the
   * allow-list, returning at the first match.
   */
  method IsAllowExt(ext: string) returns (r: Result<bool, ArgError>)
    ensures ext == [] <==> r == Failure(EmptyExt)
    ensures (ext != [] && ext[0] != '.') <==> r == Failure(MissingDot)
    ensures ext != [] && ext[0] == '.' ==> r == Success(Allowed(ext))
  {
    if ext == [] {
      return Failure(EmptyExt);
    }
    if ext[0] != '.' {
      return Failure(MissingDot);
    }
    var lower := Lower(ext);
    for i := 0 to |ALLOW_EXTS|
      invariant forall j :: 0 <= j < i ==> ALLOW_EXTS[j] != lower
    {
      if ALLOW_EXTS[i] == lower {
        return Success(true);
      }
    }
    return Success(false);
  }

  /** The image formats the package decodes and encodes. */
  datatype Format = Jpeg | Png

  /** The `switch` on an already lower-cased extension; `None` is its `default` branch. */
  function FormatOf(e: string): (r: Option<Format>)
    ensures r.Some? <==> e in ALLOW_EXTS
    ensures r == Some(Jpeg) <==> e in ALLOW_EXTS[..2]
    ensures r == Some(Png) <==> e == ALLOW_EXTS[2]
  {
    if e == ".jpg" || e == ".jpeg" then Some(Jpeg)
    else if e == ".png" then Some(Png)
    else None
  }

  /** The format chosen for `ext` by `switch strings.ToLower(ext)`. */
  function Classify(ext: string): (r: Option<Format>)
    ensures r.Some? <==> Allowed(ext)
    ensures r == Some(Jpeg) <==> Lower(ext) in ALLOW_EXTS[..2]
    ensures r == Some(Png) <==> Lower(ext) == ALLOW_EXTS[2]
  {
    FormatOf(Lower(ext))
  }

  /** Case does not matter, neither to the allow-list nor to the classification. */
  lemma ClassifyIgnoresCase(ext: string)
    ensures Allowed(Lower(ext)) == Allowed(ext)
    ensures Classify(Lower(ext)) == Classify(ext)
  {
    LowerIdempotent(ext);
  }

  /** The allow-listed extensions and their upper-case forms are allowed. */
  lemma AllowedExamples()
    ensures Allowed(".jpg") && Allowed(".jpeg") && Allowed(".png")
    ensures Allowed(".JPG") && Allowed(".JPEG") && Allowed(".PNG")
  {
    assert Lower(".jpg") == Lower(".JPG") == ".jpg";
    assert Lower(".jpeg") == Lower(".JPEG") == ".jpeg";
    assert Lower(".png") == Lower(".PNG") == ".png";
  }

  /** Other dot-prefixed extensions are not allowed. */
  lemma RejectedExamples()
    ensures !Allowed(".gif") && !Allowed(".") && !Allowed(".jpg.png")
  {
  }
}
