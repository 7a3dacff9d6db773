/**
 The client-side validation layer of the HydroDS client: file-name syntax,
 the resampling-method whitelist, the float-only bounding box and the
 local save-as path. Each check either passes or raises before any request
 is built.
 */
module Validation {

  import opened Errors
  import opened Text
  import opened PyValues

  // ---------------------------------------------------------------------
  // File names
  // ---------------------------------------------------------------------

  /** Some character of `p[lo..hi]` is not a dot. */
  predicate HasNonDot(p: string, lo: int, hi: int)
    requires 0 <= lo && hi <= |p|
  {
    exists j :: lo <= j < hi && p[j] != '.'
  }

  /**
   `os.path.splitext` (POSIX): the extension starts at the last dot of the
   last path component, unless everything before that dot in the component
   is dots (a leading-dot name such as `.profile` has no extension).
   */
  function SplitExt(p: string): (r: (string, string))
    ensures r.0 + r.1 == p
    ensures r.1 == "" || (r.1[0] == '.' && '.' !in r.1[1..] && '/' !in r.1)
  {
    var sep := LastIndex(p, '/');
    var dot := LastIndex(p, '.');
    if dot > sep && HasNonDot(p, sep + 1, dot) then
      assert p[..dot] + p[dot..] == p;
      (p[..dot], p[dot..])
    else
      (p, "")
  }

  predicate NameChar(c: char) {
    IsAlnum(c) || c == '-' || c == '_'
  }

  /**
   `_is_file_name_valid(file_name, ext)`: the name part starts with a letter
   and continues with letters, digits, `-` or `_`; the extension after the
   dot is one or more letters; and it equals `ext` (dot included) when `ext`
   is given. The source never raises here; it answers false instead.
   An absent `ext` is the empty string.
   */
  predicate FileNameValid(fileName: string, ext: string) {
    var (name, e) := SplitExt(fileName);
    if |name| == 0 || |e| < 2 then false
    else if ext != "" && ext != e then false
    else
      && AllLetters(e[1..])
      && IsLetter(name[0])
      && (forall k :: 1 <= k < |name| ==> NameChar(name[k]))
  }

  /** `_is_file_name_valid` on an arbitrary Python value: anything but a string makes `splitext` raise, which the source turns into false. */
  predicate ValueIsValidFileName(v: PyValue, ext: string) {
    v.PyStr? && FileNameValid(v.s, ext)
  }

  /** Reference shape of a valid name, `[A-Za-z][A-Za-z0-9_-]*` */
  predicate NamePattern(n: string) {
    |n| >= 1 && IsLetter(n[0]) && forall k :: 1 <= k < |n| ==> NameChar(n[k])
  }

  /** Reference shape of a valid extension, `[A-Za-z]+` */
  predicate ExtPattern(e: string) {
    |e| >= 1 && AllLetters(e)
  }

  /** `f` is `name.ext` with both parts of the reference shape, and the dotted extension is `ext` when one is expected. */
  predicate MatchesFileNamePattern(f: string, ext: string) {
    exists i :: 0 <= i < |f| && f[i] == '.' && NamePattern(f[..i]) && ExtPattern(f[i + 1..])
                && (ext == "" || ext == f[i..])
  }

  lemma ValidNameSplit(f: string, ext: string)
    requires FileNameValid(f, ext)
    ensures var dot := LastIndex(f, '.');
            0 <= dot && SplitExt(f) == (f[..dot], f[dot..])
  {
  }

  /** The file-name check accepts exactly the names of the reference shape. */
  lemma FileNameValidIff(f: string, ext: string)
    ensures FileNameValid(f, ext) <==> MatchesFileNamePattern(f, ext)
  {
    if FileNameValid(f, ext) {
      var dot := LastIndex(f, '.');
      ValidNameSplit(f, ext);
      var e := f[dot..];
      assert e[1..] == f[dot + 1..];
      assert NamePattern(f[..dot]);
      assert ExtPattern(f[dot + 1..]);
      assert MatchesFileNamePattern(f, ext);
    }
    if MatchesFileNamePattern(f, ext) {
      var i :| 0 <= i < |f| && f[i] == '.' && NamePattern(f[..i]) && ExtPattern(f[i + 1..])
               && (ext == "" || ext == f[i..]);
      PatternSplit(f, i);
    }
  }

  /** On any Python value: only a string of the valid shape is accepted, and every other value is refused without raising. */
  lemma ValueFileNameIff(v: PyValue, ext: string)
    ensures ValueIsValidFileName(v, ext) <==> v.PyStr? && MatchesFileNamePattern(v.s, ext)
  {
    if v.PyStr? {
      FileNameValidIff(v.s, ext);
    }
  }

  /** A name of the reference shape is split by `splitext` exactly at its single dot. */
  lemma PatternSplit(f: string, i: int)
    requires 0 <= i < |f| && f[i] == '.' && NamePattern(f[..i]) && ExtPattern(f[i + 1..])
    ensures SplitExt(f) == (f[..i], f[i..])
  {
    forall j | 0 <= j < |f| && j != i
      ensures f[j] != '.' && f[j] != '/'
    {
      if j < i {
        assert f[j] == f[..i][j];
      } else {
        assert f[j] == f[i + 1..][j - i - 1];
      }
    }
    assert f[i] != '/';
    var dot := LastIndex(f, '.');
    assert dot == i;
    assert LastIndex(f, '/') == -1;
    assert f[0] == f[..i][0];
    assert HasNonDot(f, 0, i);
  }

  // ---------------------------------------------------------------------
  // Resampling methods
  // ---------------------------------------------------------------------

  /** The GDAL resampling methods the data service accepts. */
  const ResampleMethods: seq<string> :=
    ["near", "bilinear", "cubic", "cubicspline", "lanczos", "average", "mode", "max", "min",
     "med", "q1", "q3"]

  /**
   `_validate_resample_input`. The error message is formatted with a field
   name that is not supplied, so a rejected method raises a `KeyError`
   rather than the intended argument exception.
   */
  function ValidateResample(resample: string): (c: Check)
    ensures c.Pass? <==> resample in ResampleMethods
    ensures c.Fail? ==> c.error == KeyError("rsample")
  {
    Need(resample in ResampleMethods, KeyError("rsample"))
  }

  /**
   What every resampling operation does with its `resample` argument:
   lower-case it, validate it, and send the lower-cased text.
   */
  function ResampleChoice(raw: string): (r: Result<string>)
    ensures r.Ok? <==> Lower(raw) in ResampleMethods
    ensures r.Ok? ==> r.value == Lower(raw) && r.value in ResampleMethods
    ensures r.Err? ==> r.error.KeyError? && !r.error.ArgumentError?
  {
    var resample := Lower(raw);
    :- ValidateResample(resample);
    Ok(resample)
  }

  lemma {:induction false} LowerIdempotent(s: string)
    ensures Lower(Lower(s)) == Lower(s)
  {
    var l := Lower(s);
    assert forall i :: 0 <= i < |l| ==> LowerChar(l[i]) == l[i];
  }

  /** The choice of resampling method ignores letter case. */
  lemma ResampleCaseInsensitive(raw: string)
    ensures ResampleChoice(Lower(raw)) == ResampleChoice(raw)
  {
    LowerIdempotent(raw);
  }

  // ---------------------------------------------------------------------
  // Bounding box
  // ---------------------------------------------------------------------

  /**
   `_validate_boundary_box`: every coordinate must be a Python float; an
   int, even one numerically equal to a float, is rejected. The checks run
   in the order left, top, right, bottom and the first failure is raised.
   */
  function ValidateBoundaryBox(bottom: PyValue, left: PyValue, right: PyValue, top: PyValue): (c: Check)
    ensures c.Pass? <==> IsFloat(left) && IsFloat(top) && IsFloat(right) && IsFloat(bottom)
    ensures c.Fail? ==> c.error.ArgumentError?
    ensures !IsFloat(left) ==> c == Fail(ArgumentError("left value must be a decimal number"))
    ensures IsFloat(left) && !IsFloat(top) ==> c == Fail(ArgumentError("top value must be a decimal number"))
    ensures IsFloat(left) && IsFloat(top) && !IsFloat(right)
            ==> c == Fail(ArgumentError("right value must be a decimal number"))
    ensures IsFloat(left) && IsFloat(top) && IsFloat(right) && !IsFloat(bottom)
            ==> c == Fail(ArgumentError("bottom value must be a decimal number"))
  {
    if !IsFloat(left) then Fail(ArgumentError("left value must be a decimal number"))
    else if !IsFloat(top) then Fail(ArgumentError("top value must be a decimal number"))
    else if !IsFloat(right) then Fail(ArgumentError("right value must be a decimal number"))
    else if !IsFloat(bottom) then Fail(ArgumentError("bottom value must be a decimal number"))
    else Pass
  }

  // ---------------------------------------------------------------------
  // Local save-as path
  // ---------------------------------------------------------------------

  /** The local file system as the client sees it: which directories exist and which are writable. */
  datatype FileSystem = FileSystem(existing: set<string>, writable: set<string>)

  /** `os.path.exists(d)`: the empty path never exists. */
  predicate DirExists(fs: FileSystem, d: string) {
    d != "" && d in fs.existing
  }

  predicate AllSlashes(s: string) {
    forall k :: 0 <= k < |s| ==> s[k] == '/'
  }

  /** `s.rstrip('/')` */
  function RStripSlash(s: string): (r: string)
    ensures r <= s
    ensures r == [] || r[|r| - 1] != '/'
    ensures AllSlashes(s[|r|..])
  {
    if |s| > 0 && s[|s| - 1] == '/' then
      var t := s[..|s| - 1];
      var r := RStripSlash(t);
      forall k | |r| <= k < |s|
        ensures s[k] == '/'
      {
        if k < |s| - 1 {
          assert s[k] == t[|r|..][k - |r|];
        }
      }
      r
    else s
  }

  /** `os.path.dirname` (POSIX): the part before the last slash, trailing slashes removed unless it is all slashes. */
  function DirName(p: string): (d: string)
    ensures d <= p
    ensures '/' !in p ==> d == ""
  {
    var i := LastIndex(p, '/') + 1;
    var head := p[..i];
    if head != "" && !AllSlashes(head) then RStripSlash(head) else head
  }

  /** `os.path.basename` (POSIX): the part after the last slash. */
  function BaseName(p: string): (b: string)
    ensures '/' !in b
    ensures |b| <= |p| && p == p[..|p| - |b|] + b
    ensures '/' !in p ==> b == p
  {
    p[LastIndex(p, '/') + 1..]
  }

  /**
   `_validate_file_save_as(save_as, file_ext)`: the directory exists and is
   writable, the base name is a valid file name, and the extension is
   `fileExt` when one is expected.
   */
  function ValidateSaveAs(saveAs: string, fileExt: string, fs: FileSystem): (c: Check)
    ensures c.Pass? <==>
              && DirExists(fs, DirName(saveAs))
              && DirName(saveAs) in fs.writable
              && FileNameValid(BaseName(saveAs), "")
              && (fileExt == "" || SplitExt(saveAs).1 == fileExt)
    ensures c.Fail? ==> c.error.ArgumentError?
  {
    var dir := DirName(saveAs);
    if !DirExists(fs, dir) then
      Fail(ArgumentError("Specified file path (" + dir + ") to save does not exist."))
    else if dir !in fs.writable then
      Fail(ArgumentError("You do not have write permissions to directory '" + dir + "'."))
    else if !FileNameValid(BaseName(saveAs), "") then
      Fail(ArgumentError(BaseName(saveAs) + " is not a valid file name for saving the output file."))
    else if fileExt != "" && SplitExt(saveAs).1 != fileExt then
      Fail(ArgumentError("Invalid save as file type:" + SplitExt(saveAs).1 + ". File type must be:" + fileExt))
    else Pass
  }

  /** A save-as path without a directory part is always refused. */
  lemma BareSaveAsRefused(saveAs: string, fs: FileSystem)
    requires '/' !in saveAs
    ensures ValidateSaveAs(saveAs, "", fs).Fail?
  {
  }

  /** The `if save_as: self._validate_file_save_as(save_as)` preamble of every operation; an absent path is the empty string. */
  function CheckSaveAs(saveAs: string, fs: FileSystem): (c: Check)
    ensures saveAs == "" ==> c.Pass?
    ensures saveAs != "" ==> c == ValidateSaveAs(saveAs, "", fs)
  {
    if saveAs != "" then ValidateSaveAs(saveAs, "", fs) else Pass
  }
}
