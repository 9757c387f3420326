/**
 * The two pure helpers the backend hands to its upload middleware: the
 * name a stored upload gets on disk, and the MIME-type filter.
 *
 * `path.extname` and `path.basename` are modelled in their POSIX form:
 * both look only at the last `/`-separated segment of the name, after
 * trailing slashes are dropped.
 */
module UploadStorage {
  import opened JsText

  /** The longest sanitised base name kept. */
  const MAX_BASE_LENGTH: nat := 80

  /** The name used when the base name is empty. */
  const DEFAULT_BASE: string := "file"

  /** The error the filter reports for every other type. */
  const FILTER_ERROR: string := "Only image and video files are allowed"

  // ---------------------------------------------------------------------
  // path.basename / path.extname

  /** `p` without its trailing slashes. */
  function DropTrailingSlashes(p: string): (r: string)
    ensures |r| <= |p| && r == p[..|r|]
    ensures r == [] || r[|r| - 1] != '/'
    ensures forall i :: |r| <= i < |p| ==> p[i] == '/'
  {
    if p == [] || p[|p| - 1] != '/' then p else DropTrailingSlashes(p[..|p| - 1])
  }

  /** The part of `p` after its last slash. */
  function AfterLastSlash(p: string): (r: string)
    ensures |r| <= |p| && r == p[|p| - |r|..]
    ensures '/' !in r
    ensures |r| < |p| ==> p[|p| - |r| - 1] == '/'
  {
    if p == [] || p[|p| - 1] == '/' then [] else AfterLastSlash(p[..|p| - 1]) + [p[|p| - 1]]
  }

  /** The last segment of a path: `path.basename(p)`. */
  function Segment(p: string): (r: string)
    ensures '/' !in r
  {
    AfterLastSlash(DropTrailingSlashes(p))
  }

  /** The index of the last `.` in `s`, or -1. */
  function LastDot(s: string): (d: int)
    ensures -1 <= d < |s|
    ensures d >= 0 ==> s[d] == '.'
    ensures forall i :: d < i < |s| ==> s[i] != '.'
  {
    if s == [] then -1
    else if s[|s| - 1] == '.' then |s| - 1
    else LastDot(s[..|s| - 1])
  }

  /** Where the extension of a segment starts, or -1 when it has none: no
      dot, a dot only in first position (".profile"), or the name "..". */
  function ExtStart(seg: string): (d: int)
    ensures d == -1 || (0 < d < |seg| && seg[d] == '.')
    ensures d == -1 <==> (forall i :: 0 < i < |seg| ==> seg[i] != '.') || seg == ".."
  {
    var d := LastDot(seg);
    if d <= 0 || seg == ".." then -1 else d
  }

  /** The extension of one segment. */
  function SegmentExtension(seg: string): (ext: string)
  {
    var d := ExtStart(seg);
    if d == -1 then "" else seg[d..]
  }

  /** One segment without its extension. */
  function SegmentStem(seg: string): (stem: string)
  {
    var d := ExtStart(seg);
    if d == -1 then seg else seg[..d]
  }

  /** Stem and extension split a segment; the extension is empty or a
      single dot followed by no other dot, and leaves a non-empty stem. A
      segment without a slash gives parts without one. */
  lemma SegmentSplit(seg: string)
    ensures SegmentStem(seg) + SegmentExtension(seg) == seg
    ensures SegmentExtension(seg) == "" || (SegmentExtension(seg)[0] == '.' && SegmentStem(seg) != "")
    ensures forall i :: 0 < i < |SegmentExtension(seg)| ==> SegmentExtension(seg)[i] != '.'
    ensures '/' !in seg ==> '/' !in SegmentStem(seg) && '/' !in SegmentExtension(seg)
  {
    var d := ExtStart(seg);
    if d != -1 {
      var stem, ext := seg[..d], seg[d..];
      assert stem + ext == seg;
      assert forall i :: 0 <= i < |ext| ==> ext[i] == seg[d + i];
      assert forall i :: 0 <= i < |stem| ==> stem[i] == seg[i];
    }
  }

  /** `path.extname(name)`: empty exactly when the name's last segment has
      no dot after its first character or is `..`; otherwise a dot followed
      by no other dot, cut from the end of that segment. */
  function Extension(name: string): (ext: string)
    ensures '/' !in ext
    ensures ext == "" || ext[0] == '.'
    ensures forall i :: 0 < i < |ext| ==> ext[i] != '.'
    ensures ext == "" <==>
      (forall i :: 0 < i < |Segment(name)| ==> Segment(name)[i] != '.') || Segment(name) == ".."
    ensures |ext| <= |Segment(name)| && ext == Segment(name)[|Segment(name)| - |ext|..]
  {
    var seg := Segment(name);
    SegmentSplit(seg);
    assert SegmentStem(seg) + SegmentExtension(seg) == seg;
    SegmentExtension(seg)
  }

  /** `path.basename(name, ext)` with `ext` the extension: the last segment
      without its extension, non-empty whenever the extension is not. */
  function BaseName(name: string): (base: string)
    ensures '/' !in base
    ensures base + Extension(name) == Segment(name)
    ensures Extension(name) != "" ==> base != ""
  {
    var seg := Segment(name);
    SegmentSplit(seg);
    SegmentStem(seg)
  }

  // ---------------------------------------------------------------------
  // The stored file name

  /** The characters `[a-zA-Z0-9_-]` the sanitiser keeps. */
  predicate IsSafeChar(c: char)
  {
    'a' <= c <= 'z' || 'A' <= c <= 'Z' || '0' <= c <= '9' || c == '_' || c == '-'
  }

  predicate AllSafe(s: string)
  {
    forall i :: 0 <= i < |s| ==> IsSafeChar(s[i])
  }

  /** `s.replace(/[^a-zA-Z0-9_-]/g, "_")`, one character at a time. */
  function Sanitize(s: string): (r: string)
    ensures |r| == |s|
    ensures forall i :: 0 <= i < |s| ==> r[i] == (if IsSafeChar(s[i]) then s[i] else '_')
  {
    if s == [] then [] else [if IsSafeChar(s[0]) then s[0] else '_'] + Sanitize(s[1..])
  }

  /** Sanitising leaves only safe characters, and leaves a safe string alone. */
  lemma SanitizeProperties(s: string)
    ensures AllSafe(Sanitize(s))
    ensures Sanitize(Sanitize(s)) == Sanitize(s)
    ensures AllSafe(s) ==> Sanitize(s) == s
  {
    var r := Sanitize(s);
    forall i | 0 <= i < |r| ensures IsSafeChar(r[i]) {
    }
    var rr := Sanitize(r);
    forall i | 0 <= i < |r| ensures rr[i] == r[i] {
    }
  }

  /** `base.replace(/[^a-zA-Z0-9_-]/g, "_").slice(0, 80)`: the first 80
      characters of the base, each unsafe one replaced by `_`. */
  function ShortSafe(base: string): (r: string)
    ensures |r| == if |base| <= MAX_BASE_LENGTH then |base| else MAX_BASE_LENGTH
    ensures forall i :: 0 <= i < |r| ==> r[i] == (if IsSafeChar(base[i]) then base[i] else '_')
    ensures AllSafe(r)
  {
    var safe := Sanitize(base);
    if |safe| <= MAX_BASE_LENGTH then safe else safe[..MAX_BASE_LENGTH]
  }

  /** `path.basename(name, ext) || "file"`: never empty and never holding a
      slash; the base name when it is not empty, `"file"` otherwise. */
  function DefaultedBase(originalName: string): (base: string)
    ensures base != "" && '/' !in base
    ensures BaseName(originalName) != "" ==> base == BaseName(originalName)
    ensures BaseName(originalName) == "" ==> base == DEFAULT_BASE
  {
    if BaseName(originalName) == "" then DEFAULT_BASE else BaseName(originalName)
  }

  /** The part of a stored name in front of its extension: a non-empty safe
      base, a dash and a decimal time stamp, none of which is a dot or a
      slash. */
  lemma StampedHeadPlain(base: string, nowMs: nat)
    requires base != "" && AllSafe(base)
    ensures var head := base + "-" + Decimal(nowMs);
      head != "" && '.' !in head && '/' !in head
  {
    var stamp := Decimal(nowMs);
    var head := base + "-" + stamp;
    forall i | 0 <= i < |head| ensures head[i] != '.' && head[i] != '/' {
      if i < |base| {
        assert head[i] == base[i] && IsSafeChar(base[i]);
      } else if i > |base| {
        assert head[i] == stamp[i - |base| - 1] && IsDigit(stamp[i - |base| - 1]);
      }
    }
  }

  /** A name without a slash is its own last segment. */
  lemma SlashFreeIsSegment(s: string)
    requires '/' !in s
    ensures Segment(s) == s
  {
    assert s == [] || s[|s| - 1] != '/';
    assert DropTrailingSlashes(s) == s;
  }

  /** A head without dots followed by an extension of the shape
      `path.extname` returns: the extension starts right after the head. */
  lemma HeadAndExtensionDot(head: string, ext: string)
    requires head != "" && '.' !in head
    requires ext == "" || ext[0] == '.'
    requires forall i :: 0 < i < |ext| ==> ext[i] != '.'
    ensures SegmentExtension(head + ext) == ext && SegmentStem(head + ext) == head
  {
    var s := head + ext;
    var d := LastDot(s);
    if ext == "" {
      assert s == head;
    } else {
      assert s[|head|] == '.';
      forall i | |head| < i < |s| ensures s[i] != '.' {
        assert s[i] == ext[i - |head|];
      }
      assert d == |head|;
      assert s[0] == head[0];
      assert s[..|head|] == head && s[|head|..] == ext;
    }
  }

  /** A head without dots or slashes followed by an extension of the shape
      `path.extname` returns is its own last segment, and `path.extname` and
      `path.basename` split it back into that extension and head. */
  lemma HeadAndExtensionSplit(head: string, ext: string)
    requires head != "" && '.' !in head && '/' !in head
    requires '/' !in ext && (ext == "" || ext[0] == '.')
    requires forall i :: 0 < i < |ext| ==> ext[i] != '.'
    ensures Segment(head + ext) == head + ext
    ensures Extension(head + ext) == ext && BaseName(head + ext) == head
  {
    var s := head + ext;
    forall i | 0 <= i < |s| ensures s[i] != '/' {
      if i < |head| {
        assert s[i] == head[i];
      } else {
        assert s[i] == ext[i - |head|];
      }
    }
    SlashFreeIsSegment(s);
    HeadAndExtensionDot(head, ext);
  }

  /** The multer `filename` callback: sanitised base, `-`, the upload time
      in milliseconds, and the original extension. The stored name holds no
      slash, so the file stays in the upload directory, and reading it back
      with `path.extname` and `path.basename` gives the original extension
      and the stamped base. */
  function StoredName(originalName: string, nowMs: nat): (r: string)
    ensures '/' !in r
    ensures Extension(r) == Extension(originalName)
    ensures BaseName(r) == ShortSafe(DefaultedBase(originalName)) + "-" + Decimal(nowMs)
  {
    var base := ShortSafe(DefaultedBase(originalName));
    var ext := Extension(originalName);
    StampedHeadPlain(base, nowMs);
    HeadAndExtensionSplit(base + "-" + Decimal(nowMs), ext);
    base + "-" + Decimal(nowMs) + ext
  }

  /** What the stored name is made of: a non-empty base of at most 80 safe
      characters, a dash, the decimal time stamp and the original extension. */
  lemma StoredNameShape(originalName: string, nowMs: nat)
    ensures var r := StoredName(originalName, nowMs);
      var base := ShortSafe(DefaultedBase(originalName));
      var ext := Extension(originalName);
      && 1 <= |base| <= MAX_BASE_LENGTH && AllSafe(base)
      && r == base + "-" + Decimal(nowMs) + ext
      && (ext == "" || ext[0] == '.')
  {
  }

  /** A name that is already safe and short keeps its base and extension. */
  lemma SafeNameKept(originalName: string, nowMs: nat)
    requires var base := BaseName(originalName);
      base != "" && |base| <= MAX_BASE_LENGTH && AllSafe(base)
    ensures StoredName(originalName, nowMs) ==
      BaseName(originalName) + "-" + Decimal(nowMs) + Extension(originalName)
  {
    SanitizeProperties(BaseName(originalName));
    assert DefaultedBase(originalName) == BaseName(originalName);
  }

  // ---------------------------------------------------------------------
  // The MIME filter

  /** The filter's verdict: accept the file, or refuse it with an error. */
  datatype FilterVerdict = AcceptFile | RefuseFile(message: string)

  /** `fileFilter`: `mimetype` is `file.mimetype || ""`. */
  function FileFilter(mimetype: string): (v: FilterVerdict)
    ensures v == AcceptFile <==>
      StartsWith(ToLower(mimetype), "image/") || StartsWith(ToLower(mimetype), "video/")
    ensures v != AcceptFile ==> v == RefuseFile(FILTER_ERROR)
  {
    var t := ToLower(mimetype);
    if StartsWith(t, "image/") || StartsWith(t, "video/") then AcceptFile
    else RefuseFile(FILTER_ERROR)
  }

  /** The filter ignores case: a type and its lower-cased form get the
      same verdict. */
  lemma FilterIgnoresCase(mimetype: string)
    ensures FileFilter(ToLower(mimetype)) == FileFilter(mimetype)
  {
    ToLowerIdempotent(mimetype);
  }

  /** A type written in capitals is accepted like its lower-case form. */
  lemma CapitalisedTypeAccepted()
    ensures FileFilter("Video/MP4") == AcceptFile
  {
    var v := ToLower("Video/MP4");
    assert LowerChar('V') == 'v';
    assert v[..6] == ['v', 'i', 'd', 'e', 'o', '/'];
  }

  /** A missing type and other families are refused. */
  lemma OtherTypesRefused()
    ensures FileFilter("") == RefuseFile(FILTER_ERROR)
    ensures FileFilter("text/html") == RefuseFile(FILTER_ERROR)
  {
    assert ToLower("text/html")[0] == 't';
  }
}
