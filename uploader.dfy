/**
 * The client-side uploader (client/users/uploader/uploader.js): the rules
 * that decide whether a file is accepted, whether and how it is resized
 * before upload, and the state of one upload dialog (abort, the close
 * confirmation, the requests in flight and the media uploaded so far).
 *
 * Files are processed one after another. Drawing, resizing, EXIF splicing and
 * the network are abstract: the size of the resized file and the server's
 * answer to each upload are inputs.
 */
module Uploader {
  import opened Json
  import opened Wrappers

  /** The uploader configuration fetched from the server. */
  datatype Settings = Settings(extensions: seq<string>, maxSize: Value, types: Value)

  /** An uploaded media record as the server returns it; `ts` is its time in milliseconds. */
  datatype Media = Media(id: string, ts: int)

  /** The server's answer to one upload request. */
  datatype Response = Done(media: Media) | Failed

  /** A tracked upload request and whether `abort()` has been called on it. */
  datatype Request = Request(file: string, abortCalled: bool)

  /**
   * One file of a batch: its name and size, the size of the blob that
   * replaces it when it is resized, whether the user confirmed closing the
   * dialog while it was being resized, and the server's answer to its upload.
   */
  datatype FileInput = FileInput(name: string, size: int, resizedSize: int, abortDuringResize: bool, response: Response)

  datatype FileOutcome =
    | InvalidExtension(name: string)
    | TooLarge(name: string, maxSizeKb: int)
    | Aborted
    | Uploaded(media: Media)
    | UploadFailed

  // ---------------------------------------------------------------------------
  // checkFile: `new RegExp('\.(' + extensions.join('|') + ')$', 'i')`

  /** ASCII case folding, as the `i` flag applies it to ASCII letters. */
  function Lower(c: char): char {
    if 'A' <= c <= 'Z' then (c as int + 32) as char else c
  }

  function LowerAll(s: string): (r: string)
    ensures |r| == |s|
  {
    if s == [] then [] else [Lower(s[0])] + LowerAll(s[1..])
  }

  predicate SameIgnoringCase(a: string, b: string) {
    LowerAll(a) == LowerAll(b)
  }

  /** The characters that `.` in a regular expression does not match. */
  predicate LineTerminator(c: char) {
    c == '\n' || c == '\r' || c == '\U{2028}' || c == '\U{2029}'
  }

  /**
   * The alternatives of the pattern: the extensions, or the one empty
   * alternative of `()` when the list is empty.
   */
  function Alternatives(extensions: seq<string>): seq<string> {
    if extensions == [] then [""] else extensions
  }

  /**
   * `.(e)$` matches `name`: `e` ends the name in any letter case and is
   * preceded by at least one character other than a line terminator. The `\.`
   * of the string literal is a plain `.`, the any-character pattern.
   */
  predicate EndsWithAlternative(name: string, e: string) {
    && |name| > |e|
    && !LineTerminator(name[|name| - |e| - 1])
    && SameIgnoringCase(name[|name| - |e|..], e)
  }

  predicate AnyEndsWith(alternatives: seq<string>, name: string) {
    alternatives != [] && (EndsWithAlternative(name, alternatives[0]) || AnyEndsWith(alternatives[1..], name))
  }

  predicate ExtensionAllowed(extensions: seq<string>, name: string) {
    AnyEndsWith(Alternatives(extensions), name)
  }

  lemma {:induction false} AnyEndsWithIff(alternatives: seq<string>, name: string)
    ensures AnyEndsWith(alternatives, name) <==> exists e :: e in alternatives && EndsWithAlternative(name, e)
  {
    if alternatives != [] {
      AnyEndsWithIff(alternatives[1..], name);
      if exists e :: e in alternatives && EndsWithAlternative(name, e) {
        var e :| e in alternatives && EndsWithAlternative(name, e);
        if e != alternatives[0] {
          assert e in alternatives[1..];
        }
      }
    }
  }

  function CheckFile(settings: Settings, name: string): (r: Option<FileOutcome>)
    ensures r.None? <==> ExtensionAllowed(settings.extensions, name)
    ensures r.Some? ==> r.value == InvalidExtension(name)
  {
    if ExtensionAllowed(settings.extensions, name) then None else Some(InvalidExtension(name))
  }

  /** `name` is some prefix, one character that is not a line terminator, and `e` in any letter case. */
  ghost predicate SplitsBefore(name: string, e: string) {
    exists prefix, c, tail :: name == prefix + [c] + tail && !LineTerminator(c) && SameIgnoringCase(tail, e)
  }

  lemma EndsWithAlternativeSplits(name: string, e: string)
    ensures EndsWithAlternative(name, e) <==> SplitsBefore(name, e)
  {
    if EndsWithAlternative(name, e) {
      var k := |name| - |e| - 1;
      assert name == name[..k] + [name[k]] + name[k + 1..];
    }
    if SplitsBefore(name, e) {
      var prefix, c, tail :| name == prefix + [c] + tail && !LineTerminator(c) && SameIgnoringCase(tail, e);
      assert |LowerAll(tail)| == |LowerAll(e)|;
      assert name[|name| - |e|..] == tail;
      assert name[|name| - |e| - 1] == c;
    }
  }

  /**
   * A name is accepted exactly when it is some prefix, one character that is
   * not a line terminator, and an allowed extension written in any case.
   */
  lemma CheckFileAccepts(settings: Settings, name: string)
    ensures CheckFile(settings, name).None? <==>
      exists e :: e in Alternatives(settings.extensions) && SplitsBefore(name, e)
  {
    var alternatives := Alternatives(settings.extensions);
    AnyEndsWithIff(alternatives, name);
    forall e | e in alternatives
      ensures EndsWithAlternative(name, e) <==> SplitsBefore(name, e)
    {
      EndsWithAlternativeSplits(name, e);
    }
  }

  /**
   * Three instances of `CheckFileAccepts`: the dot before the extension matches
   * any character, so `imagepng` passes for `png`.
   */
  lemma DotMatchesAnyCharacter()
    ensures CheckFile(Settings(["png"], Undefined, Undefined), "imagepng").None?
    ensures CheckFile(Settings(["png"], Undefined, Undefined), "photo.PNG").None?
    ensures CheckFile(Settings(["png"], Undefined, Undefined), "png").Some?
  {
    assert EndsWithAlternative("imagepng", "png");
    assert LowerAll("PNG") == "png";
    assert EndsWithAlternative("photo.PNG", "png");
  }

  // ---------------------------------------------------------------------------
  // checkFileSize

  /** `name.split('.').pop()`: what follows the last dot, the whole name when there is none. */
  function LastSegment(name: string): (r: string)
    ensures '.' !in r
    ensures '.' !in name ==> r == name
    ensures '.' in name ==> exists k :: 0 <= k < |name| && name[k] == '.' && r == name[k + 1..]
  {
    if name == [] then []
    else if name[|name| - 1] == '.' then []
    else LastSegment(name[..|name| - 1]) + [name[|name| - 1]]
  }

  /** `settings.types[ext] || {}` */
  function TypeConfig(settings: Settings, ext: string): Value {
    Or(Get(settings.types, ext), Empty)
  }

  /** `typeConfig.max_size || settings.max_size` */
  function MaxSize(settings: Settings, name: string): Value {
    Or(Get(TypeConfig(settings, LastSegment(name)), "max_size"), settings.maxSize)
  }

  /**
   * `size > limit` for a number `size`: `null` and booleans compare as
   * numbers, `undefined` compares as NaN (always false).
   */
  predicate Exceeds(size: int, limit: Value) {
    match limit
    case Num(n) => size > n
    case Null => size > 0
    case Bool(b) => size > (if b then 1 else 0)
    case _ => false
  }

  /** `Math.round(limit / 1024)`, the limit in kilobytes shown in the message. */
  function KiloBytes(limit: Value): int {
    match limit
    case Num(n) => (n + 512) / 1024
    case Bool(b) => 0
    case _ => 0
  }

  function CheckFileSize(settings: Settings, name: string, size: int): Option<FileOutcome> {
    var maxSize := MaxSize(settings, name);
    if Exceeds(size, maxSize) then Some(TooLarge(name, KiloBytes(maxSize))) else None
  }

  /**
   * The type's `max_size` when it is truthy, the global one otherwise; a file
   * fails only when it is strictly larger, so a size equal to the limit passes.
   */
  lemma SizeLimitSelection(settings: Settings, name: string, size: int)
    ensures var own := Get(TypeConfig(settings, LastSegment(name)), "max_size");
      MaxSize(settings, name) == if Truthy(own) then own else settings.maxSize
    ensures MaxSize(settings, name).Num? ==>
      (CheckFileSize(settings, name, size).Some? <==> size > MaxSize(settings, name).n)
    ensures MaxSize(settings, name) == Num(size) ==> CheckFileSize(settings, name, size).None?
    ensures MaxSize(settings, name).Undefined? ==> CheckFileSize(settings, name, size).None?
  {
  }

  /**
   * `Math.round(n / 1024)` is the integer k with `k - 1/2 <= n / 1024 < k + 1/2`:
   * halves round up, so 1536 bytes show as 2 KB and 1535 as 1 KB.
   */
  lemma KiloBytesRounding(n: int)
    ensures KiloBytes(Num(n)) * 1024 - 512 <= n < KiloBytes(Num(n)) * 1024 + 512
    ensures n == 1536 ==> KiloBytes(Num(n)) == 2
    ensures n == 1535 ==> KiloBytes(Num(n)) == 1
  {
    FloorDivision(n + 512, 1024);
  }

  // ---------------------------------------------------------------------------
  // resizeImage: when to resize, and to what size

  const ResizableExtensions: seq<string> := ["bmp", "jpg", "jpeg", "png"]

  /** `size < limit` for a number `size`, with the comparison rules of `Exceeds`. */
  predicate Below(size: int, limit: Value) {
    match limit
    case Num(n) => size < n
    case Null => size < 0
    case Bool(b) => size < (if b then 1 else 0)
    case _ => false
  }

  /** The `orig` preview options of the file's type. */
  function OrigOptions(settings: Settings, name: string): Value {
    Get(Get(TypeConfig(settings, LastSegment(name)), "resize"), "orig")
  }

  /** The file is resized before upload. */
  predicate ResizeApplies(settings: Settings, name: string, size: int) {
    var ext := LastSegment(name);
    var typeConfig := TypeConfig(settings, ext);
    && ext in ResizableExtensions
    && Truthy(Get(typeConfig, "resize"))
    && Truthy(Get(Get(typeConfig, "resize"), "orig"))
    && !Below(size, Get(Get(Get(typeConfig, "resize"), "orig"), "skip_size"))
  }

  /**
   * The extension is compared as written (`photo.JPG` is not resized), the
   * type needs an `orig` preview, and a file smaller than `skip_size` is kept.
   * Beyond `ResizeApplies` itself, this says the test of `typeConfig.resize`
   * adds nothing: a truthy `resize.orig` already implies a truthy `resize`.
   */
  lemma ResizeSkipConditions(settings: Settings, name: string, size: int)
    ensures ResizeApplies(settings, name, size) <==>
      && LastSegment(name) in ResizableExtensions
      && Truthy(OrigOptions(settings, name))
      && !Below(size, Get(OrigOptions(settings, name), "skip_size"))
    ensures LastSegment(name) == "JPG" ==> !ResizeApplies(settings, name, size)
  {
  }

  /** The size of the file that reaches the size check and the upload. */
  function UploadSize(settings: Settings, f: FileInput): int {
    if ResizeApplies(settings, f.name, f.size) then f.resizedSize else f.size
  }

  /**
   * The dimensions options of a preview; a numeric option that is absent (or
   * not a number) reads as 0, which is falsy exactly as `undefined` is.
   */
  datatype DimOptions = DimOptions(width: int, height: int, maxWidth: int, maxHeight: int)

  function NumberOr0(v: Value): int {
    if v.Num? then v.n else 0
  }

  function DimOptionsOf(orig: Value): DimOptions {
    DimOptions(NumberOr0(Get(orig, "width")), NumberOr0(Get(orig, "height")),
               NumberOr0(Get(orig, "max_width")), NumberOr0(Get(orig, "max_height")))
  }

  /**
   * For an option that is a number or absent, `DimOptionsOf` reads the number
   * (0 when absent) and is nonzero exactly when the option is truthy, which is
   * how `TargetSize` reads `resizeConfig.height && !resizeConfig.width`.
   */
  lemma PreviewDimensions(orig: Value)
    requires forall f :: f in ["width", "height", "max_width", "max_height"] ==>
      Get(orig, f).Num? || Get(orig, f).Undefined?
    ensures var o := DimOptionsOf(orig);
      && (o.width != 0 <==> Truthy(Get(orig, "width")))
      && (o.height != 0 <==> Truthy(Get(orig, "height")))
      && (o.maxWidth != 0 <==> Truthy(Get(orig, "max_width")))
      && (o.maxHeight != 0 <==> Truthy(Get(orig, "max_height")))
    ensures Get(orig, "height").Num? ==> DimOptionsOf(orig).height == Get(orig, "height").n
    ensures Get(orig, "width").Num? ==> DimOptionsOf(orig).width == Get(orig, "width").n
  {
    assert "width" in ["width", "height", "max_width", "max_height"];
    assert "height" in ["width", "height", "max_width", "max_height"];
    assert "max_width" in ["width", "height", "max_width", "max_height"];
    assert "max_height" in ["width", "height", "max_width", "max_height"];
  }

  datatype Dims = Dims(width: int, height: int)

  /** The integer target size of the resized image (`scaledWidth`, `scaledHeight`). */
  function TargetSize(o: DimOptions, imgWidth: nat, imgHeight: nat): Dims
    requires imgWidth > 0 && imgHeight > 0
  {
    if o.height != 0 && o.width == 0 then
      var proportionalWidth := imgWidth * o.height / imgHeight;
      Dims(if o.maxWidth == 0 || o.maxWidth > proportionalWidth then proportionalWidth else o.maxWidth, o.height)
    else if o.height == 0 && o.width != 0 then
      var proportionalHeight := imgHeight * o.width / imgWidth;
      Dims(o.width, if o.maxHeight == 0 || o.maxHeight > proportionalHeight then proportionalHeight else o.maxHeight)
    else
      Dims(o.width, o.height)
  }

  function Min(a: int, b: int): int {
    if a <= b then a else b
  }

  /**
   * With only a height the height is kept and the width is the proportional
   * width rounded down (`w * height / h`), capped by `max_width` when one is set;
   * with only a width, symmetrically; with both (or neither) both are used as given.
   */
  lemma TargetSizeRules(o: DimOptions, imgWidth: nat, imgHeight: nat)
    requires imgWidth > 0 && imgHeight > 0
    ensures var d := TargetSize(o, imgWidth, imgHeight);
      o.height != 0 && o.width == 0 ==>
        && d.height == o.height
        && var p := imgWidth * o.height / imgHeight;
           && p * imgHeight <= imgWidth * o.height < (p + 1) * imgHeight
           && d.width == (if o.maxWidth != 0 then Min(p, o.maxWidth) else p)
    ensures var d := TargetSize(o, imgWidth, imgHeight);
      o.height == 0 && o.width != 0 ==>
        && d.width == o.width
        && var p := imgHeight * o.width / imgWidth;
           && p * imgWidth <= imgHeight * o.width < (p + 1) * imgWidth
           && d.height == (if o.maxHeight != 0 then Min(p, o.maxHeight) else p)
    ensures var d := TargetSize(o, imgWidth, imgHeight);
      (o.height != 0) == (o.width != 0) ==> d == Dims(o.width, o.height)
  {
    if o.height != 0 && o.width == 0 {
      FloorDivision(imgWidth * o.height, imgHeight);
    }
    if o.height == 0 && o.width != 0 {
      FloorDivision(imgHeight * o.width, imgWidth);
    }
  }

  /** Division by a positive number rounds down, like `Math.floor` of the quotient. */
  lemma FloorDivision(a: int, b: int)
    requires b > 0
    ensures a / b * b <= a < (a / b + 1) * b
  {
    var p := a / b;
    assert a == p * b + a % b;
    assert (p + 1) * b == p * b + b;
  }

  // ---------------------------------------------------------------------------
  // The per-file pipeline: check, resize, size check, upload

  /** The user aborts in the resize step of `f` only if `f` got there. */
  predicate AbortsDuring(settings: Settings, f: FileInput) {
    CheckFile(settings, f.name).None? && f.abortDuringResize
  }

  /**
   * What happens to a file started while the batch is not aborted: the first
   * failing step decides, and the later steps of that file do not run.
   */
  function FileOutcomeOf(settings: Settings, f: FileInput): FileOutcome {
    var extCheck := CheckFile(settings, f.name);
    if extCheck.Some? then extCheck.value
    else
      var sizeCheck := CheckFileSize(settings, f.name, UploadSize(settings, f));
      if sizeCheck.Some? then sizeCheck.value
      else if f.abortDuringResize then Aborted
      else match f.response
        case Done(m) => Uploaded(m)
        case Failed => UploadFailed
  }

  /** Whether the batch is aborted once `files` have been handled. */
  function AbortedAfter(settings: Settings, files: seq<FileInput>, aborted: bool): bool {
    if files == [] then aborted
    else
      var before := AbortedAfter(settings, files[..|files| - 1], aborted);
      before || AbortsDuring(settings, files[|files| - 1])
  }

  /** The outcome of every file of a batch, in order. */
  function Outcomes(settings: Settings, files: seq<FileInput>, aborted: bool): (r: seq<FileOutcome>)
    ensures |r| == |files|
  {
    if files == [] then []
    else
      var front := files[..|files| - 1];
      var last := files[|files| - 1];
      Outcomes(settings, front, aborted)
        + [if AbortedAfter(settings, front, aborted) then Aborted else FileOutcomeOf(settings, last)]
  }

  /** The media of the uploaded files, in order. */
  function UploadedMedia(outcomes: seq<FileOutcome>): seq<Media> {
    if outcomes == [] then []
    else
      UploadedMedia(outcomes[..|outcomes| - 1])
        + (if outcomes[|outcomes| - 1].Uploaded? then [outcomes[|outcomes| - 1].media] else [])
  }

  /**
   * The tracked requests once `f` has gone through its steps, started while
   * the batch was not aborted: an abort during the resize aborts every
   * request so far, and only a file that reaches the upload adds its own.
   */
  function RequestsAfterFile(settings: Settings, f: FileInput, rs: seq<Request>): seq<Request> {
    if CheckFile(settings, f.name).Some? then rs
    else
      var afterResize := if f.abortDuringResize then AbortAll(rs) else rs;
      if CheckFileSize(settings, f.name, UploadSize(settings, f)).Some? || f.abortDuringResize then afterResize
      else afterResize + [Request(f.name, false)]
  }

  /** The tracked requests once `files` have been handled, starting from `rs`. */
  function BatchRequests(settings: Settings, files: seq<FileInput>, aborted: bool, rs: seq<Request>): seq<Request> {
    if files == [] then rs
    else
      var front := files[..|files| - 1];
      var before := BatchRequests(settings, front, aborted, rs);
      if AbortedAfter(settings, front, aborted) then before else RequestsAfterFile(settings, files[|files| - 1], before)
  }

  /** Some file before position `i` aborted the batch. */
  predicate AbortedBefore(settings: Settings, files: seq<FileInput>, aborted: bool, i: nat)
    requires i <= |files|
  {
    aborted || exists j :: 0 <= j < i && AbortsDuring(settings, files[j])
  }

  lemma {:induction false} AbortedAfterIsBefore(settings: Settings, files: seq<FileInput>, aborted: bool)
    ensures AbortedAfter(settings, files, aborted) == AbortedBefore(settings, files, aborted, |files|)
  {
    if files != [] {
      var front := files[..|files| - 1];
      AbortedAfterIsBefore(settings, front, aborted);
      if AbortedBefore(settings, front, aborted, |front|) && !aborted {
        var j :| 0 <= j < |front| && AbortsDuring(settings, front[j]);
        assert files[j] == front[j];
      }
      if AbortedBefore(settings, files, aborted, |files|) && !aborted {
        var j :| 0 <= j < |files| && AbortsDuring(settings, files[j]);
        if j < |front| {
          assert files[j] == front[j];
        }
      }
    }
  }

  /**
   * A failing step of one file does not affect the other files: file `i`
   * gets its own outcome unless an earlier file's resize step saw the user
   * abort, and then it is refused as aborted.
   */
  lemma {:induction false} OutcomeOfEachFile(settings: Settings, files: seq<FileInput>, aborted: bool, i: nat)
    requires i < |files|
    ensures Outcomes(settings, files, aborted)[i] ==
      if AbortedBefore(settings, files, aborted, i) then Aborted else FileOutcomeOf(settings, files[i])
  {
    var front := files[..|files| - 1];
    if i == |files| - 1 {
      AbortedAfterIsBefore(settings, front, aborted);
      assert AbortedBefore(settings, front, aborted, i) == AbortedBefore(settings, files, aborted, i) by {
        forall j | 0 <= j < i ensures front[j] == files[j] { }
      }
    } else {
      OutcomeOfEachFile(settings, front, aborted, i);
      assert AbortedBefore(settings, front, aborted, i) == AbortedBefore(settings, files, aborted, i) by {
        forall j | 0 <= j < i ensures front[j] == files[j] { }
      }
    }
  }

  // ---------------------------------------------------------------------------
  // The final order of `uploaded`: newest first

  /** Insert `m` after every element at least as new, keeping equal times in arrival order. */
  function Insert(sorted: seq<Media>, m: Media): (r: seq<Media>)
    ensures multiset(r) == multiset(sorted) + multiset{m}
    ensures |r| == |sorted| + 1
    decreases |sorted|
  {
    if sorted == [] then [m]
    else if sorted[|sorted| - 1].ts >= m.ts then sorted + [m]
    else
      assert sorted == sorted[..|sorted| - 1] + [sorted[|sorted| - 1]];
      Insert(sorted[..|sorted| - 1], m) + [sorted[|sorted| - 1]]
  }

  /** `uploadedFiles.sort((a, b) => new Date(b.ts) - new Date(a.ts))`, a stable sort. */
  function SortByTsDesc(s: seq<Media>): seq<Media> {
    if s == [] then [] else Insert(SortByTsDesc(s[..|s| - 1]), s[|s| - 1])
  }

  predicate NewestFirst(s: seq<Media>) {
    forall i, j :: 0 <= i < j < |s| ==> s[i].ts >= s[j].ts
  }

  lemma AppendOldest(s: seq<Media>, m: Media)
    requires NewestFirst(s)
    requires forall i :: 0 <= i < |s| ==> s[i].ts >= m.ts
    ensures NewestFirst(s + [m])
  {
  }

  lemma {:induction false} InsertKeepsOrder(sorted: seq<Media>, m: Media)
    requires NewestFirst(sorted)
    ensures NewestFirst(Insert(sorted, m))
    decreases |sorted|
  {
    if sorted == [] {
    } else if sorted[|sorted| - 1].ts >= m.ts {
      AppendOldest(sorted, m);
    } else {
      var front := sorted[..|sorted| - 1];
      var last := sorted[|sorted| - 1];
      InsertKeepsOrder(front, m);
      var r := Insert(front, m);
      forall i | 0 <= i < |r| ensures r[i].ts >= last.ts {
        assert r[i] in multiset(front) + multiset{m};
        if r[i] != m {
          var k :| 0 <= k < |front| && front[k] == r[i];
          assert sorted[k] == r[i];
        }
      }
      AppendOldest(r, last);
    }
  }

  /** The sorted list holds exactly the uploaded media, newest first. */
  lemma {:induction false} SortByTsDescCorrect(s: seq<Media>)
    ensures NewestFirst(SortByTsDesc(s))
    ensures multiset(SortByTsDesc(s)) == multiset(s)
  {
    if s != [] {
      SortByTsDescCorrect(s[..|s| - 1]);
      InsertKeepsOrder(SortByTsDesc(s[..|s| - 1]), s[|s| - 1]);
      assert s == s[..|s| - 1] + [s[|s| - 1]];
    }
  }

  // ---------------------------------------------------------------------------
  // The state of the upload dialog

  /** Every tracked request, with `abort()` called on it. */
  function AbortAll(rs: seq<Request>): (r: seq<Request>)
    ensures |r| == |rs|
    ensures forall k :: 0 <= k < |rs| ==> r[k] == rs[k].(abortCalled := true)
  {
    if rs == [] then [] else AbortAll(rs[..|rs| - 1]) + [rs[|rs| - 1].(abortCalled := true)]
  }

  class UploadDialog {
    /** Set once the user confirms closing: the files not started yet are refused. */
    var aborted: bool
    /** A close confirmation is on screen. */
    var closeConfirmation: bool
    /** The media uploaded in the current batch; `null` outside a batch. */
    var uploadedFiles: Option<seq<Media>>
    /** The upload requests of the current batch; `null` outside a batch. */
    var requests: Option<seq<Request>>

    /** The module's variables before the first batch. */
    constructor ()
      ensures !aborted && !closeConfirmation && uploadedFiles.None? && requests.None?
    {
      aborted := false;
      closeConfirmation := false;
      uploadedFiles := None;
      requests := None;
    }

    /** `init_upload_dialog`: a new batch starts from a clean state. */
    method InitUploadDialog()
      modifies this
      ensures !aborted && !closeConfirmation
      ensures uploadedFiles == Some([]) && requests == Some([])
    {
      closeConfirmation := false;
      aborted := false;
      uploadedFiles := Some([]);
      requests := Some([]);
    }

    /** `abort()`: every tracked request is aborted and the batch is marked aborted. */
    method Abort()
      modifies this
      ensures aborted
      ensures requests == if old(requests).Some? then Some(AbortAll(old(requests).value)) else None
      ensures closeConfirmation == old(closeConfirmation) && uploadedFiles == old(uploadedFiles)
    {
      if requests.Some? {
        var rs := requests.value;
        var i := 0;
        while i < |rs|
          invariant requests.Some? && |requests.value| == |rs|
          invariant 0 <= i <= |rs|
          invariant forall k :: 0 <= k < i ==> requests.value[k] == rs[k].(abortCalled := true)
          invariant forall k :: i <= k < |rs| ==> requests.value[k] == rs[k]
          invariant closeConfirmation == old(closeConfirmation) && uploadedFiles == old(uploadedFiles)
        {
          requests := Some(requests.value[i := requests.value[i].(abortCalled := true)]);
          i := i + 1;
        }
        assert requests.value == AbortAll(rs);
      }
      aborted := true;
    }

    /**
     * `confirmClose()`: shows the confirmation unless one is already on
     * screen; `shown` tells whether it did.
     */
    method ConfirmClose() returns (shown: bool)
      modifies this
      ensures shown == !old(closeConfirmation)
      ensures closeConfirmation
      ensures aborted == old(aborted) && uploadedFiles == old(uploadedFiles) && requests == old(requests)
    {
      if closeConfirmation {
        return false;
      }
      closeConfirmation := true;
      return true;
    }

    /** The user confirms closing: the confirmation is gone and everything is aborted. */
    method ConfirmAccepted()
      modifies this
      ensures !closeConfirmation && aborted
      ensures requests == if old(requests).Some? then Some(AbortAll(old(requests).value)) else None
      ensures uploadedFiles == old(uploadedFiles)
    {
      closeConfirmation := false;
      Abort();
    }

    /**
     * The user declines, as the code is written: the upload dialog is shown
     * again but `closeConfirmation` stays set.
     */
    method ConfirmDeclinedAsWritten()
      modifies this
      ensures closeConfirmation == old(closeConfirmation)
      ensures aborted == old(aborted) && uploadedFiles == old(uploadedFiles) && requests == old(requests)
    {
    }

    /** The user declines, as evidently intended: the confirmation is no longer on screen. */
    method ConfirmDeclined()
      modifies this
      ensures !closeConfirmation
      ensures aborted == old(aborted) && uploadedFiles == old(uploadedFiles) && requests == old(requests)
    {
      closeConfirmation := false;
    }

    /** `startUpload`: refused once aborted, otherwise a tracked request whose success adds its media. */
    method StartUpload(name: string, response: Response) returns (outcome: FileOutcome)
      requires requests.Some? && uploadedFiles.Some?
      modifies this
      ensures old(aborted) ==> outcome == Aborted && requests == old(requests) && uploadedFiles == old(uploadedFiles)
      ensures !old(aborted) ==>
        && requests == Some(old(requests).value + [Request(name, false)])
        && outcome == (if response.Done? then Uploaded(response.media) else UploadFailed)
        && uploadedFiles == Some(old(uploadedFiles).value + (if response.Done? then [response.media] else []))
      ensures aborted == old(aborted) && closeConfirmation == old(closeConfirmation)
    {
      if aborted {
        return Aborted;
      }
      requests := Some(requests.value + [Request(name, false)]);
      match response
      case Done(m) =>
        uploadedFiles := Some(uploadedFiles.value + [m]);
        outcome := Uploaded(m);
      case Failed =>
        assert uploadedFiles.value + [] == uploadedFiles.value;
        outcome := UploadFailed;
    }

    /** The steps of one file: extension check, resize, size check, upload. */
    method ProcessFile(settings: Settings, f: FileInput) returns (outcome: FileOutcome)
      requires requests.Some? && uploadedFiles.Some?
      modifies this
      ensures requests.Some? && uploadedFiles.Some?
      ensures outcome == if old(aborted) then Aborted else FileOutcomeOf(settings, f)
      ensures aborted == (old(aborted) || AbortsDuring(settings, f))
      ensures requests.value == if old(aborted) then old(requests).value else RequestsAfterFile(settings, f, old(requests).value)
      ensures uploadedFiles.value == old(uploadedFiles).value + (if outcome.Uploaded? then [outcome.media] else [])
      ensures closeConfirmation == old(closeConfirmation)
    {
      if aborted {
        return Aborted;
      }
      var extCheck := CheckFile(settings, f.name);
      if extCheck.Some? {
        return extCheck.value;
      }
      // resizeImage: the file is replaced by the resized blob when the rules say so
      var size := if ResizeApplies(settings, f.name, f.size) then f.resizedSize else f.size;
      if f.abortDuringResize {
        Abort();
      }
      var sizeCheck := CheckFileSize(settings, f.name, size);
      if sizeCheck.Some? {
        return sizeCheck.value;
      }
      outcome := StartUpload(f.name, f.response);
    }

    /** The state of a batch once its first `i` files are handled. */
    ghost predicate BatchSoFar(settings: Settings, files: seq<FileInput>, i: nat, aborted0: bool,
                               requests0: seq<Request>, uploaded0: seq<Media>, outcomes: seq<FileOutcome>)
      requires i <= |files|
      reads this
    {
      && requests.Some? && uploadedFiles.Some?
      && outcomes == Outcomes(settings, files[..i], aborted0)
      && aborted == AbortedAfter(settings, files[..i], aborted0)
      && requests.value == BatchRequests(settings, files[..i], aborted0, requests0)
      && uploadedFiles.value == uploaded0 + UploadedMedia(outcomes)
    }

    /** The body of the loop over the files of a batch. */
    method AddOne(settings: Settings, files: seq<FileInput>, i: nat, ghost aborted0: bool,
                  ghost requests0: seq<Request>, ghost uploaded0: seq<Media>, outcomes: seq<FileOutcome>)
      returns (outcomes': seq<FileOutcome>)
      requires i < |files|
      requires BatchSoFar(settings, files, i, aborted0, requests0, uploaded0, outcomes)
      modifies this
      ensures BatchSoFar(settings, files, i + 1, aborted0, requests0, uploaded0, outcomes')
      ensures closeConfirmation == old(closeConfirmation)
    {
      ghost var before := uploadedFiles.value;
      var outcome := ProcessFile(settings, files[i]);
      BatchStep(settings, files, aborted0, requests0, i, outcomes, outcome);
      ghost var added := if outcome.Uploaded? then [outcome.media] else [];
      assert uploaded0 + UploadedMedia(outcomes) + added == uploaded0 + (UploadedMedia(outcomes) + added);
      outcomes' := outcomes + [outcome];
    }

    /**
     * `add_files`: every file goes through its steps, the first file met
     * after an abort ends the batch, and `uploaded` is the uploaded media
     * newest first; the batch's lists are then dropped.
     */
    method AddFiles(settings: Settings, files: seq<FileInput>) returns (outcomes: seq<FileOutcome>, uploaded: seq<Media>)
      requires requests.Some? && uploadedFiles.Some?
      modifies this
      ensures outcomes == Outcomes(settings, files, old(aborted))
      ensures uploaded == SortByTsDesc(old(uploadedFiles).value + UploadedMedia(outcomes))
      ensures aborted == AbortedAfter(settings, files, old(aborted))
      ensures closeConfirmation == old(closeConfirmation)
      ensures uploadedFiles.None? && requests.None?
    {
      ghost var aborted0, requests0, uploaded0 := aborted, requests.value, uploadedFiles.value;
      outcomes := [];
      var i := 0;
      while i < |files|
        invariant 0 <= i <= |files|
        invariant BatchSoFar(settings, files, i, aborted0, requests0, uploaded0, outcomes)
        invariant closeConfirmation == old(closeConfirmation)
      {
        outcomes := AddOne(settings, files, i, aborted0, requests0, uploaded0, outcomes);
        i := i + 1;
      }
      assert files[..|files|] == files;
      uploaded := SortByTsDesc(uploadedFiles.value);
      uploadedFiles := None;
      requests := None;
    }
  }

  /** One more file of the batch, as the loop of `AddFiles` sees it. */
  lemma BatchStep(settings: Settings, files: seq<FileInput>, aborted: bool, requests0: seq<Request>, i: nat,
                  outcomes: seq<FileOutcome>, outcome: FileOutcome)
    requires i < |files|
    requires outcomes == Outcomes(settings, files[..i], aborted)
    requires outcome == if AbortedAfter(settings, files[..i], aborted) then Aborted else FileOutcomeOf(settings, files[i])
    ensures outcomes + [outcome] == Outcomes(settings, files[..i + 1], aborted)
    ensures AbortedAfter(settings, files[..i + 1], aborted) ==
      (AbortedAfter(settings, files[..i], aborted) || AbortsDuring(settings, files[i]))
    ensures BatchRequests(settings, files[..i + 1], aborted, requests0) ==
      var before := BatchRequests(settings, files[..i], aborted, requests0);
      if AbortedAfter(settings, files[..i], aborted) then before else RequestsAfterFile(settings, files[i], before)
    ensures UploadedMedia(outcomes + [outcome]) ==
      UploadedMedia(outcomes) + (if outcome.Uploaded? then [outcome.media] else [])
  {
    var pre := files[..i + 1];
    assert pre[..|pre| - 1] == files[..i];
    assert pre[|pre| - 1] == files[i];
    var outs := outcomes + [outcome];
    assert outs[..|outs| - 1] == outcomes;
    assert outs[|outs| - 1] == outcome;
  }

  /** As written: after a declined confirmation the dialog can never ask again. */
  method DeclinedThenCloseAsWritten(d: UploadDialog) returns (shownAgain: bool)
    modifies d
    ensures !shownAgain
  {
    var shown := d.ConfirmClose();
    d.ConfirmDeclinedAsWritten();
    shownAgain := d.ConfirmClose();
  }

  /** As intended: after a declined confirmation, closing again asks again. */
  method DeclinedThenClose(d: UploadDialog) returns (shownAgain: bool)
    modifies d
    ensures shownAgain
  {
    var shown := d.ConfirmClose();
    d.ConfirmDeclined();
    shownAgain := d.ConfirmClose();
  }
}
