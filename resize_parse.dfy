/**
 * The uploads-configuration normaliser (server/_lib/resize_parse.js): it
 * copies an uploads configuration, validates it against three JSON schemas and
 * replaces its `types` by one merged option record per allowed extension.
 *
 * The schema validators (`is-my-json-valid`) and the MIME lookup (`mimoza`)
 * are abstract: they are given as functions.
 */
module ResizeParse {
  import opened Json

  /** One error reported by a schema validator: the field, the message and the offending value, as text. */
  datatype ValidationError = ValidationError(field: string, message: string, value: string)

  /**
   * The three compiled validators: the common options, the options of one
   * type and the options of one preview. Each returns the errors it finds and
   * reports failure exactly when that list is not empty.
   */
  datatype Validators = Validators(
    common: Value -> seq<ValidationError>,
    typeRules: Value -> seq<ValidationError>,
    resizeRules: Value -> seq<ValidationError>)

  /** `mimoza.getMimeType` and `mimoza.getExtension`. */
  datatype Mime = Mime(getMimeType: string -> string, getExtension: string -> string)

  /** The normalised configuration, or the message of the error the function throws. */
  datatype Outcome = Parsed(config: map<string, Value>) | Thrown(message: string)

  // ---------------------------------------------------------------------------
  // Text helpers

  /** `s.indexOf(sub) !== -1` */
  predicate Contains(s: string, sub: string)
    decreases |s|
  {
    |sub| <= |s| && (s[..|sub|] == sub || (|s| > 0 && Contains(s[1..], sub)))
  }

  /** `s.replace('.', '')`: drops the first dot only. */
  function DropFirstDot(s: string): (r: string)
    ensures '.' !in s ==> r == s
    ensures '.' in s ==> |r| == |s| - 1
  {
    if s == [] then []
    else if s[0] == '.' then s[1..]
    else [s[0]] + DropFirstDot(s[1..])
  }

  /** `parts.join(sep)` */
  function Join(parts: seq<string>, sep: string): string {
    if parts == [] then ""
    else if |parts| == 1 then parts[0]
    else parts[0] + sep + Join(parts[1..], sep)
  }

  /** `util.format("'%s' %s '%s'", field, message, value)` */
  function FormatError(e: ValidationError): string {
    "'" + e.field + "' " + e.message + " '" + e.value + "'"
  }

  function FormatAll(errors: seq<ValidationError>): (r: seq<string>)
    ensures |r| == |errors|
    ensures forall i :: 0 <= i < |errors| ==> r[i] == FormatError(errors[i])
  {
    if errors == [] then [] else FormatAll(errors[..|errors| - 1]) + [FormatError(errors[|errors| - 1])]
  }

  /** The message of the thrown error: every error formatted, joined by `, `. */
  function ErrorMessage(errors: seq<ValidationError>): string {
    Join(FormatAll(errors), ", ")
  }

  function Repeat<T>(s: seq<T>, n: nat): seq<T> {
    if n == 0 then [] else Repeat(s, n - 1) + s
  }

  // ---------------------------------------------------------------------------
  // The specification of the normaliser

  /** The deep copy with `types` and `resize` defaulted to `{}` when falsy. */
  function Normalise(uploads: map<string, Value>): map<string, Value> {
    var withTypes := uploads["types" := Or(Get(Obj(uploads), "types"), Empty)];
    withTypes["resize" := Or(Get(Obj(withTypes), "resize"), Empty)]
  }

  /**
   * Every error collected: the common validator once, then the type
   * validator once per entry of `types` and the preview validator once per
   * entry of `resize` -- all of them applied to the whole configuration.
   */
  function ValidationErrors(v: Validators, config: map<string, Value>): seq<ValidationError> {
    var c := Obj(config);
    v.common(c)
      + Repeat(v.typeRules(c), EntryCount(Get(c, "types")))
      + Repeat(v.resizeRules(c), EntryCount(Get(c, "resize")))
  }

  /** The allowed extensions, in the order of `extentions`. */
  function Extensions(config: map<string, Value>): seq<string> {
    var e := Get(Obj(config), "extentions");
    if e.Arr? then Strings(e.items) else []
  }

  /** The previews configured in `resize`, by name. */
  function Previews(config: map<string, Value>): map<string, Value> {
    Props(Or(Get(Obj(config), "resize"), Empty))
  }

  /** The real extension of the MIME type of `ext` (for instance `jpeg` for `jpg`). */
  function RealExtension(mime: Mime, ext: string): string {
    DropFirstDot(mime.getExtension(mime.getMimeType(ext)))
  }

  /** `config.types[realExtension] || {}` */
  function TypeEntry(config: map<string, Value>, realExt: string): Value {
    Or(Get(Get(Obj(config), "types"), realExt), Empty)
  }

  /** `((config.types[realExtension] || {}).resize || {})[key] || {}` */
  function PreviewTypeOptions(config: map<string, Value>, realExt: string, key: string): Value {
    Or(Get(Or(Get(TypeEntry(config, realExt), "resize"), Empty), key), Empty)
  }

  /** A preview of type `jpeg`, or a preview without a type of a `jpeg` file, gets a `jpeg_quality`. */
  predicate IsJpegPreview(merged: map<string, Value>, realExt: string) {
    Get(Obj(merged), "type") == Str("jpeg") || (realExt == "jpeg" && !Truthy(Get(Obj(merged), "type")))
  }

  /** A preview of type `gif`, or a preview without a type of a `gif` file, gets a `gif_animation`. */
  predicate IsGifPreview(merged: map<string, Value>, realExt: string) {
    Get(Obj(merged), "type") == Str("gif") || (realExt == "gif" && !Truthy(Get(Obj(merged), "type")))
  }

  /** The options of preview `key` for a file whose real extension is `realExt`. */
  function MergedPreview(config: map<string, Value>, realExt: string, key: string, previewOptions: Value): map<string, Value> {
    var pto := PreviewTypeOptions(config, realExt, key);
    var merged := Props(previewOptions) + Props(pto);
    var withJpeg :=
      if IsJpegPreview(merged, realExt) then
        merged["jpeg_quality" := Or(Or(Get(Obj(merged), "jpeg_quality"), Get(pto, "jpeg_quality")),
                                    Get(Obj(config), "jpeg_quality"))]
      else merged;
    if IsGifPreview(merged, realExt) then
      withJpeg["gif_animation" := Or(Get(pto, "gif_animation"), Get(Obj(config), "gif_animation"))]
    else withJpeg
  }

  /** All previews of an image type. */
  function ResizeOptions(config: map<string, Value>, realExt: string): map<string, Value> {
    var previews := Previews(config);
    map key | key in previews :: Obj(MergedPreview(config, realExt, key, previews[key]))
  }

  /** The option record of one allowed extension. */
  function TypeOptions(config: map<string, Value>, mime: Mime, ext: string): map<string, Value> {
    var mimeType := mime.getMimeType(ext);
    var realExt := RealExtension(mime, ext);
    var base := map["max_size" := Get(Obj(config), "max_size")];
    var withResize :=
      if Contains(mimeType, "image/") then base["resize" := Obj(ResizeOptions(config, realExt))] else base;
    withResize + (Props(TypeEntry(config, realExt)) - {"resize"})
  }

  function AllTypeOptions(config: map<string, Value>, mime: Mime): map<string, Value> {
    map ext | ext in Extensions(config) :: Obj(TypeOptions(config, mime, ext))
  }

  /** What the exported function returns or throws for `uploads`. */
  function ParseSpec(uploads: map<string, Value>, v: Validators, mime: Mime): Outcome {
    var config := Normalise(uploads);
    var errors := ValidationErrors(v, config);
    if |errors| > 0 then Thrown(ErrorMessage(errors))
    else Parsed(WithTypes(config, mime))
  }

  /** The configuration with `types` replaced by the per-extension records. */
  function WithTypes(config: map<string, Value>, mime: Mime): map<string, Value> {
    config["types" := Obj(AllTypeOptions(config, mime))]
  }

  // ---------------------------------------------------------------------------
  // The normaliser

  method Parse(uploads: map<string, Value>, v: Validators, mime: Mime) returns (r: Outcome)
    ensures r == ParseSpec(uploads, v, mime)
  {
    // `_.cloneDeep`: values are immutable here, so the copy is the value itself
    var config := uploads;
    config := config["types" := Or(Get(Obj(config), "types"), Empty)];
    config := config["resize" := Or(Get(Obj(config), "resize"), Empty)];

    var errors := CollectErrors(v, config);
    if |errors| > 0 {
      var message := ErrorText(errors);
      return Thrown(message);
    }
    var typesOptions := FillTypes(config, mime);
    config := config["types" := Obj(typesOptions)];
    return Parsed(config);
  }

  /** The three validation passes, growing `errors` by concatenation. */
  method CollectErrors(v: Validators, config: map<string, Value>) returns (errors: seq<ValidationError>)
    ensures errors == ValidationErrors(v, config)
  {
    var c := Obj(config);
    errors := [];
    if v.common(c) != [] {
      errors := errors + v.common(c);
    }
    var typeCount := EntryCount(Get(c, "types"));
    var n := 0;
    while n < typeCount
      invariant 0 <= n <= typeCount
      invariant errors == v.common(c) + Repeat(v.typeRules(c), n)
    {
      if v.typeRules(c) != [] {
        errors := errors + v.typeRules(c);
      }
      n := n + 1;
    }
    var resizeCount := EntryCount(Get(c, "resize"));
    var m := 0;
    while m < resizeCount
      invariant 0 <= m <= resizeCount
      invariant errors == v.common(c) + Repeat(v.typeRules(c), typeCount) + Repeat(v.resizeRules(c), m)
    {
      if v.resizeRules(c) != [] {
        errors := errors + v.resizeRules(c);
      }
      m := m + 1;
    }
  }

  /** The message of the thrown error, built message by message. */
  method ErrorText(errors: seq<ValidationError>) returns (message: string)
    ensures message == ErrorMessage(errors)
  {
    var messages: seq<string> := [];
    for i := 0 to |errors|
      invariant messages == FormatAll(errors[..i])
    {
      assert errors[..i + 1][..i] == errors[..i];
      messages := messages + [FormatError(errors[i])];
    }
    assert errors[..|errors|] == errors;
    message := Join(messages, ", ");
  }

  /** The loop over `config.extentions` that fills `typesOptions` key by key. */
  method FillTypes(config: map<string, Value>, mime: Mime) returns (typesOptions: map<string, Value>)
    ensures typesOptions == AllTypeOptions(config, mime)
  {
    typesOptions := map[];
    var exts := Extensions(config);
    for i := 0 to |exts|
      invariant typesOptions == map ext | ext in exts[..i] :: Obj(TypeOptions(config, mime, ext))
    {
      var ext := exts[i];
      var configForExt := FillType(config, mime, ext);
      typesOptions := typesOptions[ext := Obj(configForExt)];
      assert exts[..i + 1] == exts[..i] + [ext];
    }
    assert exts[..|exts|] == exts;
  }

  /** The option record of one extension: global `max_size`, previews for images, then the type's own fields. */
  method FillType(config: map<string, Value>, mime: Mime, ext: string) returns (configForExt: map<string, Value>)
    ensures configForExt == TypeOptions(config, mime, ext)
  {
    var mimeType := mime.getMimeType(ext);
    var realExt := DropFirstDot(mime.getExtension(mimeType));
    configForExt := map["max_size" := Get(Obj(config), "max_size")];
    if Contains(mimeType, "image/") {
      var resizeOut := FillPreviews(config, realExt);
      configForExt := configForExt["resize" := Obj(resizeOut)];
    }
    configForExt := configForExt + (Props(TypeEntry(config, realExt)) - {"resize"});
  }

  /** The merged previews of the keys in `done`. */
  function PreviewsOver(config: map<string, Value>, realExt: string, previews: map<string, Value>, done: set<string>)
    : map<string, Value>
    requires done <= previews.Keys
  {
    map key | key in done :: Obj(MergedPreview(config, realExt, key, previews[key]))
  }

  lemma PreviewsStep(config: map<string, Value>, realExt: string, previews: map<string, Value>, done: set<string>,
                     key: string)
    requires done <= previews.Keys && key in previews
    ensures PreviewsOver(config, realExt, previews, done + {key}) ==
      PreviewsOver(config, realExt, previews, done)[key := Obj(MergedPreview(config, realExt, key, previews[key]))]
  {
  }

  /** The loop over `config.resize` that fills `configForExt.resize` key by key. */
  method FillPreviews(config: map<string, Value>, realExt: string) returns (resizeOut: map<string, Value>)
    ensures resizeOut == ResizeOptions(config, realExt)
  {
    var previews := Previews(config);
    resizeOut := map[];
    var pending := previews.Keys;
    while pending != {}
      invariant pending <= previews.Keys
      invariant resizeOut == PreviewsOver(config, realExt, previews, previews.Keys - pending)
      decreases pending
    {
      var key :| key in pending;
      ghost var done := previews.Keys - pending;
      PreviewsStep(config, realExt, previews, done, key);
      var previewTypeOptions := PreviewTypeOptions(config, realExt, key);
      var merged := Props(previews[key]) + Props(previewTypeOptions);
      ghost var type0 := Get(Obj(merged), "type");
      if IsJpegPreview(merged, realExt) {
        merged := merged["jpeg_quality" := Or(Or(Get(Obj(merged), "jpeg_quality"), Get(previewTypeOptions, "jpeg_quality")),
                                              Get(Obj(config), "jpeg_quality"))];
      }
      assert Get(Obj(merged), "type") == type0;
      if IsGifPreview(merged, realExt) {
        merged := merged["gif_animation" := Or(Get(previewTypeOptions, "gif_animation"), Get(Obj(config), "gif_animation"))];
      }
      assert merged == MergedPreview(config, realExt, key, previews[key]);
      resizeOut := resizeOut[key := Obj(merged)];
      assert previews.Keys - (pending - {key}) == done + {key};
      pending := pending - {key};
    }
    assert previews.Keys - pending == previews.Keys;
  }

  // ---------------------------------------------------------------------------
  // Properties of the normaliser

  lemma {:induction false} RepeatEmpty<T>(s: seq<T>, n: nat)
    ensures Repeat(s, n) == [] <==> n == 0 || s == []
  {
    if n > 0 {
      RepeatEmpty(s, n - 1);
    }
  }

  /**
   * The function throws exactly when a validator fails, the type validator
   * counting only when `types` has an entry and the preview validator only
   * when `resize` has one; the message lists every error.
   */
  lemma ThrowsIffInvalid(uploads: map<string, Value>, v: Validators, mime: Mime)
    ensures var config := Obj(Normalise(uploads));
      ParseSpec(uploads, v, mime).Thrown? <==>
        (|| v.common(config) != []
         || (EntryCount(Get(config, "types")) > 0 && v.typeRules(config) != [])
         || (EntryCount(Get(config, "resize")) > 0 && v.resizeRules(config) != []))
    ensures ParseSpec(uploads, v, mime).Thrown? ==>
      ParseSpec(uploads, v, mime).message == ErrorMessage(ValidationErrors(v, Normalise(uploads)))
  {
    var config := Obj(Normalise(uploads));
    RepeatEmpty(v.typeRules(config), EntryCount(Get(config, "types")));
    RepeatEmpty(v.resizeRules(config), EntryCount(Get(config, "resize")));
  }

  /**
   * The copy keeps every other field of the input, fills a falsy `resize`
   * with `{}` and replaces `types` by one record per listed extension.
   */
  lemma CopyDefaultsAndTypes(uploads: map<string, Value>, v: Validators, mime: Mime)
    requires ParseSpec(uploads, v, mime).Parsed?
    ensures var out := ParseSpec(uploads, v, mime).config;
      && out.Keys == uploads.Keys + {"types", "resize"}
      && (forall k :: k in uploads && k != "types" && k != "resize" ==> out[k] == uploads[k])
      && out["resize"] == Or(Get(Obj(uploads), "resize"), Empty)
      && out["types"] == Obj(AllTypeOptions(Normalise(uploads), mime))
    ensures Extensions(Normalise(uploads)) == Extensions(uploads)
  {
    var config := Normalise(uploads);
    NormaliseKeeps(uploads);
    WithTypesKeeps(config, mime);
    assert ParseSpec(uploads, v, mime).config == WithTypes(config, mime);
  }

  lemma WithTypesKeeps(config: map<string, Value>, mime: Mime)
    requires "types" in config
    ensures var out := WithTypes(config, mime);
      && out.Keys == config.Keys
      && (forall k :: k in config && k != "types" ==> out[k] == config[k])
      && out["types"] == Obj(AllTypeOptions(config, mime))
  {
  }

  /** The defaults touch only `types` and `resize`. */
  lemma NormaliseKeeps(uploads: map<string, Value>)
    ensures var config := Normalise(uploads);
      && config.Keys == uploads.Keys + {"types", "resize"}
      && (forall k :: k in uploads && k != "types" && k != "resize" ==> config[k] == uploads[k])
      && config["resize"] == Or(Get(Obj(uploads), "resize"), Empty)
      && Extensions(config) == Extensions(uploads)
  {
    var withTypes := uploads["types" := Or(Get(Obj(uploads), "types"), Empty)];
    var config := Normalise(uploads);
    assert Get(Obj(withTypes), "resize") == Get(Obj(uploads), "resize");
    assert config == withTypes["resize" := Or(Get(Obj(uploads), "resize"), Empty)];
    assert Get(Obj(config), "extentions") == Get(Obj(uploads), "extentions");
  }

  /** The keys of `types` are exactly the listed extensions, each mapped to its own record. */
  lemma TypesAreExtensions(config: map<string, Value>, mime: Mime)
    ensures AllTypeOptions(config, mime).Keys == set ext | ext in Extensions(config)
    ensures forall ext :: ext in Extensions(config) ==>
      AllTypeOptions(config, mime)[ext] == Obj(TypeOptions(config, mime, ext))
  {
  }

  /** `max_size` is the global one unless the type's own record sets it. */
  lemma MaxSizeOverride(config: map<string, Value>, mime: Mime, ext: string)
    ensures var own := Props(TypeEntry(config, RealExtension(mime, ext)));
      TypeOptions(config, mime, ext)["max_size"] ==
        if "max_size" in own then own["max_size"] else Get(Obj(config), "max_size")
  {
  }

  /**
   * A `resize` record is present exactly for image MIME types, whatever the
   * type's own record says, and then it has one entry per configured preview.
   * Every other field of the type's own record overrides the global ones.
   */
  lemma ResizeOnlyForImages(config: map<string, Value>, mime: Mime, ext: string)
    ensures var opts := TypeOptions(config, mime, ext);
      && ("resize" in opts <==> Contains(mime.getMimeType(ext), "image/"))
      && ("resize" in opts ==>
            opts["resize"].Obj? && opts["resize"].fields.Keys == Previews(config).Keys)
    ensures var opts := TypeOptions(config, mime, ext);
      var own := Props(TypeEntry(config, RealExtension(mime, ext)));
      forall k :: k in own && k != "resize" ==> k in opts && opts[k] == own[k]
  {
  }

  /**
   * Preview options: the global preview's fields, overridden by the options
   * that the type of the real extension gives for the same preview; only
   * `jpeg_quality` and `gif_animation` may be added.
   */
  lemma PreviewPrecedence(config: map<string, Value>, realExt: string, key: string, previewOptions: Value, field: string)
    requires field != "jpeg_quality" && field != "gif_animation"
    ensures var pto := Props(PreviewTypeOptions(config, realExt, key));
      var r := MergedPreview(config, realExt, key, previewOptions);
      && (field in r <==> field in pto || field in Props(previewOptions))
      && (field in pto ==> r[field] == pto[field])
      && (field !in pto && field in Props(previewOptions) ==> r[field] == Props(previewOptions)[field])
  {
  }

  /**
   * `jpeg_quality` is filled only for a `jpeg` preview, or a preview without
   * a type of a `jpeg` file, from the merged value, then the type's preview
   * value, then the global value; otherwise the merged value stands.
   */
  lemma JpegQualityFallback(config: map<string, Value>, realExt: string, key: string, previewOptions: Value)
    ensures var pto := PreviewTypeOptions(config, realExt, key);
      var merged := Props(previewOptions) + Props(pto);
      var r := Obj(MergedPreview(config, realExt, key, previewOptions));
      && (IsJpegPreview(merged, realExt) <==>
           (Get(Obj(merged), "type") == Str("jpeg") || (realExt == "jpeg" && !Truthy(Get(Obj(merged), "type")))))
      && (IsJpegPreview(merged, realExt) ==>
           Get(r, "jpeg_quality") ==
             Or(Or(Get(Obj(merged), "jpeg_quality"), Get(pto, "jpeg_quality")), Get(Obj(config), "jpeg_quality")))
      && (!IsJpegPreview(merged, realExt) ==> Get(r, "jpeg_quality") == Get(Obj(merged), "jpeg_quality"))
  {
  }

  /**
   * `gif_animation` is filled only for a `gif` preview, or a preview without
   * a type of a `gif` file, from the type's preview value or else the global
   * value: a value set on the global preview itself is replaced.
   */
  lemma GifAnimationFallback(config: map<string, Value>, realExt: string, key: string, previewOptions: Value)
    ensures var pto := PreviewTypeOptions(config, realExt, key);
      var merged := Props(previewOptions) + Props(pto);
      var r := Obj(MergedPreview(config, realExt, key, previewOptions));
      && (IsGifPreview(merged, realExt) ==>
           Get(r, "gif_animation") == Or(Get(pto, "gif_animation"), Get(Obj(config), "gif_animation")))
      && (!IsGifPreview(merged, realExt) ==> Get(r, "gif_animation") == Get(Obj(merged), "gif_animation"))
  {
  }

  /** A preview is never both a `jpeg` and a `gif` preview. */
  lemma JpegAndGifExclusive(merged: map<string, Value>, realExt: string)
    ensures !(IsJpegPreview(merged, realExt) && IsGifPreview(merged, realExt))
  {
  }

  // ---------------------------------------------------------------------------
  // `_.memoize`, keyed by `JSON.stringify` of the input

  class Memo {
    const validators: Validators
    const mime: Mime
    /** `JSON.stringify` */
    const stringify: Value -> string
    /** The results cached so far, by key; a call that throws caches nothing. */
    var cache: map<string, map<string, Value>>
    /** The input whose result each entry is. */
    ghost var inputs: map<string, map<string, Value>>

    ghost predicate Valid()
      reads this
    {
      && cache.Keys == inputs.Keys
      && forall k :: k in cache ==>
           stringify(Obj(inputs[k])) == k && ParseSpec(inputs[k], validators, mime) == Parsed(cache[k])
    }

    constructor (validators: Validators, mime: Mime, stringify: Value -> string)
      ensures Valid() && cache == map[]
      ensures this.validators == validators && this.mime == mime && this.stringify == stringify
    {
      this.validators := validators;
      this.mime := mime;
      this.stringify := stringify;
      cache := map[];
      inputs := map[];
    }

    /**
     * The memoized function: a cached result for an input of the same JSON,
     * else a fresh parse, cached when it does not throw.
     */
    method Call(uploads: map<string, Value>) returns (r: Outcome)
      requires Valid()
      modifies this
      ensures Valid()
      ensures var k := stringify(Obj(uploads));
        if k in old(cache) then
          r == Parsed(old(cache)[k]) && cache == old(cache) && r == ParseSpec(old(inputs)[k], validators, mime)
        else
          r == ParseSpec(uploads, validators, mime) &&
          cache == (if r.Parsed? then old(cache)[k := r.config] else old(cache))
      ensures stringify(Obj(uploads)) in cache ==> cache[stringify(Obj(uploads))] == r.config
    {
      var k := stringify(Obj(uploads));
      if k in cache {
        return Parsed(cache[k]);
      }
      r := Parse(uploads, validators, mime);
      if r.Parsed? {
        cache := cache[k := r.config];
        inputs := inputs[k := uploads];
      }
    }
  }
}
