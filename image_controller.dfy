/** The image-analysis gateway: `analyzeImage` of the Node back end. It checks
    the request, looks the category up in a static table, asks the inference
    service for either raw image bytes or a JSON detections payload, and
    places the processed image in its own `output` directory before replying.

    The filesystem is a `FileSystem` object; the inference service's answer
    is a parameter, and the request the gateway would send is returned, so a
    reply without a request means no call was made. `Analyze` is the same
    behaviour as a function of the initial filesystem state, and the lemmas
    below state the gateway's promises about it. */
module ImageController {
  import opened Common
  import opened FileStore
  import NodePath

  // ---------------------------------------------------------------------
  // Paths and fixed texts (paths are relative to the repository root)

  const StagingDir: Path := "backend_NodeApi/test"
  const OutputDir: Path := "backend_NodeApi/output"
  /** Where the gateway assumes the inference service keeps its files. */
  const ModelApiDir: Path := "model_api"
  const InferenceBase := "http://127.0.0.1:8000/analyze/"
  const PublicOutputPrefix := "/output/"

  const RequiredMessage := "Image and category are required"
  const UnsupportedPrefix := "Unsupported asset type: "
  const ProcessedPrefix := "Image processed via "
  const FailureMessage := "Image analysis failed"

  // ---------------------------------------------------------------------
  // The category table

  /** What the inference service answers for a category: `expects: "image"`
      or `expects: "json"`. */
  datatype Expects = ExpectsImage | ExpectsJson

  /** The `assetConfig` table, read as a table of its own entries. */
  function AssetConfig(category: string): (r: Option<Expects>)
    ensures r.Some? <==> category == "light" || category == "sign"
    ensures r == Some(ExpectsImage) <==> category == "light"
    ensures r == Some(ExpectsJson) <==> category == "sign"
  {
    if category == "light" then Some(ExpectsImage)
    else if category == "sign" then Some(ExpectsJson)
    else None
  }

  /** What `assetConfig[category]` evaluates to on the object literal as
      written: an own entry, a property every object inherits from
      `Object.prototype` (a function or the prototype itself), or
      `undefined`. */
  datatype Property = Own(expects: Expects) | Inherited | Missing

  const ObjectPrototypeKeys: set<string> := {
    "constructor", "__proto__", "hasOwnProperty", "isPrototypeOf",
    "propertyIsEnumerable", "toLocaleString", "toString", "valueOf",
    "__defineGetter__", "__defineSetter__", "__lookupGetter__", "__lookupSetter__"
  }

  function AssetConfigAsWritten(category: string): (r: Property)
    ensures r.Own? <==> AssetConfig(category).Some?
    ensures r.Own? ==> AssetConfig(category) == Some(r.expects)
    ensures r.Inherited? <==> category in ObjectPrototypeKeys
  {
    if category == "light" then Own(ExpectsImage)
    else if category == "sign" then Own(ExpectsJson)
    else if category in ObjectPrototypeKeys then Inherited
    else Missing
  }

  /** The `if (!config)` guard as written: every inherited property is truthy. */
  predicate PassesGuardAsWritten(category: string)
  {
    !AssetConfigAsWritten(category).Missing?
  }

  /** The guard as written lets every inherited property name through, although
      none of them is a category; such a request is then sent on to
      `/analyze/<name>` with a JSON response type, since `config.expects` is
      undefined there. */
  lemma InheritedNamesPassGuard(category: string)
    requires category in ObjectPrototypeKeys
    ensures PassesGuardAsWritten(category)
    ensures AssetConfigAsWritten(category) != Own(ExpectsImage)
    ensures AssetConfig(category).None?
  {
  }

  /** `config.expects === "image" ? "arraybuffer" : "json"` on the value
      looked up as written. */
  function ResponseTypeAsWritten(p: Property): (r: ResponseType)
    ensures r == ArrayBuffer <==> p == Own(ExpectsImage)
  {
    if p == Own(ExpectsImage) then ArrayBuffer else JsonResponse
  }

  /** The name `toString` gets past the guard as written and is sent on as
      a JSON request, where the table by its own entries rejects it. */
  lemma ToStringPassesGuard()
    ensures PassesGuardAsWritten("toString")
    ensures ResponseTypeAsWritten(AssetConfigAsWritten("toString")) == JsonResponse
    ensures AssetConfig("toString").None?
  {
    InheritedNamesPassGuard("toString");
  }

  // ---------------------------------------------------------------------
  // Requests, replies and the outcome of one call

  /** The multer upload: `file.filename`, which is the client's original name. */
  datatype Upload = Upload(filename: string)

  /** `responseType: "arraybuffer"` or `"json"`. */
  datatype ResponseType = ArrayBuffer | JsonResponse

  /** The POST the gateway makes: the route, the staged file it streams, and
      how it asks for the answer to be read. */
  datatype InferenceRequest = InferenceRequest(url: string, upload: Path, responseType: ResponseType)

  /** What the inference call yields: a rejected call (connection refused, a
      non-success status, an unreadable staged file), raw bytes, or a decoded
      JSON object whose `detections` and `image_url` may be absent. */
  datatype InferenceReply =
    | TransportFailure
    | RawBytes(data: Bytes)
    | JsonBody(detections: Option<seq<Detection>>, imageUrl: Option<string>)

  /** The JSON bodies the gateway sends; a `None` detections field is left out
      of the serialised object. */
  datatype Body =
    | ErrorBody(error: string)
    | ImageProcessed(message: string, outputImage: string)
    | DetectionsReply(detections: Option<seq<Detection>>, imageUrl: string)

  datatype HttpReply = HttpReply(status: int, body: Body)

  datatype Outcome = Outcome(reply: HttpReply, request: Option<InferenceRequest>, after: FsState)

  const Failed := HttpReply(500, ErrorBody(FailureMessage))

  /** `!file || !category` is false: both are present and the category is
      not the empty string. */
  predicate ValidInput(file: Option<Upload>, category: Option<string>)
  {
    file.Some? && category.Some? && category.value != ""
  }

  function RequestFor(file: Upload, category: string, expects: Expects): InferenceRequest
  {
    InferenceRequest(InferenceBase + category, NodePath.Join(StagingDir, file.filename),
                     if expects == ExpectsImage then ArrayBuffer else JsonResponse)
  }

  /** `if (!fs.existsSync(outputDir)) fs.mkdirSync(outputDir)`. */
  function EnsureOutputDir(s: FsState): (r: Step)
    ensures !r.ok ==> r.after == s
    ensures r.ok ==> OutputDir in r.after.dirs || OutputDir in r.after.files
    ensures r.after.files == s.files && r.after.denied == s.denied
    ensures r.after.dirs == s.dirs || r.after.dirs == s.dirs + {OutputDir}
  {
    if Present(s, OutputDir) then Step(true, s) else Mkdir(s, OutputDir)
  }

  /** Where the image branch writes. */
  function ImageTarget(file: Upload): Path
  {
    NodePath.Join(OutputDir, file.filename)
  }

  /** Where the JSON branch reads and writes for a given `image_url`. */
  function JsonSource(imageUrl: string): Path
  {
    NodePath.Join(ModelApiDir, imageUrl)
  }

  function JsonTarget(imageUrl: string): Path
  {
    NodePath.Join(OutputDir, NodePath.Basename(imageUrl))
  }

  // ---------------------------------------------------------------------
  // The behaviour, as a function of the state before the call

  /** The reply and the filesystem once the inference request has been sent. */
  datatype Reached = Reached(reply: HttpReply, after: FsState)

  function Analyze(s: FsState, file: Option<Upload>, category: Option<string>, reply: InferenceReply): (o: Outcome)
    ensures o.request.None? <==> o.reply.status == 400
    ensures o.request.None? ==> o.after == s
    ensures o.reply.status == 200 || o.reply.status == 400 || o.reply == Failed
  {
    if !ValidInput(file, category) then
      Outcome(HttpReply(400, ErrorBody(RequiredMessage)), None, s)
    else
      var c := category.value;
      match AssetConfig(c)
      case None =>
        Outcome(HttpReply(400, ErrorBody(UnsupportedPrefix + c)), None, s)
      case Some(expects) =>
        var r := Proceed(s, file.value, c, expects, reply);
        Outcome(r.reply, Some(RequestFor(file.value, c, expects)), r.after)
  }

  /** From the inference answer on: every thrown error becomes the 500 reply. */
  function Proceed(s: FsState, file: Upload, category: string, expects: Expects, reply: InferenceReply): (r: Reached)
    ensures r.reply == Failed || r.reply.status == 200
    ensures r.after.denied == s.denied
    ensures r.after.dirs == s.dirs || r.after.dirs == s.dirs + {OutputDir}
    ensures reply.TransportFailure? ==> r.after == s
    ensures SameFilesExcept(s.files, r.after.files, WriteTarget(Some(file), reply))
  {
    if reply.TransportFailure? then
      UpdateIsSameExcept(s.files, WriteTarget(Some(file), reply), []);
      Reached(Failed, s)
    else
      var dir := EnsureOutputDir(s);
      if !dir.ok then
        UpdateIsSameExcept(s.files, WriteTarget(Some(file), reply), []);
        Reached(Failed, dir.after)
      else if expects == ExpectsImage then
        var r := SaveImage(dir.after, file, category, reply);
        assert reply.RawBytes? ==> WriteTarget(Some(file), reply) == ImageTarget(file);
        if reply.RawBytes? then r
        else
          UpdateIsSameExcept(s.files, WriteTarget(Some(file), reply), []);
          r
      else
        var r := SaveDetections(dir.after, reply);
        assert reply.JsonBody? && reply.imageUrl.Some? ==>
          WriteTarget(Some(file), reply) == JsonTarget(reply.imageUrl.value);
        if reply.JsonBody? && reply.imageUrl.Some? then r
        else
          UpdateIsSameExcept(s.files, WriteTarget(Some(file), reply), []);
          r
  }

  /** The image branch: `Buffer.from` throws on anything but bytes, and the
      bytes go verbatim to `output/<file.filename>`. */
  function SaveImage(s: FsState, file: Upload, category: string, reply: InferenceReply): (r: Reached)
    ensures r.reply == Failed || r.reply.status == 200
    ensures r.after.dirs == s.dirs && r.after.denied == s.denied
    ensures r.after.files == s.files || (reply.RawBytes? && r.after.files == s.files[ImageTarget(file) := reply.data])
    ensures reply.RawBytes? ==> SameFilesExcept(s.files, r.after.files, ImageTarget(file))
    ensures r.reply.status == 200 <==> reply.RawBytes? && Writable(s, OutputDir, ImageTarget(file))
  {
    if !reply.RawBytes? then Reached(Failed, s)
    else
      UpdateIsSameExcept(s.files, ImageTarget(file), reply.data);
      var w := Write(s, OutputDir, ImageTarget(file), reply.data);
      if !w.ok then Reached(Failed, w.after)
      else Reached(HttpReply(200, ImageProcessed(ProcessedPrefix + category, PublicOutputPrefix + file.filename)), w.after)
  }

  /** The JSON branch: destructuring a non-object or `path.basename(undefined)`
      throws; the inference service's file is copied only if it exists. */
  function SaveDetections(s: FsState, reply: InferenceReply): (r: Reached)
    ensures r.reply == Failed || r.reply.status == 200
    ensures r.after.dirs == s.dirs && r.after.denied == s.denied
    ensures r.after.files == s.files
         || (reply.JsonBody? && reply.imageUrl.Some? && JsonSource(reply.imageUrl.value) in s.files &&
             r.after.files == s.files[JsonTarget(reply.imageUrl.value) := s.files[JsonSource(reply.imageUrl.value)]])
    ensures reply.JsonBody? && reply.imageUrl.Some? ==>
      SameFilesExcept(s.files, r.after.files, JsonTarget(reply.imageUrl.value))
    ensures !(reply.JsonBody? && reply.imageUrl.Some?) ==> r.reply == Failed && r.after == s
  {
    if !reply.JsonBody? || reply.imageUrl.None? then Reached(Failed, s)
    else
      var url := reply.imageUrl.value;
      var src, dst := JsonSource(url), JsonTarget(url);
      var body := HttpReply(200, DetectionsReply(reply.detections, PublicOutputPrefix + NodePath.Basename(url)));
      if Present(s, src) then
        var cp := Copy(s, src, OutputDir, dst);
        if cp.ok then
          UpdateIsSameExcept(s.files, dst, s.files[src]);
          Reached(body, cp.after)
        else
          UpdateIsSameExcept(s.files, dst, []);
          Reached(Failed, cp.after)
      else
        UpdateIsSameExcept(s.files, dst, []);
        Reached(body, s)
  }

  /** The one file name a call may write: the upload's name in the image
      branch, the basename of `image_url` in the JSON branch. */
  function WriteTarget(file: Option<Upload>, reply: InferenceReply): Path
  {
    if reply.JsonBody? && reply.imageUrl.Some? then JsonTarget(reply.imageUrl.value)
    else if file.Some? then ImageTarget(file.value)
    else OutputDir
  }

  // ---------------------------------------------------------------------
  // The handler, step by step over the filesystem object

  method AnalyzeImage(fs: FileSystem, file: Option<Upload>, category: Option<string>, reply: InferenceReply)
      returns (res: HttpReply, request: Option<InferenceRequest>)
    modifies fs
    ensures Outcome(res, request, fs.State()) == Analyze(old(fs.State()), file, category, reply)
    ensures res.status == 400 ==> request.None? && fs.State() == old(fs.State())
  {
    request := None;
    if file.None? || category.None? || category.value == "" {
      return HttpReply(400, ErrorBody(RequiredMessage)), None;
    }
    var c := category.value;
    var config := AssetConfig(c);
    if config.None? {
      return HttpReply(400, ErrorBody(UnsupportedPrefix + c)), None;
    }
    var expects := config.value;
    request := Some(RequestFor(file.value, c, expects));
    if reply.TransportFailure? {
      return Failed, request;
    }
    if !fs.Exists(OutputDir) {
      var made := fs.MakeDirectory(OutputDir);
      if !made {
        return Failed, request;
      }
    }
    if expects == ExpectsImage {
      if !reply.RawBytes? {
        return Failed, request;
      }
      var written := fs.WriteFile(OutputDir, ImageTarget(file.value), reply.data);
      if !written {
        return Failed, request;
      }
      res := HttpReply(200, ImageProcessed(ProcessedPrefix + c, PublicOutputPrefix + file.value.filename));
    } else {
      if !reply.JsonBody? || reply.imageUrl.None? {
        return Failed, request;
      }
      var url := reply.imageUrl.value;
      var name := NodePath.Basename(url);
      if fs.Exists(JsonSource(url)) {
        var copied := fs.CopyFile(JsonSource(url), OutputDir, JsonTarget(url));
        if !copied {
          return Failed, request;
        }
      }
      res := HttpReply(200, DetectionsReply(reply.detections, PublicOutputPrefix + name));
    }
  }

  // ---------------------------------------------------------------------
  // What the gateway promises

  /** A valid request for a category in the table goes on to `Proceed`. */
  lemma AnalyzeProceeds(s: FsState, file: Upload, category: string, reply: InferenceReply)
    requires AssetConfig(category).Some?
    ensures Analyze(s, Some(file), Some(category), reply)
         == var r := Proceed(s, file, category, AssetConfig(category).value, reply);
            Outcome(r.reply, Some(RequestFor(file, category, AssetConfig(category).value)), r.after)
  {
  }

  /** A missing file or category is a 400 before anything else happens. */
  lemma MissingFieldsRejected(s: FsState, file: Option<Upload>, category: Option<string>, reply: InferenceReply)
    requires !ValidInput(file, category)
    ensures Analyze(s, file, category, reply) == Outcome(HttpReply(400, ErrorBody(RequiredMessage)), None, s)
  {
  }

  /** A category outside the table is a 400 naming it, before any inference
      call or filesystem change. */
  lemma UnsupportedCategoryRejected(s: FsState, file: Option<Upload>, category: Option<string>, reply: InferenceReply)
    requires ValidInput(file, category)
    requires category.value != "light" && category.value != "sign"
    ensures Analyze(s, file, category, reply)
         == Outcome(HttpReply(400, ErrorBody(UnsupportedPrefix + category.value)), None, s)
  {
  }

  /** With the table read by its own entries, every inherited property
      name is an unsupported category: a 400 naming it, no request, no
      change. */
  lemma InheritedNamesRejected(s: FsState, file: Upload, category: string, reply: InferenceReply)
    requires category in ObjectPrototypeKeys
    ensures Analyze(s, Some(file), Some(category), reply)
         == Outcome(HttpReply(400, ErrorBody(UnsupportedPrefix + category)), None, s)
  {
    UnsupportedCategoryRejected(s, Some(file), Some(category), reply);
  }

  /** A request is made exactly when the input is valid and the category is
      in the table; it goes to the category's route, streams the staged
      upload, and asks for raw bytes exactly when the category expects an
      image. The status is always 200, 400 or 500, and 400 is the status of
      exactly the replies given without a request. */
  lemma RequestFollowsTable(s: FsState, file: Option<Upload>, category: Option<string>, reply: InferenceReply)
    ensures var o := Analyze(s, file, category, reply);
      && (o.request.Some? <==> ValidInput(file, category) && AssetConfig(category.value).Some?)
      && (o.request.Some? ==>
            && o.request.value.url == InferenceBase + category.value
            && o.request.value.upload == NodePath.Join(StagingDir, file.value.filename)
            && (o.request.value.responseType == ArrayBuffer <==> category.value == "light"))
      && (o.reply.status == 200 || o.reply.status == 400 || o.reply.status == 500)
      && (o.request.None? <==> o.reply.status == 400)
      && (o.reply.status == 400 ==> o.after == s)
      && (o.reply.status == 500 ==> o.reply == Failed)
  {
  }

  /** The reply's body follows its status: an error object exactly on 400
      and 500, one of the two success shapes on 200. */
  lemma BodyFollowsStatus(s: FsState, file: Option<Upload>, category: Option<string>, reply: InferenceReply)
    ensures var o := Analyze(s, file, category, reply);
      o.reply.body.ErrorBody? <==> o.reply.status != 200
  {
    if ValidInput(file, category) && AssetConfig(category.value).Some? {
      AnalyzeProceeds(s, file.value, category.value, reply);
      ProceedBodyFollowsStatus(s, file.value, category.value, AssetConfig(category.value).value, reply);
    }
  }

  lemma ProceedBodyFollowsStatus(s: FsState, file: Upload, category: string, expects: Expects, reply: InferenceReply)
    ensures var r := Proceed(s, file, category, expects, reply);
      r.reply.body.ErrorBody? <==> r.reply.status != 200
  {
    if reply.TransportFailure? {
      assert Proceed(s, file, category, expects, reply) == Reached(Failed, s);
    } else if !EnsureOutputDir(s).ok {
      ProceedDirFails(s, file, category, expects, reply);
    } else {
      var d := EnsureOutputDir(s);
      ProceedSaves(s, file, category, expects, reply);
      if expects == ExpectsImage {
        SaveImageBodyFollowsStatus(d.after, file, category, reply);
      } else {
        SaveDetectionsBodyFollowsStatus(d.after, reply);
      }
    }
  }

  lemma SaveImageBodyFollowsStatus(s: FsState, file: Upload, category: string, reply: InferenceReply)
    ensures var r := SaveImage(s, file, category, reply);
      r.reply.body.ErrorBody? <==> r.reply.status != 200
  {
  }

  lemma SaveDetectionsBodyFollowsStatus(s: FsState, reply: InferenceReply)
    ensures var r := SaveDetections(s, reply);
      r.reply.body.ErrorBody? <==> r.reply.status != 200
  {
    if reply.JsonBody? && reply.imageUrl.Some? {
      var url := reply.imageUrl.value;
      assert reply == JsonBody(reply.detections, Some(url));
      if Present(s, JsonSource(url)) {
        SaveDetectionsPresent(s, reply.detections, url);
      } else {
        SaveDetectionsAbsent(s, reply.detections, url);
      }
    } else {
      assert SaveDetections(s, reply) == Reached(Failed, s);
    }
  }

  /** A rejected inference call is a 500 that leaves the filesystem as it was. */
  lemma TransportFailureChangesNothing(s: FsState, file: Option<Upload>, category: Option<string>, reply: InferenceReply)
    requires reply.TransportFailure?
    ensures var o := Analyze(s, file, category, reply);
      o.after == s && o.reply.status != 200
  {
  }

  /** Whatever happens, only the output directory may be created and only
      the single target file inside it may be written; every other file
      keeps its contents and nothing is deleted. */
  lemma ChangesConfinedToTarget(s: FsState, file: Option<Upload>, category: Option<string>, reply: InferenceReply)
    ensures var o := Analyze(s, file, category, reply);
      && o.after.denied == s.denied
      && (o.after.dirs == s.dirs || o.after.dirs == s.dirs + {OutputDir})
      && SameFilesExcept(s.files, o.after.files, WriteTarget(file, reply))
  {
  }

  /** Once the inference call has answered, the output directory exists
      afterwards unless creating it failed (then nothing changed), and every
      successful reply leaves it in place. */
  lemma OutputDirAfterInference(s: FsState, file: Option<Upload>, category: Option<string>, reply: InferenceReply)
    ensures var o := Analyze(s, file, category, reply);
      && (o.request.Some? && !reply.TransportFailure? ==> Present(o.after, OutputDir) || o.after == s)
      && (o.reply.status == 200 ==> Present(o.after, OutputDir))
  {
  }

  /** Image branch: the output file holds exactly the returned bytes, and
      the reply names it under `/output/`. It fails only if the directory
      cannot be made or the file cannot be written. */
  lemma ImageBranch(s: FsState, file: Upload, category: string, data: Bytes)
    requires category == "light"
    ensures var o := Analyze(s, Some(file), Some(category), RawBytes(data));
      var d := EnsureOutputDir(s);
      && (o.reply.status == 200 <==> d.ok && Writable(d.after, OutputDir, ImageTarget(file)))
      && (o.reply.status == 200 ==>
            && o.reply.body == ImageProcessed(ProcessedPrefix + category, PublicOutputPrefix + file.filename)
            && o.after.files == s.files[ImageTarget(file) := data]
            && o.after.files[ImageTarget(file)] == data)
      && (o.reply.status != 200 ==> o.reply == Failed && o.after.files == s.files)
  {
    AnalyzeProceeds(s, file, category, RawBytes(data));
  }

  /** Image branch with anything but bytes: a 500 and no file written. */
  lemma ImageBranchNeedsBytes(s: FsState, file: Upload, category: string, reply: InferenceReply)
    requires category == "light" && !reply.RawBytes?
    ensures var o := Analyze(s, Some(file), Some(category), reply);
      o.reply == Failed && o.after.files == s.files
  {
    AnalyzeProceeds(s, file, category, reply);
    var r := Proceed(s, file, category, ExpectsImage, reply);
    assert r.reply == Failed && r.after.files == s.files by {
      if !reply.TransportFailure? {
        var d := EnsureOutputDir(s);
        if d.ok {
          assert r == SaveImage(d.after, file, category, reply);
        }
      }
    }
  }

  lemma SourceIsNotOutputDir(url: string)
    ensures JsonSource(url) != OutputDir
  {
    assert JsonSource(url)[0] == ModelApiDir[0];
  }

  /** JSON branch when the inference service's file exists: it is copied
      byte for byte to `output/<basename>`, and the detections are passed
      through unchanged. */
  lemma JsonBranchCopies(s: FsState, file: Upload, category: string,
                         detections: Option<seq<Detection>>, url: string)
    requires category == "sign"
    requires Present(s, JsonSource(url))
    ensures var o := Analyze(s, Some(file), Some(category), JsonBody(detections, Some(url)));
      var d := EnsureOutputDir(s);
      && (o.reply.status == 200 <==>
            d.ok && JsonSource(url) in s.files && Writable(d.after, OutputDir, JsonTarget(url)))
      && (o.reply.status == 200 ==>
            && o.reply.body == DetectionsReply(detections, PublicOutputPrefix + NodePath.Basename(url))
            && o.after.files == s.files[JsonTarget(url) := s.files[JsonSource(url)]])
      && (o.reply.status != 200 ==> o.reply == Failed && o.after.files == s.files)
  {
    AnalyzeProceeds(s, file, category, JsonBody(detections, Some(url)));
    ProceedSourcePresent(s, file, category, detections, url);
  }

  lemma ProceedSourcePresent(s: FsState, file: Upload, category: string,
                             detections: Option<seq<Detection>>, url: string)
    requires Present(s, JsonSource(url))
    ensures var r := Proceed(s, file, category, ExpectsJson, JsonBody(detections, Some(url)));
      var d := EnsureOutputDir(s);
      && (r.reply.status == 200 <==>
            d.ok && JsonSource(url) in s.files && Writable(d.after, OutputDir, JsonTarget(url)))
      && (r.reply.status == 200 ==>
            && r.reply.body == DetectionsReply(detections, PublicOutputPrefix + NodePath.Basename(url))
            && r.after.files == s.files[JsonTarget(url) := s.files[JsonSource(url)]])
      && (r.reply.status != 200 ==> r.reply == Failed && r.after.files == s.files)
  {
    var reply := JsonBody(detections, Some(url));
    var d := EnsureOutputDir(s);
    if d.ok {
      SourceIsNotOutputDir(url);
      assert Present(d.after, JsonSource(url));
      ProceedSaves(s, file, category, ExpectsJson, reply);
      SaveDetectionsPresent(d.after, detections, url);
    }
  }

  lemma SaveDetectionsPresent(s: FsState, detections: Option<seq<Detection>>, url: string)
    requires Present(s, JsonSource(url))
    ensures var r := SaveDetections(s, JsonBody(detections, Some(url)));
      && (r.reply.status == 200 <==> JsonSource(url) in s.files && Writable(s, OutputDir, JsonTarget(url)))
      && (r.reply.status == 200 ==>
            && r.reply.body == DetectionsReply(detections, PublicOutputPrefix + NodePath.Basename(url))
            && r.after.files == s.files[JsonTarget(url) := s.files[JsonSource(url)]])
      && (r.reply.status != 200 ==> r.reply == Failed && r.after.files == s.files)
  {
  }

  /** JSON branch when that file is absent: nothing is written, yet the reply
      has the same shape and still points at `/output/<basename>`. */
  lemma JsonBranchSourceAbsent(s: FsState, file: Upload, category: string,
                               detections: Option<seq<Detection>>, url: string)
    requires category == "sign"
    requires !Present(s, JsonSource(url))
    ensures var o := Analyze(s, Some(file), Some(category), JsonBody(detections, Some(url)));
      && o.after.files == s.files
      && (o.reply.status == 200 <==> EnsureOutputDir(s).ok)
      && (o.reply.status == 200 ==>
            o.reply.body == DetectionsReply(detections, PublicOutputPrefix + NodePath.Basename(url)))
      && (o.reply.status != 200 ==> o.reply == Failed)
  {
    AnalyzeProceeds(s, file, category, JsonBody(detections, Some(url)));
    ProceedSourceAbsent(s, file, category, detections, url);
  }

  lemma ProceedSourceAbsent(s: FsState, file: Upload, category: string,
                            detections: Option<seq<Detection>>, url: string)
    requires !Present(s, JsonSource(url))
    ensures var r := Proceed(s, file, category, ExpectsJson, JsonBody(detections, Some(url)));
      && r.after.files == s.files
      && (r.reply.status == 200 <==> EnsureOutputDir(s).ok)
      && (r.reply.status == 200 ==>
            r.reply.body == DetectionsReply(detections, PublicOutputPrefix + NodePath.Basename(url)))
      && (r.reply.status != 200 ==> r.reply == Failed)
  {
    var reply := JsonBody(detections, Some(url));
    var d := EnsureOutputDir(s);
    if d.ok {
      SourceIsNotOutputDir(url);
      assert !Present(d.after, JsonSource(url));
      ProceedSaves(s, file, category, ExpectsJson, reply);
      SaveDetectionsAbsent(d.after, detections, url);
      assert Proceed(s, file, category, ExpectsJson, reply)
          == Reached(HttpReply(200, DetectionsReply(detections, PublicOutputPrefix + NodePath.Basename(url))), d.after);
    } else {
      ProceedDirFails(s, file, category, ExpectsJson, reply);
    }
  }

  /** When the output directory cannot be created, the call fails with
      nothing changed. */
  lemma ProceedDirFails(s: FsState, file: Upload, category: string, expects: Expects, reply: InferenceReply)
    requires !reply.TransportFailure? && !EnsureOutputDir(s).ok
    ensures Proceed(s, file, category, expects, reply) == Reached(Failed, s)
  {
  }

  lemma SaveDetectionsAbsent(s: FsState, detections: Option<seq<Detection>>, url: string)
    requires !Present(s, JsonSource(url))
    ensures SaveDetections(s, JsonBody(detections, Some(url)))
         == Reached(HttpReply(200, DetectionsReply(detections, PublicOutputPrefix + NodePath.Basename(url))), s)
  {
  }

  /** Once the output directory is in place, `Proceed` hands over to the
      branch for the category. */
  lemma ProceedSaves(s: FsState, file: Upload, category: string, expects: Expects, reply: InferenceReply)
    requires !reply.TransportFailure? && EnsureOutputDir(s).ok
    ensures Proceed(s, file, category, expects, reply)
         == if expects == ExpectsImage then SaveImage(EnsureOutputDir(s).after, file, category, reply)
            else SaveDetections(EnsureOutputDir(s).after, reply)
  {
  }

  /** JSON branch without an `image_url` (or without a JSON object at all):
      `path.basename` throws, so the reply is a 500, though the output
      directory may have been created already. */
  lemma JsonBranchNeedsImageUrl(s: FsState, file: Upload, category: string, reply: InferenceReply)
    requires category == "sign"
    requires !reply.TransportFailure?
    requires !(reply.JsonBody? && reply.imageUrl.Some?)
    ensures var o := Analyze(s, Some(file), Some(category), reply);
      && o.reply == Failed
      && o.after.files == s.files
      && o.after == EnsureOutputDir(s).after
  {
    AnalyzeProceeds(s, file, category, reply);
  }

  /** Every successful reply names a path under `/output/`; in the image
      branch that file exists, in the JSON branch the name is one path
      component. */
  lemma SuccessNamesOutputPath(s: FsState, file: Option<Upload>, category: Option<string>, reply: InferenceReply)
    ensures var o := Analyze(s, file, category, reply);
      o.reply.status == 200 ==>
        match o.reply.body
        case ImageProcessed(_, out) =>
          out == PublicOutputPrefix + file.value.filename && ImageTarget(file.value) in o.after.files
        case DetectionsReply(_, out) =>
          exists name :: '/' !in name && out == PublicOutputPrefix + name
        case ErrorBody(_) => false
  {
    if ValidInput(file, category) && AssetConfig(category.value).Some? {
      AnalyzeProceeds(s, file.value, category.value, reply);
      ProceedNamesOutputPath(s, file.value, category.value, AssetConfig(category.value).value, reply);
    }
  }

  lemma ProceedNamesOutputPath(s: FsState, file: Upload, category: string, expects: Expects, reply: InferenceReply)
    ensures var r := Proceed(s, file, category, expects, reply);
      r.reply.status == 200 ==>
        match r.reply.body
        case ImageProcessed(_, out) =>
          out == PublicOutputPrefix + file.filename && ImageTarget(file) in r.after.files
        case DetectionsReply(_, out) =>
          exists name :: '/' !in name && out == PublicOutputPrefix + name
        case ErrorBody(_) => false
  {
    if !reply.TransportFailure? && EnsureOutputDir(s).ok {
      ProceedSaves(s, file, category, expects, reply);
      var d := EnsureOutputDir(s);
      if expects == ExpectsImage {
        SaveImageNamesUpload(d.after, file, category, reply);
      } else {
        SaveDetectionsNamesBasename(d.after, reply);
      }
    }
  }

  lemma SaveImageNamesUpload(s: FsState, file: Upload, category: string, reply: InferenceReply)
    ensures var r := SaveImage(s, file, category, reply);
      r.reply.status == 200 ==>
        && r.reply.body == ImageProcessed(ProcessedPrefix + category, PublicOutputPrefix + file.filename)
        && ImageTarget(file) in r.after.files
  {
  }

  lemma SaveDetectionsNamesBasename(s: FsState, reply: InferenceReply)
    ensures var r := SaveDetections(s, reply);
      r.reply.status == 200 ==>
        && reply.JsonBody? && reply.imageUrl.Some?
        && r.reply.body == DetectionsReply(reply.detections, PublicOutputPrefix + NodePath.Basename(reply.imageUrl.value))
  {
    if reply.JsonBody? && reply.imageUrl.Some? {
      var url := reply.imageUrl.value;
      assert reply == JsonBody(reply.detections, Some(url));
      if Present(s, JsonSource(url)) {
        SaveDetectionsPresent(s, reply.detections, url);
      } else {
        SaveDetectionsAbsent(s, reply.detections, url);
      }
    }
  }
}
