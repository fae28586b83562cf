/** How the pieces meet: the sign service's reply as the gateway receives
    it, where the gateway looks for the detector's image, and what the page
    shows for each gateway reply. */
module EndToEnd {
  import opened Common
  import opened FileStore
  import NodePath
  import PyPath
  import opened ImageController
  import TrafficSignDetection
  import AssetRating

  /** The sign route of the FastAPI service: its JSON reply
      `{detections, image_url: "/output/<filename>"}` on success; on an
      exception a 500, which the gateway's HTTP client rejects. */
  function SignServiceReply(r: TrafficSignDetection.Raise<TrafficSignDetection.Found>): (reply: InferenceReply)
    ensures reply.TransportFailure? <==> r.Raised?
    ensures r.Returned? ==> reply == JsonBody(Some(r.value.detections), Some(PublicOutputPrefix + r.value.filename))
  {
    match r
    case Raised(_) => TransportFailure
    case Returned(found) => JsonBody(Some(found.detections), Some(PublicOutputPrefix + found.filename))
  }

  /** For a file name `name`, the gateway's `image_url` handling gives back
      `name`: it replies `/output/<name>`, writes `output/<name>`, and reads
      `model_api/output/<name>`. */
  lemma PublicUrlRoundTrip(name: string)
    requires name != "" && '/' !in name
    ensures NodePath.Basename(PublicOutputPrefix + name) == name
    ensures JsonTarget(PublicOutputPrefix + name) == OutputDir + "/" + name
    ensures JsonSource(PublicOutputPrefix + name) == ModelApiDir + "/output/" + name
  {
    PublicBasename(name);
    NoLeadingSlash(name);
    PublicSource(name);
  }

  lemma PublicBasename(name: string)
    requires name != "" && '/' !in name
    ensures NodePath.Basename(PublicOutputPrefix + name) == name
  {
    assert PublicOutputPrefix + name == "/output" + "/" + name;
    NodePath.BasenameOfJoined("/output", name);
  }

  lemma PublicSource(name: string)
    ensures JsonSource(PublicOutputPrefix + name) == ModelApiDir + "/output/" + name
  {
    var url := PublicOutputPrefix + name;
    var rest := "output/" + name;
    assert url[1..] == rest;
    NoLeadingSlash(rest);
    assert NodePath.TrimLeadingSlashes(url) == rest;
    assert ModelApiDir + "/" + rest == ModelApiDir + "/output/" + name;
  }

  lemma NoLeadingSlash(t: string)
    requires t != "" && t[0] != '/'
    ensures NodePath.TrimLeadingSlashes(t) == t
  {
  }

  /** The gateway reads the detector's image only if the detector's base
      directory is the `model_api` directory the gateway assumes. */
  lemma SourceIsDetectorOutput(imagePath: string)
    requires TrafficSignDetection.Supported(imagePath)
    ensures var name := PyPath.Basename(imagePath);
      JsonSource(PublicOutputPrefix + name) == TrafficSignDetection.OutputPathOf(ModelApiDir, imagePath)
  {
    TrafficSignDetection.OutputPathShape(ModelApiDir, imagePath);
    SourceUnderDetectorOutputDir(PyPath.Basename(imagePath));
  }

  lemma SourceUnderDetectorOutputDir(name: string)
    ensures JsonSource(PublicOutputPrefix + name) == TrafficSignDetection.OutputDirOf(ModelApiDir) + "/" + name
  {
    PublicSource(name);
    OutputDirs();
    assert "model_api/output" + "/" == ModelApiDir + "/output/";
  }

  /** The detector's output directory for the two base directories. */
  lemma OutputDirs()
    ensures TrafficSignDetection.OutputDirOf(ModelApiDir) == "model_api/output"
    ensures TrafficSignDetection.OutputDirOf("backend_FastApi") == "backend_FastApi/output"
  {
    assert ModelApiDir[|ModelApiDir| - 1] == 'i';
    assert "backend_FastApi"[|"backend_FastApi"| - 1] == 'i';
  }

  /** The repository keeps the sign service in `backend_FastApi`, whose
      `output` directory is where the detector saves; the gateway's source
      path under `model_api` is never that file. */
  lemma RepositoryLayoutMissesDetectorOutput(imagePath: string)
    requires TrafficSignDetection.Supported(imagePath)
    ensures var name := PyPath.Basename(imagePath);
      JsonSource(PublicOutputPrefix + name) != TrafficSignDetection.OutputPathOf("backend_FastApi", imagePath)
  {
    var name := PyPath.Basename(imagePath);
    PublicSource(name);
    TrafficSignDetection.OutputPathShape("backend_FastApi", imagePath);
    OutputDirs();
    assert JsonSource(PublicOutputPrefix + name)[0] == 'm';
    assert TrafficSignDetection.OutputPathOf("backend_FastApi", imagePath)[0] == 'b';
  }

  /** A successful detection run whose image could be saved, under the
      layout the gateway assumes: the gateway then copies exactly that
      image to `output/<name>` and points the page at `/output/<name>`. */
  lemma SignPipelineDeliversImage(s: FsState, imagePath: string, boxes: Option<seq<TrafficSignDetection.Box>>,
                                  names: map<int, string>, rendered: Bytes, file: Upload)
    requires TrafficSignDetection.Supported(imagePath)
    requires Writable(s, TrafficSignDetection.OutputDirOf(ModelApiDir), TrafficSignDetection.OutputPathOf(ModelApiDir, imagePath))
    requires boxes.Some? ==> TrafficSignDetection.Labels(boxes.value, names).Listed?
    ensures var d := TrafficSignDetection.Detect(s, ModelApiDir, imagePath, None, boxes, names, rendered);
      var name := PyPath.Basename(imagePath);
      && d.result.Returned? && d.result.value.filename == name
      && var o := Analyze(d.after, Some(file), Some("sign"), SignServiceReply(d.result));
         var dir := EnsureOutputDir(d.after);
         (dir.ok && Writable(dir.after, OutputDir, OutputDir + "/" + name) ==>
           && o.reply.status == 200
           && o.reply.body == DetectionsReply(Some(d.result.value.detections), PublicOutputPrefix + name)
           && OutputDir + "/" + name in o.after.files
           && o.after.files[OutputDir + "/" + name] == rendered)
  {
    var d := TrafficSignDetection.Detect(s, ModelApiDir, imagePath, None, boxes, names, rendered);
    var name := PyPath.Basename(imagePath);
    TrafficSignDetection.SuccessNamesOutput(s, ModelApiDir, imagePath, None, boxes, names, rendered);
    DetectorSavesImage(s, imagePath, boxes, names, rendered);
    SourceIsDetectorOutput(imagePath);
    assert SignServiceReply(d.result) == JsonBody(Some(d.result.value.detections), Some(PublicOutputPrefix + name));
    GatewayDeliversFile(d.after, file, d.result.value.detections, name, rendered);
  }

  /** The gateway's half: a file the sign service left at the source path
      for `/output/<name>` ends up, byte for byte, at `output/<name>`. */
  lemma GatewayDeliversFile(t: FsState, file: Upload, detections: seq<Detection>, name: string, data: Bytes)
    requires name != "" && '/' !in name
    requires JsonSource(PublicOutputPrefix + name) in t.files && t.files[JsonSource(PublicOutputPrefix + name)] == data
    ensures var o := Analyze(t, Some(file), Some("sign"), JsonBody(Some(detections), Some(PublicOutputPrefix + name)));
      var dir := EnsureOutputDir(t);
      dir.ok && Writable(dir.after, OutputDir, OutputDir + "/" + name) ==>
        && o.reply.status == 200
        && o.reply.body == DetectionsReply(Some(detections), PublicOutputPrefix + name)
        && OutputDir + "/" + name in o.after.files
        && o.after.files[OutputDir + "/" + name] == data
  {
    var url := PublicOutputPrefix + name;
    PublicUrlRoundTrip(name);
    CopyDelivers(t, file, detections, url);
    CopyNamesUrl(t, file, detections, url);
  }

  /** `JsonBranchCopies` read as where the bytes end up. */
  lemma CopyDelivers(t: FsState, file: Upload, detections: seq<Detection>, url: string)
    requires JsonSource(url) in t.files
    ensures var o := Analyze(t, Some(file), Some("sign"), JsonBody(Some(detections), Some(url)));
      var dir := EnsureOutputDir(t);
      && (dir.ok && Writable(dir.after, OutputDir, JsonTarget(url)) ==> o.reply.status == 200)
      && (o.reply.status == 200 ==>
            && JsonTarget(url) in o.after.files
            && o.after.files[JsonTarget(url)] == t.files[JsonSource(url)])
  {
    JsonBranchCopies(t, file, "sign", Some(detections), url);
    var o := Analyze(t, Some(file), Some("sign"), JsonBody(Some(detections), Some(url)));
    if o.reply.status == 200 {
      var m := t.files[JsonTarget(url) := t.files[JsonSource(url)]];
      assert o.after.files == m;
      assert m[JsonTarget(url)] == t.files[JsonSource(url)];
    }
  }

  lemma CopyNamesUrl(t: FsState, file: Upload, detections: seq<Detection>, url: string)
    requires JsonSource(url) in t.files
    ensures var o := Analyze(t, Some(file), Some("sign"), JsonBody(Some(detections), Some(url)));
      o.reply.status == 200 ==>
        o.reply.body == DetectionsReply(Some(detections), PublicOutputPrefix + NodePath.Basename(url))
  {
    JsonBranchCopies(t, file, "sign", Some(detections), url);
  }

  /** The detector's own save, seen from the filesystem. */
  lemma DetectorSavesImage(s: FsState, imagePath: string, boxes: Option<seq<TrafficSignDetection.Box>>,
                           names: map<int, string>, rendered: Bytes)
    requires TrafficSignDetection.Supported(imagePath)
    requires Writable(s, TrafficSignDetection.OutputDirOf(ModelApiDir), TrafficSignDetection.OutputPathOf(ModelApiDir, imagePath))
    requires boxes.Some? ==> TrafficSignDetection.Labels(boxes.value, names).Listed?
    ensures var d := TrafficSignDetection.Detect(s, ModelApiDir, imagePath, None, boxes, names, rendered);
      && d.result.Returned?
      && d.after.files == s.files[TrafficSignDetection.OutputPathOf(ModelApiDir, imagePath) := rendered]
      && d.after.dirs == s.dirs
  {
    var listed := if boxes.None? then TrafficSignDetection.Listed([]) else TrafficSignDetection.Labels(boxes.value, names);
    assert listed.Listed?;
    var target := TrafficSignDetection.OutputPathOf(ModelApiDir, imagePath);
    var w := Write(s, TrafficSignDetection.OutputDirOf(ModelApiDir), target, rendered);
    assert w.after == s.(files := s.files[target := rendered]);
    assert TrafficSignDetection.Detect(s, ModelApiDir, imagePath, None, boxes, names, rendered)
        == TrafficSignDetection.Detected(
             TrafficSignDetection.Returned(TrafficSignDetection.Found(listed.detections, PyPath.Basename(imagePath))),
             true, w.after);
  }

  // ---------------------------------------------------------------------
  // The page's view of the gateway's replies

  /** The JSON object the page receives for a gateway reply, read through
      the keys it looks at. */
  function PageReads(reply: HttpReply): (r: AssetRating.ImageReply)
    ensures r.ImageBody?
    ensures reply.body.ErrorBody? ==> r == AssetRating.ImageBody(None, None, None)
  {
    match reply.body
    case ErrorBody(_) => AssetRating.ImageBody(None, None, None)
    case ImageProcessed(_, out) => AssetRating.ImageBody(Some(out), None, None)
    case DetectionsReply(d, url) => AssetRating.ImageBody(None, Some(url), d)
  }

  /** What the page shows for a gateway reply: nothing and no labels for an
      error object, the host followed by the named path otherwise, with the
      detections (or no labels) alongside. */
  lemma PageShowsReply(st: AssetRating.FormState, r: HttpReply)
    requires st.image.Some?
    ensures var after := AssetRating.ImageSubmitted(st, PageReads(r)).1;
      match r.body
      case ErrorBody(_) => after.processedImageUrl == "" && after.detectedLabels == []
      case ImageProcessed(_, out) =>
        after.processedImageUrl == (if out == "" then "" else AssetRating.Host + out) && after.detectedLabels == []
      case DetectionsReply(d, out) =>
        && after.processedImageUrl == (if out == "" then "" else AssetRating.Host + out)
        && after.detectedLabels == (if d.Some? then d.value else [])
  {
  }

  /** The path a gateway body names, or "" for an error object. */
  function NamedPath(b: Body): string
  {
    match b
    case ErrorBody(_) => ""
    case ImageProcessed(_, out) => out
    case DetectionsReply(_, out) => out
  }

  /** A successful gateway reply names a path under `/output/`. */
  lemma SuccessPathUnderOutput(s: FsState, file: Option<Upload>, category: Option<string>, reply: InferenceReply)
    ensures var o := Analyze(s, file, category, reply);
      o.reply.status == 200 ==> PublicOutputPrefix <= NamedPath(o.reply.body)
  {
    SuccessNamesOutputPath(s, file, category, reply);
  }

  /** The page's URL for a reply naming a path under `/output/`. */
  lemma PageUrlUnderOutput(st: AssetRating.FormState, r: HttpReply)
    requires st.image.Some? && PublicOutputPrefix <= NamedPath(r.body)
    ensures var after := AssetRating.ImageSubmitted(st, PageReads(r)).1;
      && after.processedImageUrl == AssetRating.Host + NamedPath(r.body)
      && exists name :: after.processedImageUrl == AssetRating.Host + PublicOutputPrefix + name
  {
    var out := NamedPath(r.body);
    var name := out[|PublicOutputPrefix|..];
    assert out == PublicOutputPrefix + name;
    PageShowsReply(st, r);
    var after := AssetRating.ImageSubmitted(st, PageReads(r)).1;
    assert after.processedImageUrl == AssetRating.Host + PublicOutputPrefix + name;
  }

  /** Whatever the gateway answers, the page's processed image is the host
      followed by a path under `/output/`, or "" for a 400 or 500 reply,
      which also clears the labels. */
  lemma PageShowsGatewayReply(st: AssetRating.FormState, s: FsState, file: Option<Upload>,
                              category: Option<string>, reply: InferenceReply)
    requires st.image.Some?
    ensures var o := Analyze(s, file, category, reply);
      var after := AssetRating.ImageSubmitted(st, PageReads(o.reply)).1;
      && (o.reply.status != 200 ==> after.processedImageUrl == "" && after.detectedLabels == [])
      && (o.reply.status == 200 ==>
            exists name :: after.processedImageUrl == AssetRating.Host + PublicOutputPrefix + name)
  {
    var o := Analyze(s, file, category, reply);
    BodyFollowsStatus(s, file, category, reply);
    SuccessPathUnderOutput(s, file, category, reply);
    var r := o.reply;
    if r.status == 200 {
      PageUrlUnderOutput(st, r);
    } else {
      PageShowsReply(st, r);
    }
  }
}
