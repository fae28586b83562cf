/** The traffic-sign detector of the FastAPI service: `detect_traffic_sign`.
    It admits an image by the extension of its path, opens it, runs the
    model, turns every box into a `{label, confidence}` entry, and saves the
    annotated image under the detector's `output` directory with the
    input's own file name.

    The model stays abstract: its boxes and its class-name table are
    parameters, as are the outcome of opening the image and the bytes of the
    annotated image. */
module TrafficSignDetection {
  import opened Common
  import opened FileStore
  import PyPath

  const SupportedFormats: seq<string> := [".jpg", ".jpeg", ".png"]
  /** `str(SUPPORTED_FORMATS)`, as it appears in the error message. */
  const SupportedFormatsText := "['.jpg', '.jpeg', '.png']"
  const UnsupportedPrefix := "Unsupported image format: "
  const OpenFailurePrefix := "Failed to open image: "

  /** The Python exceptions the detector lets escape. */
  datatype PyError = ValueError(message: string) | KeyError(key: int)

  /** A call that returns a value or raises. */
  datatype Raise<T> = Returned(value: T) | Raised(error: PyError)

  /** One model box, reduced to what the detections list keeps; its
      coordinates only serve the drawing. */
  datatype Box = Box(cls: int, conf: Confidence)

  // ---------------------------------------------------------------------
  // The extension gate

  /** `os.path.splitext(image_path)[1].lower()`. */
  function FormatOf(imagePath: string): string
  {
    PyPath.Lower(PyPath.Extension(imagePath))
  }

  predicate Supported(imagePath: string)
  {
    FormatOf(imagePath) in SupportedFormats
  }

  function UnsupportedMessage(ext: string): string
  {
    UnsupportedPrefix + ext + ". Supported formats: " + SupportedFormatsText
  }

  /** A path whose extension starts at `d` and lowers to an allowed format
      passes the gate, and its format is that lowered extension. */
  lemma ExtensionAdmitted(p: string, d: int)
    requires PyPath.ExtensionAt(p, d) && PyPath.Lower(p[d..]) in SupportedFormats
    ensures Supported(p) && FormatOf(p) == PyPath.Lower(p[d..])
  {
    PyPath.ExtensionFound(p, d);
  }

  /** `temp/photo.PNG` is admitted as a `.png`. */
  lemma UpperCasePngAdmitted()
    ensures Supported("temp/photo.PNG") && FormatOf("temp/photo.PNG") == ".png"
  {
    var p := "temp/photo.PNG";
    assert p[5] != '.' && p[5] != '/';
    assert PyPath.ExtensionAt(p, 10);
    assert p[10..] == ".PNG";
    assert PyPath.Lower(".PNG") == ".png" by {
      assert PyPath.Lower(".PNG")[1] == PyPath.LowerChar('P');
    }
    ExtensionAdmitted(p, 10);
  }

  /** Two paths that differ only in the case of their letters have the same
      format, so `X.PNG` is admitted exactly when `x.png` is. */
  lemma FormatIgnoresCase(p: string, q: string)
    requires PyPath.Lower(p) == PyPath.Lower(q)
    ensures FormatOf(p) == FormatOf(q)
    ensures Supported(p) <==> Supported(q)
  {
    PyPath.ExtensionOfLower(p);
    PyPath.ExtensionOfLower(q);
  }

  /** An admitted path ends in a file name that has the extension: it is
      neither empty nor contains a separator. */
  lemma SupportedHasFileName(imagePath: string)
    requires Supported(imagePath)
    ensures var name := PyPath.Basename(imagePath);
      name != "" && '/' !in name && FormatOf(name) == FormatOf(imagePath)
  {
    var name := PyPath.Basename(imagePath);
    var ext := PyPath.Extension(imagePath);
    ExtensionIsSuffixOfBasename(imagePath);
    assert |ext| > 0;
    assert PyPath.Extension(name) == ext by {
      BasenameKeepsExtension(imagePath);
    }
  }

  /** The extension sits inside the last path component. */
  lemma ExtensionIsSuffixOfBasename(p: string)
    ensures var ext := PyPath.Extension(p); var name := PyPath.Basename(p);
      |ext| <= |name| && name[|name| - |ext|..] == ext
  {
    var sep := LastIndexOf(p, '/');
    var dot := LastIndexOf(p, '.');
    var name := PyPath.Basename(p);
    assert name == p[sep + 1..];
    if dot > sep && PyPath.NonDotIn(p, sep + 1, dot) {
      assert PyPath.Extension(p) == p[dot..];
      assert name[|name| - (|p| - dot)..] == p[dot..];
    }
  }

  /** Splitting the file name gives the same extension as splitting the path. */
  lemma BasenameKeepsExtension(p: string)
    ensures PyPath.Extension(PyPath.Basename(p)) == PyPath.Extension(p)
  {
    var sep := LastIndexOf(p, '/');
    var dot := LastIndexOf(p, '.');
    var name := PyPath.Basename(p);
    assert name == p[sep + 1..];
    NoSeparatorMeansNoIndex(name);
    var d := if dot > sep then dot - sep - 1 else -1;
    DotIndexInSuffix(p, sep, dot, name);
    assert LastIndexOf(name, '.') == d;
    if dot > sep {
      NonDotShift(p, sep + 1, dot);
      assert PyPath.NonDotIn(name, 0, d) == PyPath.NonDotIn(p, sep + 1, dot);
      assert name[d..] == p[dot..];
    }
  }

  /** The last dot of the file name is the last dot of the path, moved to
      the file name's start; none if the path's last dot lies before it. */
  lemma DotIndexInSuffix(p: string, sep: int, dot: int, name: string)
    requires sep == LastIndexOf(p, '/') && dot == LastIndexOf(p, '.')
    requires name == p[sep + 1..]
    ensures LastIndexOf(name, '.') == if dot > sep then dot - sep - 1 else -1
  {
    var d := if dot > sep then dot - sep - 1 else -1;
    forall k | d < k < |name|
      ensures name[k] != '.'
    {
      assert name[k] == p[sep + 1 + k];
    }
    if d >= 0 {
      assert name[d] == p[dot];
    }
    LastIndexOfIs(name, '.', d);
  }

  lemma NoSeparatorMeansNoIndex(name: string)
    requires '/' !in name
    ensures LastIndexOf(name, '/') == -1
  {
    LastIndexOfIs(name, '/', -1);
  }

  /** The leading-dots scan of `p[i..j]` is the same scan over the suffix
      `p[i..]` from its start. */
  lemma {:induction false} NonDotShift(p: string, i: int, j: int)
    requires 0 <= i <= j <= |p|
    ensures PyPath.NonDotIn(p[i..], 0, j - i) == PyPath.NonDotIn(p, i, j)
    decreases j - i
  {
    if i < j {
      assert p[i..][0] == p[i];
      NonDotFrom(p[i..], p, i, 1, j - i);
    }
  }

  /** `NonDotIn` over a suffix `t == p[off..]`, at any start. */
  lemma {:induction false} NonDotFrom(t: string, p: string, off: int, a: int, b: int)
    requires 0 <= off <= |p| && t == p[off..]
    requires 0 <= a <= b <= |t|
    ensures PyPath.NonDotIn(t, a, b) == PyPath.NonDotIn(p, off + a, off + b)
    decreases b - a
  {
    if a < b {
      assert t[a] == p[off + a];
      NonDotFrom(t, p, off, a + 1, b);
    }
  }

  // ---------------------------------------------------------------------
  // The detections list

  /** What the `for box in result.boxes` loop ends with: the list, or the
      position of the first box whose class the name table lacks (where
      `model.names[cls]` raises). */
  datatype Labelled = Listed(detections: seq<Detection>) | UnknownAt(index: nat)

  /** The detections for a sequence of boxes, built from the front. */
  function Labels(boxes: seq<Box>, names: map<int, string>): (r: Labelled)
    ensures r.Listed? <==> forall i :: 0 <= i < |boxes| ==> boxes[i].cls in names
    ensures r.Listed? ==>
      && |r.detections| == |boxes|
      && forall i :: 0 <= i < |boxes| ==>
           r.detections[i] == Detection(names[boxes[i].cls], boxes[i].conf)
    ensures r.UnknownAt? ==>
      && r.index < |boxes|
      && boxes[r.index].cls !in names
      && forall i :: 0 <= i < r.index ==> boxes[i].cls in names
  {
    if |boxes| == 0 then Listed([])
    else
      var front := boxes[..|boxes| - 1];
      var last := boxes[|boxes| - 1];
      match Labels(front, names)
      case UnknownAt(i) =>
        assert front[i] == boxes[i];
        UnknownAt(i)
      case Listed(d) =>
        assert forall i :: 0 <= i < |front| ==> front[i] == boxes[i];
        if last.cls in names then Listed(d + [Detection(names[last.cls], last.conf)])
        else UnknownAt(|boxes| - 1)
  }

  /** The loop of `detect_traffic_sign`, with `result.boxes` possibly None. */
  method BuildDetections(boxes: Option<seq<Box>>, names: map<int, string>) returns (r: Raise<seq<Detection>>)
    ensures boxes.None? ==> r == Returned([])
    ensures boxes.Some? ==> match Labels(boxes.value, names)
      case Listed(d) => r == Returned(d)
      case UnknownAt(i) => r == Raised(KeyError(boxes.value[i].cls))
  {
    var detections: seq<Detection> := [];
    if boxes.None? {
      return Returned(detections);
    }
    var all := boxes.value;
    var i := 0;
    while i < |all|
      invariant 0 <= i <= |all|
      invariant Labels(all[..i], names) == Listed(detections)
    {
      var box := all[i];
      assert all[..i + 1][..i] == all[..i];
      if box.cls !in names {
        UnknownStaysFirst(all, names, i);
        return Raised(KeyError(box.cls));
      }
      detections := detections + [Detection(names[box.cls], box.conf)];
      i := i + 1;
    }
    assert all[..i] == all;
    r := Returned(detections);
  }

  /** An unknown class right after a fully named prefix is where `Labels`
      stops, for the whole sequence as well. */
  lemma UnknownStaysFirst(boxes: seq<Box>, names: map<int, string>, i: nat)
    requires i < |boxes| && boxes[i].cls !in names
    requires Labels(boxes[..i], names).Listed?
    ensures Labels(boxes, names) == UnknownAt(i)
  {
    var r := Labels(boxes, names);
    var p := boxes[..i];
    assert forall k :: 0 <= k < i ==> boxes[k].cls in names by {
      forall k | 0 <= k < i
        ensures boxes[k].cls in names
      {
        assert p[k] == boxes[k];
      }
    }
  }

  // ---------------------------------------------------------------------
  // The whole call

  /** `OUTPUT_DIR = os.path.join(BASE_DIR, "output")`. */
  function OutputDirOf(baseDir: Path): Path
  {
    PyPath.Join(baseDir, "output")
  }

  function OutputPathOf(baseDir: Path, imagePath: string): Path
  {
    PyPath.Join(OutputDirOf(baseDir), PyPath.Basename(imagePath))
  }

  /** What the detector returns: `(detections, filename)`. */
  datatype Found = Found(detections: seq<Detection>, filename: string)

  /** The result, whether opening the image was attempted, and the filesystem. */
  datatype Detected = Detected(result: Raise<Found>, openAttempted: bool, after: FsState)

  /** `detect_traffic_sign(image_path)` as a function of the filesystem
      before the call; `cv2.imwrite` reports failure by returning False,
      which the detector ignores. */
  function Detect(s: FsState, baseDir: Path, imagePath: string, openError: Option<string>,
                  boxes: Option<seq<Box>>, names: map<int, string>, rendered: Bytes): (d: Detected)
    ensures d.openAttempted <==> Supported(imagePath)
    ensures d.result.Raised? ==> d.after == s
    ensures d.result.Returned? ==> d.result.value.filename == PyPath.Basename(imagePath)
  {
    if !Supported(imagePath) then
      Detected(Raised(ValueError(UnsupportedMessage(FormatOf(imagePath)))), false, s)
    else if openError.Some? then
      Detected(Raised(ValueError(OpenFailurePrefix + openError.value)), true, s)
    else
      var listed := if boxes.None? then Listed([]) else Labels(boxes.value, names);
      match listed
      case UnknownAt(i) => Detected(Raised(KeyError(boxes.value[i].cls)), true, s)
      case Listed(d) =>
        var w := Write(s, OutputDirOf(baseDir), OutputPathOf(baseDir, imagePath), rendered);
        Detected(Returned(Found(d, PyPath.Basename(imagePath))), true, w.after)
  }

  method DetectTrafficSign(fs: FileSystem, baseDir: Path, imagePath: string, openError: Option<string>,
                           boxes: Option<seq<Box>>, names: map<int, string>, rendered: Bytes)
      returns (r: Raise<Found>, openAttempted: bool)
    modifies fs
    ensures Detected(r, openAttempted, fs.State()) == Detect(old(fs.State()), baseDir, imagePath, openError, boxes, names, rendered)
  {
    openAttempted := false;
    var ext := FormatOf(imagePath);
    if ext !in SupportedFormats {
      return Raised(ValueError(UnsupportedMessage(ext))), openAttempted;
    }
    openAttempted := true;
    if openError.Some? {
      return Raised(ValueError(OpenFailurePrefix + openError.value)), openAttempted;
    }
    var detections := BuildDetections(boxes, names);
    if detections.Raised? {
      return Raised(detections.error), openAttempted;
    }
    var filename := PyPath.Basename(imagePath);
    var outputPath := PyPath.Join(OutputDirOf(baseDir), filename);
    var _ := fs.WriteFile(OutputDirOf(baseDir), outputPath, rendered);
    r := Returned(Found(detections.value, filename));
  }

  // ---------------------------------------------------------------------
  // What the detector promises

  /** An unsupported format is a ValueError naming the lowered extension,
      raised before the image is opened and with nothing written. */
  lemma UnsupportedFormatRejected(s: FsState, baseDir: Path, imagePath: string, openError: Option<string>,
                                  boxes: Option<seq<Box>>, names: map<int, string>, rendered: Bytes)
    requires !Supported(imagePath)
    ensures var d := Detect(s, baseDir, imagePath, openError, boxes, names, rendered);
      && d.result == Raised(ValueError(UnsupportedMessage(FormatOf(imagePath))))
      && !d.openAttempted
      && d.after == s
  {
  }

  /** Opening the image is attempted exactly when the format is supported, and a
      failure to open it is a ValueError carrying the reason. */
  lemma OpenFailureReported(s: FsState, baseDir: Path, imagePath: string, openError: Option<string>,
                            boxes: Option<seq<Box>>, names: map<int, string>, rendered: Bytes)
    ensures var d := Detect(s, baseDir, imagePath, openError, boxes, names, rendered);
      && (d.openAttempted <==> Supported(imagePath))
      && (Supported(imagePath) && openError.Some? ==>
            d.result == Raised(ValueError(OpenFailurePrefix + openError.value)) && d.after == s)
  {
  }

  /** When it returns, the detector returns one entry per box in box order
      and the input's file name, and the only file it may have written is
      that name inside its output directory, holding the annotated image. */
  lemma SuccessNamesOutput(s: FsState, baseDir: Path, imagePath: string, openError: Option<string>,
                           boxes: Option<seq<Box>>, names: map<int, string>, rendered: Bytes)
    ensures var d := Detect(s, baseDir, imagePath, openError, boxes, names, rendered);
      d.result.Returned? ==>
        var Found(detections, filename) := d.result.value;
        && Supported(imagePath) && openError.None?
        && filename == PyPath.Basename(imagePath)
        && filename != "" && '/' !in filename
        && (boxes.None? ==> detections == [])
        && (boxes.Some? ==>
              && |detections| == |boxes.value|
              && forall i :: 0 <= i < |boxes.value| ==>
                   detections[i] == Detection(names[boxes.value[i].cls], boxes.value[i].conf))
        && d.after == Write(s, OutputDirOf(baseDir), OutputPathOf(baseDir, imagePath), rendered).after
  {
    var d := Detect(s, baseDir, imagePath, openError, boxes, names, rendered);
    if d.result.Returned? {
      SupportedHasFileName(imagePath);
    }
  }

  /** A box whose class the name table lacks makes the call raise KeyError
      for that class, after opening the image and before writing anything. */
  lemma UnknownClassRaises(s: FsState, baseDir: Path, imagePath: string,
                           boxes: seq<Box>, names: map<int, string>, rendered: Bytes, i: nat)
    requires Supported(imagePath)
    requires i < |boxes| && boxes[i].cls !in names
    ensures var d := Detect(s, baseDir, imagePath, None, Some(boxes), names, rendered);
      d.result.Raised? && d.result.error.KeyError? && d.result.error.key !in names && d.after == s
  {
  }

  /** The output path is the output directory, a separator and the file
      name. */
  lemma OutputPathShape(baseDir: Path, imagePath: string)
    ensures OutputPathOf(baseDir, imagePath) == OutputDirOf(baseDir) + "/" + PyPath.Basename(imagePath)
  {
    var dir := OutputDirOf(baseDir);
    OutputDirEndsInName(baseDir);
    assert dir != "" && dir[|dir| - 1] == 't' by {
      assert dir[|dir| - 1] == dir[|dir| - 6..][5];
    }
    var name := PyPath.Basename(imagePath);
    assert !(|name| > 0 && name[0] == '/') by {
      if |name| > 0 {
        assert name[0] in name;
      }
    }
    assert PyPath.Join(dir, name) == dir + "/" + name;
  }

  /** `OUTPUT_DIR` ends in the component `output`, never in a separator. */
  lemma OutputDirEndsInName(baseDir: Path)
    ensures var dir := OutputDirOf(baseDir);
      |dir| >= 6 && dir[|dir| - 6..] == "output"
  {
    assert "output"[0] == 'o';
  }
}
