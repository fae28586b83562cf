# TxDOT asset management: a verified model of its decision logic

This project models the parts of the TxDOT asset-management application that
make decisions, and proves what they promise about their results:

- **The image-analysis gateway.** This is `analyzeImage` of the Node back end.
  1. It checks that an upload and a category are present.
  2. It looks the category up in a fixed table: `light` expects an image, `sign` expects JSON.
  3. It asks the inference service for raw bytes or for JSON.
  4. It creates its `output` directory when absent.
  5. It either writes the returned bytes to `output/<file name>`, or copies the sign service's image to `output/<basename of image_url>` when that file exists.
  6. It replies 200, 400 or 500.
- **The request validators** of the Node back end. Each returns the first failing message, or null.
- **The traffic-sign detector's** logic:
  - the extension gate (`splitext`, lower-cased, against `.jpg`/`.jpeg`/`.png`);
  - the loop that turns model boxes into `{label, confidence}` entries;
  - the naming and path of the saved image.
- **The asset-rating page:**
  - its form state and handlers: input clamping, the reset on asset change, rating fetch errors;
  - its decoding of the gateway's two success shapes into one image URL and a list of labels.
- **The asset map's filter state machine:**
  - three mutually exclusive filters;
  - the statistics and marker positions derived from them by priority;
  - the tile server chosen for a base layer.

Each piece keeps the form of its code.

- **Operations that change state step by step are methods on objects.** They are proved against a function of the state before the call:
  - the gateway and the detector work on a `FileSystem` object;
  - the rating page is an `AssetRatingForm`;
  - the map is a `MapView`.
- **Pure decisions are functions.** Their contracts and the lemmas beside them state the promises.

Module by module:

- `Common`: options, bytes, detections.
- `JsValues`: `typeof`, truthiness, `Math.max(0, x)`.
- `NodePath` and `PyPath`: the path functions of the two runtimes.
- `FileStore`: the filesystem, as a value and as an object.
- `ImageController`, `Validator`, `TrafficSignDetection`, `AssetRating`, `TrafficSignalMap`: one module per source file.
- `EndToEnd`: how the sign service, the gateway and the page fit together.

Everything outside the program's own logic is a parameter. That covers:

- the inference service's answer;
- `Date.parse`;
- the string-to-number conversion of a number input;
- the model's boxes and class names;
- whether the image opens;
- the rendered image bytes;
- the answers of `fetch`.

Each handler returns the request it would send, so a `None` request means nothing was sent.

Three behaviours of the code worth noting:
- A JSON answer without `image_url` becomes a 500. There is no degraded reply.
- The upload's original file name is used for staging and output, so a later upload with the same name replaces an earlier one.
- A successful sign reply always names `/output/<basename>`, even when no image could be copied.

## Model

| member | source | states |
|---|---|---|
| `ImageController.AssetConfig` | backend_NodeApi/controllers/imageController.js:6-10 | the table by its own entries: `light` expects an image, `sign` expects JSON, and every other name is absent |
| `ImageController.AssetConfigAsWritten` | backend_NodeApi/controllers/imageController.js:21-22 | the lookup as written. It is an own entry exactly for the table's categories, with the table's value. It is a property inherited from `Object.prototype` exactly for the prototype's names, and undefined otherwise |
| `ImageController.ResponseTypeAsWritten` | backend_NodeApi/controllers/imageController.js:34 | raw bytes are requested exactly when the looked-up value is the `image` entry |
| `ImageController.InheritedNamesPassGuard` | backend_NodeApi/controllers/imageController.js:21-24 | every `Object.prototype` name gets past the `!config` guard as written, although the table has no such category |
| `ImageController.ToStringPassesGuard` | backend_NodeApi/controllers/imageController.js:21-34 | `toString` passes the guard as written and is requested as JSON; the own-entries table rejects it |
| `ImageController.InheritedNamesRejected` | backend_NodeApi/controllers/imageController.js:21-24 | with the corrected table, a prototype name is a 400 `Unsupported asset type: <name>`, with no request and no change |
| `ImageController.EnsureOutputDir` | backend_NodeApi/controllers/imageController.js:37-38 | afterwards the output path exists unless `mkdirSync` failed, in which case nothing changed; files are never touched; at most the output directory is added |
| `ImageController.Proceed` | backend_NodeApi/controllers/imageController.js:32-72 | from the inference answer on, the reply is the 500 error or a 200. Only the output directory may be added. Only the one target file may change. A transport failure changes nothing |
| `ImageController.Analyze` | backend_NodeApi/controllers/imageController.js:12-73 | the handler's outcome for the state before the call. No request is sent exactly when the reply is a 400, and then nothing changes. Every other reply is a 200 or the 500 `Image analysis failed`. Categories are looked up in the corrected table (see Findings) |
| `ImageController.SaveImage` | backend_NodeApi/controllers/imageController.js:40-48 | a 200 exactly when the answer is bytes and the target is writable; the only change is the target set to those bytes |
| `ImageController.SaveDetections` | backend_NodeApi/controllers/imageController.js:50-67 | without `image_url` a 500 and no change. Otherwise the only possible change is a byte copy of the source to `output/<basename>` |
| `ImageController.AnalyzeImage` | backend_NodeApi/controllers/imageController.js:12-73 | the handler over the filesystem object gives the reply, the request and the new state that `Analyze` gives for the old state. Every 400 leaves the state as it was and sends no request. Like `Analyze`, it looks categories up in the corrected table (see Findings) |
| `ImageController.MissingFieldsRejected` | backend_NodeApi/controllers/imageController.js:17-19 | a missing file or category (or an empty category) gives 400 `Image and category are required`, with no request and no change |
| `ImageController.UnsupportedCategoryRejected` | backend_NodeApi/controllers/imageController.js:21-24 | with the corrected table (see Findings), a category outside `{light, sign}` gives 400 `Unsupported asset type: <category>`, with no request and no change |
| `ImageController.RequestFollowsTable` | backend_NodeApi/controllers/imageController.js:26-35 | a request is made exactly for valid input with a known category. It goes to `/analyze/<category>` and streams `test/<file name>`. It asks for raw bytes exactly for `light`. The status is 200, 400 or 500, and it is 400 exactly when no request was made |
| `ImageController.BodyFollowsStatus` | backend_NodeApi/controllers/imageController.js:18-71 | the body is an error object exactly when the status is not 200 |
| `ImageController.ProceedBodyFollowsStatus` | backend_NodeApi/controllers/imageController.js:40-71 | the same, from the inference answer on |
| `ImageController.SaveImageBodyFollowsStatus` | backend_NodeApi/controllers/imageController.js:40-48 | in the image branch the body is an error object exactly when the status is not 200 |
| `ImageController.SaveDetectionsBodyFollowsStatus` | backend_NodeApi/controllers/imageController.js:50-67 | in the JSON branch the body is an error object exactly when the status is not 200 |
| `ImageController.TransportFailureChangesNothing` | backend_NodeApi/controllers/imageController.js:32-35 | a rejected inference call is not a 200 and leaves the filesystem unchanged |
| `ImageController.ChangesConfinedToTarget` | backend_NodeApi/controllers/imageController.js:37-59 | in every outcome, only the output directory may be created. Only the single target file may be written. Every other file keeps its bytes and nothing is deleted |
| `ImageController.OutputDirAfterInference` | backend_NodeApi/controllers/imageController.js:37-38 | after an answered call the output path exists, or nothing changed. Every 200 leaves it existing |
| `ImageController.ImageBranch` | backend_NodeApi/controllers/imageController.js:40-48 | with bytes, it is a 200 exactly when the directory could be ensured and the target written. Then `output/<file name>` holds exactly the bytes, and the reply is `Image processed via <category>` with `/output/<file name>`. Otherwise it is the 500 with the files unchanged |
| `ImageController.ImageBranchNeedsBytes` | backend_NodeApi/controllers/imageController.js:43 | in the image branch anything but bytes gives the 500, with no file written |
| `ImageController.JsonBranchCopies` | backend_NodeApi/controllers/imageController.js:50-67 | when the source exists, it is a 200 exactly when it is a file and the target is writable. Then `output/<basename>` becomes a byte copy of it, and the reply passes the detections through with `/output/<basename>` |
| `ImageController.ProceedSourcePresent` | backend_NodeApi/controllers/imageController.js:37-67 | the same, from the inference answer on |
| `ImageController.SaveDetectionsPresent` | backend_NodeApi/controllers/imageController.js:58-67 | with the source present, a 200 exactly when it is a file and the target is writable. Then the target holds a copy of the source and the reply names `/output/<basename>`. Otherwise the 500 with no file changed |
| `ImageController.JsonBranchSourceAbsent` | backend_NodeApi/controllers/imageController.js:58-67 | when the source is absent, no file is written, yet the reply has the same shape with `/output/<basename>` as soon as the directory exists |
| `ImageController.ProceedSourceAbsent` | backend_NodeApi/controllers/imageController.js:58-67 | the same, from the inference answer on |
| `ImageController.SaveDetectionsAbsent` | backend_NodeApi/controllers/imageController.js:58-67 | the JSON branch with an absent source replies `/output/<basename>` and changes nothing |
| `ImageController.JsonBranchNeedsImageUrl` | backend_NodeApi/controllers/imageController.js:51-52 | a JSON answer without `image_url` gives the 500, with no file written. The output directory may have been created |
| `ImageController.SuccessNamesOutputPath` | backend_NodeApi/controllers/imageController.js:45-67 | every 200 names a path under `/output/`. In the image branch it is the file name, and that file exists; in the JSON branch it is one path component |
| `ImageController.ProceedNamesOutputPath` | backend_NodeApi/controllers/imageController.js:45-67 | the same, from the inference answer on |
| `ImageController.SaveImageNamesUpload` | backend_NodeApi/controllers/imageController.js:45-48 | an image-branch 200 names `/output/<file name>`, and that file exists |
| `ImageController.SaveDetectionsNamesBasename` | backend_NodeApi/controllers/imageController.js:64-67 | a JSON-branch 200 passes the detections through and names `/output/<basename of image_url>` |
| `NodePath.Basename` | backend_NodeApi/controllers/imageController.js:52 | once trailing separators are dropped, the result is the suffix that follows the last separator, or the whole rest when there is none. It has no separator, and it is empty exactly when the path is all separators |
| `NodePath.Join` | backend_NodeApi/controllers/imageController.js:55-56 | the directory, a separator and the name without its leading separators, or the directory alone when nothing is left |
| `NodePath.BasenameOfJoined` | backend_NodeApi/controllers/imageController.js:52-56 | the basename of `<dir>/<name>` is `name` for a one-component name |
| `FileStore.Mkdir` | backend_NodeApi/controllers/imageController.js:38 | a failed `mkdirSync` changes nothing |
| `FileStore.Write` | backend_NodeApi/controllers/imageController.js:43 | a failed `writeFileSync` changes nothing |
| `FileStore.Copy` | backend_NodeApi/controllers/imageController.js:59 | a failed `copyFileSync` changes nothing |
| `FileStore.PrimitivesKeepWellFormed` | backend_NodeApi/controllers/imageController.js:38-59 | creating a directory, writing a file and copying a file never make a path both a file and a directory |
| `FileStore.FileSystem.MakeDirectory` | backend_NodeApi/controllers/imageController.js:38 | the object's new state and result are those of `Mkdir`, and no path becomes both a file and a directory |
| `FileStore.FileSystem.WriteFile` | backend_NodeApi/controllers/imageController.js:43 | the object's new state and result are those of `Write`, and no path becomes both a file and a directory |
| `FileStore.FileSystem.CopyFile` | backend_NodeApi/controllers/imageController.js:59 | the object's new state and result are those of `Copy`, and no path becomes both a file and a directory |
| `Validator.ValidateRoadwayAssetInput` | backend_NodeApi/utils/validator.js:1-11 | null exactly when `Date.parse` of both dates is truthy. A bad `installedDate` gives its message. The `lastMaintained` message comes exactly when only the second date is bad |
| `Validator.ValidateHighwayBuilding` | backend_NodeApi/utils/validator.js:13-23 | null exactly when the date is truthy and `fciIndex` is a number. The `fciIndex` message comes exactly when the date passed and `typeof fciIndex` is not `number` |
| `Validator.ValidatorsAnswerFixedMessages` | backend_NodeApi/utils/validator.js:1-23 | both validators are total and answer null or one of their fixed messages |
| `Validator.EpochIsRejected` | backend_NodeApi/utils/validator.js:2-3 | a date that parses to 0 (the epoch) or NaN is rejected with the `installedDate` message by both validators |
| `Validator.FirstFailingCheckWins` | backend_NodeApi/utils/validator.js:2-8 | with both dates bad, the `installedDate` message wins |
| `Validator.AnyNumberIsAnFciIndex` | backend_NodeApi/utils/validator.js:18-20 | every number, NaN included, passes the `fciIndex` check; a string does not |
| `PyPath.SplitExt` | backend_FastApi/detectors/trafficsign_detection.py:19 | the two parts concatenate to the path. The extension is found exactly when some dot is followed by no separator and no dot, with a character before it in its component that is neither. The extension is then the suffix from that dot, and otherwise it is empty |
| `PyPath.ExtensionFound` | backend_FastApi/detectors/trafficsign_detection.py:19 | every index at which an extension can start is where `splitext` cuts, so the extension is the suffix from it |
| `PyPath.Basename` | backend_FastApi/detectors/trafficsign_detection.py:56 | the result is a separator-free suffix of the path that follows its last separator |
| `PyPath.Lower` | backend_FastApi/detectors/trafficsign_detection.py:19 | the same length, with each character lowered |
| `PyPath.ExtensionOfLower` | backend_FastApi/detectors/trafficsign_detection.py:19 | lowering the path and then splitting gives the lowered extension |
| `TrafficSignDetection.FormatIgnoresCase` | backend_FastApi/detectors/trafficsign_detection.py:19-20 | two paths equal up to letter case have the same format and are admitted alike (`X.PNG` as `x.png`) |
| `TrafficSignDetection.SupportedHasFileName` | backend_FastApi/detectors/trafficsign_detection.py:19-21 | an admitted path ends in a non-empty, separator-free file name with the same format |
| `TrafficSignDetection.ExtensionAdmitted` | backend_FastApi/detectors/trafficsign_detection.py:19-20 | a path whose extension lowers to `.jpg`, `.jpeg` or `.png` passes the gate, with that lowered extension as its format |
| `TrafficSignDetection.UpperCasePngAdmitted` | backend_FastApi/detectors/trafficsign_detection.py:19-20 | `temp/photo.PNG` is admitted as a `.png` |
| `TrafficSignDetection.ExtensionIsSuffixOfBasename` | backend_FastApi/detectors/trafficsign_detection.py:19 | the extension is a suffix of the last path component |
| `TrafficSignDetection.BasenameKeepsExtension` | backend_FastApi/detectors/trafficsign_detection.py:56 | the file name has the same extension as the path |
| `TrafficSignDetection.Labels` | backend_FastApi/detectors/trafficsign_detection.py:39-48 | with every class named, there is one entry per box, in box order, with label `names[cls]` and the box's confidence. Otherwise it gives the first position whose class is unnamed |
| `TrafficSignDetection.BuildDetections` | backend_FastApi/detectors/trafficsign_detection.py:36-48 | the loop returns `Labels`' list, `[]` when `result.boxes` is None, and KeyError for the first unnamed class |
| `TrafficSignDetection.Detect` | backend_FastApi/detectors/trafficsign_detection.py:18-60 | `detect_traffic_sign` for the filesystem before the call. The image is opened exactly when the format is supported. A raised error leaves the filesystem as it was. A returned result carries the input's file name |
| `TrafficSignDetection.UnknownStaysFirst` | backend_FastApi/detectors/trafficsign_detection.py:42-43 | the first unnamed class after a fully named prefix is where the list stops |
| `TrafficSignDetection.DetectTrafficSign` | backend_FastApi/detectors/trafficsign_detection.py:18-60 | the method over the filesystem object returns the result, the open attempt and the new state that `Detect` gives for the old state |
| `TrafficSignDetection.UnsupportedFormatRejected` | backend_FastApi/detectors/trafficsign_detection.py:19-21 | an unsupported format is a ValueError naming the lowered extension and the allow-list. It is raised before any open attempt, with nothing written |
| `TrafficSignDetection.OpenFailureReported` | backend_FastApi/detectors/trafficsign_detection.py:24-27 | opening is attempted exactly for a supported format; a failure is ValueError `Failed to open image: <reason>`, with nothing written |
| `TrafficSignDetection.SuccessNamesOutput` | backend_FastApi/detectors/trafficsign_detection.py:36-60 | a returned result has one entry per box in order, or `[]` without boxes, and the input's non-empty file name. The only write is the annotated image at `OUTPUT_DIR/<file name>` |
| `TrafficSignDetection.UnknownClassRaises` | backend_FastApi/detectors/trafficsign_detection.py:42-43 | an unnamed class raises KeyError for an unnamed key, with nothing written |
| `TrafficSignDetection.OutputPathShape` | backend_FastApi/detectors/trafficsign_detection.py:56-57 | for every image path, the output path is `OUTPUT_DIR`, a separator and the file name |
| `TrafficSignDetection.OutputDirEndsInName` | backend_FastApi/detectors/trafficsign_detection.py:11 | `OUTPUT_DIR` ends in the component `output`, whatever the base directory |
| `JsValues.MaxZero` | frontend/src/components/AssetRating.js:41 | `Math.max(0, n)`: NaN stays NaN, a negative number or negative infinity becomes 0, anything else is kept, and the result is never negative |
| `AssetRating.AssetConfigs` | frontend/src/components/AssetRating.js:4-19 | exactly `roadway` and `highwaybuilding` have a rating form; each posts to `/api/assets/rate/<asset>` |
| `AssetRating.ImagePath` | frontend/src/components/AssetRating.js:91 | `outputImage` if non-empty, else `image_url` if non-empty, else "" |
| `AssetRating.ProcessedImageUrl` | frontend/src/components/AssetRating.js:92 | "" exactly for an empty path, otherwise the host followed by it |
| `AssetRating.ProcessedImageUrlKeepsPath` | frontend/src/components/AssetRating.js:92 | the path can be read back off the processed URL |
| `AssetRating.DetectedLabels` | frontend/src/components/AssetRating.js:94 | the detections, or `[]` when absent |
| `AssetRating.StoredValue` | frontend/src/components/AssetRating.js:41 | number inputs store `Math.max(0, value)`, which is never negative; other inputs store the text verbatim |
| `AssetRating.InputChanged` | frontend/src/components/AssetRating.js:39-43 | `formData` gains exactly the named key, holding the stored value, and nothing else in the state changes |
| `AssetRating.AssetChanged` | frontend/src/components/AssetRating.js:45-49 | the asset is set, `formData` is emptied and the rating cleared; nothing else changes |
| `AssetRating.Submitted` | frontend/src/components/AssetRating.js:55-70 | a request is made exactly when the selected asset has a config, and only the rating changes |
| `AssetRating.ImageSubmitted` | frontend/src/components/AssetRating.js:76-98 | a request is made exactly when an image is selected, with no change otherwise. Only the processed URL and the labels can change |
| `AssetRating.AssetRatingForm.constructor` | frontend/src/components/AssetRating.js:30-37 | the initial state |
| `AssetRating.AssetRatingForm.HandleInputChange` | frontend/src/components/AssetRating.js:39-43 | the new state is the old one with `formData[name]` set to the stored value |
| `AssetRating.AssetRatingForm.HandleAssetChange` | frontend/src/components/AssetRating.js:45-49 | the new state has the chosen asset, an empty form and an empty rating |
| `AssetRating.AssetRatingForm.HandleImageAssetChange` | frontend/src/components/AssetRating.js:51-53 | only the image category changes |
| `AssetRating.AssetRatingForm.HandleImageUpload` | frontend/src/components/AssetRating.js:72-74 | only the selected image changes |
| `AssetRating.AssetRatingForm.SetActiveForm` | frontend/src/components/AssetRating.js:157-167 | only the active right-hand form changes |
| `AssetRating.AssetRatingForm.HandleSubmit` | frontend/src/components/AssetRating.js:55-70 | the request and the new state are those of `Submitted` |
| `AssetRating.AssetRatingForm.HandleImageSubmit` | frontend/src/components/AssetRating.js:76-98 | the request and the new state are those of `ImageSubmitted` |
| `AssetRating.InputChangeTouchesOnlyName` | frontend/src/components/AssetRating.js:39-43 | an input change sets only the named key; every other key and the rest of the state are unchanged |
| `AssetRating.AssetChangeResets` | frontend/src/components/AssetRating.js:45-49 | changing the asset sets it, empties `formData`, clears `rating`, and changes nothing else |
| `AssetRating.NumberFieldsAreClamped` | frontend/src/components/AssetRating.js:41 | every number field of the rating forms stores a non-negative number or NaN |
| `AssetRating.SubmitSetsRating` | frontend/src/components/AssetRating.js:55-70 | a request goes to the selected asset's endpoint with the form as body. A missing config or a failed fetch sets `Error fetching rating`. Otherwise the rating is the answer's. Only the rating changes |
| `AssetRating.ImageSubmitNeedsImage` | frontend/src/components/AssetRating.js:78 | without a selected image, no request is made and nothing changes |
| `AssetRating.ImageSubmitDecodes` | frontend/src/components/AssetRating.js:80-97 | the image and the category are sent. A rejected request changes nothing. A decoded answer sets the processed URL (`outputImage`, else `image_url`, host-prefixed, or "") and the labels (detections or `[]`), and nothing else |
| `TrafficSignalMap.Positions` | frontend/src/components/TrafficSignalMap.js:81-83 | one `[lat, lng]` per site, in the same order |
| `TrafficSignalMap.TileUrl` | frontend/src/components/TrafficSignalMap.js:196-202 | OpenStreetMap exactly for `street`, ArcGIS exactly for `satellite`, OpenTopoMap exactly for every other layer |
| `TrafficSignalMap.MapView.constructor` | frontend/src/components/TrafficSignalMap.js:59-63 | all flags start off, the layer is `street`, and at most one filter is on |
| `TrafficSignalMap.MapView.ToggleTrafficSignals` | frontend/src/components/TrafficSignalMap.js:101-105 | negates the signals flag and clears the other two; statistics and layer are kept; at most one filter is on afterwards |
| `TrafficSignalMap.MapView.ToggleTrafficSigns` | frontend/src/components/TrafficSignalMap.js:113-117 | negates the signs flag and clears the other two; at most one filter is on afterwards |
| `TrafficSignalMap.MapView.TogglePavementMarkings` | frontend/src/components/TrafficSignalMap.js:125-129 | negates the markings flag and clears the other two; at most one filter is on afterwards |
| `TrafficSignalMap.MapView.ToggleStatistics` | frontend/src/components/TrafficSignalMap.js:143 | flips `showStatistics` and leaves the filters and the layer unchanged |
| `TrafficSignalMap.MapView.SelectLayer` | frontend/src/components/TrafficSignalMap.js:133 | sets the layer and leaves every flag unchanged |
| `TrafficSignalMap.MapView.GetStatistics` | frontend/src/components/TrafficSignalMap.js:65-76 | signals first (`Bridges`, column `Age`), then signs, then markings, and null exactly when no filter is on |
| `TrafficSignalMap.MapView.ActivePositions` | frontend/src/components/TrafficSignalMap.js:80-85 | no markers when no filter is on, otherwise the positions of exactly the sites the statistics list |
| `TrafficSignalMap.MapView.Tiles` | frontend/src/components/TrafficSignalMap.js:196-202 | the view's tile layer: OpenStreetMap exactly for `street`, ArcGIS exactly for `satellite`, OpenTopoMap otherwise |
| `TrafficSignalMap.ActivePositionsMatchStatistics` | frontend/src/components/TrafficSignalMap.js:80-85 | the marker positions are those of exactly the sites the statistics list, with the same length and order, and none without a filter |
| `TrafficSignalMap.OneFilterDecides` | frontend/src/components/TrafficSignalMap.js:65-85 | under the one-filter invariant, each of the three flags alone decides the statistics and the marker positions |
| `TrafficSignalMap.FixedSitesPositions` | frontend/src/components/TrafficSignalMap.js:35-43 | the fixed sign and marking data place two markers each, at their coordinates |
| `EndToEnd.SignServiceReply` | backend_FastApi/model-api.py:44-54 | a detector result arrives at the gateway as `{detections, image_url: "/output/<filename>"}`; an exception arrives as a rejected call |
| `EndToEnd.PublicUrlRoundTrip` | backend_NodeApi/controllers/imageController.js:52-56 | for a file name, `/output/<name>` gives back `name`. The gateway writes `output/<name>` and reads `model_api/output/<name>` |
| `EndToEnd.PublicBasename` | backend_NodeApi/controllers/imageController.js:52 | the basename of `/output/<name>` is `name` |
| `EndToEnd.PublicSource` | backend_NodeApi/controllers/imageController.js:55 | the copy source for `/output/<name>` is `model_api/output/<name>` |
| `EndToEnd.NoLeadingSlash` | backend_NodeApi/controllers/imageController.js:55-56 | joining leaves a name without a leading separator as it is |
| `EndToEnd.OutputDirs` | backend_FastApi/detectors/trafficsign_detection.py:9-11 | the detector's output directory for the base `model_api` and for `backend_FastApi` |
| `EndToEnd.SourceUnderDetectorOutputDir` | backend_NodeApi/controllers/imageController.js:55 | the copy source is the file name inside the detector's output directory when the detector lives in `model_api` |
| `EndToEnd.SourceIsDetectorOutput` | backend_NodeApi/controllers/imageController.js:55 | with the detector in `model_api`, the gateway's source path is exactly where the detector saved |
| `EndToEnd.RepositoryLayoutMissesDetectorOutput` | backend_FastApi/detectors/trafficsign_detection.py:9-11 | with the detector in `backend_FastApi`, as the repository lays it out, the gateway's source path is never the detector's saved image |
| `EndToEnd.SignPipelineDeliversImage` | backend_NodeApi/controllers/imageController.js:50-67 | a successful detection run, under the layout the gateway assumes, leads to a 200 naming `/output/<name>` with `output/<name>` holding the annotated image byte for byte |
| `EndToEnd.GatewayDeliversFile` | backend_NodeApi/controllers/imageController.js:55-67 | a file at the source path for `/output/<name>` ends up, byte for byte, at `output/<name>` |
| `EndToEnd.CopyDelivers` | backend_NodeApi/controllers/imageController.js:58-59 | when the source exists and the target is writable the reply is 200, and after a 200 the target holds the source's bytes |
| `EndToEnd.CopyNamesUrl` | backend_NodeApi/controllers/imageController.js:64-67 | a JSON-branch 200 passes the detections through and names `/output/<basename>` |
| `EndToEnd.DetectorSavesImage` | backend_FastApi/detectors/trafficsign_detection.py:55-60 | a successful run with a writable output path stores the annotated image there and creates no directory |
| `EndToEnd.PageReads` | frontend/src/components/AssetRating.js:89-91 | every gateway reply decodes to an object; an error reply has no image path and no detections |
| `EndToEnd.PageShowsReply` | frontend/src/components/AssetRating.js:89-94 | an error reply clears the processed URL and the labels; a success shows the host followed by the named path, with the detections or no labels |
| `EndToEnd.SuccessPathUnderOutput` | backend_NodeApi/controllers/imageController.js:45-67 | a successful gateway reply names a path starting with `/output/` |
| `EndToEnd.PageUrlUnderOutput` | frontend/src/components/AssetRating.js:91-92 | a reply naming a path under `/output/` shows the host followed by exactly that path, which is the host, `/output/` and a name |
| `EndToEnd.PageShowsGatewayReply` | frontend/src/components/AssetRating.js:84-94 | after any gateway reply the page shows the host followed by a path under `/output/`. A 400 or 500, which `fetch` does not reject, clears the image and the labels |

## Left out

- File uploads: multer's staging of the upload under `test/` is not modelled. `Upload.filename` is the client's original name, taken as given.
- Staged-file failures: a failure to read the staged file is folded into the rejected inference call.
- `NodePath.Join`: only leading separators of the name are absorbed. `.`, `..` and repeated separators inside file names are not normalised. The model treats file names as plain names. A name made only of separators is also a difference: Node's `normalize` keeps one trailing separator there, so `path.join("model_api", "/")` is `model_api/` while the model gives `model_api`; this is visible only when `model_api` is a file.
- `NodePath.Basename`: only the POSIX form is modelled, with no Windows separators.
- Output directory as a file: `existsSync` is also true when the output path is a file. The model keeps that case, so the gateway's output "exists" rather than "is a directory".
- Logging: `console.warn` and `console.error`, and HTTP serialisation of the reply bodies, are not modelled.
- Concurrency: two requests sharing a file name are not modelled; each call is atomic.
- The detector's model: the YOLO model, PIL decoding, the OpenCV conversion, the drawing of boxes and labels, and the box coordinates are left out. The model's boxes, class names and annotated image bytes are parameters, and confidences (rounded floats) are opaque values.
- `TrafficSignDetection.DetectTrafficSign`: it does not create `OUTPUT_DIR`. The module-import `os.makedirs` is outside the call, so the filesystem is taken as it is. The `False` that `cv2.imwrite` returns on failure is ignored, as in the code.
- `backend_FastApi/detectors/trafficLightdetection.py` is not part of this model: it is network model downloads, OpenCV DNN inference and float box geometry. The light route's bytes are a parameter of the gateway.
- The FastAPI service (`model-api.py`): only the JSON reply shape of the sign route is used, by `EndToEnd.SignServiceReply`. Temp-file handling and routing are not modelled.
- The rating services behind `assetController.js`, the Express and React wiring, CORS and static file serving are not modelled.
- `PyPath.Lower`: only ASCII letters are lowered. Python lowers every Unicode letter.
- JavaScript numbers: they are a datatype of NaN, the two infinities and exact reals. There is no double rounding, and the distinction between 0 and -0 is not kept.
- `Date.parse` and the number conversion of an input's text are parameters.
- `AssetRating.AssetRatingForm.HandleSubmit`: an asset name that is an inherited property of the config object is treated like a missing one. The page's select only offers `roadway` and `highwaybuilding`.
- Rendering: React rendering, the rating banner, the statistics table cells, Leaflet markers and `FocusMap`'s bounds fitting are not modelled.
- The traffic-signal data file is not part of this model. `MapView`'s constructor takes it as a parameter.
- Asynchrony: the handlers are modelled as atomic state updates. React's batching and asynchronous interleavings are not.
- `ImageController.Analyze`: it looks categories up in the table's own entries, the corrected behaviour of the Findings row. The 500 that the code gives for an `Object.prototype` name is modelled only by `ImageController.AssetConfigAsWritten`, `ImageController.InheritedNamesPassGuard` and `ImageController.ToStringPassesGuard`. It is not an outcome of `Analyze` or `ImageController.AnalyzeImage`.

## Findings

| source | as written | input that shows it | evidently intended | confidence | as-written member | corrected member |
|---|---|---|---|---|---|---|
| backend_NodeApi/controllers/imageController.js:21-24 | `assetConfig[category]` also finds the properties every object inherits from `Object.prototype`, and those are truthy, so the `!config` guard lets them through. The request then goes to `/analyze/<name>` as JSON, and the rejected call becomes a 500 | category `toString` (or `__proto__`, `constructor`, …) with any upload | only the table's own categories are supported; every other name is a 400 `Unsupported asset type: <name>` | not executed | `ImageController.InheritedNamesPassGuard` | `ImageController.InheritedNamesRejected` |
