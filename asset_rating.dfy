/** The asset-rating page of the front end: a form for historical data that
    asks a rating service, and an image upload that asks the gateway to
    analyse an image. Its React state is the `AssetRatingForm` object; each
    handler is a method, proved against a function on the state's value.

    Network answers are parameters (a rejected `fetch` or unreadable body,
    or a decoded JSON object), and the request a handler would send is
    returned, so `None` means no request was made. */
module AssetRating {
  import opened Common
  import opened JsValues

  const Host := "http://localhost:3000"
  const ImageEndpoint := "http://localhost:3000/api/image/analyze"
  const RatingErrorMessage := "Error fetching rating"

  /** One field of a rating form: its name and its `<input type>`. */
  datatype Field = Field(name: string, kind: string)

  datatype RatingConfig = RatingConfig(endpoint: string, fields: seq<Field>)

  /** The `assetConfigs` table, by its own keys. */
  function AssetConfigs(asset: string): (r: Option<RatingConfig>)
    ensures r.Some? <==> asset == "roadway" || asset == "highwaybuilding"
    ensures r.Some? ==> r.value.endpoint == Host + "/api/assets/rate/" + asset
  {
    if asset == "roadway" then
      Some(RatingConfig(Host + "/api/assets/rate/roadway",
                        [Field("installedDate", "date"), Field("lastMaintained", "date")]))
    else if asset == "highwaybuilding" then
      Some(RatingConfig(Host + "/api/assets/rate/highwaybuilding",
                        [Field("installedDate", "date"), Field("fciIndex", "number")]))
    else None
  }

  /** A `formData` entry: number inputs hold the number `Math.max(0, value)`
      gives, other inputs the text typed. */
  datatype FieldValue = Text(text: string) | Num(n: JsNumber)

  /** The file picked in the upload input (`e.target.files[0]`). */
  datatype ImageFile = ImageFile(name: string)

  datatype RatingRequest = RatingRequest(endpoint: string, body: map<string, FieldValue>)

  /** The multipart body the image submit sends: the image and the category. */
  datatype ImageRequest = ImageRequest(url: string, image: ImageFile, category: string)

  /** The rating service's answer: rejected (network error or a body that is
      not JSON), or a JSON object whose `rating` may be anything, `undefined`
      when absent. */
  datatype RatingReply = RatingRejected | RatingBody(rating: JsValue)

  /** The gateway's answer as the page decodes it: rejected, or a JSON
      object with optional `outputImage`, `image_url` and `detections`.
      `fetch` does not reject on a 400 or 500 status, so error bodies arrive
      here as objects without these keys. */
  datatype ImageReply =
    | ImageRejected
    | ImageBody(outputImage: Option<string>, imageUrl: Option<string>, detections: Option<seq<Detection>>)

  /** The page's state. */
  datatype FormState = FormState(
    selectedAsset: string,
    imageAssetType: string,
    formData: map<string, FieldValue>,
    rating: JsValue,
    image: Option<ImageFile>,
    processedImageUrl: string,
    detectedLabels: seq<Detection>,
    activeForm: string)

  const Initial := FormState("roadway", "light", map[], Str(""), None, "", [], "historical")

  // ---------------------------------------------------------------------
  // Decoding the gateway's answer

  /** A string property is truthy when present and non-empty. */
  predicate Given(v: Option<string>)
  {
    v.Some? && v.value != ""
  }

  /** `data.outputImage || data.image_url || ""`. */
  function ImagePath(outputImage: Option<string>, imageUrl: Option<string>): (r: string)
    ensures r == "" <==> !Given(outputImage) && !Given(imageUrl)
    ensures Given(outputImage) ==> r == outputImage.value
    ensures !Given(outputImage) && Given(imageUrl) ==> r == imageUrl.value
  {
    if Given(outputImage) then outputImage.value
    else if Given(imageUrl) then imageUrl.value
    else ""
  }

  /** `imagePath ? "http://localhost:3000" + imagePath : ""`. */
  function ProcessedImageUrl(imagePath: string): (r: string)
    ensures r == "" <==> imagePath == ""
    ensures imagePath != "" ==> |r| > |Host| && r[..|Host|] == Host
    ensures imagePath != "" ==> r == Host + imagePath
  {
    if imagePath != "" then Host + imagePath else ""
  }

  /** The path can be read back off the processed URL. */
  lemma ProcessedImageUrlKeepsPath(imagePath: string)
    requires imagePath != ""
    ensures ProcessedImageUrl(imagePath)[|Host|..] == imagePath
  {
  }

  /** `data.detections || []`: an array is always truthy. */
  function DetectedLabels(detections: Option<seq<Detection>>): (r: seq<Detection>)
    ensures detections.Some? ==> r == detections.value
    ensures detections.None? ==> r == []
  {
    if detections.Some? then detections.value else []
  }

  // ---------------------------------------------------------------------
  // The handlers, on the state's value

  /** `handleInputChange`: the value stored for an input. */
  function StoredValue(kind: string, value: string, toNumber: string -> JsNumber): (r: FieldValue)
    ensures r.Num? <==> kind == "number"
    ensures r.Num? ==> r.n == MaxZero(toNumber(value)) && !r.n.NegInfinity? && (r.n.Finite? ==> r.n.value >= 0.0)
    ensures r.Text? ==> r.text == value
  {
    if kind == "number" then Num(MaxZero(toNumber(value))) else Text(value)
  }

  function InputChanged(st: FormState, name: string, kind: string, value: string, toNumber: string -> JsNumber): (r: FormState)
    ensures r.formData.Keys == st.formData.Keys + {name}
    ensures r.formData[name] == StoredValue(kind, value, toNumber)
    ensures forall k :: k in st.formData && k != name ==> r.formData[k] == st.formData[k]
    ensures r.(formData := st.formData) == st
  {
    st.(formData := st.formData[name := StoredValue(kind, value, toNumber)])
  }

  /** `handleAssetChange`. */
  function AssetChanged(st: FormState, asset: string): (r: FormState)
    ensures r.selectedAsset == asset && r.formData == map[] && r.rating == Str("")
    ensures r.(selectedAsset := st.selectedAsset, formData := st.formData, rating := st.rating) == st
  {
    st.(selectedAsset := asset, formData := map[], rating := Str(""))
  }

  /** `handleSubmit`: looking up an asset outside the table throws before
      the request (`config.endpoint` of `undefined`), which the handler
      catches like a failed request. */
  function Submitted(st: FormState, reply: RatingReply): (r: (Option<RatingRequest>, FormState))
    ensures r.0.Some? <==> AssetConfigs(st.selectedAsset).Some?
    ensures r.1.(rating := st.rating) == st
  {
    match AssetConfigs(st.selectedAsset)
    case None => (None, st.(rating := Str(RatingErrorMessage)))
    case Some(config) =>
      var request := Some(RatingRequest(config.endpoint, st.formData));
      match reply
      case RatingRejected => (request, st.(rating := Str(RatingErrorMessage)))
      case RatingBody(rating) => (request, st.(rating := rating))
  }

  /** `handleImageSubmit`: a rejected request is only logged. */
  function ImageSubmitted(st: FormState, reply: ImageReply): (r: (Option<ImageRequest>, FormState))
    ensures r.0.None? <==> st.image.None?
    ensures r.0.None? ==> r.1 == st
    ensures r.1.(processedImageUrl := st.processedImageUrl, detectedLabels := st.detectedLabels) == st
  {
    if st.image.None? then (None, st)
    else
      var request := Some(ImageRequest(ImageEndpoint, st.image.value, st.imageAssetType));
      match reply
      case ImageRejected => (request, st)
      case ImageBody(outputImage, imageUrl, detections) =>
        (request, st.(processedImageUrl := ProcessedImageUrl(ImagePath(outputImage, imageUrl)),
                      detectedLabels := DetectedLabels(detections)))
  }

  // ---------------------------------------------------------------------
  // The page object

  class AssetRatingForm {
    var selectedAsset: string
    var imageAssetType: string
    var formData: map<string, FieldValue>
    var rating: JsValue
    var image: Option<ImageFile>
    var processedImageUrl: string
    var detectedLabels: seq<Detection>
    var activeForm: string

    function State(): FormState
      reads this
    {
      FormState(selectedAsset, imageAssetType, formData, rating, image,
                processedImageUrl, detectedLabels, activeForm)
    }

    constructor ()
      ensures State() == Initial
    {
      selectedAsset, imageAssetType, formData, rating := "roadway", "light", map[], Str("");
      image, processedImageUrl, detectedLabels, activeForm := None, "", [], "historical";
    }

    method HandleInputChange(name: string, kind: string, value: string, toNumber: string -> JsNumber)
      modifies this
      ensures State() == InputChanged(old(State()), name, kind, value, toNumber)
    {
      formData := formData[name := StoredValue(kind, value, toNumber)];
    }

    method HandleAssetChange(asset: string)
      modifies this
      ensures State() == AssetChanged(old(State()), asset)
    {
      selectedAsset := asset;
      formData := map[];
      rating := Str("");
    }

    method HandleImageAssetChange(category: string)
      modifies this
      ensures State() == old(State()).(imageAssetType := category)
    {
      imageAssetType := category;
    }

    method HandleImageUpload(file: Option<ImageFile>)
      modifies this
      ensures State() == old(State()).(image := file)
    {
      image := file;
    }

    /** The segmented switch between the two right-hand forms. */
    method SetActiveForm(form: string)
      modifies this
      ensures State() == old(State()).(activeForm := form)
    {
      activeForm := form;
    }

    method HandleSubmit(reply: RatingReply) returns (request: Option<RatingRequest>)
      modifies this
      ensures (request, State()) == Submitted(old(State()), reply)
    {
      request := None;
      var config := AssetConfigs(selectedAsset);
      if config.None? {
        rating := Str(RatingErrorMessage);
        return;
      }
      request := Some(RatingRequest(config.value.endpoint, formData));
      match reply {
        case RatingRejected => rating := Str(RatingErrorMessage);
        case RatingBody(r) => rating := r;
      }
    }

    method HandleImageSubmit(reply: ImageReply) returns (request: Option<ImageRequest>)
      modifies this
      ensures (request, State()) == ImageSubmitted(old(State()), reply)
    {
      if image.None? {
        return None;
      }
      request := Some(ImageRequest(ImageEndpoint, image.value, imageAssetType));
      if reply.ImageRejected? {
        return;
      }
      var imagePath := ImagePath(reply.outputImage, reply.imageUrl);
      processedImageUrl := ProcessedImageUrl(imagePath);
      detectedLabels := DetectedLabels(reply.detections);
    }
  }

  // ---------------------------------------------------------------------
  // What the page promises

  /** An input change sets the one key named, clamps number inputs, and
      leaves every other key and every other part of the state alone. */
  lemma InputChangeTouchesOnlyName(st: FormState, name: string, kind: string, value: string,
                                   toNumber: string -> JsNumber, other: string)
    requires other != name
    ensures var after := InputChanged(st, name, kind, value, toNumber);
      && name in after.formData
      && after.formData[name] == StoredValue(kind, value, toNumber)
      && (other in after.formData <==> other in st.formData)
      && (other in st.formData ==> after.formData[other] == st.formData[other])
      && after.(formData := st.formData) == st
  {
  }

  /** Changing the asset type empties the form and clears the rating,
      whatever was there; nothing else changes. */
  lemma AssetChangeResets(st: FormState, asset: string)
    ensures var after := AssetChanged(st, asset);
      && after.selectedAsset == asset
      && after.formData == map[]
      && after.rating == Str("")
      && after.(selectedAsset := st.selectedAsset, formData := st.formData, rating := st.rating) == st
  {
  }

  /** Every number field of the rating forms stores a value that is not
      negative (or NaN, for text that is not a number). */
  lemma NumberFieldsAreClamped(st: FormState, asset: string, i: int, value: string, toNumber: string -> JsNumber)
    requires AssetConfigs(asset).Some? && 0 <= i < |AssetConfigs(asset).value.fields|
    requires AssetConfigs(asset).value.fields[i].kind == "number"
    ensures var f := AssetConfigs(asset).value.fields[i];
      var v := InputChanged(st, f.name, f.kind, value, toNumber).formData[f.name];
      v.Num? && (v.n.NaN? || v.n.PosInfinity? || (v.n.Finite? && v.n.value >= 0.0))
  {
  }

  /** A rating request goes to the selected asset's endpoint with the form
      as its body; an asset outside the table, a rejected request or an
      unreadable answer all leave the rating at the error message, and only
      the rating changes. */
  lemma SubmitSetsRating(st: FormState, reply: RatingReply)
    ensures var (request, after) := Submitted(st, reply);
      && (request.Some? <==> AssetConfigs(st.selectedAsset).Some?)
      && (request.Some? ==> request.value == RatingRequest(AssetConfigs(st.selectedAsset).value.endpoint, st.formData))
      && (after.rating == Str(RatingErrorMessage) <==>
            request.None? || reply.RatingRejected? || reply.rating == Str(RatingErrorMessage))
      && (request.Some? && reply.RatingBody? ==> after.rating == reply.rating)
      && after.(rating := st.rating) == st
  {
  }

  /** Without a selected image, submitting does nothing at all. */
  lemma ImageSubmitNeedsImage(st: FormState, reply: ImageReply)
    requires st.image.None?
    ensures ImageSubmitted(st, reply) == (None, st)
  {
  }

  /** With an image, the page sends it with the chosen category; a decoded
      answer sets the processed URL from `outputImage`, else `image_url`,
      prefixed with the host, or "" when both are missing, and the labels
      from `detections` or []. Nothing else changes. */
  lemma ImageSubmitDecodes(st: FormState, reply: ImageReply)
    requires st.image.Some?
    ensures var (request, after) := ImageSubmitted(st, reply);
      && request == Some(ImageRequest(ImageEndpoint, st.image.value, st.imageAssetType))
      && (reply.ImageRejected? ==> after == st)
      && (reply.ImageBody? ==>
            && (Given(reply.outputImage) ==> after.processedImageUrl == Host + reply.outputImage.value)
            && (!Given(reply.outputImage) && Given(reply.imageUrl) ==>
                  after.processedImageUrl == Host + reply.imageUrl.value)
            && (!Given(reply.outputImage) && !Given(reply.imageUrl) ==> after.processedImageUrl == "")
            && after.detectedLabels == (if reply.detections.Some? then reply.detections.value else []))
      && after.(processedImageUrl := st.processedImageUrl, detectedLabels := st.detectedLabels) == st
  {
  }
}
