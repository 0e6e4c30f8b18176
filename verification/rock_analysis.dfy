/** `analyzeRock`: one image is sent to the hosted model, with a single
    retry on a simplified prompt when the first attempt rejects or times
    out; the reply is run through the extraction ladder and sanitised into
    a rock profile in which every field is filled, and any failure yields a
    fixed placeholder profile instead of an error. */
module RockAnalysis {
  import opened Options
  import opened Text
  import opened Json
  import opened Service
  import opened Extraction

  // ---------------------------------------------------------------------
  // The request
  // ---------------------------------------------------------------------

  /** The data-URL headers `/^data:image\/(png|jpeg|jpg);base64,/` removes. */
  const PngHeader := "data:image/png;base64,"
  const JpegHeader := "data:image/jpeg;base64,"
  const JpgHeader := "data:image/jpg;base64,"

  predicate IsDataUrlHeader(h: string) {
    h == PngHeader || h == JpegHeader || h == JpgHeader
  }

  /** The image payload sent to the service: `imageData` with a leading
      data-URL header removed, once; anything else is sent as it is. */
  function StripDataUrl(imageData: string): (r: string)
    ensures (forall h :: IsDataUrlHeader(h) ==> !StartsWith(imageData, h)) ==> r == imageData
  {
    if StartsWith(imageData, PngHeader) then imageData[|PngHeader|..]
    else if StartsWith(imageData, JpegHeader) then imageData[|JpegHeader|..]
    else if StartsWith(imageData, JpgHeader) then imageData[|JpgHeader|..]
    else imageData
  }

  /** When `imageData` starts with a data-URL header, what is sent is the
      rest of it after one such header. */
  lemma StripDataUrlRemovesHeader(imageData: string)
    requires exists h :: IsDataUrlHeader(h) && StartsWith(imageData, h)
    ensures exists h :: IsDataUrlHeader(h) && imageData == h + StripDataUrl(imageData)
  {
    var h :=
      if StartsWith(imageData, PngHeader) then PngHeader
      else if StartsWith(imageData, JpegHeader) then JpegHeader
      else JpgHeader;
    assert StartsWith(imageData, h);
    assert StripDataUrl(imageData) == imageData[|h|..];
    assert imageData == h + imageData[|h|..];
  }

  /** The payload of a data URL is recovered exactly, even when the payload
      itself happens to begin with a header: the pattern is anchored and
      applied once. */
  lemma StripDataUrlOfDataUrl(h: string, payload: string)
    requires IsDataUrlHeader(h)
    ensures StripDataUrl(h + payload) == payload
  {
    var s := h + payload;
    assert s[..|h|] == h;
    assert s[|h|..] == payload;
    if h == JpegHeader {
      assert s[11] == 'j' != PngHeader[11];
    } else if h == JpgHeader {
      assert s[11] == 'j' != PngHeader[11];
      assert s[13] == 'g' != JpegHeader[13];
    }
  }

  /** Which instructions accompany the image: the full identification prompt
      of the first attempt or the shorter one of the retry. The prompt
      texts themselves are not modelled. */
  datatype Prompt = FullPrompt | SimplifiedPrompt

  /** One `generateContent` call: the model and generation settings, the
      instructions, the inline image, and the timer the call is raced
      against (`None` when there is none). */
  datatype ImageRequest = ImageRequest(
    model: string,
    temperature: real,
    maxOutputTokens: nat,
    prompt: Prompt,
    mimeType: string,
    data: string,
    timeoutMs: Option<nat>)

  type ImageService = ImageRequest -> Attempt

  const AnalysisModel := "gemini-2.0-flash"
  const AnalysisTemperature := 0.4
  const AnalysisMaxTokens := 1024
  const ImageMimeType := "image/jpeg"
  const FirstAttemptTimeoutMs := 15000

  /** The first attempt: full prompt, raced against a 15-second timer. */
  function PrimaryRequest(data: string): ImageRequest {
    ImageRequest(AnalysisModel, AnalysisTemperature, AnalysisMaxTokens,
                 FullPrompt, ImageMimeType, data, Some(FirstAttemptTimeoutMs))
  }

  /** The retry: the same image and settings, the simplified prompt, no timer. */
  function RetryRequest(data: string): ImageRequest {
    ImageRequest(AnalysisModel, AnalysisTemperature, AnalysisMaxTokens,
                 SimplifiedPrompt, ImageMimeType, data, None)
  }

  // ---------------------------------------------------------------------
  // The profile
  // ---------------------------------------------------------------------

  /** The object `analyzeRock` resolves to. Scalar fields hold whatever
      JSON value the reply carried (usually a string); the two lists hold
      the reply's arrays as they are. */
  datatype RockProfile = RockProfile(
    name: Value,
    rockType: Value,
    composition: Value,
    texture: Value,
    color: Value,
    hardness: Value,
    density: Value,
    porosity: Value,
    fossilContent: Value,
    weatheringResistance: Value,
    formationProcess: Value,
    geologicalAge: Value,
    locations: seq<Value>,
    uses: seq<Value>,
    description: Value)

  /** The scalar fields of a profile. */
  datatype Field =
    | Name | RockType | Composition | Texture | Color | Hardness | Density
    | Porosity | FossilContent | WeatheringResistance | FormationProcess
    | GeologicalAge | Description

  /** The property name a field is read from and written to. */
  function Key(f: Field): string {
    match f
    case Name => "name"
    case RockType => "type"
    case Composition => "composition"
    case Texture => "texture"
    case Color => "color"
    case Hardness => "hardness"
    case Density => "density"
    case Porosity => "porosity"
    case FossilContent => "fossilContent"
    case WeatheringResistance => "weatheringResistance"
    case FormationProcess => "formationProcess"
    case GeologicalAge => "geologicalAge"
    case Description => "description"
  }

  /** The text a field takes when the reply leaves it out or leaves it falsy. */
  function Default(f: Field): (d: string)
    ensures d != ""
  {
    match f
    case Name => "Unidentified Rock/Mineral"
    case RockType => "Unknown"
    case Composition => "Composition could not be determined"
    case Texture => "Texture could not be determined"
    case Color => "Color could not be determined"
    case Hardness => "Unknown"
    case Density => "Unknown"
    case Porosity => "Unknown"
    case FossilContent => "None visible"
    case WeatheringResistance => "Unknown"
    case FormationProcess => "Formation process unknown"
    case GeologicalAge => "Age undetermined"
    case Description => UndeterminedDescription
  }

  const UndeterminedDescription :=
    "This appears to be a rock or mineral, but specific details " +
    "could not be determined from the image."

  /** The default for a list field that is not an array. */
  const UnknownList: seq<Value> := [Str("Unknown")]

  function Get(p: RockProfile, f: Field): Value {
    match f
    case Name => p.name
    case RockType => p.rockType
    case Composition => p.composition
    case Texture => p.texture
    case Color => p.color
    case Hardness => p.hardness
    case Density => p.density
    case Porosity => p.porosity
    case FossilContent => p.fossilContent
    case WeatheringResistance => p.weatheringResistance
    case FormationProcess => p.formationProcess
    case GeologicalAge => p.geologicalAge
    case Description => p.description
  }

  /** Every scalar field is truthy: what the sanitiser guarantees. */
  predicate Populated(p: RockProfile) {
    forall f: Field :: Truthy(Get(p, f))
  }

  /** `parsedJson.<key> || "<default>"`. */
  function Pick(parsed: Value, f: Field): (v: Value)
    ensures Truthy(v)
  {
    var m := Member(parsed, Key(f));
    if DefinedTruthy(m) then m.value else Str(Default(f))
  }

  /** `Array.isArray(parsedJson.<key>) ? parsedJson.<key> : ["Unknown"]`. */
  function PickList(parsed: Value, key: string): seq<Value> {
    match Member(parsed, key)
    case Some(Arr(items)) => items
    case _ => UnknownList
  }

  /** The profile whose scalar fields are given by `g`. */
  function FromFields(g: Field -> Value, locations: seq<Value>, uses: seq<Value>): RockProfile {
    RockProfile(
      g(Name), g(RockType), g(Composition), g(Texture), g(Color), g(Hardness),
      g(Density), g(Porosity), g(FossilContent), g(WeatheringResistance),
      g(FormationProcess), g(GeologicalAge), locations, uses, g(Description))
  }

  lemma GetFromFields(g: Field -> Value, locations: seq<Value>, uses: seq<Value>, f: Field)
    ensures Get(FromFields(g, locations, uses), f) == g(f)
  {
  }

  /** The sanitiser: every scalar field the reply gives a truthy value keeps
      it, every other one takes its default, and the lists are kept only
      when they are arrays. */
  function Sanitize(parsed: Value): (p: RockProfile)
    ensures Populated(p)
  {
    FromFieldsPopulated(f => Pick(parsed, f), PickList(parsed, "locations"), PickList(parsed, "uses"));
    FromFields(f => Pick(parsed, f), PickList(parsed, "locations"), PickList(parsed, "uses"))
  }

  /** Fields that are all truthy make a populated profile. */
  lemma FromFieldsPopulated(g: Field -> Value, locations: seq<Value>, uses: seq<Value>)
    requires forall f: Field :: Truthy(g(f))
    ensures Populated(FromFields(g, locations, uses))
  {
    forall f: Field
      ensures Truthy(Get(FromFields(g, locations, uses), f))
    {
      GetFromFields(g, locations, uses, f);
    }
  }

  /** Each scalar field of the sanitised profile is what `Pick` chose. */
  lemma GetSanitize(parsed: Value, f: Field)
    ensures Get(Sanitize(parsed), f) == Pick(parsed, f)
  {
    GetFromFields(f => Pick(parsed, f), PickList(parsed, "locations"), PickList(parsed, "uses"), f);
  }

  /** What the sanitiser keeps and what it fills in, field by field. */
  lemma SanitizeFields(parsed: Value, f: Field)
    ensures DefinedTruthy(Member(parsed, Key(f))) ==> Get(Sanitize(parsed), f) == parsed.fields[Key(f)]
    ensures !DefinedTruthy(Member(parsed, Key(f))) ==> Get(Sanitize(parsed), f) == Str(Default(f))
  {
    GetSanitize(parsed, f);
  }

  /** Whatever the reply, every scalar field of the sanitised profile is
      truthy. */
  lemma SanitizePopulated(parsed: Value)
    ensures Populated(Sanitize(parsed))
  {
    forall f: Field
      ensures Truthy(Get(Sanitize(parsed), f))
    {
      GetSanitize(parsed, f);
    }
  }

  /** The sanitiser keeps a list field exactly when the reply gives an array. */
  lemma SanitizeLists(parsed: Value)
    ensures Sanitize(parsed).locations ==
      (if parsed.Obj? && "locations" in parsed.fields && parsed.fields["locations"].Arr?
       then parsed.fields["locations"].items else UnknownList)
    ensures Sanitize(parsed).uses ==
      (if parsed.Obj? && "uses" in parsed.fields && parsed.fields["uses"].Arr?
       then parsed.fields["uses"].items else UnknownList)
  {
  }

  /** Two profiles that agree on every field are the same profile. */
  lemma ProfileExtensional(a: RockProfile, b: RockProfile)
    requires forall f: Field :: Get(a, f) == Get(b, f)
    requires a.locations == b.locations && a.uses == b.uses
    ensures a == b
  {
    assert Get(a, Name) == Get(b, Name);
    assert Get(a, RockType) == Get(b, RockType);
    assert Get(a, Composition) == Get(b, Composition);
    assert Get(a, Texture) == Get(b, Texture);
    assert Get(a, Color) == Get(b, Color);
    assert Get(a, Hardness) == Get(b, Hardness);
    assert Get(a, Density) == Get(b, Density);
    assert Get(a, Porosity) == Get(b, Porosity);
    assert Get(a, FossilContent) == Get(b, FossilContent);
    assert Get(a, WeatheringResistance) == Get(b, WeatheringResistance);
    assert Get(a, FormationProcess) == Get(b, FormationProcess);
    assert Get(a, GeologicalAge) == Get(b, GeologicalAge);
    assert Get(a, Description) == Get(b, Description);
  }

  /** A profile written out as the JSON object the application receives. */
  function ToJson(p: RockProfile): (v: Value)
    ensures v.Obj?
    ensures forall f: Field :: Member(v, Key(f)) == Some(Get(p, f))
    ensures Member(v, "locations") == Some(Arr(p.locations))
    ensures Member(v, "uses") == Some(Arr(p.uses))
  {
    Obj(map[
      "name" := p.name, "type" := p.rockType, "composition" := p.composition,
      "texture" := p.texture, "color" := p.color, "hardness" := p.hardness,
      "density" := p.density, "porosity" := p.porosity,
      "fossilContent" := p.fossilContent,
      "weatheringResistance" := p.weatheringResistance,
      "formationProcess" := p.formationProcess,
      "geologicalAge" := p.geologicalAge,
      "locations" := Arr(p.locations), "uses" := Arr(p.uses),
      "description" := p.description])
  }

  /** Reading a scalar field back out of the object gives the field. */
  lemma ToJsonMember(p: RockProfile, f: Field)
    ensures Member(ToJson(p), Key(f)) == Some(Get(p, f))
  {
  }

  /** Reading a list back out of the object gives the list. */
  lemma ToJsonLists(p: RockProfile)
    ensures PickList(ToJson(p), "locations") == p.locations
    ensures PickList(ToJson(p), "uses") == p.uses
  {
  }

  /** A populated profile read back through the sanitiser is unchanged. */
  lemma SanitizeToJson(p: RockProfile)
    requires Populated(p)
    ensures Sanitize(ToJson(p)) == p
  {
    var v := ToJson(p);
    forall f: Field
      ensures Get(Sanitize(v), f) == Get(p, f)
    {
      ToJsonMember(p, f);
      GetSanitize(v, f);
    }
    ToJsonLists(p);
    ProfileExtensional(Sanitize(v), p);
  }

  /** Sanitising twice is sanitising once. */
  lemma SanitizeIdempotent(parsed: Value)
    ensures Sanitize(ToJson(Sanitize(parsed))) == Sanitize(parsed)
  {
    SanitizePopulated(parsed);
    SanitizeToJson(Sanitize(parsed));
  }

  /** The placeholder profile returned whenever analysis fails. */
  const Fallback := RockProfile(
    Str("Rock Analysis in Progress"),
    Str("Processing..."),
    Str("Analysis engine processing"),
    Str("Analyzing texture..."),
    Str("Analyzing color..."),
    Str("Calculating..."),
    Str("Calculating..."),
    Str("Analyzing..."),
    Str("Checking for fossils..."),
    Str("Analyzing durability..."),
    Str("Analyzing formation..."),
    Str("Determining age..."),
    [Str("Processing geological database")],
    [Str("Identifying applications...")],
    Str(InProgressDescription))

  lemma FallbackPopulated()
    ensures Populated(Fallback)
  {
    forall f: Field
      ensures Truthy(Get(Fallback, f))
    {
    }
  }

  const InProgressDescription :=
    "Our system detected what appears to be a rock or mineral in " +
    "your image. The analysis is still processing - sometimes " +
    "unusual specimens or image conditions require additional " +
    "processing time. Please check back in a moment."

  // ---------------------------------------------------------------------
  // The analysis
  // ---------------------------------------------------------------------

  /** The requests made, in order, and the profile returned. */
  datatype Analysis = Analysis(requests: seq<ImageRequest>, profile: RockProfile)

  /** From the settled call to the profile: the ladder on the reply text,
      the truthiness check, the sanitiser; an unreadable reply, a ladder
      that fails or a falsy parse all end in the placeholder. */
  function Normalize(reply: Attempt, parse: Parser): (p: RockProfile)
    ensures p != Fallback ==> reply.Replied? && Ladder(reply.text, parse).Some?
    ensures forall v :: reply.Replied? && Ladder(reply.text, parse) == Some(v) && Truthy(v) ==>
      p == Sanitize(v)
    ensures !(reply.Replied? && Ladder(reply.text, parse).Some? && Truthy(Ladder(reply.text, parse).value)) ==>
      p == Fallback
  {
    match reply
    case Replied(text) =>
      (match Ladder(text, parse)
       case Some(v) => if Truthy(v) then Sanitize(v) else Fallback
       case None => Fallback)
    case _ => Fallback
  }

  /** `analyzeRock(imageData)`: the service answers each request; `parse`
      is `JSON.parse`. A first attempt that rejects (including by the timer)
      is retried once without a timer; a reply that cannot be read is not
      retried. The result is always a populated profile. */
  function AnalyzeRock(imageData: string, service: ImageService, parse: Parser): (r: Analysis)
    ensures 1 <= |r.requests| <= 2
    ensures r.requests[0] == PrimaryRequest(StripDataUrl(imageData))
    ensures |r.requests| == 2 <==> service(r.requests[0]).Rejected?
    ensures |r.requests| == 2 ==> r.requests[1] == RetryRequest(r.requests[0].data)
    ensures r.profile == Normalize(service(r.requests[|r.requests| - 1]), parse)
  {
    var data := StripDataUrl(imageData);
    var first := PrimaryRequest(data);
    if service(first).Rejected? then
      var second := RetryRequest(data);
      Analysis([first, second], Normalize(service(second), parse))
    else
      Analysis([first], Normalize(service(first), parse))
  }

  /** Whatever the service and the reply, the profile is populated. */
  lemma AnalyzeRockPopulated(imageData: string, service: ImageService, parse: Parser)
    ensures Populated(AnalyzeRock(imageData, service, parse).profile)
  {
    var r := AnalyzeRock(imageData, service, parse);
    var reply := service(r.requests[|r.requests| - 1]);
    FallbackPopulated();
    if reply.Replied? && Ladder(reply.text, parse).Some? {
      SanitizePopulated(Ladder(reply.text, parse).value);
    }
  }

  /** A reply whose whole text parses to a populated profile yields that
      profile, unchanged, after a single request. */
  lemma WellFormedReplyPassesThrough(imageData: string, service: ImageService, parse: Parser,
                                     text: string, p: RockProfile)
    requires service(PrimaryRequest(StripDataUrl(imageData))) == Replied(text)
    requires parse(text) == Some(ToJson(p)) && Populated(p)
    ensures AnalyzeRock(imageData, service, parse) == Analysis([PrimaryRequest(StripDataUrl(imageData))], p)
  {
    assert Truthy(ToJson(p));
    NormalizeParsed(text, parse, ToJson(p));
    SanitizeToJson(p);
  }

  /** A reply that parses as it stands to a truthy value is sanitized. */
  lemma NormalizeParsed(text: string, parse: Parser, v: Value)
    requires parse(text) == Some(v) && Truthy(v)
    ensures Normalize(Replied(text), parse) == Sanitize(v)
  {
  }

  /** When both attempts reject, two requests are made and the placeholder
      is returned. */
  lemma BothRejectedGivesFallback(imageData: string, service: ImageService, parse: Parser)
    requires service(PrimaryRequest(StripDataUrl(imageData))).Rejected?
    requires service(RetryRequest(StripDataUrl(imageData))).Rejected?
    ensures |AnalyzeRock(imageData, service, parse).requests| == 2
    ensures AnalyzeRock(imageData, service, parse).profile == Fallback
  {
  }

  /** A reply in which no ladder stage parses yields the placeholder, and
      the request is not repeated. */
  lemma UnparsableReplyGivesFallback(imageData: string, service: ImageService, parse: Parser, text: string)
    requires service(PrimaryRequest(StripDataUrl(imageData))) == Replied(text)
    requires Ladder(text, parse).None?
    ensures AnalyzeRock(imageData, service, parse) ==
      Analysis([PrimaryRequest(StripDataUrl(imageData))], Fallback)
  {
  }
}
