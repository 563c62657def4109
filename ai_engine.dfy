/**
 * The placeholder AI engine: image analysis and mood extraction return fixed values, and
 * rendering looks the requested preset up in a table of three image URLs, falling back to the
 * first. The simulated delays are not modelled.
 */
module AiEngine {
  import opened Wrappers

  const Style1Url: string := "https://images.unsplash.com/photo-1618221195710-dd6b41faaea6?w=800&h=600&fit=crop"
  const Style2Url: string := "https://images.unsplash.com/photo-1586023492125-27b2c045efd7?w=800&h=600&fit=crop"
  const Style3Url: string := "https://images.unsplash.com/photo-1560448204-e02f11c3d0e2?w=800&h=600&fit=crop"

  datatype AnalysisResult = AnalysisResult(mood: seq<string>, colorPalette: seq<string>, furnitureSuggestions: seq<string>)

  datatype RenderOptions = RenderOptions(uploadedImage: string, selectedMoods: seq<string>, intensity: real, presetId: Option<string>)

  /** analyzeImage: the same analysis whatever the image. */
  function AnalyzeImage(imageUrl: string): (r: AnalysisResult)
    ensures r.mood == ["modern", "minimal"] && |r.colorPalette| == 3 && |r.furnitureSuggestions| == 3
  {
    AnalysisResult(["modern", "minimal"], ["#F5F5F5", "#2C2C2C", "#D4A373"], ["무타공 선반", "LED 조명", "우드 책상"])
  }

  /** extractMood: the same moods whatever the image. */
  function ExtractMood(imageUrl: string): (r: seq<string>)
    ensures r == ["modern", "wood", "cozy"]
  {
    ["modern", "wood", "cozy"]
  }

  /** The own properties of the `presetImages` table. */
  function OwnPreset(key: string): (url: Option<string>)
    ensures url.Some? ==> url.value != ""
  {
    if key == "style1" then Some(Style1Url)
    else if key == "style2" then Some(Style2Url)
    else if key == "style3" then Some(Style3Url)
    else None
  }

  /** `options.presetId || "style1"` */
  function PresetKey(options: RenderOptions): string {
    if Truthy(options.presetId) then options.presetId.value else "style1"
  }

  /** renderImage, reading only the table's own entries: the preset's URL, or the first preset's
      URL for a missing, empty or unknown preset id. */
  function RenderImage(options: RenderOptions): (url: string)
    ensures url == Style1Url || url == Style2Url || url == Style3Url
    ensures url == Style2Url <==> options.presetId == Some("style2")
    ensures url == Style3Url <==> options.presetId == Some("style3")
  {
    match OwnPreset(PresetKey(options))
    case Some(u) => u
    case None => Style1Url
  }

  // ---------------------------------------------------------------------------------------------
  // renderImage as written: the table is a plain object literal, so `presetImages[key]` also
  // finds the properties every object inherits from Object.prototype.

  /** The values a property read on the table can produce. */
  datatype JsValue = Undefined | Str(s: string) | Function(name: string) | PrototypeObject

  /** The method names of Object.prototype. */
  const InheritedMethods: seq<string> := [
    "constructor", "hasOwnProperty", "isPrototypeOf", "propertyIsEnumerable", "toLocaleString",
    "toString", "valueOf", "__defineGetter__", "__defineSetter__", "__lookupGetter__", "__lookupSetter__"
  ]

  predicate Inherited(key: string) {
    key in InheritedMethods || key == "__proto__"
  }

  /** `presetImages[key]`: own entries first, then the prototype chain. */
  function GetProperty(key: string): (v: JsValue)
    ensures v.Undefined? <==> OwnPreset(key).None? && !Inherited(key)
  {
    match OwnPreset(key)
    case Some(u) => Str(u)
    case None =>
      if key in InheritedMethods then Function(key)
      else if key == "__proto__" then PrototypeObject
      else Undefined
  }

  predicate JsTruthy(v: JsValue) {
    match v
    case Undefined => false
    case Str(s) => s != ""
    case Function(_) => true
    case PrototypeObject => true
  }

  /** `presetImages[options.presetId || "style1"] || presetImages.style1` */
  function RenderImageAsWritten(options: RenderOptions): (v: JsValue)
    ensures v.Str? ==> v.s == Style1Url || v.s == Style2Url || v.s == Style3Url
  {
    var v := GetProperty(PresetKey(options));
    if JsTruthy(v) then v else Str(Style1Url)
  }

  /** For every preset id that is not an inherited property name, the lookup as written gives the
      same URL as the corrected one. */
  lemma AsWrittenAgreesOffPrototype(options: RenderOptions)
    requires !Inherited(PresetKey(options))
    ensures RenderImageAsWritten(options) == Str(RenderImage(options))
  {
  }

  /** The preset id "toString" makes the promised string a function. */
  lemma InheritedKeyEscapes()
    ensures RenderImageAsWritten(RenderOptions("", [], 50.0, Some("toString"))) == Function("toString")
    ensures RenderImage(RenderOptions("", [], 50.0, Some("toString"))) == Style1Url
  {
  }
}
