/**
 * The AI canvas page: a three-step flow (upload, settings, results) over the uploaded room
 * image, up to three mood choices, an optional preset style and an intensity slider; generating
 * stores the chosen preset's image as the result. The simulated delay is not modelled.
 */
module CanvasPage {
  import opened Wrappers
  import opened Selection
  import opened UserStore

  datatype Step = Upload | Settings | Results

  datatype PresetStyle = PresetStyle(id: string, name: string, image: string)

  const MoodIds: seq<string> := ["minimal", "modern", "wood", "vintage", "nordic", "cozy", "industrial", "natural"]

  const PresetStyles: seq<PresetStyle> := [
    PresetStyle("style1", "모던 화이트", "https://images.unsplash.com/photo-1618221195710-dd6b41faaea6?w=400&h=300&fit=crop"),
    PresetStyle("style2", "우드 내추럴", "https://images.unsplash.com/photo-1586023492125-27b2c045efd7?w=400&h=300&fit=crop"),
    PresetStyle("style3", "미니멀 그레이", "https://images.unsplash.com/photo-1560448204-e02f11c3d0e2?w=400&h=300&fit=crop")
  ]

  /** The result shown when no preset is chosen. */
  const DefaultResultUrl: string := "https://images.unsplash.com/photo-1618221195710-dd6b41faaea6?w=800&h=600&fit=crop"

  const MaxMoods: nat := 3

  predicate IsPresetId(id: string) {
    exists i :: 0 <= i < |PresetStyles| && PresetStyles[i].id == id
  }

  /** `presetStyles.find(p => p.id === id)?.image`: the image of the first preset with the id. */
  function FindPresetImage(styles: seq<PresetStyle>, id: string): (image: Option<string>)
    ensures image.Some? <==> exists i :: 0 <= i < |styles| && styles[i].id == id
    ensures image.Some? ==> exists i :: 0 <= i < |styles| && styles[i].id == id && styles[i].image == image.value
  {
    if styles == [] then None
    else if styles[0].id == id then Some(styles[0].image)
    else
      var rest := FindPresetImage(styles[1..], id);
      assert forall i :: 0 <= i < |styles| - 1 ==> styles[1..][i] == styles[i + 1];
      rest
  }

  /** handleGenerate's choice: the chosen preset's image, "" for an id no preset has, the default
      URL with no preset chosen. */
  function ResultImage(selectedPreset: Option<string>): (url: string)
    ensures !Truthy(selectedPreset) ==> url == DefaultResultUrl
    ensures Truthy(selectedPreset) && !IsPresetId(selectedPreset.value) ==> url == ""
  {
    if Truthy(selectedPreset) then FindPresetImage(PresetStyles, selectedPreset.value).GetOr("")
    else DefaultResultUrl
  }

  /** Each preset a button can choose yields that preset's own image. */
  lemma ResultImageOfPreset(k: nat)
    requires k < |PresetStyles|
    ensures ResultImage(Some(PresetStyles[k].id)) == PresetStyles[k].image
    ensures ResultImage(Some(PresetStyles[k].id)) != ""
  {
  }

  function StepIndex(s: Step): nat {
    match s
    case Upload => 0
    case Settings => 1
    case Results => 2
  }

  /** The step indicator's `isPast` for `item` while on step `current`. */
  predicate IsPast(current: Step, item: Step) {
    (current == Settings && item == Upload) || (current == Results && (item == Upload || item == Settings))
  }

  /** A step is past exactly when it comes before the current one. */
  lemma IsPastMeansEarlier(current: Step, item: Step)
    ensures IsPast(current, item) <==> StepIndex(item) < StepIndex(current)
  {
  }

  class CanvasPage {
    const store: Store
    var currentStep: Step
    var selectedMoods: seq<string>
    var sliderValue: int
    var isGenerating: bool
    var selectedPreset: Option<string>

    /** The moods stay distinct and at most three; only listed presets are chosen. */
    predicate Valid()
      reads this
    {
      Distinct(selectedMoods) && |selectedMoods| <= MaxMoods &&
      (selectedPreset.Some? ==> IsPresetId(selectedPreset.value))
    }

    constructor (store: Store)
      ensures this.store == store && Valid()
      ensures currentStep == Upload && selectedMoods == [] && sliderValue == 50
      ensures !isGenerating && selectedPreset == None
    {
      this.store := store;
      currentStep := Upload;
      selectedMoods := [];
      sliderValue := 50;
      isGenerating := false;
      selectedPreset := None;
    }

    /** "Generate" is disabled with neither a mood nor a preset. */
    predicate GenerateEnabled()
      reads this
    {
      !(|selectedMoods| == 0 && !Truthy(selectedPreset))
    }

    /** "Next" is disabled without an uploaded image. */
    predicate NextEnabled()
      reads this, store
    {
      Truthy(store.uploadedRoomImg)
    }

    /** handleImageUpload: nothing without a selected file; otherwise the reader's result (None
        when reading failed) becomes the uploaded image. */
    method HandleImageUpload(fileSelected: bool, readerResult: Option<string>)
      modifies store
      ensures fileSelected ==> store.Data() == old(store.Data()).(uploadedRoomImg := readerResult)
      ensures !fileSelected ==> store.Data() == old(store.Data())
      ensures store.Canvas() == old(store.Canvas())
    {
      if fileSelected {
        store.SetUploadedRoomImg(readerResult);
      }
    }

    /** "Choose again" drops the uploaded image. */
    method ClearUpload()
      modifies store
      ensures store.Data() == old(store.Data()).(uploadedRoomImg := None)
      ensures store.Canvas() == old(store.Canvas())
    {
      store.SetUploadedRoomImg(None);
    }

    /** handleMoodToggle: remove a chosen mood; add another only while fewer than three. */
    method HandleMoodToggle(moodId: string)
      requires Valid()
      modifies this
      ensures Valid()
      ensures selectedMoods == CappedToggle(old(selectedMoods), moodId, MaxMoods)
      ensures currentStep == old(currentStep) && selectedPreset == old(selectedPreset)
      ensures sliderValue == old(sliderValue) && isGenerating == old(isGenerating)
    {
      selectedMoods := CappedToggle(selectedMoods, moodId, MaxMoods);
    }

    method SelectPreset(k: nat)
      requires Valid() && k < |PresetStyles|
      modifies this
      ensures Valid() && selectedPreset == Some(PresetStyles[k].id)
      ensures currentStep == old(currentStep) && selectedMoods == old(selectedMoods)
      ensures sliderValue == old(sliderValue) && isGenerating == old(isGenerating)
    {
      selectedPreset := Some(PresetStyles[k].id);
    }

    /** The intensity slider runs from 0 to 100 in steps of 10. */
    method SlideIntensity(value: int)
      requires 0 <= value <= 100 && value % 10 == 0
      modifies this
      ensures sliderValue == value && currentStep == old(currentStep) && selectedMoods == old(selectedMoods)
      ensures selectedPreset == old(selectedPreset) && isGenerating == old(isGenerating)
    {
      sliderValue := value;
    }

    method NextFromUpload()
      requires NextEnabled()
      modifies this
      ensures currentStep == Settings && selectedMoods == old(selectedMoods)
      ensures selectedPreset == old(selectedPreset) && sliderValue == old(sliderValue) && isGenerating == old(isGenerating)
    {
      currentStep := Settings;
    }

    method BackToUpload()
      modifies this
      ensures currentStep == Upload && selectedMoods == old(selectedMoods)
      ensures selectedPreset == old(selectedPreset) && sliderValue == old(sliderValue) && isGenerating == old(isGenerating)
    {
      currentStep := Upload;
    }

    /** handleGenerate: the result image is stored, generation ends and the results step shows. */
    method HandleGenerate()
      requires GenerateEnabled()
      modifies this, store
      ensures store.Data() == old(store.Data()).(aiResultImg := Some(ResultImage(old(selectedPreset))))
      ensures store.Canvas() == old(store.Canvas())
      ensures !isGenerating && currentStep == Results
      ensures selectedMoods == old(selectedMoods) && selectedPreset == old(selectedPreset) && sliderValue == old(sliderValue)
    {
      isGenerating := true;
      var resultImage := ResultImage(selectedPreset);
      store.SetAiResult(resultImage);
      isGenerating := false;
      currentStep := Results;
    }

    /** "Generate again" returns to the settings, keeping the choices. */
    method RegenerateToSettings()
      modifies this
      ensures currentStep == Settings && selectedMoods == old(selectedMoods)
      ensures selectedPreset == old(selectedPreset) && sliderValue == old(sliderValue) && isGenerating == old(isGenerating)
    {
      currentStep := Settings;
    }
  }

  /** With no preset the generated result is never empty; with a chosen listed preset neither. */
  lemma GeneratedResultNonEmpty(selectedPreset: Option<string>)
    requires selectedPreset.Some? ==> IsPresetId(selectedPreset.value)
    ensures ResultImage(selectedPreset) != ""
  {
    if Truthy(selectedPreset) {
      var i :| 0 <= i < |PresetStyles| && PresetStyles[i].id == selectedPreset.value;
      ResultImageOfPreset(i);
    }
  }
}
