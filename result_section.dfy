/**
 * The AI result section: the steps from the edited photo to the generated interior (idle,
 * analysing, settings, ready, result), the mood and residence-type choices it writes to the user
 * store, the request to the interior service and the handling of its answer, and the two-product
 * selection that starts a vote. The service, the product recommender, the vote and project
 * helpers and the random mood pick are inputs; only what this section does with them is modelled.
 */
module ResultSection {
  import opened Wrappers
  import opened Selection
  import opened Regions
  import opened UserStore
  import ImagePayload

  datatype Step = Idle | Analyzing | Settings | Ready | Result

  datatype MoodOption = MoodOption(id: string, text: string)

  const MoodOptions: seq<MoodOption> := [
    MoodOption("modern", "모던"), MoodOption("minimal", "미니멀"), MoodOption("wood", "우드"),
    MoodOption("vintage", "빈티지"), MoodOption("natural", "내추럴"), MoodOption("industrial", "인더스트리얼")
  ]

  /** The residence-type ids this section stores. */
  const ResidenceTypeIds: seq<string> := ["monthly", "yearly", "own"]

  const MaxSelectedProducts: nat := 2

  const MissingImageError: string := "이미지 정보를 찾을 수 없습니다. 먼저 사진을 업로드하고 영역을 선택해주세요."
  const NoRegionError: string := "변경할 영역을 선택해주세요."
  const GenerationFailed: string := "AI 인테리어 생성에 실패했습니다."
  const CommunicationError: string := "서버와의 통신 중 오류가 발생했습니다."
  const SelectTwoAlert: string := "2개의 상품을 선택해주세요"
  const MissingProjectAlert: string := "프로젝트 정보가 부족합니다"
  const SavedAlert: string := "프로젝트가 저장되었습니다!"
  const VoteAuthor: string := "홈즈 사용자"

  const MockMoods: seq<string> := ["modern", "minimal"]
  const MockRecommendedMoods: seq<string> := ["modern", "minimal", "wood"]
  const MockBeforeUrl: string := "https://images.unsplash.com/photo-1555041469-a586c61ea9bc?w=800&h=600&fit=crop"
  const MockAfterUrl: string := "https://images.unsplash.com/photo-1616486338812-3dadae4b4ace?w=800&h=600&fit=crop"

  predicate IsMoodOptionId(id: string) {
    exists i :: 0 <= i < |MoodOptions| && MoodOptions[i].id == id
  }

  /** A product offered by the recommender (only its id matters here). */
  datatype Product = Product(id: string, name: string)

  /** The arguments handed to createVote. */
  datatype Vote = Vote(author: string, products: seq<Product>, image: string)

  /** The arguments handed to saveProject. */
  datatype SavedProject = SavedProject(title: string, before: string, after: string, moods: seq<string>,
                                       residenceType: string, response: ResponseData)

  /** An untyped field of the service's answer: absent (or falsy), a string, or a truthy value
      that is not a string (processing it throws, and the handler catches that). */
  datatype JsField = Missing | Text(s: string) | NonString

  /** The answer of the interior service, as far as this section reads it. `firstProductImage` is
      `recommended_products?.[0]?.simulated_image_base64`. */
  datatype ResponseData = ResponseData(
    success: bool,
    message: Option<string>,
    resultImageUrl: Option<string>,
    editedImageBase64: JsField,
    finalImageBase64: JsField,
    firstProductImage: JsField)

  /** The call either returns an answer or throws. */
  datatype ApiOutcome = Returned(data: ResponseData) | Threw

  /** What is sent to the service. */
  datatype EditRequest = EditRequest(image: string, imageWidth: real, imageHeight: real, circles: seq<Circle>)

  /** One field offered to processBase64Image: its data URL when the field is a non-empty string,
      nothing when it is falsy or processing it throws. */
  function ProcessField(f: JsField): (url: Option<string>)
    ensures url.Some? ==> ImagePayload.StartsWith(url.value, ImagePayload.DataImagePrefix)
    ensures url.Some? <==> f.Text? && f.s != ""
  {
    match f
    case Text(s) => if s != "" then Some(ImagePayload.ProcessBase64Image(s)) else None
    case _ => None
  }

  /** The before image the answer supplies, if any. */
  function BeforeImage(d: ResponseData): Option<string> {
    ProcessField(d.editedImageBase64)
  }

  /** The after image the answer supplies: the final image, else the first product's simulated
      image, else the result URL, each used only when present. */
  function AfterImage(d: ResponseData): (url: Option<string>)
    ensures url.None? <==>
      ProcessField(d.finalImageBase64).None? && ProcessField(d.firstProductImage).None? && !Truthy(d.resultImageUrl)
  {
    if ProcessField(d.finalImageBase64).Some? then ProcessField(d.finalImageBase64)
    else if ProcessField(d.firstProductImage).Some? then ProcessField(d.firstProductImage)
    else if Truthy(d.resultImageUrl) then d.resultImageUrl
    else None
  }

  /** A present final image wins whatever else the answer holds. */
  lemma FinalImageWins(d: ResponseData, s: string)
    requires d.finalImageBase64 == Text(s) && s != ""
    ensures AfterImage(d) == Some(ImagePayload.ProcessBase64Image(s))
  {
  }

  /** The product image is used only when the final image yields nothing. */
  lemma ProductImageOnlyAsFallback(d: ResponseData)
    requires AfterImage(d).Some? && AfterImage(d) == ProcessField(d.firstProductImage)
    requires AfterImage(d) != ProcessField(d.finalImageBase64)
    ensures ProcessField(d.finalImageBase64).None?
  {
  }

  /** The after image is a data URL, unless it is the server's result URL taken as it is. */
  lemma AfterImageShape(d: ResponseData)
    requires AfterImage(d).Some?
    ensures ImagePayload.StartsWith(AfterImage(d).value, ImagePayload.DataImagePrefix) ||
            AfterImage(d) == d.resultImageUrl
  {
  }

  /** Keep the old value unless a new one is supplied. */
  function Override(previous: Option<string>, supplied: Option<string>): Option<string> {
    if supplied.Some? then supplied else previous
  }

  /** The guards of handleGenerateAi: the error they report, None when a request can be sent. */
  function GuardError(c: CanvasData): (e: Option<string>)
    ensures e.None? <==> Truthy(c.editedImage) && c.canvasSize.Some? && |c.circles| > 0
    ensures e.Some? ==> e.value == MissingImageError || e.value == NoRegionError
  {
    if !Truthy(c.editedImage) || c.canvasSize.None? then Some(MissingImageError)
    else if |c.circles| == 0 then Some(NoRegionError)
    else None
  }

  /** `MOOD_OPTIONS.find((m) => m.id === id)?.label` */
  function MoodLabel(id: string): (text: Option<string>)
    ensures text.Some? <==> IsMoodOptionId(id)
    ensures text.Some? ==> text.value != ""
  {
    if MoodOptions[0].id == id then Some(MoodOptions[0].text)
    else if MoodOptions[1].id == id then Some(MoodOptions[1].text)
    else if MoodOptions[2].id == id then Some(MoodOptions[2].text)
    else if MoodOptions[3].id == id then Some(MoodOptions[3].text)
    else if MoodOptions[4].id == id then Some(MoodOptions[4].text)
    else if MoodOptions[5].id == id then Some(MoodOptions[5].text)
    else None
  }

  /** The labels of the known mood ids, in order; `.filter(Boolean)` drops the unknown ones. */
  function MoodLabels(ids: seq<string>): (texts: seq<string>)
    ensures |texts| <= |ids|
    ensures (forall i :: 0 <= i < |ids| ==> IsMoodOptionId(ids[i])) ==> |texts| == |ids|
    ensures texts == [] <==> forall i :: 0 <= i < |ids| ==> !IsMoodOptionId(ids[i])
    ensures forall i :: 0 <= i < |texts| ==> texts[i] != ""
  {
    if ids == [] then []
    else
      var rest := MoodLabels(ids[1..]);
      assert forall i :: 0 <= i < |ids| - 1 ==> ids[1..][i] == ids[i + 1];
      match MoodLabel(ids[0])
      case Some(l) => [l] + rest
      case None => rest
  }

  /** One id on its own: its label when it is a mood option, nothing otherwise. */
  lemma MoodLabelsOfOne(id: string)
    ensures MoodLabels([id]) == (if MoodLabel(id).Some? then [MoodLabel(id).value] else [])
  {
    assert [id][1..] == [];
  }

  /** The labels of a concatenation are the labels of each part, in order. */
  lemma {:induction false} MoodLabelsAppend(a: seq<string>, b: seq<string>)
    ensures MoodLabels(a + b) == MoodLabels(a) + MoodLabels(b)
  {
    if a != [] {
      var ab := a + b;
      assert ab[0] == a[0] && ab[1..] == a[1..] + b;
      MoodLabelsAppend(a[1..], b);
      MoodLabelsUnfold(ab);
      MoodLabelsUnfold(a);
      var h := MoodLabels([a[0]]);
      calc {
        MoodLabels(ab);
        h + MoodLabels(a[1..] + b);
        h + (MoodLabels(a[1..]) + MoodLabels(b));
        { AppendAssociative(h, MoodLabels(a[1..]), MoodLabels(b)); }
        (h + MoodLabels(a[1..])) + MoodLabels(b);
        MoodLabels(a) + MoodLabels(b);
      }
    } else {
      assert a + b == b;
    }
  }

  lemma AppendAssociative<T>(x: seq<T>, y: seq<T>, z: seq<T>)
    ensures x + (y + z) == (x + y) + z
  {
  }

  /** The labels of a list are those of its head followed by those of its tail. */
  lemma MoodLabelsUnfold(ids: seq<string>)
    requires ids != []
    ensures MoodLabels(ids) == MoodLabels([ids[0]]) + MoodLabels(ids[1..])
  {
    MoodLabelsOfOne(ids[0]);
  }

  /** `Array.prototype.join` */
  function JoinWith(parts: seq<string>, sep: string): (r: string)
    ensures parts == [] ==> r == ""
    ensures parts != [] ==> |r| >= |parts[0]|
  {
    if parts == [] then "" else if |parts| == 1 then parts[0] else parts[0] + sep + JoinWith(parts[1..], sep)
  }

  /** Joining two non-empty lists puts one separator between their joins. */
  lemma {:induction false} JoinWithAppend(a: seq<string>, b: seq<string>, sep: string)
    requires a != [] && b != []
    ensures JoinWith(a + b, sep) == JoinWith(a, sep) + sep + JoinWith(b, sep)
  {
    if |a| == 1 {
      assert (a + b)[1..] == b;
    } else {
      assert (a + b)[1..] == a[1..] + b;
      JoinWithAppend(a[1..], b, sep);
    }
  }

  const TitleSuffix: string := " 인테리어"

  /** The project title: the mood labels joined by " & ", then " 인테리어". */
  function ProjectTitle(moods: seq<string>): (title: string)
    ensures |title| >= |TitleSuffix| && title[|title| - |TitleSuffix|..] == TitleSuffix
    ensures title[..|title| - |TitleSuffix|] == JoinWith(MoodLabels(moods), " & ")
  {
    JoinWith(MoodLabels(moods), " & ") + TitleSuffix
  }

  /** The title is the bare suffix exactly when no chosen id is a mood option. */
  lemma BareTitle(moods: seq<string>)
    ensures ProjectTitle(moods) == TitleSuffix <==> forall i :: 0 <= i < |moods| ==> !IsMoodOptionId(moods[i])
  {
    var labels := MoodLabels(moods);
    if labels != [] {
      assert |JoinWith(labels, " & ")| >= |labels[0]| > 0;
    }
  }

  /** Moods chosen in two groups, each naming some option, give the first group's labels, " & ",
      then the second group's title. */
  lemma ProjectTitleAppend(a: seq<string>, b: seq<string>)
    requires exists i :: 0 <= i < |a| && IsMoodOptionId(a[i])
    requires exists i :: 0 <= i < |b| && IsMoodOptionId(b[i])
    ensures ProjectTitle(a + b) == JoinWith(MoodLabels(a), " & ") + " & " + ProjectTitle(b)
  {
    var la, lb := MoodLabels(a), MoodLabels(b);
    assert la != [] && lb != [];
    MoodLabelsAppend(a, b);
    JoinWithAppend(la, lb, " & ");
    var head := JoinWith(la, " & ") + " & ";
    calc {
      ProjectTitle(a + b);
      JoinWith(la + lb, " & ") + TitleSuffix;
      (head + JoinWith(lb, " & ")) + TitleSuffix;
      { AppendAssociative(head, JoinWith(lb, " & "), TitleSuffix); }
      head + (JoinWith(lb, " & ") + TitleSuffix);
      head + ProjectTitle(b);
    }
  }

  lemma ProjectTitleExample()
    ensures ProjectTitle(["modern", "minimal"]) == "모던 & 미니멀 인테리어"
  {
    assert MoodLabels(["minimal"]) == ["미니멀"];
    assert MoodLabels(["modern", "minimal"]) == ["모던", "미니멀"];
  }

  /** `recommendedProducts.filter((p) => selectedProductIds.includes(p.id))`: the selected
      products in recommendation order (which makes the first one option A of a vote), each as
      often as it is recommended. */
  function SelectedProducts(products: seq<Product>, ids: seq<string>): (r: seq<Product>)
    ensures |r| <= |products|
    ensures IsSubsequence(r, products)
    ensures forall p :: multiset(r)[p] == (if p.id in ids then multiset(products)[p] else 0)
    ensures forall p :: p in r <==> p in products && p.id in ids
  {
    if products == [] then []
    else
      var rest := SelectedProducts(products[1..], ids);
      if products[0].id in ids then
        SelectionKeepsHead(products, ids, rest);
        [products[0]] + rest
      else
        SelectionDropsHead(products, ids, rest);
        rest
  }

  /** The step of SelectedProducts that keeps the head. */
  lemma SelectionKeepsHead(products: seq<Product>, ids: seq<string>, rest: seq<Product>)
    requires products != [] && products[0].id in ids && IsSubsequence(rest, products[1..])
    requires forall p :: multiset(rest)[p] == (if p.id in ids then multiset(products[1..])[p] else 0)
    ensures IsSubsequence([products[0]] + rest, products)
    ensures forall p :: multiset([products[0]] + rest)[p] == (if p.id in ids then multiset(products)[p] else 0)
  {
    assert ([products[0]] + rest)[1..] == rest;
    assert products == [products[0]] + products[1..];
  }

  /** The step of SelectedProducts that drops the head. */
  lemma SelectionDropsHead(products: seq<Product>, ids: seq<string>, rest: seq<Product>)
    requires products != [] && products[0].id !in ids && IsSubsequence(rest, products[1..])
    requires forall p :: multiset(rest)[p] == (if p.id in ids then multiset(products[1..])[p] else 0)
    ensures IsSubsequence(rest, products)
    ensures forall p :: multiset(rest)[p] == (if p.id in ids then multiset(products)[p] else 0)
  {
    assert products == [products[0]] + products[1..];
  }

  /** The component's own state (the store holds the rest). */
  datatype View = View(
    step: Step,
    sliderPosition: int,
    isGenerating: bool,
    error: Option<string>,
    recommendedMoods: seq<string>,
    recommendedProducts: seq<Product>,
    selectedProductIds: seq<string>,
    currentVote: Option<Vote>,
    showVoteModal: bool,
    apiResponse: Option<ResponseData>,
    projectSaved: bool)

  const InitialView := View(Idle, 50, false, None, [], [], [], None, false, None, false)

  class ResultSection {
    const store: Store
    var step: Step
    var sliderPosition: int
    var isGenerating: bool
    var error: Option<string>
    var recommendedMoods: seq<string>
    var recommendedProducts: seq<Product>
    var selectedProductIds: seq<string>
    var currentVote: Option<Vote>
    var showVoteModal: bool
    var apiResponse: Option<ResponseData>
    var projectSaved: bool

    function State(): View
      reads this
    {
      View(step, sliderPosition, isGenerating, error, recommendedMoods, recommendedProducts,
           selectedProductIds, currentVote, showVoteModal, apiResponse, projectSaved)
    }

    /** The product selection stays duplicate-free and at most two long. */
    predicate Valid()
      reads this
    {
      Distinct(selectedProductIds) && |selectedProductIds| <= MaxSelectedProducts
    }

    constructor (store: Store)
      ensures this.store == store && State() == InitialView && Valid()
    {
      this.store := store;
      step, sliderPosition, isGenerating, error := Idle, 50, false, None;
      recommendedMoods, recommendedProducts, selectedProductIds := [], [], [];
      currentVote, showVoteModal, apiResponse, projectSaved := None, false, None, false;
    }

    /** The effect that starts the analysis once an edited image with regions exists. */
    method StartAnalysis()
      modifies this
      ensures var c := store.Canvas();
        if Truthy(c.editedImage) && |c.circles| > 0 && old(step) == Idle
        then State() == old(State()).(step := Analyzing)
        else State() == old(State())
    {
      if Truthy(store.editedImage) && |store.circles| > 0 && step == Idle {
        step := Analyzing;
      }
    }

    /** The analysis timer: three moods drawn at random (an input here) are recommended and
        become the chosen moods. */
    method FinishAnalysis(recommended: seq<string>)
      requires |recommended| == 3 && Distinct(recommended)
      requires forall i :: 0 <= i < |recommended| ==> IsMoodOptionId(recommended[i])
      modifies this, store
      ensures State() == old(State()).(recommendedMoods := recommended, step := Settings)
      ensures store.Data() == old(store.Data()).(moods := recommended)
      ensures store.Canvas() == old(store.Canvas())
    {
      recommendedMoods := recommended;
      store.SetPersona(EmptyPatch.(moods := Some(recommended)));
      step := Settings;
    }

    /** handleMoodToggle: the chosen moods, unbounded, with this one added or removed. */
    method HandleMoodToggle(moodId: string)
      modifies store
      ensures store.Data() == old(store.Data()).(moods := Toggle(old(store.moods), moodId))
      ensures store.Canvas() == old(store.Canvas())
    {
      var newMoods := Toggle(store.moods, moodId);
      store.SetPersona(EmptyPatch.(moods := Some(newMoods)));
    }

    method SelectResidenceType(k: nat)
      requires k < |ResidenceTypeIds|
      modifies store
      ensures store.Data() == old(store.Data()).(residenceType := ResidenceTypeIds[k])
      ensures store.Canvas() == old(store.Canvas())
    {
      store.SetPersona(EmptyPatch.(residenceType := Some(ResidenceTypeIds[k])));
    }

    /** handleProceedToGenerate: ready only with some mood and a residence type. */
    method HandleProceedToGenerate()
      modifies this
      ensures if |store.moods| > 0 && store.residenceType != ""
              then State() == old(State()).(step := Ready)
              else State() == old(State())
    {
      if |store.moods| > 0 && store.residenceType != "" {
        step := Ready;
      }
    }

    /** "Set up again": back to the settings. */
    method BackToSettings()
      modifies this
      ensures State() == old(State()).(step := Settings)
    {
      step := Settings;
    }

    method SetSliderPosition(position: int)
      requires 0 <= position <= 100
      modifies this
      ensures State() == old(State()).(sliderPosition := position)
    {
      sliderPosition := position;
    }

    /** handleViewProducts and handleRefreshProducts: a new recommendation (an input) replaces
        the list and the selection is cleared. */
    method LoadProducts(products: seq<Product>)
      requires Valid()
      modifies this
      ensures Valid()
      ensures State() == old(State()).(recommendedProducts := products, selectedProductIds := [])
    {
      recommendedProducts := products;
      selectedProductIds := [];
    }

    /** handleProductToggle: a selected id is removed; another is added only while fewer than
        two are selected. */
    method HandleProductToggle(productId: string)
      requires Valid()
      modifies this
      ensures Valid()
      ensures State() == old(State()).(selectedProductIds := CappedToggle(old(selectedProductIds), productId, MaxSelectedProducts))
    {
      selectedProductIds := CappedToggle(selectedProductIds, productId, MaxSelectedProducts);
    }

    /** handleShareVote (its button is enabled only with two ids selected): a vote over exactly
        two selected products opens the vote dialog; otherwise the alert is returned. */
    method HandleShareVote() returns (alert: Option<string>)
      requires Valid() && |selectedProductIds| == 2
      modifies this
      ensures Valid()
      ensures var chosen := SelectedProducts(old(recommendedProducts), old(selectedProductIds));
        |chosen| != 2 ==> alert == Some(SelectTwoAlert) && State() == old(State())
      ensures var chosen := SelectedProducts(old(recommendedProducts), old(selectedProductIds));
        |chosen| == 2 ==>
          alert == None &&
          State() == old(State()).(currentVote := Some(Vote(VoteAuthor, chosen, store.aiResultImg.GetOr(""))),
                                   showVoteModal := true)
    {
      var selectedProducts := SelectedProducts(recommendedProducts, selectedProductIds);
      if |selectedProducts| != 2 {
        return Some(SelectTwoAlert);
      }
      currentVote := Some(Vote(VoteAuthor, selectedProducts, store.aiResultImg.GetOr("")));
      showVoteModal := true;
      alert := None;
    }

    method CloseVoteModal()
      modifies this
      ensures State() == old(State()).(showVoteModal := false)
    {
      showVoteModal := false;
    }

    /** handleSaveProject (its button is disabled once saved): nothing is saved without both
        images and a service answer. Returns what was saved and the alert shown. */
    method HandleSaveProject() returns (saved: Option<SavedProject>, alert: string)
      requires !projectSaved
      modifies this
      ensures var d := store.Data();
        if !Truthy(d.uploadedRoomImg) || !Truthy(d.aiResultImg) || apiResponse.None?
        then saved == None && alert == MissingProjectAlert && State() == old(State())
        else saved == Some(SavedProject(ProjectTitle(d.moods), d.uploadedRoomImg.value, d.aiResultImg.value,
                                        d.moods, d.residenceType, apiResponse.value)) &&
             alert == SavedAlert && State() == old(State()).(projectSaved := true)
    {
      if !Truthy(store.uploadedRoomImg) || !Truthy(store.aiResultImg) || apiResponse.None? {
        return None, MissingProjectAlert;
      }
      var d := store.Data();
      saved := Some(SavedProject(ProjectTitle(d.moods), d.uploadedRoomImg.value, d.aiResultImg.value,
                                 d.moods, d.residenceType, apiResponse.value));
      projectSaved := true;
      alert := SavedAlert;
    }

    /** handleDevMockResult: jump straight to a result with fixed images and moods. */
    method HandleDevMockResult()
      modifies this, store
      ensures State() == old(State()).(recommendedMoods := MockRecommendedMoods, step := Result)
      ensures store.Data() == old(store.Data()).(
        moods := MockMoods, residenceType := "monthly",
        uploadedRoomImg := Some(MockBeforeUrl), aiResultImg := Some(MockAfterUrl))
      ensures store.Canvas() == old(store.Canvas())
    {
      store.SetPersona(EmptyPatch.(moods := Some(MockMoods), residenceType := Some("monthly")));
      recommendedMoods := MockRecommendedMoods;
      store.SetUploadedRoomImg(Some(MockBeforeUrl));
      store.SetAiResult(MockAfterUrl);
      step := Result;
    }

    /** The three ordered checks of the "after" image, threading the `afterImageSet` flag: the
        first present source is stored, and with none the result image is left as it was. */
    method StoreAfterImage(result: ResponseData)
      modifies store
      ensures store.Data() == old(store.Data()).(aiResultImg := Override(old(store.aiResultImg), AfterImage(result)))
      ensures store.Canvas() == old(store.Canvas())
    {
      var afterImageSet := false;
      var fromFinal := ProcessField(result.finalImageBase64);
      if fromFinal.Some? {
        store.SetAiResult(fromFinal.value);
        afterImageSet := true;
      }
      if !afterImageSet {
        var fromProduct := ProcessField(result.firstProductImage);
        if fromProduct.Some? {
          store.SetAiResult(fromProduct.value);
          afterImageSet := true;
        }
      }
      if !afterImageSet && Truthy(result.resultImageUrl) {
        store.SetAiResult(result.resultImageUrl.value);
        afterImageSet := true;
      }
    }

    /** handleGenerateAi (its buttons are disabled while generating). The service's behaviour is
        the input `outcome`. Returns the request sent, None when a guard stopped it. */
    method HandleGenerateAi(outcome: ApiOutcome) returns (request: Option<EditRequest>)
      requires !isGenerating
      modifies this, store
      ensures !isGenerating
      ensures store.Canvas() == old(store.Canvas())
      ensures request.None? <==> GuardError(old(store.Canvas())).Some?
      ensures request.None? ==>
        State() == old(State()).(error := GuardError(old(store.Canvas()))) && store.Data() == old(store.Data())
      ensures request.Some? ==>
        var size := old(store.canvasSize).value;
        request.value == EditRequest(old(store.editedImage).value, size.width, size.height,
                                     NormalizeCircles(old(store.circles), size.width, size.height))
      ensures request.Some? && outcome.Threw? ==>
        State() == old(State()).(error := Some(CommunicationError)) && store.Data() == old(store.Data())
      ensures request.Some? && outcome.Returned? && !outcome.data.success ==>
        var m := outcome.data.message;
        State() == old(State()).(error := Some(if Truthy(m) then m.value else GenerationFailed)) &&
        store.Data() == old(store.Data())
      ensures request.Some? && outcome.Returned? && outcome.data.success ==>
        var d := outcome.data;
        State() == old(State()).(error := None, apiResponse := Some(d), step := Result) &&
        store.Data() == old(store.Data()).(
          uploadedRoomImg := Override(old(store.uploadedRoomImg), BeforeImage(d)),
          aiResultImg := Override(old(store.aiResultImg), AfterImage(d)))
    {
      if !Truthy(store.editedImage) || store.canvasSize.None? {
        error := Some(MissingImageError);
        return None;
      }
      if |store.circles| == 0 {
        error := Some(NoRegionError);
        return None;
      }
      isGenerating := true;
      error := None;
      var size := store.canvasSize.value;
      var normalizedCircles := NormalizeCircles(store.circles, size.width, size.height);
      request := Some(EditRequest(store.editedImage.value, size.width, size.height, normalizedCircles));
      match outcome {
        case Threw =>
          error := Some(CommunicationError);
        case Returned(result) =>
          if result.success {
            apiResponse := Some(result);
            var before := ProcessField(result.editedImageBase64);
            if before.Some? {
              store.SetUploadedRoomImg(before);
            }
            StoreAfterImage(result);
            step := Result;
          } else {
            error := Some(if Truthy(result.message) then result.message.value else GenerationFailed);
          }
      }
      isGenerating := false;
    }
  }
}
