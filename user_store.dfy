/**
 * The persisted user store (useUserStore): onboarding persona, AI canvas images, and the three
 * canvas fields that the upload and result sections read and write but the store does not declare.
 * Dates are millisecond timestamps; images are data URLs or links.
 */
module UserStore {
  import opened Wrappers
  import opened Regions

  /** The data fields the store declares (the actions are the methods of Store). */
  datatype UserData = UserData(
    nickname: string,
    moods: seq<string>,
    residenceType: string,
    budget: int,
    moveInDate: Option<int>,
    uploadedRoomImg: Option<string>,
    aiResultImg: Option<string>)

  /** Fields used by the upload and result sections that the store's declaration lacks. */
  datatype CanvasData = CanvasData(circles: seq<Circle>, editedImage: Option<string>, canvasSize: Option<Size>)

  const Initial := UserData("", [], "", 0, None, None, None)
  const NoCanvas := CanvasData([], None, None)

  /** A `Partial<UserState>` argument of setPersona: None for a field the caller leaves out. */
  datatype PersonaPatch = PersonaPatch(
    nickname: Option<string>,
    moods: Option<seq<string>>,
    residenceType: Option<string>,
    budget: Option<int>,
    moveInDate: Option<Option<int>>,
    uploadedRoomImg: Option<Option<string>>,
    aiResultImg: Option<Option<string>>)

  const EmptyPatch := PersonaPatch(None, None, None, None, None, None, None)

  /** `{ ...state, ...data }`. */
  function Merge(d: UserData, p: PersonaPatch): UserData {
    UserData(
      p.nickname.GetOr(d.nickname),
      p.moods.GetOr(d.moods),
      p.residenceType.GetOr(d.residenceType),
      p.budget.GetOr(d.budget),
      p.moveInDate.GetOr(d.moveInDate),
      p.uploadedRoomImg.GetOr(d.uploadedRoomImg),
      p.aiResultImg.GetOr(d.aiResultImg))
  }

  /** Spreading p and then q is spreading their combination, q winning on shared fields. */
  function Combine(p: PersonaPatch, q: PersonaPatch): PersonaPatch {
    PersonaPatch(
      if q.nickname.Some? then q.nickname else p.nickname,
      if q.moods.Some? then q.moods else p.moods,
      if q.residenceType.Some? then q.residenceType else p.residenceType,
      if q.budget.Some? then q.budget else p.budget,
      if q.moveInDate.Some? then q.moveInDate else p.moveInDate,
      if q.uploadedRoomImg.Some? then q.uploadedRoomImg else p.uploadedRoomImg,
      if q.aiResultImg.Some? then q.aiResultImg else p.aiResultImg)
  }

  /** A supplied field is overwritten, a left-out field keeps its value. */
  lemma MergeOverwritesExactlySupplied(d: UserData, p: PersonaPatch)
    ensures var m := Merge(d, p);
      (m.nickname == if p.nickname.Some? then p.nickname.value else d.nickname) &&
      (m.moods == if p.moods.Some? then p.moods.value else d.moods) &&
      (m.residenceType == if p.residenceType.Some? then p.residenceType.value else d.residenceType) &&
      (m.budget == if p.budget.Some? then p.budget.value else d.budget) &&
      (m.moveInDate == if p.moveInDate.Some? then p.moveInDate.value else d.moveInDate) &&
      (m.uploadedRoomImg == if p.uploadedRoomImg.Some? then p.uploadedRoomImg.value else d.uploadedRoomImg) &&
      (m.aiResultImg == if p.aiResultImg.Some? then p.aiResultImg.value else d.aiResultImg)
  {
  }

  lemma MergeLaws(d: UserData, p: PersonaPatch, q: PersonaPatch)
    ensures Merge(d, EmptyPatch) == d
    ensures Merge(Merge(d, p), p) == Merge(d, p)
    ensures Merge(Merge(d, p), q) == Merge(d, Combine(p, q))
  {
  }

  /** What `partialize` keeps for local storage. */
  datatype PersistedData = PersistedData(
    nickname: string,
    moods: seq<string>,
    residenceType: string,
    budget: int,
    moveInDate: Option<int>)

  function Partialize(d: UserData): PersistedData {
    PersistedData(d.nickname, d.moods, d.residenceType, d.budget, d.moveInDate)
  }

  /** Two states persist alike exactly when they agree on the five persisted fields: the images
      never reach storage. */
  lemma PartializeExactlyFiveFields(a: UserData, b: UserData)
    ensures Partialize(a) == Partialize(b) <==>
      a.nickname == b.nickname && a.moods == b.moods && a.residenceType == b.residenceType &&
      a.budget == b.budget && a.moveInDate == b.moveInDate
    ensures Partialize(a.(uploadedRoomImg := b.uploadedRoomImg, aiResultImg := b.aiResultImg)) == Partialize(a)
  {
  }

  class Store {
    var nickname: string
    var moods: seq<string>
    var residenceType: string
    var budget: int
    var moveInDate: Option<int>
    var uploadedRoomImg: Option<string>
    var aiResultImg: Option<string>
    var circles: seq<Circle>
    var editedImage: Option<string>
    var canvasSize: Option<Size>

    function Data(): UserData
      reads this
    {
      UserData(nickname, moods, residenceType, budget, moveInDate, uploadedRoomImg, aiResultImg)
    }

    function Canvas(): CanvasData
      reads this
    {
      CanvasData(circles, editedImage, canvasSize)
    }

    /** The store as created: `...initialState`, and none of the undeclared canvas fields. */
    constructor ()
      ensures Data() == Initial && Canvas() == NoCanvas
    {
      nickname, moods, residenceType, budget, moveInDate := "", [], "", 0, None;
      uploadedRoomImg, aiResultImg := None, None;
      circles, editedImage, canvasSize := [], None, None;
    }

    /** The persisted projection of the current state. */
    function Persisted(): (p: PersistedData)
      reads this
      ensures p == Partialize(Data())
    {
      PersistedData(nickname, moods, residenceType, budget, moveInDate)
    }

    method SetPersona(p: PersonaPatch)
      modifies this
      ensures Data() == Merge(old(Data()), p) && Canvas() == old(Canvas())
    {
      var m := Merge(Data(), p);
      nickname, moods, residenceType, budget := m.nickname, m.moods, m.residenceType, m.budget;
      moveInDate, uploadedRoomImg, aiResultImg := m.moveInDate, m.uploadedRoomImg, m.aiResultImg;
    }

    method SetMoods(m: seq<string>)
      modifies this
      ensures Data() == old(Data()).(moods := m) && Canvas() == old(Canvas())
    {
      moods := m;
    }

    method SetResidenceType(t: string)
      modifies this
      ensures Data() == old(Data()).(residenceType := t) && Canvas() == old(Canvas())
    {
      residenceType := t;
    }

    method SetBudget(b: int)
      modifies this
      ensures Data() == old(Data()).(budget := b) && Canvas() == old(Canvas())
    {
      budget := b;
    }

    method SetMoveInDate(date: Option<int>)
      modifies this
      ensures Data() == old(Data()).(moveInDate := date) && Canvas() == old(Canvas())
    {
      moveInDate := date;
    }

    method SetUploadedRoomImg(img: Option<string>)
      modifies this
      ensures Data() == old(Data()).(uploadedRoomImg := img) && Canvas() == old(Canvas())
    {
      uploadedRoomImg := img;
    }

    method SetAiResult(img: string)
      modifies this
      ensures Data() == old(Data()).(aiResultImg := Some(img)) && Canvas() == old(Canvas())
    {
      aiResultImg := Some(img);
    }

    /** `set(initialState)`: every declared field back to its initial value, whatever came before. */
    method ResetState()
      modifies this
      ensures Data() == Initial && Canvas() == old(Canvas())
    {
      nickname, moods, residenceType, budget, moveInDate := "", [], "", 0, None;
      uploadedRoomImg, aiResultImg := None, None;
    }

    /** The three setters the sections call for the undeclared fields, taken as plain field setters. */
    method SetCircles(cs: seq<Circle>)
      modifies this
      ensures Canvas() == old(Canvas()).(circles := cs) && Data() == old(Data())
    {
      circles := cs;
    }

    method SetEditedImage(img: Option<string>)
      modifies this
      ensures Canvas() == old(Canvas()).(editedImage := img) && Data() == old(Data())
    {
      editedImage := img;
    }

    method SetCanvasSize(size: Option<Size>)
      modifies this
      ensures Canvas() == old(Canvas()).(canvasSize := size) && Data() == old(Data())
    {
      canvasSize := size;
    }
  }
}
