/**
 * The "my room" page: the moving checklist with its completed counter, and the profile editor
 * that writes the nickname, budget and move-in date back to the user store.
 */
module MyPage {
  import opened Wrappers
  import opened UserStore

  datatype ChecklistItem = ChecklistItem(id: int, text: string, completed: bool)

  /** The checklist the page starts with: two of five items done. */
  const InitialChecklist: seq<ChecklistItem> := [
    ChecklistItem(1, "전입신고 완료하기", true),
    ChecklistItem(2, "인터넷/TV 설치 예약", true),
    ChecklistItem(3, "가스/전기 명의 변경", false),
    ChecklistItem(4, "관리비 납부 방법 확인", false),
    ChecklistItem(5, "비상 열쇠 보관처 지정", false)
  ]

  /** The residence types the page offers. */
  const ResidenceTypeIds: seq<string> := ["월세", "전세", "자가"]

  /** toggleChecklistItem's map: flip `completed` on the items carrying the id. */
  function ToggleChecklist(items: seq<ChecklistItem>, id: int): (r: seq<ChecklistItem>)
    ensures |r| == |items|
    ensures forall i :: 0 <= i < |r| ==>
      r[i].id == items[i].id && r[i].text == items[i].text &&
      r[i].completed == (if items[i].id == id then !items[i].completed else items[i].completed)
  {
    if items == [] then []
    else
      var head := if items[0].id == id then items[0].(completed := !items[0].completed) else items[0];
      [head] + ToggleChecklist(items[1..], id)
  }

  /** Toggling the same id twice restores the checklist. */
  lemma ToggleChecklistTwice(items: seq<ChecklistItem>, id: int)
    ensures ToggleChecklist(ToggleChecklist(items, id), id) == items
  {
    var r := ToggleChecklist(ToggleChecklist(items, id), id);
    assert forall i :: 0 <= i < |r| ==> r[i] == items[i];
  }

  /** An id no item carries changes nothing. */
  lemma ToggleAbsentId(items: seq<ChecklistItem>, id: int)
    requires forall i :: 0 <= i < |items| ==> items[i].id != id
    ensures ToggleChecklist(items, id) == items
  {
    var r := ToggleChecklist(items, id);
    assert forall i :: 0 <= i < |r| ==> r[i] == items[i];
  }

  /** `checklist.filter((c) => c.completed).length` */
  function CompletedCount(items: seq<ChecklistItem>): (n: nat)
    ensures n <= |items|
    ensures n == 0 <==> forall i :: 0 <= i < |items| ==> !items[i].completed
  {
    if items == [] then 0
    else (if items[0].completed then 1 else 0) + CompletedCount(items[1..])
  }

  lemma InitialCount()
    ensures CompletedCount(InitialChecklist) == 2
  {
  }

  /** With ids unique, toggling the item at index k moves the counter by exactly one. */
  lemma {:induction false} ToggleMovesCount(items: seq<ChecklistItem>, k: nat)
    requires k < |items|
    requires forall i :: 0 <= i < |items| && i != k ==> items[i].id != items[k].id
    ensures CompletedCount(ToggleChecklist(items, items[k].id)) ==
      CompletedCount(items) + (if items[k].completed then -1 else 1)
  {
    var id := items[k].id;
    var r := ToggleChecklist(items, id);
    assert r[1..] == ToggleChecklist(items[1..], id);
    if k == 0 {
      ToggleAbsentId(items[1..], id);
    } else {
      ToggleMovesCount(items[1..], k - 1);
    }
  }

  class MyPage {
    const store: Store
    var isEditing: bool
    var tempNickname: string
    /** The slider's value (the page keeps it as a one-element array). */
    var tempBudget: int
    var tempMoveInDate: string
    var checklist: seq<ChecklistItem>

    /** `formattedMoveInDate` is the stored date as "yyyy-MM-dd", formatted outside the model. */
    constructor (store: Store, formattedMoveInDate: string)
      ensures this.store == store
      ensures !isEditing && checklist == InitialChecklist
      ensures tempNickname == store.nickname
      ensures tempBudget == if store.budget == 0 then 100 else store.budget
      ensures tempMoveInDate == if store.moveInDate.Some? then formattedMoveInDate else ""
    {
      this.store := store;
      isEditing := false;
      tempNickname := store.nickname;
      tempBudget := if store.budget == 0 then 100 else store.budget;
      tempMoveInDate := if store.moveInDate.Some? then formattedMoveInDate else "";
      checklist := InitialChecklist;
    }

    /** The edit button flips between viewing and editing. */
    method ToggleEditing()
      modifies this
      ensures isEditing == !old(isEditing)
      ensures tempNickname == old(tempNickname) && tempBudget == old(tempBudget)
      ensures tempMoveInDate == old(tempMoveInDate) && checklist == old(checklist)
    {
      isEditing := !isEditing;
    }

    method EditNickname(value: string)
      modifies this
      ensures tempNickname == value && isEditing == old(isEditing)
      ensures tempBudget == old(tempBudget) && tempMoveInDate == old(tempMoveInDate) && checklist == old(checklist)
    {
      tempNickname := value;
    }

    method EditMoveInDate(value: string)
      modifies this
      ensures tempMoveInDate == value && isEditing == old(isEditing)
      ensures tempNickname == old(tempNickname) && tempBudget == old(tempBudget) && checklist == old(checklist)
    {
      tempMoveInDate := value;
    }

    /** The slider runs from 50 to 500 in steps of 10. */
    method SlideBudget(value: int)
      requires 50 <= value <= 500 && value % 10 == 0
      modifies this
      ensures tempBudget == value && isEditing == old(isEditing)
      ensures tempNickname == old(tempNickname) && tempMoveInDate == old(tempMoveInDate) && checklist == old(checklist)
    {
      tempBudget := value;
    }

    /** handleSave: the nickname and the budget are written, the move-in date only when one was
        entered (`parsedDate` is `new Date(tempMoveInDate)`), and editing ends. */
    method HandleSave(parsedDate: int)
      modifies this, store
      ensures store.Data() == old(store.Data()).(
        nickname := old(tempNickname), budget := old(tempBudget),
        moveInDate := if old(tempMoveInDate) != "" then Some(parsedDate) else old(store.moveInDate))
      ensures store.Canvas() == old(store.Canvas())
      ensures !isEditing
      ensures tempNickname == old(tempNickname) && tempBudget == old(tempBudget)
      ensures tempMoveInDate == old(tempMoveInDate) && checklist == old(checklist)
    {
      store.SetPersona(EmptyPatch.(nickname := Some(tempNickname)));
      store.SetBudget(tempBudget);
      if tempMoveInDate != "" {
        store.SetMoveInDate(Some(parsedDate));
      }
      isEditing := false;
    }

    method ToggleChecklistItem(id: int)
      modifies this
      ensures checklist == ToggleChecklist(old(checklist), id)
      ensures isEditing == old(isEditing) && tempNickname == old(tempNickname)
      ensures tempBudget == old(tempBudget) && tempMoveInDate == old(tempMoveInDate)
    {
      checklist := ToggleChecklist(checklist, id);
    }

    /** A residence-type button stores its own id. */
    method SelectResidenceType(t: string)
      requires t in ResidenceTypeIds
      modifies store
      ensures store.Data() == old(store.Data()).(residenceType := t)
      ensures store.Canvas() == old(store.Canvas())
    {
      store.SetResidenceType(t);
    }
  }
}
