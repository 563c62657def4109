/**
 * The sidebar: the highlighted navigation entry, and the D-day widget over the stored move-in
 * date (the D-day itself is DDay.CalculateDDay).
 */
module Sidebar {
  import opened Wrappers
  import opened DDay

  /** The ids of the navigation entries, in display order. */
  const NavIds: seq<string> := ["home", "canvas", "social", "my"]

  class Sidebar {
    var activeNav: string

    predicate Valid()
      reads this
    {
      activeNav in NavIds
    }

    constructor ()
      ensures activeNav == "home" && Valid()
    {
      activeNav := "home";
    }

    /** `activeNav === item.id` for each entry in display order: exactly one entry is
        highlighted, the one with the active id. */
    function Highlighted(): (flags: seq<bool>)
      requires Valid()
      reads this
      ensures |flags| == |NavIds|
      ensures forall k :: 0 <= k < |flags| ==> (flags[k] <==> NavIds[k] == activeNav)
      ensures exists k :: 0 <= k < |flags| && flags[k]
      ensures forall j, k :: 0 <= j < k < |flags| ==> !(flags[j] && flags[k])
    {
      var active := activeNav;
      seq(|NavIds|, k requires 0 <= k < |NavIds| => NavIds[k] == active)
    }

    /** A click on an entry highlights exactly that entry. */
    method Click(id: string)
      requires id in NavIds
      modifies this
      ensures activeNav == id && Valid()
    {
      activeNav := id;
    }
  }

  /** The widget's value: the D-day of the stored date, shown whenever it is non-null. */
  function Widget(moveInDate: Option<int>, today: int): (shown: Option<int>)
    ensures shown.Some? <==> moveInDate.Some?
    ensures shown.Some? ==> (shown.value - 1) * MillisPerDay < moveInDate.value - today <= shown.value * MillisPerDay
  {
    var dDay := CalculateDDay(moveInDate, today);
    if Shown(dDay) then dDay else None
  }
}
