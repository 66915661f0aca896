/**
 * The list component's state and the three steps that change it: the
 * render-time anniversary pass, the effect that reshapes the raw items, and
 * the delete handler.
 */
module List {
  import opened Outcomes
  import opened Records
  import Anniversary
  import Shaping
  import Splice

  class ListComponent {
    /** The display records (`data` state). */
    var data: array<Item>
    /** Whether the last raw item list was empty (`hasNoItems` state). */
    var hasNoItems: bool
    /** The value the last render bound to `birthdays`. */
    var birthdays: Option<map<int, int>>

    constructor ()
      ensures fresh(data) && data.Length == 0 && !hasNoItems && birthdays == None
    {
      data := new Item[0];
      hasNoItems := false;
      birthdays := None;
    }

    /**
     * The render-time pass: the anniversary day counts are written into the
     * current display records in place, and `birthdays` is bound to the
     * pass's value, which is `undefined` because the pass returns nothing.
     */
    method Render(now: int, anniversaryTime: string -> int)
      modifies this, data
      ensures data == old(data) && hasNoItems == old(hasNoItems)
      ensures forall i :: 0 <= i < data.Length ==>
        data[i] == Anniversary.WithAnniversary(old(data[i]), now, anniversaryTime)
      ensures birthdays == None
    {
      Anniversary.CalculateAnniversaryDays(now, anniversaryTime, data);
      birthdays := None;
    }

    /**
     * The effect run when the raw items change: `hasNoItems` is set first;
     * then the items are shaped, and `data` is replaced by a fresh array of
     * the records only if no item threw. A throw leaves `data` as it was
     * and is returned.
     */
    method OnItemsChanged(items: seq<Item>, today: int) returns (thrown: Option<TypeError>)
      modifies this
      ensures hasNoItems <==> |items| == 0
      ensures birthdays == old(birthdays)
      ensures match Shaping.ShapeAll(items, old(birthdays), today)
        case Success(records) => thrown == None && fresh(data) && data[..] == records
        case Failure(e) => thrown == Some(e) && data == old(data)
    {
      hasNoItems := |items| == 0;
      var parsed := Shaping.ParseItems(items, birthdays, today);
      match parsed
      case Failure(e) =>
        thrown := Some(e);
      case Success(parsedItems) =>
        data := new Item[|parsedItems|](i requires 0 <= i < |parsedItems| => parsedItems[i]);
        thrown := None;
    }

    /**
     * The delete handler: `data.splice(index, 1)` followed by publishing a
     * fresh copy of the spliced list.
     */
    method HandleIconClick(index: int)
      modifies this
      ensures fresh(data)
      ensures data[..] == Splice.SpliceOne(old(data[..]), index)
      ensures hasNoItems == old(hasNoItems) && birthdays == old(birthdays)
    {
      var rest := Splice.SpliceOne(data[..], index);
      data := new Item[|rest|](i requires 0 <= i < |rest| => rest[i]);
    }
  }

}
