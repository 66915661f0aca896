/**
 * The anniversary day count: the signed number of whole days from the
 * current instant to a birthday re-anchored to the current year, written
 * into every item of a list in place.
 *
 * Both instants are integer milliseconds. How the host builds the
 * anniversary instant from the birthday string and the current year is a
 * parameter (`anniversaryTime`), not modelled here.
 */
module Anniversary {
  import opened Outcomes
  import opened Records

  /** Milliseconds in a day: 1000 * 60 * 60 * 24. */
  const MsPerDay: int := 86400000

  /**
   * `Math.floor((anniversary - now) / MsPerDay)`: the day count is the
   * unique integer whose day-long interval contains the difference.
   */
  function DaysUntil(anniversary: int, now: int): (days: int)
    ensures days * MsPerDay <= anniversary - now < (days + 1) * MsPerDay
  {
    (anniversary - now) / MsPerDay
  }

  /** Any integer bracketing the difference in whole days is the day count. */
  lemma DaysUntilUnique(anniversary: int, now: int, days: int)
    requires days * MsPerDay <= anniversary - now < (days + 1) * MsPerDay
    ensures days == DaysUntil(anniversary, now)
  {
  }

  /**
   * An anniversary at today's midnight, evaluated at any instant of that
   * day, counts 0 only at midnight itself and -1 at every later instant.
   */
  lemma MidnightAnniversary(midnight: int, now: int)
    requires midnight <= now < midnight + MsPerDay
    ensures DaysUntil(midnight, now) == if now == midnight then 0 else -1
  {
  }

  /** Moving the anniversary by whole days moves the count by as many days. */
  lemma DaysUntilShift(anniversary: int, now: int, k: int)
    ensures DaysUntil(anniversary + k * MsPerDay, now) == DaysUntil(anniversary, now) + k
  {
  }

  /**
   * The item after the anniversary pass: its `daysForAnniversary` holds the
   * day count for its own birthday, and nothing else about it changes.
   */
  function WithAnniversary(item: Item, now: int, anniversaryTime: string -> int): (r: Item)
    ensures r.daysForAnniversary.Some?
    ensures var d := r.daysForAnniversary.value;
            d * MsPerDay <= anniversaryTime(item.birthday) - now < (d + 1) * MsPerDay
    ensures r.(daysForAnniversary := item.daysForAnniversary) == item
  {
    item.(daysForAnniversary := Some(DaysUntil(anniversaryTime(item.birthday), now)))
  }

  /**
   * `calculateAnniversaryDays`: walks the list in order and writes each
   * item's day count into that item in place. It returns nothing.
   */
  method CalculateAnniversaryDays(now: int, anniversaryTime: string -> int, items: array<Item>)
    modifies items
    ensures forall i :: 0 <= i < items.Length ==>
      items[i] == WithAnniversary(old(items[i]), now, anniversaryTime)
  {
    for i := 0 to items.Length
      invariant forall j :: 0 <= j < i ==>
        items[j] == WithAnniversary(old(items[j]), now, anniversaryTime)
      invariant forall j :: i <= j < items.Length ==> items[j] == old(items[j])
    {
      var anniversary := anniversaryTime(items[i].birthday);
      var days := DaysUntil(anniversary, now);
      items[i] := items[i].(daysForAnniversary := Some(days));
    }
  }
}
