/**
 * Item shaping, the body of the effect that runs when the raw items change:
 * every raw item becomes a display record with a full name, a copy of its
 * car whose engine size is forced to 3000, and a present message.
 *
 * The present condition reads `birthdays[item.id]`. The component's
 * `birthdays` is the value of the anniversary pass, which returns nothing,
 * so it is `undefined` (`None` here) and that read throws a `TypeError`.
 * The lookup is a parameter so that both readings can be stated.
 */
module Shaping {
  import opened Outcomes
  import opened Records

  /**
   * The engine-size clause `cc >= 3000 || cc <= 4000`: every number meets
   * one side, so it holds exactly when `cc` is a number and not NaN.
   */
  function EngineClause(cc: JsNumber): (r: bool)
    ensures r <==> cc.Num?
  {
    match cc
    case Num(n) => n >= 3000 || n <= 4000
    case NaN => false
  }

  /**
   * The whole present condition, evaluated left to right with `&&`
   * short-circuiting: the engine clause, then the make, then the
   * `birthdays` lookup compared with today's day of the month. Only the
   * lookup can throw, and it throws exactly when it is reached on an
   * undefined `birthdays`.
   */
  function HasPresent(item: Item, birthdays: Option<map<int, int>>, today: int): (r: Result<bool, TypeError>)
    ensures r.Failure? <==> item.car.cc.Num? && item.car.m == "Dacia" && birthdays.None?
    ensures r.Failure? ==> r.error == CannotReadPropertyOfUndefined(item.id)
    ensures r == Success(true) <==>
      && item.car.cc.Num? && item.car.m == "Dacia" && birthdays.Some?
      && item.id in birthdays.value && birthdays.value[item.id] == today
  {
    if !EngineClause(item.car.cc) || item.car.m != "Dacia" then
      Success(false)
    else
      match birthdays
      case None => Failure(CannotReadPropertyOfUndefined(item.id))
      case Some(days) => Success(item.id in days && days[item.id] == today)
  }

  /**
   * One display record: the item spread as is, then `fullName`, the car
   * copy with `cc` forced, and the present message laid over it.
   */
  function ShapeItem(item: Item, birthdays: Option<map<int, int>>, today: int): (r: Result<Item, TypeError>)
    ensures r.Failure? <==> item.car.cc.Num? && item.car.m == "Dacia" && birthdays.None?
    ensures r.Failure? ==> r.error == CannotReadPropertyOfUndefined(item.id)
    ensures r.Success? ==>
      && r.value.fullName == Some(item.name + " " + item.surname)
      && r.value.car.cc == Num(ForcedCc)
      && r.value.car.id == item.car.id && r.value.car.n == item.car.n
      && r.value.car.m == item.car.m && r.value.car.d == item.car.d
      && r.value.id == item.id && r.value.birthday == item.birthday
      && r.value.name == item.name && r.value.surname == item.surname
      && r.value.daysForAnniversary == item.daysForAnniversary
      && r.value.others == item.others
    ensures r.Success? && WellFormed(item) ==> WellFormed(r.value)
    ensures r.Success? ==> r.value.present == Some(HappyBirthday) || r.value.present == Some(NoPresent)
    ensures r.Success? ==>
      (r.value.present == Some(HappyBirthday) <==>
        && item.car.cc.Num? && item.car.m == "Dacia" && birthdays.Some?
        && item.id in birthdays.value && birthdays.value[item.id] == today)
  {
    var car := item.car.(cc := Num(ForcedCc));
    match HasPresent(item, birthdays, today)
    case Failure(e) => Failure(e)
    case Success(hasPresent) =>
      Success(item.(
        fullName := Some(item.name + " " + item.surname),
        car := car,
        present := Some(if hasPresent then HappyBirthday else NoPresent)))
  }

  /** Shaping stops at item `i`: it throws there and at no earlier item. */
  predicate ThrowsFirstAt(items: seq<Item>, birthdays: Option<map<int, int>>, today: int, i: int)
  {
    && 0 <= i < |items|
    && ShapeItem(items[i], birthdays, today).Failure?
    && forall j :: 0 <= j < i ==> ShapeItem(items[j], birthdays, today).Success?
  }

  /**
   * Shaping the whole list: one display record per raw item, in order, or
   * the error of the first item that throws.
   */
  function ShapeAll(items: seq<Item>, birthdays: Option<map<int, int>>, today: int): (r: Result<seq<Item>, TypeError>)
    ensures r.Success? <==> forall i :: 0 <= i < |items| ==> ShapeItem(items[i], birthdays, today).Success?
    ensures r.Success? ==> |r.value| == |items|
    ensures r.Success? ==> forall i :: 0 <= i < |items| ==>
      r.value[i] == ShapeItem(items[i], birthdays, today).value
    ensures r.Failure? ==>
      exists i :: ThrowsFirstAt(items, birthdays, today, i) &&
        r.error == ShapeItem(items[i], birthdays, today).error
  {
    if items == [] then
      Success([])
    else
      match ShapeItem(items[0], birthdays, today)
      case Failure(e) =>
        assert ThrowsFirstAt(items, birthdays, today, 0);
        Failure(e)
      case Success(record) =>
        match ShapeAll(items[1..], birthdays, today)
        case Failure(e) =>
          var k :| ThrowsFirstAt(items[1..], birthdays, today, k) &&
            e == ShapeItem(items[1..][k], birthdays, today).error;
          assert ThrowsFirstAt(items, birthdays, today, k + 1);
          Failure(e)
        case Success(rest) =>
          Success([record] + rest)
  }

  /**
   * The shaping loop: push one record per item in order, and stop at the
   * first item whose present condition throws.
   */
  method ParseItems(items: seq<Item>, birthdays: Option<map<int, int>>, today: int)
    returns (r: Result<seq<Item>, TypeError>)
    ensures r == ShapeAll(items, birthdays, today)
  {
    var parsedItems := [];
    for i := 0 to |items|
      invariant |parsedItems| == i
      invariant forall j :: 0 <= j < i ==>
        ShapeItem(items[j], birthdays, today).Success? &&
        parsedItems[j] == ShapeItem(items[j], birthdays, today).value
    {
      match ShapeItem(items[i], birthdays, today)
      case Failure(e) =>
        assert ThrowsFirstAt(items, birthdays, today, i);
        FirstThrowUnique(items, birthdays, today, i);
        return Failure(e);
      case Success(record) =>
        parsedItems := parsedItems + [record];
    }
    assert ShapeAll(items, birthdays, today).value == parsedItems;
    r := Success(parsedItems);
  }

  /** The first throwing item is unique, so it fixes the error shaping reports. */
  lemma FirstThrowUnique(items: seq<Item>, birthdays: Option<map<int, int>>, today: int, i: int)
    requires ThrowsFirstAt(items, birthdays, today, i)
    ensures ShapeAll(items, birthdays, today) == Failure(ShapeItem(items[i], birthdays, today).error)
  {
  }

  /**
   * As written (`birthdays` undefined): shaping succeeds exactly when no
   * item has a numeric engine size and the make "Dacia", and then every
   * record says "No present".
   */
  lemma ShapeAllAsWritten(items: seq<Item>, today: int)
    ensures ShapeAll(items, None, today).Success? <==>
      forall i :: 0 <= i < |items| ==> !(items[i].car.cc.Num? && items[i].car.m == "Dacia")
    ensures ShapeAll(items, None, today).Success? ==>
      forall i :: 0 <= i < |items| ==> ShapeAll(items, None, today).value[i].present == Some(NoPresent)
  {
  }

  /** The record for "Ana Pop", whose car is a Dacia with engine size 1200, throws as written. */
  lemma ExampleDaciaItemThrows(today: int)
    ensures
      var ana := Item(1, "1990-06-15", "Ana", "Pop", Car(9, "X", "Dacia", Num(1200), "d"),
                      None, None, None, map[]);
      ShapeItem(ana, None, today) == Failure(CannotReadPropertyOfUndefined(1))
  {
  }
}
