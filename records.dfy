/**
 * The records the list component works on: the raw items delivered by the
 * catalog service, extended in place into display records.
 */
module Records {
  import opened Outcomes

  /**
   * A JavaScript number as far as the component compares it: an integer,
   * or NaN (which every ordered comparison rejects).
   */
  datatype JsNumber = Num(value: int) | NaN

  /** Any other value an item may carry under a key the component does not name. */
  datatype Value = Str(s: string) | Number(n: JsNumber) | Bool(b: bool) | Null

  /** The nested vehicle record: id, name (n), make (m), engine size (cc), description (d). */
  datatype Car = Car(id: int, n: string, m: string, cc: JsNumber, d: string)

  /**
   * An item of the list. Raw items carry no `fullName`, `present` or
   * `daysForAnniversary` of their own (those are `None`); shaping sets the
   * first two and the anniversary pass sets the third. `others` holds every
   * field the component does not name, which the object spread copies as is;
   * a JavaScript object has each key once, so its keys are none of the named
   * ones (see `WellFormed`).
   */
  datatype Item = Item(
    id: int,
    birthday: string,
    name: string,
    surname: string,
    car: Car,
    fullName: Option<string>,
    present: Option<string>,
    daysForAnniversary: Option<int>,
    others: map<string, Value>)

  /** The keys an item carries as named fields of `Item`. */
  const NamedKeys: set<string> :=
    {"id", "birthday", "name", "surname", "car", "fullName", "present", "daysForAnniversary"}

  /** An item some JavaScript object can be: `others` repeats no named key. */
  predicate WellFormed(item: Item)
  {
    item.others.Keys !! NamedKeys
  }

  /** The error JavaScript raises when a property of `undefined` is read. */
  datatype TypeError = CannotReadPropertyOfUndefined(property: int)

  /** The two messages a display record can carry. */
  const HappyBirthday: string := "Happy birthday \U{1F389}"
  const NoPresent: string := "No present"

  /** The engine size every display record's car is given. */
  const ForcedCc: int := 3000
}
