/**
 * The event creation form schema (`eventSchema`): a name and a location of
 * bounded length, and three optional text fields for the day and the
 * start and end hours.
 */
module EventSchema {
  import opened Web

  /** The raw form: each field is whatever JSON value was sent, `Undefined` when absent. */
  datatype EventInput = EventInput(eventName: Value, location: Value, day: Value, iHour: Value, fHour: Value)

  /** The fields of the form, for issue paths. */
  datatype FieldName = EventName | Location | Day | IHour | FHour

  /** A zod issue: a non-string value, or a string that is too short or too long. */
  datatype Issue = NotAString(field: FieldName) | TooShort(field: FieldName) | TooLong(field: FieldName)

  const MaxEventNameLength := 100
  const MaxLocationLength := 50

  /** The value the form holds for `field`. */
  function FieldValue(e: EventInput, field: FieldName): Value {
    match field
    case EventName => e.eventName
    case Location => e.location
    case Day => e.day
    case IHour => e.iHour
    case FHour => e.fHour
  }

  /** The name and the location are required; the other fields are optional. */
  predicate Required(field: FieldName) {
    field == EventName || field == Location
  }

  /** The longest value a required field accepts. */
  function MaxLength(field: FieldName): nat {
    if field == EventName then MaxEventNameLength else MaxLocationLength
  }

  /**
   * The check behind issue `x` fails on form `e`: a required field holds a
   * non-string, or a string outside 1..its maximum; an optional field holds
   * something that is neither absent nor a string.
   */
  predicate Raised(e: EventInput, x: Issue) {
    var v := FieldValue(e, x.field);
    match x
    case NotAString(f) => if Required(f) then !v.Str? else !(v.Undefined? || v.Str?)
    case TooShort(f) => Required(f) && v.Str? && JsLength(v.s) < 1
    case TooLong(f) => Required(f) && v.Str? && JsLength(v.s) > MaxLength(f)
  }

  /**
   * The issues of a required string with length bounds `1..max`, lengths
   * measured as JavaScript's `.length`: a
   * non-string stops at its type issue, a string reports each bound it
   * breaks.
   */
  function BoundedText(v: Value, field: FieldName, max: nat): (r: seq<Issue>)
    ensures forall x :: x in r <==>
      (x == NotAString(field) && !v.Str?) ||
      (x == TooShort(field) && v.Str? && JsLength(v.s) < 1) ||
      (x == TooLong(field) && v.Str? && JsLength(v.s) > max)
  {
    if !v.Str? then [NotAString(field)]
    else (if JsLength(v.s) < 1 then [TooShort(field)] else [])
         + (if JsLength(v.s) > max then [TooLong(field)] else [])
  }

  /** The issues of an optional string: absent or any string is fine. */
  function OptionalText(v: Value, field: FieldName): (r: seq<Issue>)
    ensures forall x :: x in r <==> x == NotAString(field) && !(v.Undefined? || v.Str?)
  {
    if v.Undefined? || v.Str? then [] else [NotAString(field)]
  }

  /** The issues `safeParse` reports: exactly the failing checks, field by field. */
  function Issues(e: EventInput): (r: seq<Issue>)
    ensures forall x :: x in r <==> Raised(e, x)
  {
    BoundedText(e.eventName, EventName, MaxEventNameLength)
    + BoundedText(e.location, Location, MaxLocationLength)
    + OptionalText(e.day, Day)
    + OptionalText(e.iHour, IHour)
    + OptionalText(e.fHour, FHour)
  }

  /** `safeParse(form).success`. */
  predicate Accepts(e: EventInput) {
    Issues(e) == []
  }

  /**
   * An event form is accepted exactly when the name has 1..100 characters,
   * the location 1..50, and each of day, start hour and end hour is absent
   * or a string; a present value that is not a string, `null` included, is
   * rejected.
   */
  lemma AcceptsExactly(e: EventInput)
    ensures Accepts(e) <==>
      && e.eventName.Str? && 1 <= JsLength(e.eventName.s) <= 100
      && e.location.Str? && 1 <= JsLength(e.location.s) <= 50
      && (e.day.Undefined? || e.day.Str?)
      && (e.iHour.Undefined? || e.iHour.Str?)
      && (e.fHour.Undefined? || e.fHour.Str?)
  {
    var r := Issues(e);
    if r != [] {
      assert r[0] in r && Raised(e, r[0]);
    } else {
      assert !Raised(e, NotAString(EventName)) && !Raised(e, TooShort(EventName)) && !Raised(e, TooLong(EventName));
      assert !Raised(e, NotAString(Location)) && !Raised(e, TooShort(Location)) && !Raised(e, TooLong(Location));
      assert !Raised(e, NotAString(Day)) && !Raised(e, NotAString(IHour)) && !Raised(e, NotAString(FHour));
    }
  }
}
