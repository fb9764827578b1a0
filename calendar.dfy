/** Days of the week, as `Date.prototype.getDay` numbers them (0 is Sunday). */
module Calendar {

  datatype Weekday = Monday | Tuesday | Wednesday | Thursday | Friday | Saturday | Sunday

  /** A value `getDay()` can return. */
  type JsDay = d: int | 0 <= d < 7

  /** The weekday `getDay()` denotes: 0 is Sunday, 1 Monday, ..., 6 Saturday. */
  function WeekdayOfJsDay(d: JsDay): (w: Weekday)
    ensures w == Sunday <==> d == 0
    ensures w == Saturday <==> d == 6
  {
    match d
    case 0 => Sunday
    case 1 => Monday
    case 2 => Tuesday
    case 3 => Wednesday
    case 4 => Thursday
    case 5 => Friday
    case _ => Saturday
  }
}
