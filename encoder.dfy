/**
 * The feature encoder of the `/predict` handler: a submitted hotel-reservation
 * form becomes the 14 numbers the cancellation classifier was trained on, in a
 * fixed column order. Every field has a default; the one failure left is the
 * int-to-float conversion in the cancellation rate.
 */
module FeatureEncoder {
  import opened Wrappers
  import opened PyInt

  /** The submitted form: field name to submitted text. An absent field is not the same as "". */
  type Form = map<string, string>

  /**
   * The Python values `safe_int` is applied to: `None` for an absent field, a `str`,
   * or the `int` fallback that `data.get('reservation_month', 1)` supplies.
   */
  datatype PyValue = NoneValue | StrValue(text: string) | IntValue(number: int)

  /** `data.get(key)`. */
  function Get(form: Form, key: string): (r: PyValue)
    ensures r.NoneValue? <==> key !in form
    ensures key in form ==> r == StrValue(form[key])
  {
    if key in form then StrValue(form[key]) else NoneValue
  }

  /** `data.get(key, fallback)`. */
  function GetOr(form: Form, key: string, fallback: PyValue): (r: PyValue)
    ensures key !in form ==> r == fallback
    ensures key in form ==> r == StrValue(form[key])
  {
    if key in form then StrValue(form[key]) else fallback
  }

  /** `data.get(key, fallback)` with a string fallback. */
  function GetText(form: Form, key: string, fallback: string): (r: string)
    ensures key !in form ==> r == fallback
    ensures key in form ==> r == form[key]
  {
    if key in form then form[key] else fallback
  }

  // ---------------------------------------------------------------------------
  // safe_int

  /**
   * `safe_int(value, fallback)`: `int(value)`, or `fallback` when `value` is ''
   * or `int()` raises `ValueError` (a malformed literal) or `TypeError` (`None`).
   */
  function SafeInt(value: PyValue, fallback: int): (r: int)
    ensures value.NoneValue? ==> r == fallback
    ensures value == StrValue("") ==> r == fallback
    ensures value.StrValue? ==> r == ParseInt(value.text).GetOr(fallback)
    ensures value.IntValue? ==> r == value.number
  {
    match value
    case NoneValue => fallback
    case IntValue(n) => n
    case StrValue(s) =>
      if s == "" then ParseBlank(""); fallback
      else match ParseInt(s)
        case Some(n) => n
        case None => fallback
  }

  /** A field read with `safe_int(data.get(key))`: 0 when absent, blank or malformed. */
  function IntField(form: Form, key: string): (r: int)
    ensures key !in form ==> r == 0
    ensures key in form ==> r == ParseInt(form[key]).GetOr(0)
  {
    SafeInt(Get(form, key), 0)
  }

  function LeadTime(form: Form): int { IntField(form, "lead_time") }
  function SpecialRequests(form: Form): int { IntField(form, "special_request") }
  function PrevCanceled(form: Form): int { IntField(form, "prev_canceled") }
  function PrevNotCanceled(form: Form): int { IntField(form, "prev_not_canceled") }

  /**
   * `safe_int(data.get('reservation_month', 1))`: an absent field gives the `int` 1,
   * but a present field that is blank or malformed gives `safe_int`'s own default 0.
   */
  function ReservationMonth(form: Form): (r: int)
    ensures "reservation_month" !in form ==> r == 1
    ensures "reservation_month" in form ==> r == ParseInt(form["reservation_month"]).GetOr(0)
  {
    SafeInt(GetOr(form, "reservation_month", IntValue(1)), 0)
  }

  lemma ReservationMonthCases(form: Form)
    ensures "reservation_month" !in form ==> ReservationMonth(form) == 1
    ensures "reservation_month" in form && form["reservation_month"] == "" ==> ReservationMonth(form) == 0
    ensures "reservation_month" in form && form["reservation_month"] == "abc" ==> ReservationMonth(form) == 0
    ensures "reservation_month" in form && form["reservation_month"] == "45" ==> ReservationMonth(form) == 45
  {
    ParseRejectExamples();
    ParseAcceptPlainExample();
  }

  lemma SafeIntExamples()
    ensures SafeInt(StrValue("abc"), 0) == 0
    ensures SafeInt(StrValue("4.5"), 0) == 0
    ensures SafeInt(StrValue(" -12\n"), 0) == -12
    ensures SafeInt(StrValue("1_000"), 0) == 1000
    ensures SafeInt(NoneValue, 7) == 7
  {
    ParseRejectExamples();
    ParseAcceptSpacedExample();
    ParseAcceptUnderscoreExample();
  }

  // ---------------------------------------------------------------------------
  // Room type

  const ROOM_TYPES: map<string, int> := map[
    "Room_Type 1" := 1, "Room_Type 2" := 2, "Room_Type 3" := 3,
    "Room_Type 4" := 4, "Room_Type 5" := 5, "Room_Type 6" := 6, "Room_Type 7" := 7]

  /** The form value naming room type `k`. */
  function RoomTypeName(k: int): string
    requires 1 <= k <= 7
  {
    "Room_Type " + [DigitChar(k)]
  }

  /** `room_type_mapping.get(data.get('room_type', 'Room_Type 1'), 1)`. */
  function RoomType(form: Form): (r: int)
    ensures 1 <= r <= 7
  {
    var name := GetText(form, "room_type", "Room_Type 1");
    if name in ROOM_TYPES then ROOM_TYPES[name] else 1
  }

  /** The mapping holds exactly the seven names, each naming its own number. */
  lemma RoomTypeNames()
    ensures forall k :: 1 <= k <= 7 ==> RoomTypeName(k) in ROOM_TYPES && ROOM_TYPES[RoomTypeName(k)] == k
    ensures forall name :: name in ROOM_TYPES ==> 1 <= ROOM_TYPES[name] <= 7 && name == RoomTypeName(ROOM_TYPES[name])
  {
    assert RoomTypeName(1) == "Room_Type 1";
    assert RoomTypeName(2) == "Room_Type 2";
    assert RoomTypeName(3) == "Room_Type 3";
    assert RoomTypeName(4) == "Room_Type 4";
    assert RoomTypeName(5) == "Room_Type 5";
    assert RoomTypeName(6) == "Room_Type 6";
    assert RoomTypeName(7) == "Room_Type 7";
  }

  /** Room type `k` is chosen exactly when the form names it, or, for 1, when the field is absent or unknown. */
  lemma RoomTypeIs(form: Form, k: int)
    requires 1 <= k <= 7
    ensures RoomType(form) == k <==>
      || ("room_type" in form && form["room_type"] == RoomTypeName(k))
      || (k == 1 && ("room_type" !in form || form["room_type"] !in ROOM_TYPES))
  {
    RoomTypeNames();
  }

  // ---------------------------------------------------------------------------
  // Checkbox flags

  /** `1 if data.get(key) == token else 0`. */
  function Checkbox(form: Form, key: string, token: string): (r: int)
    ensures r == 0 || r == 1
    ensures r == 1 <==> key in form && form[key] == token
  {
    if Get(form, key) == StrValue(token) then 1 else 0
  }

  function RegularCustomer(form: Form): int { Checkbox(form, "regular_customer", "on") }
  function CarParkingSpace(form: Form): int { Checkbox(form, "car_parking", "1") }
  function IsWeekend(form: Form): int { Checkbox(form, "is_weekend", "on") }

  // ---------------------------------------------------------------------------
  // Cancellation rate

  /** The `1e-10` added to the denominator, taken as an exact real. */
  const EPSILON: real := 0.0000000001

  /**
   * 2^1024 - 2^970. An `int` converts to `float` by rounding to 53 significant bits;
   * from this magnitude on the rounded value passes the largest finite double and
   * Python raises `OverflowError`.
   */
  const FLOAT_OVERFLOW: nat := 179769313486231580793728971405303415079934132710037826936173778980444968292764750946649017977587207096330286416692887910946555547851940402630657488671505820681908902000708383676273854845817711531764475730270069855571366959622842914819860834936475292719074168444365510704342711559699508093042880177904174497792

  /** The message of that `OverflowError`. */
  const INT_TOO_LARGE: string := "int too large to convert to float"

  predicate FitsFloat(n: int) {
    -(FLOAT_OVERFLOW as int) < n < FLOAT_OVERFLOW
  }

  /** Python's `float(n)` for an `int`, without its rounding. */
  function ToFloat(n: int): (r: Result<real>)
    ensures r.Ok? <==> FitsFloat(n)
    ensures r.Ok? ==> r.value == n as real
    ensures r.Err? ==> r.message == INT_TOO_LARGE
  {
    if FitsFloat(n) then Ok(n as real) else Err(INT_TOO_LARGE)
  }

  /**
   * `percent_can`: `c / (c + nc + 1e-10)` when `c + nc > 0`, else 0. The float
   * arithmetic converts `c + nc` and then `c` to `float`, either of which can overflow.
   */
  function PercentCan(c: int, nc: int): (r: Result<real>)
    ensures c + nc <= 0 ==> r == Ok(0.0)
    ensures c + nc > 0 ==> (r.Ok? <==> FitsFloat(c + nc) && FitsFloat(c))
    ensures r.Ok? && c + nc > 0 ==> r.value == c as real / ((c + nc) as real + EPSILON)
    ensures r.Err? ==> r.message == INT_TOO_LARGE
  {
    var total := c + nc;
    if total > 0 then
      match ToFloat(total)
      case Err(e) => Err(e)
      case Ok(t) =>
        match ToFloat(c)
        case Err(e) => Err(e)
        case Ok(x) => Ok(x / (t + EPSILON))
    else Ok(0.0)
  }

  /** With non-negative counts the exact-real rate is a fraction in [0, 1), and 0 exactly when nothing was cancelled. */
  lemma PercentCanInUnitInterval(c: int, nc: int)
    requires 0 <= c && 0 <= nc
    requires PercentCan(c, nc).Ok?
    ensures 0.0 <= PercentCan(c, nc).value < 1.0
    ensures PercentCan(c, nc).value == 0.0 <==> c == 0
  {
    if c + nc > 0 {
      var d := (c + nc) as real + EPSILON;
      assert PercentCan(c, nc).value == c as real / d;
      FractionBelowOne(c as real, d);
    }
  }

  lemma FractionBelowOne(x: real, d: real)
    requires 0.0 <= x < d
    ensures 0.0 <= x / d < 1.0
    ensures x / d == 0.0 <==> x == 0.0
  {
    var q := x / d;
    assert q * d == x;
    assert (1.0 - q) * d == d - x;
    PositiveFactor(1.0 - q, d);
    NonnegativeFactor(q, d);
  }

  lemma PositiveFactor(a: real, b: real)
    requires b > 0.0 && a * b > 0.0
    ensures a > 0.0
  {
  }

  lemma NonnegativeFactor(a: real, b: real)
    requires b > 0.0 && a * b >= 0.0
    ensures a >= 0.0
  {
  }

  /** Non-negative counts whose sum converts to `float` never make the rate fail. */
  lemma PercentCanDefined(c: int, nc: int)
    requires 0 <= c && 0 <= nc && FitsFloat(c + nc)
    ensures PercentCan(c, nc).Ok?
  {
  }

  /** `int()` accepts negative counts, and then the rate leaves [0, 1) on both sides. */
  lemma PercentCanNegativeCounts()
    ensures PercentCan(-1, 3).Ok? && PercentCan(-1, 3).value < 0.0
    ensures PercentCan(5, -2).Ok? && PercentCan(5, -2).value > 1.0
  {
  }

  /** A count of at least `FLOAT_OVERFLOW` (a 309-digit number) makes the rate raise, even with a total of 1. */
  lemma PercentCanOverflow()
    ensures PercentCan(FLOAT_OVERFLOW, 0) == Err(INT_TOO_LARGE)
    ensures PercentCan(FLOAT_OVERFLOW, 1 - FLOAT_OVERFLOW) == Err(INT_TOO_LARGE)
    ensures PercentCan(FLOAT_OVERFLOW - 1, 0).Ok?
  {
  }

  lemma PercentCanExamples()
    ensures PercentCan(0, 0) == Ok(0.0)
    ensures PercentCan(3, 7) == Ok(3.0 / (10.0 + EPSILON))
    ensures PercentCan(1, 9) == Ok(1.0 / (10.0 + EPSILON))
  {
  }

  // ---------------------------------------------------------------------------
  // One-hot groups

  const MARKET_SEGMENTS: seq<string> := ["Complementary", "Corporate", "Offline", "Online"]
  const MEAL_TYPES: seq<string> := ["Meal Plan 1", "Meal Plan 2"]

  /** One indicator per category, set where the category equals `value`; no catch-all column. */
  function OneHot(value: string, categories: seq<string>): (r: seq<int>)
    ensures |r| == |categories|
    ensures forall i :: 0 <= i < |r| ==> (r[i] == 0 || r[i] == 1) && (r[i] == 1 <==> categories[i] == value)
  {
    seq(|categories|, i requires 0 <= i < |categories| => if categories[i] == value then 1 else 0)
  }

  function Sum(s: seq<int>): int {
    if s == [] then 0 else Sum(s[..|s| - 1]) + s[|s| - 1]
  }

  predicate Distinct(s: seq<string>) {
    forall i, j :: 0 <= i < j < |s| ==> s[i] != s[j]
  }

  /** Over distinct categories at most one indicator is set, and one is set exactly when `value` is a category. */
  lemma {:induction false} OneHotCount(value: string, categories: seq<string>)
    requires Distinct(categories)
    ensures Sum(OneHot(value, categories)) == if value in categories then 1 else 0
  {
    if categories != [] {
      var init := categories[..|categories| - 1];
      var r := OneHot(value, categories);
      assert r[..|r| - 1] == OneHot(value, init);
      OneHotCount(value, init);
      if categories[|categories| - 1] == value {
        assert value !in init;
      } else {
        assert value in categories <==> value in init;
      }
    }
  }

  /** `market_features`, from `data.get('market_segment', 'Online')`. */
  function Market(form: Form): (r: seq<int>)
    ensures |r| == 4
    ensures forall i :: 0 <= i < 4 ==> (r[i] == 1 <==> MARKET_SEGMENTS[i] == GetText(form, "market_segment", "Online"))
  {
    OneHot(GetText(form, "market_segment", "Online"), MARKET_SEGMENTS)
  }

  /** `meal_features`, from `data.get('meal_type', 'Meal Plan 1')`. */
  function Meal(form: Form): (r: seq<int>)
    ensures |r| == 2
    ensures forall i :: 0 <= i < 2 ==> (r[i] == 1 <==> MEAL_TYPES[i] == GetText(form, "meal_type", "Meal Plan 1"))
  {
    OneHot(GetText(form, "meal_type", "Meal Plan 1"), MEAL_TYPES)
  }

  lemma MarketGroup(form: Form)
    ensures "market_segment" !in form ==> Market(form) == [0, 0, 0, 1]
    ensures "market_segment" in form ==>
      Sum(Market(form)) == if form["market_segment"] in MARKET_SEGMENTS then 1 else 0
    ensures "market_segment" in form && form["market_segment"] == "Corporate" ==> Market(form) == [0, 1, 0, 0]
    ensures "market_segment" in form && form["market_segment"] == "" ==> Market(form) == [0, 0, 0, 0]
  {
    assert Distinct(MARKET_SEGMENTS);
    OneHotCount(GetText(form, "market_segment", "Online"), MARKET_SEGMENTS);
  }

  lemma MealGroup(form: Form)
    ensures "meal_type" !in form ==> Meal(form) == [1, 0]
    ensures "meal_type" in form ==>
      Sum(Meal(form)) == if form["meal_type"] in MEAL_TYPES then 1 else 0
    ensures "meal_type" in form && form["meal_type"] == "" ==> Meal(form) == [0, 0]
  {
    assert Distinct(MEAL_TYPES);
    OneHotCount(GetText(form, "meal_type", "Meal Plan 1"), MEAL_TYPES);
  }

  // ---------------------------------------------------------------------------
  // Assembly

  /** The classifier's columns; `ColumnName` gives each the name it has in the training data. */
  datatype Column =
    | Parking | Room | Lead | Regular | Requests | Month
    | Complementary | Corporate | Offline | Online
    | MealPlan1 | MealPlan2 | Rate | Weekend

  function ColumnName(c: Column): string {
    match c
    case Parking => "car parking space"
    case Room => "room type"
    case Lead => "lead time"
    case Regular => "regular customer"
    case Requests => "special requests"
    case Month => "reservation_month"
    case Complementary => "Market_Complementary"
    case Corporate => "Market_Corporate"
    case Offline => "Market_Offline"
    case Online => "Market_Online"
    case MealPlan1 => "MealType_Meal Plan 1"
    case MealPlan2 => "MealType_Meal Plan 2"
    case Rate => "percent_can"
    case Weekend => "is_weekend"
  }

  /** The column order the classifier was trained with. */
  const FEATURE_ORDER: seq<Column> := [
    Parking, Room, Lead, Regular, Requests, Month,
    Complementary, Corporate, Offline, Online,
    MealPlan1, MealPlan2, Rate, Weekend]

  /** `feature_names`. */
  const FEATURE_NAMES: seq<string> := [
    "car parking space", "room type", "lead time", "regular customer",
    "special requests", "reservation_month", "Market_Complementary",
    "Market_Corporate", "Market_Offline", "Market_Online",
    "MealType_Meal Plan 1", "MealType_Meal Plan 2",
    "percent_can", "is_weekend"]

  /** The order lists every column once, under its training-data name. */
  lemma FeatureOrderNames()
    ensures |FEATURE_ORDER| == |FEATURE_NAMES| == 14
    ensures forall i :: 0 <= i < 14 ==> ColumnName(FEATURE_ORDER[i]) == FEATURE_NAMES[i]
    ensures forall i, j :: 0 <= i < j < 14 ==> FEATURE_ORDER[i] != FEATURE_ORDER[j]
  {
  }

  /** The handler's local variables once every field is read: the values the dictionary is built from. */
  datatype Fields = Fields(
    carParking: int, roomType: int, leadTime: int, regularCustomer: int,
    specialRequests: int, reservationMonth: int,
    market: seq<int>, meal: seq<int>, percentCan: real, isWeekend: int)

  /** Reading the form; only the cancellation rate can raise. */
  function ReadFields(form: Form): (r: Result<Fields>)
    ensures r.Ok? <==> PercentCan(PrevCanceled(form), PrevNotCanceled(form)).Ok?
    ensures r.Ok? ==> |r.value.market| == 4 && |r.value.meal| == 2
    ensures r.Ok? ==> r.value.percentCan == PercentCan(PrevCanceled(form), PrevNotCanceled(form)).value
    ensures r.Err? ==> r.message == INT_TOO_LARGE
  {
    match PercentCan(PrevCanceled(form), PrevNotCanceled(form))
    case Err(e) => Err(e)
    case Ok(p) =>
      Ok(Fields(CarParkingSpace(form), RoomType(form), LeadTime(form), RegularCustomer(form),
                SpecialRequests(form), ReservationMonth(form), Market(form), Meal(form),
                p, IsWeekend(form)))
  }

  /** `features_dict`: every column to its value. */
  function FeaturesDict(f: Fields): (row: map<Column, real>)
    requires |f.market| == 4 && |f.meal| == 2
    ensures forall i :: 0 <= i < |FEATURE_ORDER| ==> FEATURE_ORDER[i] in row
    ensures Rate in row && row[Rate] == f.percentCan && Room in row && row[Room] == f.roomType as real
    ensures forall i :: 0 <= i < 4 ==> row[FEATURE_ORDER[6 + i]] == f.market[i] as real
    ensures forall i :: 0 <= i < 2 ==> row[FEATURE_ORDER[10 + i]] == f.meal[i] as real
  {
    map[
      Parking := f.carParking as real,
      Room := f.roomType as real,
      Lead := f.leadTime as real,
      Regular := f.regularCustomer as real,
      Requests := f.specialRequests as real,
      Month := f.reservationMonth as real,
      Complementary := f.market[0] as real,
      Corporate := f.market[1] as real,
      Offline := f.market[2] as real,
      Online := f.market[3] as real,
      MealPlan1 := f.meal[0] as real,
      MealPlan2 := f.meal[1] as real,
      Rate := f.percentCan,
      Weekend := f.isWeekend as real
    ]
  }

  /** `[row[name] for name in names]`. */
  function Columns(names: seq<Column>, row: map<Column, real>): (r: seq<real>)
    requires forall i :: 0 <= i < |names| ==> names[i] in row
    ensures |r| == |names|
    ensures forall i :: 0 <= i < |r| ==> r[i] == row[names[i]]
  {
    seq(|names|, i requires 0 <= i < |names| => row[names[i]])
  }

  /** The 14 values in column order. */
  function Vector(f: Fields): (v: seq<real>)
    requires |f.market| == 4 && |f.meal| == 2
    ensures |v| == 14
    ensures v == [
      f.carParking as real, f.roomType as real, f.leadTime as real,
      f.regularCustomer as real, f.specialRequests as real, f.reservationMonth as real,
      f.market[0] as real, f.market[1] as real, f.market[2] as real, f.market[3] as real,
      f.meal[0] as real, f.meal[1] as real, f.percentCan, f.isWeekend as real]
  {
    Columns(FEATURE_ORDER, FeaturesDict(f))
  }

  /** The feature vector the classifier is given, or the message of the exception raised while building it. */
  function Encode(form: Form): (r: Result<seq<real>>)
    ensures r.Ok? <==> PercentCan(PrevCanceled(form), PrevNotCanceled(form)).Ok?
    ensures r.Ok? ==> |r.value| == 14
    ensures r.Err? ==> r.message == INT_TOO_LARGE
  {
    match ReadFields(form)
    case Err(e) => Err(e)
    case Ok(f) => Ok(Vector(f))
  }

  /** The vector in column order, each entry read from its own field. */
  lemma EncodeLayout(form: Form)
    ensures Encode(form).Ok? ==> |Encode(form).value| == 14
    ensures Encode(form).Ok? ==>
      var market := Market(form);
      var meal := Meal(form);
      Encode(form).value == [
        CarParkingSpace(form) as real, RoomType(form) as real, LeadTime(form) as real,
        RegularCustomer(form) as real, SpecialRequests(form) as real,
        ReservationMonth(form) as real,
        market[0] as real, market[1] as real, market[2] as real, market[3] as real,
        meal[0] as real, meal[1] as real,
        PercentCan(PrevCanceled(form), PrevNotCanceled(form)).value,
        IsWeekend(form) as real]
  {
  }

  /** The indicator fields hold 0 or 1, the room type 1 to 7, and with non-negative counts the exact-real rate lies in [0, 1). */
  lemma FieldRanges(form: Form)
    requires ReadFields(form).Ok?
    ensures var f := ReadFields(form).value;
      && (f.carParking == 0 || f.carParking == 1)
      && (f.regularCustomer == 0 || f.regularCustomer == 1)
      && (f.isWeekend == 0 || f.isWeekend == 1)
      && 1 <= f.roomType <= 7
      && (forall i :: 0 <= i < 4 ==> f.market[i] == 0 || f.market[i] == 1)
      && (forall i :: 0 <= i < 2 ==> f.meal[i] == 0 || f.meal[i] == 1)
      && (0 <= PrevCanceled(form) && 0 <= PrevNotCanceled(form) ==> 0.0 <= f.percentCan < 1.0)
  {
    var c, nc := PrevCanceled(form), PrevNotCanceled(form);
    if 0 <= c && 0 <= nc {
      PercentCanInUnitInterval(c, nc);
    }
  }

  /** Building the vector fails only when the cancellation rate overflows, and then with its message. */
  lemma EncodeFailure(form: Form)
    ensures Encode(form).Err? <==> PercentCan(PrevCanceled(form), PrevNotCanceled(form)).Err?
    ensures Encode(form).Err? ==> Encode(form).message == INT_TOO_LARGE
    ensures Encode(form).Err? ==>
      PrevCanceled(form) + PrevNotCanceled(form) > 0 &&
      !(FitsFloat(PrevCanceled(form) + PrevNotCanceled(form)) && FitsFloat(PrevCanceled(form)))
  {
  }

  /** A previous-cancellation count of at least `FLOAT_OVERFLOW`, with no other count, makes the form fail. */
  lemma EncodeOverflow(form: Form, n: int)
    requires n >= FLOAT_OVERFLOW
    requires "prev_canceled" in form && form["prev_canceled"] == ShowInt(n)
    requires "prev_not_canceled" !in form
    ensures Encode(form) == Err(INT_TOO_LARGE)
  {
    ParseShowRoundTrip(n);
  }

  /** Non-negative counts whose sum is below `FLOAT_OVERFLOW` can never make the vector fail. */
  lemma EncodeDefinedForNonnegativeCounts(form: Form)
    requires 0 <= PrevCanceled(form) && 0 <= PrevNotCanceled(form)
    requires FitsFloat(PrevCanceled(form) + PrevNotCanceled(form))
    ensures Encode(form).Ok?
  {
  }

  /** The fields the vector is built from. */
  const USED_FIELDS: set<string> := {
    "lead_time", "special_request", "reservation_month", "room_type",
    "regular_customer", "car_parking", "is_weekend",
    "prev_canceled", "prev_not_canceled", "market_segment", "meal_type"}

  /** Fields the handler reads but never puts into the vector. */
  const UNUSED_FIELDS: set<string> := {
    "Booking_ID", "no_of_adult", "No_of_children", "average_price", "weekend_day_input"}

  predicate AgreeOn(f1: Form, f2: Form, keys: set<string>) {
    forall k :: k in keys ==> Get(f1, k) == Get(f2, k)
  }

  /** Two forms that agree on the used fields give the same outcome. */
  lemma EncodeReadsOnlyUsedFields(f1: Form, f2: Form)
    requires AgreeOn(f1, f2, USED_FIELDS)
    ensures Encode(f1) == Encode(f2)
  {
  }

  /** Setting or removing a field outside the used ones, such as the booking id or the price, changes nothing. */
  lemma EncodeIgnoresOtherFields(form: Form, key: string, text: string)
    requires key !in USED_FIELDS
    ensures Encode(form[key := text]) == Encode(form)
    ensures Encode(form - {key}) == Encode(form)
  {
    EncodeReadsOnlyUsedFields(form[key := text], form);
    EncodeReadsOnlyUsedFields(form - {key}, form);
  }

  /** The fields read only into unused variables (ids, guest counts, price, weekend days) never affect the outcome. */
  lemma EncodeIgnoresUnusedFields(form: Form, key: string, text: string)
    requires key in UNUSED_FIELDS
    ensures Encode(form[key := text]) == Encode(form)
    ensures Encode(form - {key}) == Encode(form)
  {
    assert key !in USED_FIELDS;
    EncodeIgnoresOtherFields(form, key, text);
  }

  // ---------------------------------------------------------------------------
  // Concrete forms

  /** An empty form: every default applies, including the `Online` and `Meal Plan 1` columns. */
  lemma EncodeEmptyForm()
    ensures Encode(map[]) == Ok([0.0, 1.0, 0.0, 0.0, 0.0, 1.0, 0.0, 0.0, 0.0, 1.0, 1.0, 0.0, 0.0, 0.0])
  {
  }

  /** A form whose used fields are all present but blank: the month falls to 0 and no category column is set. */
  lemma EncodeBlankForm(form: Form)
    requires forall k :: k in USED_FIELDS ==> k in form && form[k] == ""
    ensures Encode(form) == Ok([0.0, 1.0, 0.0, 0.0, 0.0, 0.0, 0.0, 0.0, 0.0, 0.0, 0.0, 0.0, 0.0, 0.0])
  {
  }

  /** The filled-in reservation with one cancellation in ten earlier bookings. */
  const EXAMPLE_FORM: Form := map[
    "lead_time" := "45", "special_request" := "2", "reservation_month" := "6",
    "room_type" := "Room_Type 3", "regular_customer" := "on", "car_parking" := "1",
    "is_weekend" := "on", "weekend_day_input" := "2", "prev_canceled" := "1",
    "prev_not_canceled" := "9", "market_segment" := "Online", "meal_type" := "Meal Plan 2"]

  lemma EncodeExampleForm()
    ensures Encode(EXAMPLE_FORM) ==
      Ok([1.0, 3.0, 45.0, 1.0, 2.0, 6.0, 0.0, 0.0, 0.0, 1.0, 0.0, 1.0, 1.0 / (10.0 + EPSILON), 1.0])
  {
    ExampleCounts();
    ExampleSmallCounts();
    ExampleChoices();
    ExampleFlags();
    assert ReadFields(EXAMPLE_FORM) ==
      Ok(Fields(1, 3, 45, 1, 2, 6, [0, 0, 0, 1], [0, 1], 1.0 / (10.0 + EPSILON), 1));
  }

  lemma ExampleCounts()
    ensures LeadTime(EXAMPLE_FORM) == 45
    ensures ReservationMonth(EXAMPLE_FORM) == 6
  {
  }

  lemma ExampleSmallCounts()
    ensures SpecialRequests(EXAMPLE_FORM) == 2
    ensures PrevCanceled(EXAMPLE_FORM) == 1
    ensures PrevNotCanceled(EXAMPLE_FORM) == 9
  {
  }

  lemma ExampleChoices()
    ensures RoomType(EXAMPLE_FORM) == 3
    ensures Market(EXAMPLE_FORM) == [0, 0, 0, 1]
    ensures Meal(EXAMPLE_FORM) == [0, 1]
  {
  }

  lemma ExampleFlags()
    ensures CarParkingSpace(EXAMPLE_FORM) == 1
    ensures RegularCustomer(EXAMPLE_FORM) == 1
    ensures IsWeekend(EXAMPLE_FORM) == 1
  {
  }

  /** A malformed lead time is read as 0. */
  lemma EncodeMalformedLeadTime(form: Form)
    requires "lead_time" in form && form["lead_time"] == "abc"
    requires Encode(form).Ok?
    ensures Encode(form).value[2] == 0.0
  {
  }
}
