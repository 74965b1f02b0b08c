# Hotel-reservation cancellation predictor: the `/predict` encoder

The web application takes a reservation form and turns it into the 14 numbers a
trained random-forest classifier expects. It asks the classifier whether the
booking will be cancelled and renders "Cancelled", "Not Cancelled" or
"Error: <message>". This project models that handler, `predict()` in
`app.py`, as pure Dafny functions over the submitted form. It proves what the
encoding does with present, absent, blank and malformed fields.

There are four modules:

- `Wrappers` (`wrappers.dfy`): `Option` and `Result`. An `Err` carries the text
  that `str(e)` gives for the exception.
- `PyInt` (`py_int.dfy`): the `int(str)` conversion that `safe_int` relies on.
  - Surrounding whitespace is stripped.
  - One optional sign is allowed.
  - The body is decimal digits, with single underscores only between digits.
  - Anything else is the `ValueError` that `safe_int` turns into its default.
- `FeatureEncoder` (`encoder.dfy`): covers every step of building the vector.
  - `safe_int`, the room-type table, the three checkboxes and the
    cancellation rate.
  - The two one-hot groups and the named columns in training order.
  - The selection of those columns from the dictionary.
  - The form is a `map<string, string>`. An absent field and an empty string
    are different inputs, as they are for `request.form.get`.
- `Prediction` (`prediction.dfy`): the classifier as a function parameter, the
  truth test on its label, and the `except Exception` branch that renders
  `Error: ` and the message.

The column values are the handler's own. Three of them are easy to misread:

- A missing `reservation_month` gives the `int` 1. A blank or malformed one
  gives `safe_int`'s default 0.
- A missing `market_segment` sets `Market_Online`, and a missing `meal_type`
  sets `MealType_Meal Plan 1`. A blank or unknown value sets no column of its
  group: there is no catch-all column.
- The encoder is not total. `prev_canceled + prev_not_canceled` and
  `prev_canceled` are Python integers of any size. Turning them into `float`
  for the division raises `OverflowError("int too large to convert to float")`
  once a magnitude reaches 2^1024 - 2^970 (`FLOAT_OVERFLOW`). That bound is a
  309-digit number, which a form field can hold. The sum can reach it even
  when neither count does. The handler renders that message as an error.

So an empty form encodes to `[0,1,0,0,0,1,0,0,0,1,1,0,0,0]`. A form whose fields
are all present but blank encodes to `[0,1,0,0,0,0,0,0,0,0,0,0,0,0]`. The
encoder can fail; see `EncodeFailure`.

## Model

| member | source | states |
|---|---|---|
| `PyInt.ParseDigitGroup` | app.py:27 | a bare digit group (digits, single underscores between them) converts to its value |
| `PyInt.ParseSigned` | app.py:27 | a leading `+` or `-` followed by a digit group converts to the signed value |
| `PyInt.ParseShowRoundTrip` | app.py:27 | every integer's decimal rendering converts back to that integer |
| `PyInt.ParseIgnoresSurroundingSpace` | app.py:27 | whitespace before and after the literal never changes the outcome |
| `PyInt.ParsePlusSign` | app.py:27 | a `+` sign does not change the value |
| `PyInt.ParseLeadingZero` | app.py:27 | leading zeros are accepted and do not change the value |
| `PyInt.ParseUnderscoreBetweenGroups` | app.py:27 | an underscore between two digit groups is ignored |
| `PyInt.ParseBlank` | app.py:27-28 | a string of only whitespace raises `ValueError` |
| `PyInt.ParseInt` | app.py:27-28 | `int()` of a string, `None` for `ValueError`; characterised by the `Parse…` lemmas below |
| `PyInt.ParseRejectsForeignChar` | app.py:27-28 | any ASCII character other than whitespace, digits, signs and `_` makes the conversion fail |
| `PyInt.ParseRejectsDoubleUnderscore` | app.py:27-28 | two underscores in a row make the conversion fail |
| `PyInt.ParseRejectExamples` | app.py:27-28 | `""`, `"  "`, `"abc"`, `"4.5"`, `"1__0"` are rejected |
| `PyInt.ParseRejectPlacementExamples` | app.py:27-28 | a lone sign, a space after the sign, and an underscore at either end are rejected |
| `PyInt.ParseAcceptPlainExample` | app.py:27 | `"45"` is 45 |
| `PyInt.ParseAcceptSpacedExample` | app.py:27 | `" -12\n"` is -12 |
| `PyInt.ParseAcceptZerosExample` | app.py:27 | `"+007"` is 7 |
| `PyInt.ParseAcceptUnderscoreExample` | app.py:27 | `"1_000"` is 1000 |
| `FeatureEncoder.Get` | app.py:38 | `data.get(key)` is `None` exactly when the field is absent, and otherwise its text |
| `FeatureEncoder.GetOr` | app.py:40 | `data.get(key, fallback)` is the fallback when the field is absent, and otherwise its text |
| `FeatureEncoder.GetText` | app.py:51 | `data.get(key, fallback)` with a string fallback, as read for the room type, market segment and meal type |
| `FeatureEncoder.SafeInt` | app.py:25-29 | `None` and `''` give the default; a string gives its `int()` value or, on `ValueError`, the default; an `int` is kept |
| `FeatureEncoder.SafeIntExamples` | app.py:25-29 | malformed text gives the default; signed, spaced and underscored numerals give their values |
| `FeatureEncoder.IntField` | app.py:38-39 | a field read through `safe_int(data.get(key))` is 0 when absent and otherwise the conversion of its text, 0 on failure; the same reading serves `prev_canceled` and `prev_not_canceled` (lines 60-61) |
| `FeatureEncoder.ReservationMonth` | app.py:40 | absent gives 1; present gives the conversion of its text, with 0 on failure |
| `FeatureEncoder.ReservationMonthCases` | app.py:40 | absent is 1, blank and malformed are 0, `"45"` is 45 (no range check) |
| `FeatureEncoder.RoomType` | app.py:47-51 | the room type is always between 1 and 7 |
| `FeatureEncoder.RoomTypeNames` | app.py:47-50 | the table maps exactly the seven names `Room_Type k` to `k` |
| `FeatureEncoder.RoomTypeIs` | app.py:51 | room type `k` is chosen exactly when the field names it, or, for `k` = 1, when the field is absent or unknown |
| `FeatureEncoder.Checkbox` | app.py:54-56 | a flag is 0 or 1, and 1 exactly when the field is present and equals its token (`on` or `1`) |
| `FeatureEncoder.ToFloat` | app.py:64 | an `int` converts to `float` exactly when its magnitude is below `FLOAT_OVERFLOW`; otherwise the overflow message |
| `FeatureEncoder.PercentCan` | app.py:63-64 | a total of 0 or less gives 0; otherwise the result is `c / (total + 1e-10)` unless one of the two int-to-float conversions overflows; every failure says `int too large to convert to float` |
| `FeatureEncoder.PercentCanInUnitInterval` | app.py:63-64 | with non-negative counts the exact-real rate lies in [0, 1), and is 0 exactly when nothing was cancelled |
| `FeatureEncoder.PercentCanDefined` | app.py:64 | non-negative counts whose sum is below the overflow bound never fail |
| `FeatureEncoder.PercentCanNegativeCounts` | app.py:60-64 | negative counts, which `int()` accepts, push the rate below 0 or above 1 |
| `FeatureEncoder.PercentCanOverflow` | app.py:64 | a count at the overflow bound fails even with a total of 1; one below it does not |
| `FeatureEncoder.PercentCanExamples` | app.py:64 | no history gives 0; 3 of 10 and 1 of 10 give `3/(10+1e-10)` and `1/(10+1e-10)` |
| `FeatureEncoder.OneHot` | app.py:68-80 | one 0/1 indicator per category, set exactly where the category equals the value |
| `FeatureEncoder.OneHotCount` | app.py:68-80 | over distinct categories exactly one indicator is set when the value is a category, none otherwise |
| `FeatureEncoder.Market` | app.py:67-73 | four indicators, column i set exactly when the segment (default `Online`) is the i-th segment |
| `FeatureEncoder.Meal` | app.py:76-80 | two indicators, column i set exactly when the meal type (default `Meal Plan 1`) is the i-th type |
| `FeatureEncoder.MarketGroup` | app.py:67-73 | absent means `Online`; a known segment sets one column; a blank one sets none |
| `FeatureEncoder.MealGroup` | app.py:76-80 | absent means `Meal Plan 1`; a known type sets one column; a blank one sets none |
| `FeatureEncoder.FeatureOrderNames` | app.py:83-87 | the column order lists 14 distinct columns under the training-data names, in the order given |
| `FeatureEncoder.ReadFields` | app.py:37-64 | reading the form fails exactly when the cancellation rate fails, with the overflow message; on success the rate is that of the two counts |
| `FeatureEncoder.FeaturesDict` | app.py:89-104 | every column is a key; the rate, room type, market and meal entries are the record's values |
| `FeatureEncoder.Columns` | app.py:107 | the selection has one entry per name, each the dictionary's value for that name |
| `FeatureEncoder.Vector` | app.py:89-107 | selecting the named dictionary entries in training order gives the 14 values in column order |
| `FeatureEncoder.Encode` | app.py:37-107 | succeeds exactly when the cancellation rate does, then with 14 values; fails only with the overflow message |
| `FeatureEncoder.EncodeLayout` | app.py:37-107 | a successful encoding is the 14 field readings in column order |
| `FeatureEncoder.FieldRanges` | app.py:51-80 | flags and one-hot entries are 0 or 1, the room type is 1 to 7, and non-negative counts give an exact-real rate in [0, 1) |
| `FeatureEncoder.EncodeFailure` | app.py:60-64 | encoding fails exactly when the cancellation rate fails, with the overflow message, and only for a positive total |
| `FeatureEncoder.EncodeOverflow` | app.py:60-64 | a `prev_canceled` of at least 2^1024 - 2^970 (`FLOAT_OVERFLOW`), with no other count, makes the form fail |
| `FeatureEncoder.EncodeDefinedForNonnegativeCounts` | app.py:60-64 | non-negative counts whose sum is below `FLOAT_OVERFLOW` always encode |
| `FeatureEncoder.EncodeReadsOnlyUsedFields` | app.py:37-107 | two forms that agree on the eleven fields used give the same outcome |
| `FeatureEncoder.EncodeIgnoresOtherFields` | app.py:41-57 | setting or deleting any other field, including the booking id, the guest counts, the price and the weekend-day count, changes nothing |
| `FeatureEncoder.EncodeIgnoresUnusedFields` | app.py:41-57 | the booking id, guest counts, price and weekend-day fields, set or deleted, never change the outcome |
| `FeatureEncoder.EncodeEmptyForm` | app.py:37-107 | an empty form gives `[0,1,0,0,0,1,0,0,0,1,1,0,0,0]` |
| `FeatureEncoder.EncodeBlankForm` | app.py:37-107 | all used fields blank gives `[0,1,0,0,0,0,0,0,0,0,0,0,0,0]` |
| `FeatureEncoder.EncodeExampleForm` | app.py:37-107 | the filled-in sample reservation gives `[1,3,45,1,2,6,0,0,0,1,0,1,1/(10+1e-10),1]` |
| `FeatureEncoder.EncodeMalformedLeadTime` | app.py:38 | a lead time of `abc` is encoded as 0 |
| `Prediction.Label` | app.py:116 | any non-zero label reads `Not Cancelled`, 0 reads `Cancelled`, and neither looks like an error |
| `Prediction.ErrorText` | app.py:121 | the error text is `Error: ` followed by the exact message |
| `Prediction.Predict` | app.py:110-121 | the page shows one of the two labels or an error text |
| `Prediction.PredictOutcome` | app.py:110-121 | an encoding failure, a classifier exception and a label each give their own exact text |
| `Prediction.PredictErrorIff` | app.py:120-121 | the page shows an error exactly when encoding or the classifier raised |
| `Prediction.PredictConsultsEncodedVector` | app.py:110-113 | two classifiers that agree on 14-element vectors give the same page |
| `Prediction.PredictSkipsClassifierOnError` | app.py:110-121 | when encoding fails the classifier is never consulted and the page shows the overflow message |
| `Prediction.PredictOverflow` | app.py:120-121 | an oversized `prev_canceled` shows `Error: int too large to convert to float` whatever the classifier does |
| `Prediction.PredictExampleForm` | app.py:113-116 | the sample reservation is labelled by the classifier's answer on its vector |

## Left out

- The routes that only render templates (lines 10-16) and the main block that
  starts the server: they are web-framework plumbing.
- `render_template` itself: the model gives the `prediction` text the page is
  rendered with.
- Loading the pickled model (line 8) and `model.predict`: the classifier is the
  `classify` parameter, an arbitrary function from vectors to a label or an
  exception.
- Building the 1-by-14 numpy array (line 110): it is folded into that
  parameter. Any conversion problem numpy or the classifier meets surfaces as
  its `Raised` outcome.
- `safe_float` and `avg_price` (lines 31-35, 44): not modelled. They feed no
  column, and `float()` of a string either returns or raises `ValueError`,
  which `safe_float` catches. `EncodeIgnoresOtherFields` shows that
  `average_price` cannot affect the outcome.
- `booking_id`, `num_adults`, `num_children` and `weekend_days` (lines 41-43,
  57): not modelled as values. They are computed with `safe_int`, which never
  raises, and no column reads them.
- PyInt.ParseInt: the Unicode decimal digits and Unicode whitespace that
  `int()` also accepts are not modelled. The form text is treated as ASCII.
- PyInt.ParseInt: the interpreter's limit on the digit count of a string
  conversion is not modelled. That limit raises `ValueError`, read as 0 by
  `safe_int`; it depends on the interpreter version and its settings. With
  that limit, a count of more than 4300 digits reads as 0 rather than
  overflowing.
- FeatureEncoder.PercentCan: the quotient is an exact real, not the rounded
  IEEE double. `1e-10` is taken as the exact decimal. Floating point is
  modelled only where it changes control flow: the overflow threshold of the
  int-to-float conversion.
- FeatureEncoder.PercentCanInUnitInterval: the strict upper bound holds for the
  exact-real quotient only. In doubles, `c + nc + 1e-10` rounds back to `c + nc`
  once the total reaches 2^20 or so, so the program's rate is exactly 1.0 for
  `c` of 2^20 or more and `nc` of 0 (and near 1.0 for small `nc`).
  `FieldRanges` inherits the same gap.
- FeatureEncoder.Vector: entries are reals. Python's mix of `int` and `float`,
  and numpy's conversion to `float64`, are not modelled.
- Repeated form keys: the form holds one value per field. `request.form.get`
  returns the first value.
- The message of a classifier exception is whatever the parameter reports; the
  model does not fix it.
