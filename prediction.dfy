/**
 * The end of the `/predict` handler: the classifier's answer becomes the text
 * shown on the page, and any exception raised on the way becomes "Error: "
 * followed by its message.
 */
module Prediction {
  import opened Wrappers
  import opened PyInt
  import opened FeatureEncoder

  /**
   * What the trained classifier does with one feature vector once it is a 1-by-14
   * array: a class label, or an exception with its message.
   */
  datatype ClassifierOutcome = Predicted(answer: int) | Raised(message: string)

  type Classifier = seq<real> -> ClassifierOutcome

  const NOT_CANCELLED: string := "Not Cancelled"
  const CANCELLED: string := "Cancelled"
  const ERROR_PREFIX: string := "Error: "

  predicate IsError(text: string) {
    |ERROR_PREFIX| <= |text| && text[..|ERROR_PREFIX|] == ERROR_PREFIX
  }

  /** The label is used as a truth value, so every non-zero label reads "Not Cancelled". */
  function Label(prediction: int): (r: string)
    ensures r == NOT_CANCELLED <==> prediction != 0
    ensures r == CANCELLED <==> prediction == 0
    ensures !IsError(r)
  {
    assert NOT_CANCELLED[..|ERROR_PREFIX|][0] != ERROR_PREFIX[0];
    assert CANCELLED[..|ERROR_PREFIX|][0] != ERROR_PREFIX[0];
    if prediction != 0 then NOT_CANCELLED else CANCELLED
  }

  /** The `prediction` text the page is rendered with. */
  function Predict(form: Form, classify: Classifier): (r: string)
    ensures r == NOT_CANCELLED || r == CANCELLED || IsError(r)
  {
    match Encode(form)
    case Err(e) => ErrorText(e)
    case Ok(v) =>
      match classify(v)
      case Raised(m) => ErrorText(m)
      case Predicted(p) => Label(p)
  }

  /** `f"Error: {str(e)}"`. */
  function ErrorText(message: string): (r: string)
    ensures IsError(r)
    ensures r[|ERROR_PREFIX|..] == message
  {
    ERROR_PREFIX + message
  }

  /** The three outcomes, each in full. */
  lemma PredictOutcome(form: Form, classify: Classifier)
    ensures Encode(form).Err? ==> Predict(form, classify) == ERROR_PREFIX + Encode(form).message
    ensures Encode(form).Ok? && classify(Encode(form).value).Raised? ==>
      Predict(form, classify) == ERROR_PREFIX + classify(Encode(form).value).message
    ensures Encode(form).Ok? && classify(Encode(form).value).Predicted? ==>
      Predict(form, classify) == Label(classify(Encode(form).value).answer)
  {
  }

  /** The page shows an error exactly when encoding or the classifier raised. */
  lemma PredictErrorIff(form: Form, classify: Classifier)
    ensures IsError(Predict(form, classify)) <==>
      Encode(form).Err? || classify(Encode(form).value).Raised?
  {
  }

  /** The classifier is consulted only on the form's own 14-column vector. */
  lemma PredictConsultsEncodedVector(form: Form, c1: Classifier, c2: Classifier)
    requires forall v: seq<real> :: |v| == 14 ==> c1(v) == c2(v)
    ensures Predict(form, c1) == Predict(form, c2)
  {
    EncodeLayout(form);
  }

  /** When the form cannot be encoded the classifier makes no difference. */
  lemma PredictSkipsClassifierOnError(form: Form, c1: Classifier, c2: Classifier)
    requires Encode(form).Err?
    ensures Predict(form, c1) == Predict(form, c2) == ERROR_PREFIX + INT_TOO_LARGE
  {
  }

  /** An oversized cancellation count is reported as the float conversion's error. */
  lemma PredictOverflow(form: Form, n: int, classify: Classifier)
    requires n >= FLOAT_OVERFLOW
    requires "prev_canceled" in form && form["prev_canceled"] == ShowInt(n)
    requires "prev_not_canceled" !in form
    ensures Predict(form, classify) == ERROR_PREFIX + INT_TOO_LARGE
  {
    EncodeOverflow(form, n);
  }

  /** The filled-in reservation is labelled by whatever the classifier says of its vector. */
  lemma PredictExampleForm(classify: Classifier, answer: int)
    requires classify([1.0, 3.0, 45.0, 1.0, 2.0, 6.0, 0.0, 0.0, 0.0, 1.0, 0.0, 1.0, 1.0 / (10.0 + EPSILON), 1.0])
      == Predicted(answer)
    ensures Predict(EXAMPLE_FORM, classify) == if answer == 0 then "Cancelled" else "Not Cancelled"
  {
    EncodeExampleForm();
  }
}
