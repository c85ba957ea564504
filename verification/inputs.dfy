/**
 The five form fields of the premium page, the widget bounds and defaults they are
 collected with, the truthiness guard in front of the summary and the prediction,
 and the feature encoder that turns a request into the model's input row.
 */
module Inputs {
  import opened Wrappers

  /** The two entries of the gender select box, in display order. */
  datatype Sex = Male | Female

  /** The two entries of the smoking-status select box, in display order. */
  datatype Smoker = No | Yes

  /** The values read from the form on one render of the page. Age and children
      come from integer number inputs, BMI from a decimal one. */
  datatype Request = Request(age: int, sex: Sex, bmi: real, children: int, smoker: Smoker)

  /** One row of the model's input: five numbers in a fixed order. */
  type Features = seq<real>

  const AgeMin: int := 18
  const AgeMax: int := 100
  const BmiMin: real := 10.0
  const BmiMax: real := 50.0
  const ChildrenMin: int := 0
  const ChildrenMax: int := 10

  /** Whether a request lies within the bounds the input widgets enforce. */
  predicate InWidgetRange(q: Request)
  {
    && AgeMin <= q.age <= AgeMax
    && BmiMin <= q.bmi <= BmiMax
    && ChildrenMin <= q.children <= ChildrenMax
  }

  /** The form as first rendered: each number input's `value`, and each select
      box's first entry. */
  function DefaultRequest(): (q: Request)
    ensures InWidgetRange(q)
    ensures q.sex == Male && q.smoker == No
  {
    Request(30, Male, 25.0, 0, No)
  }

  /** Python's truth value of an integer. */
  predicate IntTruthy(x: int)
  {
    x != 0
  }

  /** Python's truth value of a float. */
  predicate RealTruthy(x: real)
  {
    x != 0.0
  }

  /** The guard `age and bmi`, read as a condition. It decides whether the summary
      is shown and whether a press of the predict button reaches the model. It holds
      exactly when the age and BMI entries of the encoded row are both non-zero. */
  function Guard(q: Request): (b: bool)
    ensures b <==> q.age != 0 && q.bmi != 0.0
    ensures b <==> Encode(q)[0] != 0.0 && Encode(q)[2] != 0.0
  {
    IntTruthy(q.age) && RealTruthy(q.bmi)
  }

  /** Every request the widgets can produce passes the guard, so the error
      message is unreachable through the form itself. */
  lemma WidgetRangePassesGuard(q: Request)
    requires InWidgetRange(q)
    ensures Guard(q)
  {
  }

  /** A flag value: 1 for the distinguished entry, 0 for the other. */
  function Flag(b: bool): (v: real)
    ensures v == 0.0 || v == 1.0
    ensures v == 1.0 <==> b
  {
    if b then 1.0 else 0.0
  }

  /** The feature row `[age, gender, bmi, children, smoker_encoded]`: age, BMI and
      children pass through unchanged, gender is 1 exactly for Female and the smoker
      flag is 1 exactly for Yes. */
  function Encode(q: Request): (v: Features)
    ensures |v| == 5
    ensures v[0] == q.age as real && v[2] == q.bmi && v[3] == q.children as real
    ensures v[1] in {0.0, 1.0} && (v[1] == 1.0 <==> q.sex == Female)
    ensures v[4] in {0.0, 1.0} && (v[4] == 1.0 <==> q.smoker == Yes)
  {
    var gender := Flag(q.sex == Female);
    var smokerEncoded := Flag(q.smoker == Yes);
    [q.age as real, gender, q.bmi, q.children as real, smokerEncoded]
  }

  /** Whether a real number is an integer. */
  predicate Whole(x: real)
  {
    x == x.Floor as real
  }

  /** Reads a feature row back into a request; rows that no request encodes to
      (wrong length, fractional age or children, a flag other than 0 or 1) give
      `None`. */
  function Decode(v: Features): (r: Option<Request>)
    ensures r.Some? ==> Encode(r.value) == v
  {
    if |v| == 5 && Whole(v[0]) && v[1] in {0.0, 1.0} && Whole(v[3]) && v[4] in {0.0, 1.0} then
      Some(Request(v[0].Floor, if v[1] == 1.0 then Female else Male, v[2], v[3].Floor,
                   if v[4] == 1.0 then Yes else No))
    else
      None
  }

  /** Decoding undoes encoding, so the encoder loses nothing: every field of the
      request can be recovered from the row the model receives. */
  lemma DecodeEncode(q: Request)
    ensures Decode(Encode(q)) == Some(q)
  {
  }

  /** Distinct requests give distinct feature rows. */
  lemma EncodeInjective(q: Request, q': Request)
    requires Encode(q) == Encode(q')
    ensures q == q'
  {
  }

  /** A row is decoded exactly when some request encodes to it. */
  lemma DecodeDefinedExactlyOnImage(v: Features)
    ensures Decode(v).Some? <==> exists q :: Encode(q) == v
  {
  }
}
