/**
 One render of the premium page: the input summary with its BMI category, and,
 when the predict button was pressed, either the missing-fields error or the
 model's estimate with its insights and tips. The trained model is a parameter.
 */
module Page {
  import opened Wrappers
  import opened Inputs
  import opened Insights

  /** The model's `predict`: a batch of feature rows in, a flat array of numbers
      out. It is taken to be total and deterministic; what it computes and how many
      values it returns are left open. */
  type Predictor = seq<Features> -> seq<real>

  /** The three metrics shown beside an estimate. */
  datatype Insight = Insight(age: Impact, bmi: Impact, smoking: SmokingImpact)

  datatype Outcome =
      /** The predict button was not pressed on this render. */
    | NotRequested
      /** The button was pressed but age or BMI is falsy: an error message is
          shown and the model is not consulted. */
    | MissingFields
      /** The model returned an empty array, so taking its first value fails. */
    | PredictorFailed
      /** The first value the model returned for the one-row batch, with the
          metrics and the optional tips section. */
    | Estimate(premium: real, insight: Insight, tips: Option<seq<Tip>>)

  /** What one render shows: the BMI category of the summary box (when the
      summary is shown), the batches handed to the model, and the outcome of the
      predict button. */
  datatype Render = Render(summary: Option<BmiCategory>, calls: seq<seq<Features>>, outcome: Outcome)

  /** The page script for one request, with `pressed` the state of the predict
      button. */
  function Run(q: Request, pressed: bool, predict: Predictor): (r: Render)
    ensures r.summary.Some? <==> Guard(q)
    ensures r.summary.Some? ==> InBand(r.summary.value, q.bmi)
    ensures |r.calls| <= 1
    ensures |r.calls| == 1 <==> pressed && Guard(q)
    ensures forall b :: b in r.calls ==> b == [Encode(q)]
    ensures r.outcome.NotRequested? <==> !pressed
    ensures r.outcome.MissingFields? <==> pressed && !Guard(q)
    ensures r.outcome.PredictorFailed? <==> |r.calls| == 1 && |predict(r.calls[0])| == 0
    ensures r.outcome.Estimate? ==>
              && |r.calls| == 1
              && 0 < |predict(r.calls[0])|
              && r.outcome.premium == predict(r.calls[0])[0]
              && r.outcome.insight == Insight(AgeImpact(q.age), BmiImpact(q.bmi), SmokingImpactOf(q.smoker))
              && r.outcome.tips == Tips(q)
  {
    var summary := if Guard(q) then Some(Categorize(q.bmi)) else None;
    if !pressed then
      Render(summary, [], NotRequested)
    else if !Guard(q) then
      Render(summary, [], MissingFields)
    else
      var batch := [Encode(q)];
      var values := predict(batch);
      if |values| == 0 then
        Render(summary, [batch], PredictorFailed)
      else
        var insight := Insight(AgeImpact(q.age), BmiImpact(q.bmi), SmokingImpactOf(q.smoker));
        Render(summary, [batch], Estimate(values[0], insight, Tips(q)))
  }

  /** The page depends on the model only through its answer to the one-row batch
      holding the encoded request. */
  lemma ModelSeesOnlyEncodedRow(q: Request, pressed: bool, p: Predictor, p': Predictor)
    requires p([Encode(q)]) == p'([Encode(q)])
    ensures Run(q, pressed, p) == Run(q, pressed, p')
  {
  }

  /** When the guard fails the model is not consulted: any two models give the same
      page, and a press of the button shows the error. */
  lemma NoPredictionWithoutGuard(q: Request, pressed: bool, p: Predictor, p': Predictor)
    requires !Guard(q)
    ensures Run(q, pressed, p) == Run(q, pressed, p')
    ensures Run(q, pressed, p).calls == []
    ensures pressed ==> Run(q, pressed, p).outcome == MissingFields
  {
  }

  /** Any request the widgets can produce reaches the model when the button is
      pressed. */
  lemma WidgetInputReachesModel(q: Request, p: Predictor)
    requires InWidgetRange(q)
    ensures Run(q, true, p).calls == [[Encode(q)]]
    ensures !Run(q, true, p).outcome.MissingFields?
  {
  }

  /** The summary box does not depend on the button or on the model. */
  lemma SummaryIndependentOfButton(q: Request, p: Predictor, p': Predictor)
    ensures Run(q, true, p).summary == Run(q, false, p').summary
  {
  }

  function Sum(v: seq<real>): real
  {
    if |v| == 0 then 0.0 else v[0] + Sum(v[1..])
  }

  /** A stand-in model that answers each row with the sum of its features. */
  function SumModel(batch: seq<Features>): (values: seq<real>)
    ensures |values| == |batch|
  {
    seq(|batch|, i requires 0 <= i < |batch| => Sum(batch[i]))
  }

  /** A forty-year-old male non-smoker with BMI 25 and two children is encoded
      as [40, 0, 25, 2, 0], so the summing model estimates 67. BMI 25 is category
      Overweight but impact Low, and no tips are shown. */
  lemma SumModelExample()
    ensures Encode(Request(40, Male, 25.0, 2, No)) == [40.0, 0.0, 25.0, 2.0, 0.0]
    ensures Run(Request(40, Male, 25.0, 2, No), true, SumModel)
         == Render(Some(Overweight), [[[40.0, 0.0, 25.0, 2.0, 0.0]]],
                   Estimate(67.0, Insight(Medium, Low, NoImpact), None))
  {
  }

  /** The markdown lines of the tips section: one bullet per tip, in list order. */
  method RenderTips(tips: seq<Tip>) returns (lines: seq<string>)
    ensures |lines| == |tips|
    ensures forall i :: 0 <= i < |tips| ==> lines[i] == "- " + tips[i].Text()
  {
    lines := [];
    for i := 0 to |tips|
      invariant |lines| == i
      invariant forall j :: 0 <= j < i ==> lines[j] == "- " + tips[j].Text()
    {
      lines := lines + ["- " + tips[i].Text()];
    }
  }
}
