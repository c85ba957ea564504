# Health insurance premium predictor — decision logic in Dafny

The premium predictor is a single Streamlit page. It reads five form fields (age,
gender, BMI, number of children, smoking status). When the "Predict Premium"
button is pressed, it hands the fields to a pre-trained regression model as one
fixed-order feature row and shows the model's estimate. Next to the estimate it
shows three qualitative impact metrics and, for some applicants, tips for
lowering the premium. Whenever age and BMI are both non-zero, a summary box shows the
BMI category with its colour.

This project models the pure decision logic of that page:

- `Inputs` (inputs.dfy): the request, the widget bounds and defaults, the `age and bmi`
  truthiness guard, and the feature encoder. `Decode` is the encoder's left inverse
  (`DecodeEncode`).
- `Thresholds` (thresholds.dfy): ordered boundary tables. This is a generic
  "last bound reached" classifier, read with `>=` or with `>`. The page's if/elif
  chains are checked against it.
- `Insights` (insights.dfy): the BMI category chain with its names and colours, the
  age, BMI and smoking impact tiers, and the tips section. `Select` is a reference
  filter over the ordered tip table.
- `Page` (page.dfy): one render of the page. The model's `predict` is a function
  parameter. The module also has the loop that emits one bullet per tip.
- `Wrappers` (wrappers.dfy): `Option`.

BMI is modelled as `real`. The code only compares BMI with decimal constants, so
no floating-point behaviour matters. Age and children are `int`. The feature row
is a `seq<real>` of length 5, with the integer fields widened.

## Model

| member | source | states |
|---|---|---|
| Inputs.DefaultRequest | app.py:109-118 | The form's initial values (age 30, BMI 25.0, Male, 0 children, non-smoker) lie inside the widget bounds. |
| Inputs.Guard | app.py:175 | The `age and bmi` guard (also app.py:210) is truthy exactly when age != 0 and bmi != 0.0. Equivalently, the age and BMI entries of the encoded row are both non-zero. |
| Inputs.Flag | app.py:212-213 | The `1 if … else 0` encoding is always 0 or 1, and it is 1 exactly when its condition holds. |
| Inputs.WidgetRangePassesGuard | app.py:109-116 | Every request within the widget bounds (age 18-100, BMI 10.0-50.0, children 0-10) passes the `age and bmi` guard. |
| Inputs.Encode | app.py:212-214 | The row has five entries in the order age, gender, BMI, children, smoker. Age, BMI and children pass through unchanged. Gender is a 0/1 flag that is 1 exactly for Female. The smoker flag is a 0/1 flag that is 1 exactly for Yes. |
| Inputs.Decode | app.py:212-214 | Any row that decodes to a request is exactly that request's encoding. |
| Inputs.DecodeEncode | app.py:212-214 | Decoding an encoded request gives back the request, so the encoding loses no field. |
| Inputs.EncodeInjective | app.py:212-214 | Distinct requests produce distinct feature rows. |
| Inputs.DecodeDefinedExactlyOnImage | app.py:212-214 | A row decodes if and only if some request encodes to it. |
| Thresholds.Level | app.py:189-200 | On an increasing table, the boundaries a value reaches form exactly a prefix of the table. |
| Thresholds.Classify | app.py:189-200 | A table lookup gives the base tier when the first bound is not reached. Otherwise it gives the tier of the last bound reached. |
| Thresholds.LevelMonotone | app.py:230-234 | A larger value reaches at least as many boundaries. |
| Thresholds.ClassifyMonotone | app.py:230-234 | When tiers are ranked in table order, the lookup is monotone in the value. |
| Insights.Categorize | app.py:189-200 | The chosen category's band contains the BMI: Underweight below 18.5, Normal in [18.5, 25), Overweight in [25, 30), Obese from 30 up. |
| Insights.CategoryPartition | app.py:189-200 | Exactly one category's band contains any given BMI, and that category is the chain's result. |
| Insights.CategorizeMatchesTable | app.py:189-200 | The chain equals the inclusive boundary table 18.5/25/30, so each boundary value goes to the higher band. |
| Insights.CategorizeMonotone | app.py:189-200 | A larger BMI never gets a lower category. |
| Insights.CategoryDisplayDistinct | app.py:189-200 | Different categories have different names and different colours. |
| Insights.AgeImpact | app.py:230 | The age impact is High if and only if age > 50. It is Medium if and only if 35 < age <= 50, and Low otherwise. |
| Insights.BmiImpact | app.py:234 | The BMI impact is High if and only if BMI > 30. It is Medium if and only if 25 < BMI <= 30, and Low otherwise. |
| Insights.SmokingImpactOf | app.py:238 | The smoking impact is "Very High" if and only if the applicant smokes, and "None" otherwise. |
| Insights.AgeImpactMatchesTable | app.py:230 | The age chain equals the strict boundary table 35/50, so a boundary age goes to the lower tier. |
| Insights.BmiImpactMatchesTable | app.py:234 | The BMI impact chain equals the strict boundary table 25/30. |
| Insights.AgeImpactMonotone | app.py:230 | An older applicant never gets a lower age impact. |
| Insights.BmiImpactMonotone | app.py:234 | A larger BMI never gets a lower BMI impact. |
| Insights.ImpactAndCategoryDisagreeAtBounds | app.py:234 | BMI 30 is category Obese but impact Medium. BMI 25 is category Overweight but impact Low. |
| Insights.Applies | app.py:245-249 | The smoking tip applies exactly when the smoker is Yes, which is also exactly when the smoking impact is "Very High". The weight tip applies exactly when BMI > 25, which is also exactly when the BMI impact is above Low. The check-up tip applies exactly when age > 40. |
| Insights.TipsShown | app.py:242 | The tips section is shown exactly when the smoking tip or the weight tip applies. Equivalently, the smoking impact is "Very High" or the BMI impact is above Low. |
| Insights.Select | app.py:244-251 | The filter keeps exactly the table's tips whose condition holds. When the table is in rank order, so is the result. It never lengthens the list. |
| Insights.Tips | app.py:242-251 | The section is present if and only if the applicant smokes or BMI > 25. When present, it holds 1 to 3 tips in the order smoking, weight, check-up, and each tip appears if and only if its own condition holds. |
| Insights.OrderedDeterminedByContents | app.py:244-251 | Two ordered tip lists with the same members are equal. |
| Insights.TipsAreSelection | app.py:242-251 | When the section is shown, its list is the ordered tip table filtered by the tips' conditions. |
| Insights.NoCheckUpWithoutSection | app.py:242-250 | A non-smoker with BMI <= 25 gets no tips, even when older than 40. |
| Page.Run | app.py:175-255 | The summary and its category appear if and only if the guard holds. The model gets at most one batch: exactly the one-row batch of the encoded request, and only when the button is pressed and the guard holds. When the button is pressed and the guard fails, the error is shown. An estimate is the model's first value for that batch, shown with the request's impact tiers and tips. |
| Page.ModelSeesOnlyEncodedRow | app.py:209-215 | Two models that agree on the encoded request's batch produce the same page. |
| Page.NoPredictionWithoutGuard | app.py:254-255 | When age or BMI is falsy, the model is not called and its choice does not matter. A press of the button shows the error. |
| Page.WidgetInputReachesModel | app.py:209-215 | For any request within the widget bounds, pressing the button hands the encoded row to the model. |
| Page.SummaryIndependentOfButton | app.py:175-200 | The summary box depends neither on the button nor on the model. |
| Page.SumModelExample | app.py:212-215 | With a model that sums each row, (40, Male, 25.0, 2, No) encodes to [40, 0, 25, 2, 0] and gets an estimate of 67. Its impacts are Medium, Low and None, and it gets no tips. |
| Page.RenderTips | app.py:252-253 | Each tip becomes one bullet line "- " followed by the tip's text. The bullets keep the list's order. |

## Left out

- Page layout, CSS, headers, sidebar, columns, spinner and metric widgets (app.py:6-89, 99-172, 257-263). These are presentation only. The model keeps only the values they display.
- Loading the model with `pickle.load` under `@st.cache_resource` (app.py:92-96). This is file I/O and framework caching. A missing or corrupt model file is a start-up failure outside this model.
- The internals of `model.predict` (app.py:215). The model is a function parameter, and what it computes is left open. Nothing is assumed about the sign of the premium; the code never checks it.
- Page.Run: `predict` is taken to be total and deterministic, and to return a flat array of numbers. A `predict` that raises, or a nested result on which the `:,.2f` formatting at app.py:220 would fail, lies outside the model.
- Currency formatting `${prediction:,.2f}` (app.py:220) and `{bmi:.1f}` (app.py:235). These are float-to-text formatting.
- The Reset button (app.py:132-133). It only re-runs the script, and whether the widgets return to their defaults is decided by the framework's widget state. `Inputs.DefaultRequest` records the initial values only.
- The "How it works" text and the sidebar BMI table (app.py:84-89, 137-147). These are static content. The sidebar shows the Normal band as "18.5 - 24.9". The code uses `bmi < 25`, and the model follows the code.
- Range validation of inputs. Only the `age and bmi` truthiness check guards the prediction. Out-of-range values reach the model whenever they are non-zero, and the model follows that code. The widget bounds appear only as `Inputs.InWidgetRange`.
- Python's `None` as a field value. Every number input is created with a `value`, so it always yields a number.
- Page.Run: the model's result is an array read with `[0]`. An empty array raises an uncaught exception in Python. Here that case is the outcome `PredictorFailed`.
