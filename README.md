# BMI calculator backend, modelled in Dafny

This project models the backend of the BMI calculator in
`bmi_backendwithgui.py`. The backend is a small, pure pipeline:

- **Unit conversion.** `convert_weight_to_kg` and `convert_height_to_meters`
  lower-case and strip the unit string and match it against a fixed set of
  spellings. A known unit scales the value; any other unit raises an error
  with a fixed message.
- **BMI formula.** `calculate_bmi` refuses a height of exactly zero and
  otherwise divides the weight by the squared height.
- **Classifier.** `bmi_category` maps a BMI to one of four labels.
- **Controller.** `bmi_backend` chains the steps. It returns either a
  dictionary of values rounded to two decimals, or `{"error": msg}` with the
  message of the first step that failed.

The model has one module per concern, and every operation is a function:

- `Results` holds the `Result` type. `Err(msg)` stands for a raised
  `ValueError` and, at the controller, for the `{"error": msg}` dictionary.
- `Text` is the ASCII `lower().strip()` normaliser.
- `Units` holds the two converters and reference tables of the accepted
  spellings with their factors.
- `Classifier` holds the formula, the `Category` datatype with its labels,
  and the classifier.
- `Backend` holds the controller, the `BmiRecord` result and `Round2` for
  `round(x, 2)`.

Numbers are exact `real`s: the Python floats are idealised. Each converter
is specified against its table. The classifier is specified band by band.
The controller is specified by the order in which it reports errors and by
the record it builds.

The classifier keeps the code's gap. A BMI in [24.9, 25.0) fails both the
"Normal Weight" and the "Overweight" tests and comes out "Obese"; the
model keeps that. It proves that the category is not monotone in the BMI,
and that this gap is the only place where the category goes down as the
BMI goes up.

## Model

| member | source | states |
|---|---|---|
| Text.LowerChar | bmi_backendwithgui.py:13 | a capital 'A'..'Z' becomes the same letter among 'a'..'z'; the lower-cased character is never upper case, is whitespace exactly when the original is, and is the original character when that was not upper case |
| Text.Lower | bmi_backendwithgui.py:13 | `lower()` keeps the length and lower-cases each character in place |
| Text.SkipSpaces | bmi_backendwithgui.py:13 | the first non-whitespace position at or after `i`, with only whitespace before it |
| Text.SkipSpacesBack | bmi_backendwithgui.py:13 | the end of the text once the trailing whitespace before `j` is dropped |
| Text.Strip | bmi_backendwithgui.py:13 | `strip()` leaves neither leading nor trailing whitespace and never lengthens the text |
| Text.Normalise | bmi_backendwithgui.py:26 | `lower().strip()` gives a trimmed string with no upper-case letter |
| Text.StripPadded | bmi_backendwithgui.py:13 | whitespace around a trimmed core strips to exactly that core |
| Text.StripDecompose | bmi_backendwithgui.py:13 | every string is its stripped core with only whitespace on either side |
| Text.StripIgnoresPadding | bmi_backendwithgui.py:13 | extra whitespace at either end does not change the result of `strip()` |
| Text.StripIdempotent | bmi_backendwithgui.py:13 | stripping twice is the same as stripping once |
| Text.NormaliseOfNormal | bmi_backendwithgui.py:15-19 | a lower-case, trimmed unit is compared exactly as written |
| Text.NormaliseIgnoresCase | bmi_backendwithgui.py:13 | two units that agree letter by letter up to ASCII case normalise alike |
| Text.NormaliseIgnoresPadding | bmi_backendwithgui.py:26 | whitespace around a unit does not change its normal form |
| Units.ConvertWeightToKg | bmi_backendwithgui.py:12-22 | a weight unit is accepted exactly when its normal form is "kg", "lbs", "pounds" or "lb"; the weight is then multiplied by that unit's kilograms; any other unit gives "Invalid weight unit. Use 'kg' or 'lbs'." |
| Units.ConvertHeightToMeters | bmi_backendwithgui.py:25-38 | a height unit is accepted exactly when its normal form is "m", "cm", "ft" or "feet"; the height is then multiplied by that unit's metres (1, 0.01, 0.3048); any other unit gives "Invalid height unit. Use 'cm', 'm', or 'ft'." |
| Units.AcceptedSpellings | bmi_backendwithgui.py:15-19 | every accepted spelling is already lower case and trimmed, so each can be reached |
| Units.WeightSeesOnlyNormalForm | bmi_backendwithgui.py:13 | two weight units with the same normal form convert alike |
| Units.HeightSeesOnlyNormalForm | bmi_backendwithgui.py:26 | two height units with the same normal form convert alike |
| Units.ConvertersIgnoreCaseAndPadding | bmi_backendwithgui.py:13-16 | both converters give the same result for a unit in any ASCII case with any surrounding whitespace |
| Units.PaddedUpperCaseKg | bmi_backendwithgui.py:13-16 | " KG " is kilograms: the weight comes back unchanged |
| Units.PoundsToKg | bmi_backendwithgui.py:18-19 | "lbs" multiplies the weight by 0.453592 |
| Units.StoneIsRefused | bmi_backendwithgui.py:21-22 | "stone" is refused with the weight-unit message |
| Units.CentimetresAndFeet | bmi_backendwithgui.py:31-35 | 100 cm is 1 m and 1 ft is 0.3048 m |
| Units.InchesAreRefused | bmi_backendwithgui.py:37-38 | "in" is refused with the height-unit message |
| Units.WeightConversionMonotone | bmi_backendwithgui.py:15-19 | an accepted weight conversion keeps the order of weights and maps zero, and only zero, to zero |
| Units.HeightConversionMonotone | bmi_backendwithgui.py:28-35 | an accepted height conversion keeps the order of heights, maps zero and only zero to zero, and keeps negative heights negative |
| Classifier.CalculateBmi | bmi_backendwithgui.py:44-47 | fails with "Height cannot be zero." exactly when the height is 0; otherwise the BMI times the squared height is the weight |
| Classifier.BmiIgnoresHeightSign | bmi_backendwithgui.py:47 | a height and its negation give the same outcome |
| Classifier.BmiHasSignOfWeight | bmi_backendwithgui.py:44-47 | for a non-zero height the BMI is negative or zero exactly when the weight is, so a negative weight, which is not refused, is "Underweight" |
| Classifier.BmiExample | bmi_backendwithgui.py:47 | 70 kg at 1.75 m gives 70 / 3.0625, between 22.857 and 22.858 |
| Classifier.BmiCategory | bmi_backendwithgui.py:50-62 | below 18.5 is Underweight; [18.5, 24.9) is Normal Weight; [25.0, 29.9) is Overweight; [24.9, 25.0) and 29.9 upwards are Obese, each an if-and-only-if |
| Classifier.Label | bmi_backendwithgui.py:52-62 | the string returned for each category is one of the four strings `bmi_category` returns |
| Classifier.EveryLabelIsReturned | bmi_backendwithgui.py:52-62 | each of the four strings is returned for some BMI |
| Classifier.LabelsDistinct | bmi_backendwithgui.py:52-62 | the four labels are distinct, so a label names exactly one category |
| Classifier.CategoryNotMonotone | bmi_backendwithgui.py:55-62 | some BMI gets a heavier category than a larger BMI |
| Classifier.OnlyTheGapInverts | bmi_backendwithgui.py:55-62 | whenever a larger BMI gets a lighter category, the smaller one lies in [24.9, 25.0) and the larger one is Overweight |
| Classifier.CategoryExamples | bmi_backendwithgui.py:52-62 | 18.0, 22.0, 24.95, 27.0 and 30.0 get Underweight, Normal Weight, Obese, Overweight and Obese |
| Backend.Round2 | bmi_backendwithgui.py:90-92 | `round(x, 2)` is a whole number of hundredths within 0.005 of `x`, and a tie goes to an even last digit |
| Backend.Round2OfCents | bmi_backendwithgui.py:90-92 | a value that is already a whole number of hundredths is left unchanged |
| Backend.Round2Nearest | bmi_backendwithgui.py:90-92 | no multiple of 0.01 is closer to `x` than its rounding |
| Backend.BmiBackend | bmi_backendwithgui.py:69-100 | an invalid weight unit is reported first, whatever the height unit; then an invalid height unit; then a zero height in metres; on success the record holds the rounded weight, height and BMI, with the label of the unrounded BMI |
| Backend.ZeroHeightIsTheOnlyLateError | bmi_backendwithgui.py:81-85 | with both units accepted, the controller fails exactly when the given height is zero, and then with the zero-height message |
| Backend.ErrorsAreTheStepMessages | bmi_backendwithgui.py:98-100 | every error the controller returns carries one of the three messages of its steps |
| Backend.BackendSeesOnlyNormalForms | bmi_backendwithgui.py:81-82 | unit strings with the same normal forms give the same controller outcome |
| Backend.ReportedBmiIsClose | bmi_backendwithgui.py:92 | the reported BMI is within 0.005 of the exact weight over squared height |
| Backend.SeventyKgAt175Cm | bmi_backendwithgui.py:69-96 | 70 "kg" and 175 "cm" give 70.0 kg, 1.75 m, BMI 22.86 and "Normal Weight" |
| Backend.DisplayedCategoryCanDisagree | bmi_backendwithgui.py:86-92 | 24.899 kg at 1 m is "Normal Weight" but is reported as 24.9, which the classifier calls "Obese": the label comes from the unrounded BMI |

## Left out

- The wxPython window (bmi_backendwithgui.py:105-175): frame, inputs, choices, buttons, event handlers and the main loop. This is user-interface code over a library outside this model.
- Parsing the input text with `float(...)` and the "Enter valid numbers" message. The model takes the numbers as already parsed.
- IEEE-754 arithmetic. Weights, heights and BMIs are exact reals, so `0.453592`, `0.3048` and `/ 100` are exact, and overflow, infinities and NaN do not arise.
- Classifier.CalculateBmi: refuses only a height of exactly zero. In Python a tiny non-zero height whose square underflows to 0.0 raises `ZeroDivisionError` ("float division by zero"), and a height of magnitude above about 1.34e154 makes `height_m ** 2` raise `OverflowError` ("(34, 'Numerical result out of range')"). The controller reports either message. Exact reals have neither underflow nor overflow.
- Backend.ErrorsAreTheStepMessages: holds for exact reals only. In Python the two float errors of `height_m ** 2` above reach the controller as a fourth and fifth message.
- Backend.Round2: rounds the exact real value half to even. Python's `round(x, 2)` rounds the binary double, so a decimal tie such as 2.675 (stored slightly below) may round differently.
- Text.Lower and Text.Strip: cover ASCII only. Python's `str.lower()` and `str.strip()` also lower-case non-ASCII letters and trim non-ASCII whitespace; for example KELVIN SIGN lower-cases to "k".
- Other exception types that `except Exception` would catch, such as a unit that is not a string. The typed model rules these out.
