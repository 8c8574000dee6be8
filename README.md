# Diabetes prediction page: session state model

The repository is a single Streamlit page (`app.py`). A user types a patient
name and seven health figures, presses "Predict Diabetes Risk", and the page
shows the classifier's verdict. It also keeps a per-session history of past
predictions in the sidebar, newest first, with a "Clear History" button.

The only state logic is the session store `st.session_state`. It holds two
keys:

- `history`: a list of prediction records. The predict handler appends to it
  in place. Initialisation and the clear button replace it by `[]`.
- `current_prediction`: either `None` or the last record produced.

This project models that store and the code that changes it:

- `wrappers.dfy`: `Option`, and `Key`, which tells a key that was never
  written apart from one that holds `None`.
- `prediction.dfy`: the record the predict handler builds. It holds the name
  as typed, `"Diabetic"` exactly for label 1 and `"Non-Diabetic"` otherwise,
  the age, the timestamp, and the confidence text, which is `"N/A"` when the
  model has no probability estimate.
- `history_view.dfy`: the sidebar's list, `reversed(history[-10:])`.
- `session.dfy`: the store as a value (`Store`) with one specification
  function per operation. It has the invariant `Coherent`, `AfterRerun` for
  one run of the script (initialisation first, then the handler of the button
  that was clicked), and `Replay` for a sequence of runs. The class
  `Session.Session` holds the two keys as fields. Its methods `Init`, `Clear`,
  `Submit` and `Rerun` update them in place, and each is proved equal to its
  specification function.

The classifier, the clock and the probability formatting are inputs. One click
of the predict button hands the handler a `Submission`: the name, the age, the
label the model returned, the timestamp text, and the formatted confidence
(`None` when the model lacks `predict_proba`).
If the classifier raises, the run stops before the append. The action
`PredictFailed` models that run: the store is left as initialisation left it,
and nothing is logged.

The name guard in the code is `not patient_name`. Only the empty string is
refused, and a name of spaces is accepted and stored unchanged.

## Model

| member | source | states |
|---|---|---|
| `Prediction.ResultStr` | app.py:181 | the result text is "Diabetic" if and only if the label is 1, and "Non-Diabetic" for every other label |
| `Prediction.BuildRecord` | app.py:175-189 | the record keeps the name, age and timestamp as given; its result is one of the two texts and is "Diabetic" exactly for label 1; its confidence is the model's text when it has one and "N/A" otherwise |
| `HistoryView.Newest` | app.py:91 | `history[-10:]`: the last min(n, length) elements, in their original positions |
| `HistoryView.Reverse` | app.py:91 | `reversed`: same length, entry k is the input's entry length-1-k |
| `HistoryView.RecentView` | app.py:89-91 | the sidebar list has min(10, length of history) entries and entry i is history[length-1-i], so the newest record comes first |
| `HistoryView.RecentViewEmpty` | app.py:89-103 | the list is empty exactly when the history is, which is when the "no predictions yet" notice shows |
| `HistoryView.RecentViewAfterAppend` | app.py:91 | after an append the new record heads the list and the previous list follows, shifted down by one, losing its oldest entry once ten are shown |
| `Session.Initialized` | app.py:34-38 | each key is written only when absent (history to `[]`, current to `None`); a present key keeps its value, so a second initialisation changes nothing; a fresh session ends up coherent |
| `Session.Cleared` | app.py:84-86 | whatever the prior state, history is `[]` and current is `None` afterwards |
| `Session.ClearIdempotent` | app.py:84-86 | clearing twice is the same as clearing once |
| `Session.Submitted` | app.py:169-193 | an empty name changes nothing; any other name appends exactly one record at the end, keeps all earlier records, and makes the current prediction that new last record, built from the submission; coherence is preserved |
| `Session.AfterRerun` | app.py:33-193 | one script run (initialisation, then at most one button handler) leaves a fresh or coherent session coherent; a run with no click, or whose prediction raised in the classifier, leaves the store exactly as initialisation left it |
| `Session.Replay` | app.py:33-193 | after one or more script runs, current is `None` exactly when history is empty, and otherwise it is the last record of history |
| `Session.ReplayHistory` | app.py:84-192 | after any runs, history is exactly the accepted submissions since the last clear, oldest first; failed predictions and empty names add nothing |
| `Session.Session.constructor` | app.py:34-37 | a new session's store holds neither key |
| `Session.Session.Init` | app.py:34-38 | the fields afterwards are `Initialized` of the fields before |
| `Session.Session.Clear` | app.py:84-86 | the fields afterwards are `Cleared` of the fields before |
| `Session.Session.Submit` | app.py:169-193 | the fields afterwards are `Submitted` of the fields before; it returns nothing exactly when the name is empty, and otherwise the record it appended, which is also the current prediction |
| `Session.Session.Rerun` | app.py:33-193 | the fields afterwards are `AfterRerun` of the fields before, through the calls to `Init`, `Clear` and `Submit` |

## Left out

- Page rendering: the page setup, CSS, the header, the result card, the help
  text and the widgets themselves are presentation only.
- Loading the model with joblib and the `EliteXGBoostPredictor` wrapper: the
  classifier is a foreign call. Its label is an input of `Submission`.
- The probability computation and its `{:.1%}` formatting: floating point.
  The formatted text, or its absence, is an input.
- `datetime.now().strftime(...)`: the clock is an input, the `timestamp` text.
- The feature table built with pandas: hypertension, heart disease, BMI,
  HbA1c, blood glucose and former smoking only feed the classifier, so they
  are not modelled. Age is modelled because the record stores it. The widget
  ranges are not preconditions, because no handler relies on them.
- The order within one run in which the sidebar is drawn before the predict
  handler runs, so the sidebar lags one run behind: a display timing effect.
  `RecentView` is stated over the history itself.
- Aliasing: in the code, `current_prediction` and the last history entry are
  the same dictionary object. The model holds them as equal values. Nothing
  mutates a record after it is built, so no behaviour differs.
- A script run interrupted between the two initialisation statements, which
  could leave only one key set: `AfterRerun` treats each run as complete.
