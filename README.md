# Obesity-category prediction form: the deterministic core

This project models the deterministic part of a small form application. The application predicts a
weight-status category from a person's lifestyle answers. The whole program is one script, `app.py`,
and the model covers its four deterministic steps:

1. **Input normalisation** (`Vocabulary`, `FeatureRecord`). Four lookup tables translate the
   Indonesian display choices into the English vocabulary the model was trained on: sex, snacking
   frequency (CAEC), alcohol frequency (CALC) and transport mode (MTRANS). Four yes/no answers become
   1/0, five slider values (FCVC, NCP, CH2O, FAF, TUE) are copied unchanged, and the age slider is
   collected but not used. Together they form a 13-key record. Each Python
   dict literal (both the tables and the record) is modelled as an insertion-ordered list of
   (key, value) pairs (`Dict`), whose key order is what `list(table.keys())`, the option list of the
   select box, returns. A table lookup on a missing key is a `KeyError`, modelled as an error result.
2. **Column projection** (`Projection`). `input_df[feature_columns]` builds the frame with exactly the
   canonical columns, in their order, taking each value by name from the record. It fails with a
   `KeyError` that lists every missing name.
3. **Label rendering and severity tier** (`Presentation`). Underscores in the decoded label become
   spaces. A priority-ordered substring test ("Insufficient", then "Normal", then "Overweight", else
   obesity) picks one of four messages, and each message has a tier: success, warning or error.
4. **The inference chain** (`Inference`). The four fitted stages are function-valued fields of a
   generic `Bundle` and their internals are not modelled. The stage types (`Frame -> X`, `X -> Y`,
   `Y -> C`, `C -> seq<string>`) are generic, so only the order transformer, scaler, model, encoder
   type-checks. `Infer` is exactly that composition. A failed artifact load is `None` and stops the
   press before anything else runs.

Everything is a pure function, so two presses with the same form and the same bundle give the same
result by construction.

What the script does, and the model keeps:

- Unmapped choices, missing columns and an empty encoder output surface as the `KeyError` /
  `IndexError` that Python raises; the model gives each its own `Failure` constructor.
- The load check is `model is None`. A failed load returns five `None`s, modelled as
  `Option<Bundle>`.
- The five feature slider values are copied as they are. The bounds appear only in `FromWidgets`, the predicate
  that describes what the widgets can return.
- The decoded label is classified whatever it is, so `Predict` accepts any label. `KnownLabels` lists the seven labels of the training data: `Insufficient_Weight`,
  `Normal_Weight`, `Overweight_Level_I`, `Overweight_Level_II`, `Obesity_Type_I`, `Obesity_Type_II`
  and `Obesity_Type_III`. The tier is proved for each of them. Note that `app.py` does not list these
  labels itself.

## Model

| member | source | states |
|---|---|---|
| `Vocabulary.Translate` | app.py:79-91 | a table lookup succeeds exactly when the choice is a key; the result is that key's value; otherwise the KeyError names the choice |
| `Vocabulary.Binary` | app.py:80-87 | a yes/no answer becomes 1 exactly when it is "yes", and 0 otherwise; the result is always 0 or 1 |
| `Vocabulary.GenderTableClosed` | app.py:46-52 | the sex table lists each display choice once; distinct choices give distinct values; its values are exactly {Male, Female} |
| `Vocabulary.CaecTableClosed` | app.py:47-55 | the snacking table lists each choice once and is injective; its values are exactly {no, Sometimes, Frequently, Always} |
| `Vocabulary.CalcTableClosed` | app.py:48-58 | the alcohol table lists each choice once and is injective; its values are exactly {no, Sometimes, Frequently, Always} |
| `Vocabulary.MtransTableClosed` | app.py:49-59 | the transport table lists each choice once and is injective; its values are exactly the five transport modes |
| `Vocabulary.ClosedTranslation` | app.py:46-49 | on a closed table every offered choice translates into the vocabulary, and two choices with the same translation are the same choice |
| `Vocabulary.CaecAndCalcAgree` | app.py:47-48 | snacking and alcohol frequency normalise identically for every display choice, including unknown ones |
| `FeatureRecord.Row` | app.py:78-92 | the record literal has exactly the 13 keys, in the order the literal lists them |
| `FeatureRecord.Assemble` | app.py:78-92 | assembly succeeds exactly when all four choices are table keys; otherwise it fails with the first missing choice, in the literal's evaluation order (Gender, CAEC, CALC, MTRANS); on success the keys are the 13 record keys |
| `FeatureRecord.RecordKeysDistinct` | app.py:64-92 | the 13 record keys are pairwise distinct, and the collected age is not one of them |
| `FeatureRecord.RowFields` | app.py:78-92 | each key of the record holds the value that the literal puts under it |
| `FeatureRecord.AssembleFields` | app.py:64-92 | for every form whose four choices are table keys, each choice goes through its own table, each yes/no field is 1 exactly for "yes", and each of the five feature sliders is copied unchanged |
| `FeatureRecord.AssembleInDomain` | app.py:46-92 | for widget answers, the record has exactly the 13 keys, and every field lies in its training domain (vocabulary sets, 0/1, FCVC 1-3, NCP 1-4, CH2O 1-3, FAF 0-3, TUE 0-2) |
| `FeatureRecord.AssembleIgnoresAge` | app.py:64-92 | changing the age slider does not change the record |
| `Projection.Project` | app.py:96 | the selection succeeds exactly when every canonical name is a record key; the frame's columns are the canonical list in order, and each cell is the record's value under that name; otherwise the error lists exactly the missing names |
| `Projection.ProjectionIgnoresRecordOrder` | app.py:93-96 | two records that hold the same value under every name project to the same frame or the same error, whatever their assembly order |
| `Projection.ProjectOwnKeys` | app.py:93-96 | selecting a record's own keys in their own order returns its cells unchanged |
| `Presentation.Render` | app.py:112 | the rendered text has the label's length, each "_" becomes " ", every other character is unchanged, and no "_" remains |
| `Presentation.ContainsIff` | app.py:113-117 | the substring test holds exactly when the pattern occurs at some position of the text |
| `Presentation.TierOf` | app.py:113-120 | the two lightest branches are success, the overweight branch is warning, and the obesity branch is error |
| `Presentation.Classify` | app.py:113-120 | each branch is taken exactly when its test holds and every earlier test fails, so exactly one branch fires |
| `Presentation.SeverityByPriority` | app.py:113-120 | the tier is success exactly when the text contains "Insufficient" or "Normal"; warning exactly when neither holds and it contains "Overweight"; error exactly when none holds |
| `Presentation.RenderKeepsMatches` | app.py:112-117 | replacing underscores neither creates nor destroys an occurrence of a pattern without "_" or " " |
| `Presentation.RenderKeepsCategory` | app.py:112-120 | the rendered text takes the same branch as the raw label |
| `Presentation.KnownLabelCategories` | app.py:113-120 | over the seven fitted labels, the branches are exhaustive: underweight, ideal, two overweight, three obesity; the else branch is reached only by the obesity labels |
| `Presentation.KnownLabelTiers` | app.py:112-120 | each fitted label, once rendered, is shown with tier success, success, warning, warning, error, error, error |
| `Presentation.OverweightExample` | app.py:117-118 | "Overweight Level I" gives a warning |
| `Presentation.ObesityExample` | app.py:119-120 | "Obesity Type III" gives an error |
| `Presentation.NormalExample` | app.py:115-116 | "Normal Weight" gives a success |
| `Inference.ModelInput` | app.py:78-96 | the transformer's input exists exactly when assembly succeeds and every canonical name is a record key; its columns are the canonical list, and each cell is the record's value under that name; an assembly KeyError and a missing-column KeyError are reported as such |
| `Inference.Present` | app.py:106-120 | the result fails exactly when the encoder yields no label; otherwise it takes the first label, its text is that label rendered (no underscores, same length), and its branch and tier are those of the label |
| `Inference.Predict` | app.py:72-120 | a failed load stops the press; a normalisation or projection failure is its result; once the frame is built the press succeeds exactly when the chain yields a label, and fails with the missing-label error (the script's IndexError) exactly when it yields none; a success shows the first label of transformer, scaler, model and encoder applied in that order to the projected frame, rendered, with the branch and tier of that label |
| `Inference.WidgetInputReachesModel` | app.py:52-106 | for widget answers and a canonical list drawn from the record keys, the frame reaches the transformer with the canonical columns and a record in its domain, and the press fails only when the encoder yields no label |
| `Inference.KnownLabelPrediction` | app.py:99-120 | whatever stages are loaded, a first decoded label from the fitted vocabulary is shown with that label's tier |
| `Inference.PredictIgnoresAge` | app.py:64-106 | the age slider has no influence on the prediction |

## Left out

- Widgets and display calls (page config, title, select boxes, radios, sliders, the button,
  `st.success` / `st.warning` / `st.error` and their message strings): these are user interface. Only
  the option lists and slider bounds are modelled, in `FromWidgets`.
- Loading the pickled artifacts, the `FileNotFoundError` handler and the caching decorator: this is
  file I/O, modelled only as an optional `Bundle`. Other unpickling errors, which the code does not
  catch, are not modelled.
- The internals of the fitted transformer, scaler, classifier and label encoder: these are
  floating-point library code, modelled as opaque function parameters. A stage that raises is not
  modelled, because the stages are total functions.
- pandas DataFrame mechanics beyond the single-row, name-indexed column selection.
- `Inference.Infer` has no contract of its own: it is the bare composition, and `Predict` and
  `KnownLabelPrediction` state what it is used for.
