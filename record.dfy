/**
  Assembly of the single-row input record from the form's answers: the four
  categorical choices go through their lookup tables, the four yes/no
  answers become 1/0 and each of the five feature sliders passes through
  unchanged; the age slider is collected but not used.
 */
module FeatureRecord {
  import opened Wrappers
  import opened Dict
  import opened Vocabulary

  /** A cell of the record: a training-vocabulary string or an integer. */
  datatype Value = Text(s: string) | Num(n: int)

  type Record = Dict<Value>

  /** Everything the form collects, exactly as the widgets return it. */
  datatype Form = Form(
    genderId: string,
    familyHistoryId: string,
    favcId: string,
    caecId: string,
    smokeId: string,
    sccId: string,
    calcId: string,
    mtransId: string,
    ageVal: int,
    fcvcVal: int,
    ncpVal: int,
    ch2oVal: int,
    fafVal: int,
    tueVal: int)

  /** The keys of the record, in the order the dict literal lists them. */
  const RecordKeys: seq<string> :=
    ["Gender", "family_history_with_overweight", "FAVC", "FCVC", "NCP", "CAEC",
     "SMOKE", "CH2O", "SCC", "FAF", "TUE", "CALC", "MTRANS"]

  /** What the widgets can return: an offered option, or a slider value within its bounds. */
  ghost predicate FromWidgets(f: Form)
  {
    && f.genderId in Keys(GenderMap)
    && f.familyHistoryId in YesNoOptions
    && f.favcId in YesNoOptions
    && f.caecId in Keys(CaecMap)
    && f.smokeId in YesNoOptions
    && f.sccId in YesNoOptions
    && f.calcId in Keys(CalcMap)
    && f.mtransId in Keys(MtransMap)
    && 14 <= f.ageVal <= 65
    && 1 <= f.fcvcVal <= 3
    && 1 <= f.ncpVal <= 4
    && 1 <= f.ch2oVal <= 3
    && 0 <= f.fafVal <= 3
    && 0 <= f.tueVal <= 2
  }

  ghost predicate TextIn(rec: Record, k: string, vocabulary: set<string>)
  {
    Get(rec, k).Some? && Get(rec, k).value.Text? && Get(rec, k).value.s in vocabulary
  }

  ghost predicate NumIn(rec: Record, k: string, lo: int, hi: int)
  {
    Get(rec, k).Some? && Get(rec, k).value.Num? && lo <= Get(rec, k).value.n <= hi
  }

  /** The record has exactly the 13 keys, once each, and every field lies in its training domain. */
  ghost predicate InDomain(rec: Record)
  {
    && Keys(rec) == RecordKeys
    && TextIn(rec, "Gender", GenderVocabulary)
    && NumIn(rec, "family_history_with_overweight", 0, 1)
    && NumIn(rec, "FAVC", 0, 1)
    && NumIn(rec, "FCVC", 1, 3)
    && NumIn(rec, "NCP", 1, 4)
    && TextIn(rec, "CAEC", FrequencyVocabulary)
    && NumIn(rec, "SMOKE", 0, 1)
    && NumIn(rec, "CH2O", 1, 3)
    && NumIn(rec, "SCC", 0, 1)
    && NumIn(rec, "FAF", 0, 3)
    && NumIn(rec, "TUE", 0, 2)
    && TextIn(rec, "CALC", FrequencyVocabulary)
    && TextIn(rec, "MTRANS", TransportVocabulary)
  }

  /** The `input_data` literal of the prediction handler, given the four translated choices. */
  function Row(f: Form, gender: string, caec: string, alcohol: string, mtrans: string): (rec: Record)
    ensures Keys(rec) == RecordKeys
  {
    var rec := [
      ("Gender", Text(gender)),
      ("family_history_with_overweight", Num(Binary(f.familyHistoryId))),
      ("FAVC", Num(Binary(f.favcId))),
      ("FCVC", Num(f.fcvcVal)),
      ("NCP", Num(f.ncpVal)),
      ("CAEC", Text(caec)),
      ("SMOKE", Num(Binary(f.smokeId))),
      ("CH2O", Num(f.ch2oVal)),
      ("SCC", Num(Binary(f.sccId))),
      ("FAF", Num(f.fafVal)),
      ("TUE", Num(f.tueVal)),
      ("CALC", Text(alcohol)),
      ("MTRANS", Text(mtrans))
    ];
    assert forall i :: 0 <= i < |rec| ==> Keys(rec)[i] == RecordKeys[i];
    rec
  }

  /**
    The record assembled from the form. The lookups run in the order the
    dict literal lists them (Gender, CAEC, CALC, MTRANS), so the first
    choice missing from its table is the one the KeyError names.
   */
  function Assemble(f: Form): (r: Result<Record, string>)
    ensures r.Ok? <==>
      f.genderId in Keys(GenderMap) && f.caecId in Keys(CaecMap) && f.calcId in Keys(CalcMap) && f.mtransId in Keys(MtransMap)
    ensures r.Err? ==> (r.error == (
      if f.genderId !in Keys(GenderMap) then f.genderId
      else if f.caecId !in Keys(CaecMap) then f.caecId
      else if f.calcId !in Keys(CalcMap) then f.calcId
      else f.mtransId))
    ensures r.Ok? ==> Keys(r.value) == RecordKeys
  {
    match Translate(GenderMap, f.genderId)
    case Err(e) => Err(e)
    case Ok(gender) =>
      match Translate(CaecMap, f.caecId)
      case Err(e) => Err(e)
      case Ok(caec) =>
        match Translate(CalcMap, f.calcId)
        case Err(e) => Err(e)
        case Ok(alcohol) =>
          match Translate(MtransMap, f.mtransId)
          case Err(e) => Err(e)
          case Ok(mtrans) => Ok(Row(f, gender, caec, alcohol, mtrans))
  }

  /** The record keys are listed once each, and the age the form collects is not one of them. */
  lemma RecordKeysDistinct()
    ensures Distinct(RecordKeys)
    ensures "Age" !in RecordKeys
  {
  }

  /** Each key of the row holds the value the dict literal puts under it. */
  lemma RowFields(f: Form, gender: string, caec: string, alcohol: string, mtrans: string)
    ensures var rec := Row(f, gender, caec, alcohol, mtrans);
      && Get(rec, "Gender") == Some(Text(gender))
      && Get(rec, "family_history_with_overweight") == Some(Num(Binary(f.familyHistoryId)))
      && Get(rec, "FAVC") == Some(Num(Binary(f.favcId)))
      && Get(rec, "FCVC") == Some(Num(f.fcvcVal))
      && Get(rec, "NCP") == Some(Num(f.ncpVal))
      && Get(rec, "CAEC") == Some(Text(caec))
      && Get(rec, "SMOKE") == Some(Num(Binary(f.smokeId)))
      && Get(rec, "CH2O") == Some(Num(f.ch2oVal))
      && Get(rec, "SCC") == Some(Num(Binary(f.sccId)))
      && Get(rec, "FAF") == Some(Num(f.fafVal))
      && Get(rec, "TUE") == Some(Num(f.tueVal))
      && Get(rec, "CALC") == Some(Text(alcohol))
      && Get(rec, "MTRANS") == Some(Text(mtrans))
  {
    var rec := Row(f, gender, caec, alcohol, mtrans);
    RecordKeysDistinct();
    GetAt(rec, 0); GetAt(rec, 1); GetAt(rec, 2); GetAt(rec, 3); GetAt(rec, 4);
    GetAt(rec, 5); GetAt(rec, 6); GetAt(rec, 7); GetAt(rec, 8); GetAt(rec, 9);
    GetAt(rec, 10); GetAt(rec, 11); GetAt(rec, 12);
  }

  /**
    For every form whose four choices are table keys, the record is built;
    each choice is translated through its table, each yes/no answer is 1
    exactly when it is "yes", and each of the five feature sliders is copied
    unchanged.
   */
  lemma AssembleFields(f: Form)
    requires f.genderId in Keys(GenderMap) && f.caecId in Keys(CaecMap)
    requires f.calcId in Keys(CalcMap) && f.mtransId in Keys(MtransMap)
    ensures Assemble(f).Ok?
    ensures var rec := Assemble(f).value;
      && Get(rec, "Gender") == Some(Text(Translate(GenderMap, f.genderId).value))
      && Get(rec, "family_history_with_overweight") == Some(Num(if f.familyHistoryId == "yes" then 1 else 0))
      && Get(rec, "FAVC") == Some(Num(if f.favcId == "yes" then 1 else 0))
      && Get(rec, "FCVC") == Some(Num(f.fcvcVal))
      && Get(rec, "NCP") == Some(Num(f.ncpVal))
      && Get(rec, "CAEC") == Some(Text(Translate(CaecMap, f.caecId).value))
      && Get(rec, "SMOKE") == Some(Num(if f.smokeId == "yes" then 1 else 0))
      && Get(rec, "CH2O") == Some(Num(f.ch2oVal))
      && Get(rec, "SCC") == Some(Num(if f.sccId == "yes" then 1 else 0))
      && Get(rec, "FAF") == Some(Num(f.fafVal))
      && Get(rec, "TUE") == Some(Num(f.tueVal))
      && Get(rec, "CALC") == Some(Text(Translate(CalcMap, f.calcId).value))
      && Get(rec, "MTRANS") == Some(Text(Translate(MtransMap, f.mtransId).value))
  {
    RowFields(f, Translate(GenderMap, f.genderId).value, Translate(CaecMap, f.caecId).value,
      Translate(CalcMap, f.calcId).value, Translate(MtransMap, f.mtransId).value);
  }

  /** For answers the widgets can give, every field of the record lies in its training domain. */
  lemma AssembleInDomain(f: Form)
    requires FromWidgets(f)
    ensures Assemble(f).Ok? && InDomain(Assemble(f).value)
  {
    AssembleFields(f);
    GenderTableClosed();
    CaecTableClosed();
    CalcTableClosed();
    MtransTableClosed();
    ClosedTranslation(GenderMap, GenderVocabulary, f.genderId, f.genderId);
    ClosedTranslation(CaecMap, FrequencyVocabulary, f.caecId, f.caecId);
    ClosedTranslation(CalcMap, FrequencyVocabulary, f.calcId, f.calcId);
    ClosedTranslation(MtransMap, TransportVocabulary, f.mtransId, f.mtransId);
  }

  /** The age slider has no influence on the record. */
  lemma AssembleIgnoresAge(f: Form, age: int)
    ensures Assemble(f.(ageVal := age)) == Assemble(f)
  {
  }
}
