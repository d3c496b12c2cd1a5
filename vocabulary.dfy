/**
  The closed lookup tables of the input form: each one translates an
  Indonesian display choice into the English vocabulary the model was
  trained on, and the select box offers exactly the table's keys.
 */
module Vocabulary {
  import opened Wrappers
  import opened Dict

  type Table = Dict<string>

  /** Display choice for biological sex -> training value. */
  const GenderMap: Table :=
    [("Laki-laki", "Male"), ("Perempuan", "Female")]

  /** Display choice for snacking frequency (CAEC) -> training value. */
  const CaecMap: Table :=
    [("Tidak", "no"), ("Kadang-kadang", "Sometimes"), ("Sering", "Frequently"), ("Selalu", "Always")]

  /** Display choice for alcohol frequency (CALC) -> training value. */
  const CalcMap: Table :=
    [("Tidak", "no"), ("Kadang-kadang", "Sometimes"), ("Sering", "Frequently"), ("Selalu", "Always")]

  /** Display choice for transport mode (MTRANS) -> training value. */
  const MtransMap: Table :=
    [("Mobil", "Automobile"), ("Motor", "Motorbike"), ("Sepeda", "Bike"),
     ("Transportasi Umum", "Public_Transportation"), ("Jalan Kaki", "Walking")]

  /** The options of the four yes/no radio buttons. */
  const YesNoOptions: seq<string> := ["yes", "no"]

  /** The training vocabulary of each categorical field. */
  const GenderVocabulary: set<string> := {"Male", "Female"}
  const FrequencyVocabulary: set<string> := {"no", "Sometimes", "Frequently", "Always"}
  const TransportVocabulary: set<string> := {"Automobile", "Motorbike", "Bike", "Public_Transportation", "Walking"}

  /**
    A table is closed over a vocabulary when no display choice is listed
    twice, distinct choices give distinct training values, and the values
    it yields are exactly the vocabulary.
   */
  ghost predicate Closed(t: Table, vocabulary: set<string>)
  {
    && Distinct(Keys(t))
    && Distinct(Values(t))
    && (forall i :: 0 <= i < |t| ==> t[i].1 in vocabulary)
    && (forall v :: v in vocabulary ==> v in Values(t))
  }

  /** Python's `table[choice]`: the training value, or a KeyError naming the choice. */
  function Translate(t: Table, choice: string): (r: Result<string, string>)
    ensures r.Ok? <==> choice in Keys(t)
    ensures r.Ok? ==> (choice, r.value) in t
    ensures r.Err? ==> r.error == choice
  {
    match Get(t, choice)
    case Some(v) => Ok(v)
    case None => Err(choice)
  }

  /** A yes/no answer becomes 1 exactly when it is "yes", and 0 otherwise. */
  function Binary(answer: string): (b: int)
    ensures b == 0 || b == 1
    ensures b == 1 <==> answer == "yes"
  {
    if answer == "yes" then 1 else 0
  }

  lemma GenderTableClosed()
    ensures Closed(GenderMap, GenderVocabulary)
  {
  }

  lemma CaecTableClosed()
    ensures Closed(CaecMap, FrequencyVocabulary)
  {
  }

  lemma CalcTableClosed()
    ensures Closed(CalcMap, FrequencyVocabulary)
  {
  }

  lemma MtransTableClosed()
    ensures Closed(MtransMap, TransportVocabulary)
  {
  }

  /**
    On a closed table every offered choice translates, into the vocabulary,
    and two choices that translate to the same value are the same choice.
   */
  lemma {:induction false} ClosedTranslation(t: Table, vocabulary: set<string>, a: string, b: string)
    requires Closed(t, vocabulary)
    requires a in Keys(t) && b in Keys(t)
    ensures Translate(t, a).Ok? && Translate(t, a).value in vocabulary
    ensures Translate(t, a) == Translate(t, b) ==> a == b
  {
    var i :| 0 <= i < |t| && t[i] == (a, Translate(t, a).value);
    var j :| 0 <= j < |t| && t[j] == (b, Translate(t, b).value);
    assert Values(t)[i] == t[i].1 && Values(t)[j] == t[j].1;
  }

  /** Snacking and alcohol frequency normalise identically for every choice. */
  lemma CaecAndCalcAgree(choice: string)
    ensures Translate(CaecMap, choice) == Translate(CalcMap, choice)
  {
  }
}
