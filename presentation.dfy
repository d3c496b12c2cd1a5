/**
  What the result screen does with the decoded label: underscores become
  spaces, and a priority-ordered substring test picks the message and its
  severity tier.
 */
module Presentation {

  /** `label.replace("_", " ")` on the decoded label. */
  function Render(decoded: string): (text: string)
    ensures |text| == |decoded|
    ensures forall i :: 0 <= i < |decoded| ==> text[i] == (if decoded[i] == '_' then ' ' else decoded[i])
    ensures '_' !in text
  {
    if decoded == [] then []
    else [if decoded[0] == '_' then ' ' else decoded[0]] + Render(decoded[1..])
  }

  /** `pattern` occurs in `text` starting at position `i`. */
  ghost predicate OccursAt(text: string, pattern: string, i: int)
  {
    0 <= i && i + |pattern| <= |text| && text[i..i + |pattern|] == pattern
  }

  /** Python's `pattern in text`, tried at each starting position in turn. */
  function Contains(text: string, pattern: string): bool
  {
    (|pattern| <= |text| && text[..|pattern|] == pattern)
    || (text != [] && Contains(text[1..], pattern))
  }

  /** `Contains` holds exactly when the pattern occurs at some position. */
  lemma {:induction false} ContainsIff(text: string, pattern: string)
    ensures Contains(text, pattern) <==> exists i :: OccursAt(text, pattern, i)
  {
    if |pattern| <= |text| && text[..|pattern|] == pattern {
      assert OccursAt(text, pattern, 0);
    } else if text != [] {
      var tail := text[1..];
      ContainsIff(tail, pattern);
      if exists i :: OccursAt(tail, pattern, i) {
        var i :| OccursAt(tail, pattern, i);
        assert text[i + 1..i + 1 + |pattern|] == tail[i..i + |pattern|];
        assert OccursAt(text, pattern, i + 1);
      }
      if exists i :: OccursAt(text, pattern, i) {
        var i :| OccursAt(text, pattern, i);
        assert i != 0;
        assert tail[i - 1..i - 1 + |pattern|] == text[i..i + |pattern|];
        assert OccursAt(tail, pattern, i - 1);
      }
    }
  }

  /** A pattern holding a character the text lacks does not occur in it. */
  lemma AbsentCharacter(text: string, pattern: string, c: char)
    requires c in pattern && c !in text
    ensures !Contains(text, pattern)
  {
    ContainsIff(text, pattern);
  }

  /** A text starting with the pattern contains it. */
  lemma StartsWith(text: string, pattern: string)
    requires |pattern| <= |text| && text[..|pattern|] == pattern
    ensures Contains(text, pattern)
  {
  }

  /** The four branches of the result message. */
  datatype Category = Underweight | Ideal | Excess | Obese

  /** The severity of the message each branch shows. */
  datatype Tier = Success | Warning | Error

  function TierOf(c: Category): (t: Tier)
    ensures t == Success <==> c == Underweight || c == Ideal
    ensures t == Warning <==> c == Excess
  {
    match c
    case Underweight => Success
    case Ideal => Success
    case Excess => Warning
    case Obese => Error
  }

  /** The if/elif chain on the rendered text: "Insufficient", then "Normal", then "Overweight", else obesity. */
  function Classify(text: string): (c: Category)
    ensures c == Underweight <==> Contains(text, "Insufficient")
    ensures c == Ideal <==> !Contains(text, "Insufficient") && Contains(text, "Normal")
    ensures c == Excess <==> !Contains(text, "Insufficient") && !Contains(text, "Normal") && Contains(text, "Overweight")
    ensures c == Obese <==> !Contains(text, "Insufficient") && !Contains(text, "Normal") && !Contains(text, "Overweight")
  {
    if Contains(text, "Insufficient") then Underweight
    else if Contains(text, "Normal") then Ideal
    else if Contains(text, "Overweight") then Excess
    else Obese
  }

  /** The severity tier the screen shows for a rendered text. */
  function Severity(text: string): Tier
  {
    TierOf(Classify(text))
  }

  /** The tier is decided by the priority order of the three substring tests, one tier per text. */
  lemma SeverityByPriority(text: string)
    ensures Severity(text) == Success <==> Contains(text, "Insufficient") || Contains(text, "Normal")
    ensures Severity(text) == Warning <==>
      !Contains(text, "Insufficient") && !Contains(text, "Normal") && Contains(text, "Overweight")
    ensures Severity(text) == Error <==>
      !Contains(text, "Insufficient") && !Contains(text, "Normal") && !Contains(text, "Overweight")
  {
  }

  /** The labels the label encoder was fitted on. */
  const KnownLabels: seq<string> :=
    ["Insufficient_Weight", "Normal_Weight", "Overweight_Level_I", "Overweight_Level_II",
     "Obesity_Type_I", "Obesity_Type_II", "Obesity_Type_III"]

  /**
    Turning underscores into spaces neither creates nor destroys an
    occurrence of a pattern that has neither character.
   */
  lemma RenderKeepsMatches(decoded: string, pattern: string)
    requires '_' !in pattern && ' ' !in pattern
    ensures Contains(Render(decoded), pattern) <==> Contains(decoded, pattern)
  {
    var text := Render(decoded);
    ContainsIff(text, pattern);
    ContainsIff(decoded, pattern);
    forall i | OccursAt(decoded, pattern, i) ensures OccursAt(text, pattern, i) {
      forall k | 0 <= k < |pattern| ensures text[i + k] == pattern[k] {
        assert decoded[i + k] == pattern[k];
      }
      assert text[i..i + |pattern|] == pattern;
    }
    forall i | OccursAt(text, pattern, i) ensures OccursAt(decoded, pattern, i) {
      forall k | 0 <= k < |pattern| ensures decoded[i + k] == pattern[k] {
        assert text[i + k] == pattern[k];
      }
      assert decoded[i..i + |pattern|] == pattern;
    }
  }

  /** The rendered text falls in the same branch as the decoded label itself. */
  lemma RenderKeepsCategory(decoded: string)
    ensures Classify(Render(decoded)) == Classify(decoded)
  {
    RenderKeepsMatches(decoded, "Insufficient");
    RenderKeepsMatches(decoded, "Normal");
    RenderKeepsMatches(decoded, "Overweight");
  }

  /** An obesity label, which holds none of the three words, falls in the last branch. */
  lemma ObeseLabel(decoded: string)
    requires 'f' !in decoded && 'N' !in decoded && 'w' !in decoded
    ensures Classify(decoded) == Obese
  {
    AbsentCharacter(decoded, "Insufficient", 'f');
    AbsentCharacter(decoded, "Normal", 'N');
    AbsentCharacter(decoded, "Overweight", 'w');
  }

  /** A normal-weight label falls in the second branch. */
  lemma IdealLabel(decoded: string)
    requires 'f' !in decoded
    requires 6 <= |decoded| && decoded[..6] == "Normal"
    ensures Classify(decoded) == Ideal
  {
    AbsentCharacter(decoded, "Insufficient", 'f');
    StartsWith(decoded, "Normal");
  }

  /** An overweight label falls in the third branch. */
  lemma OverweightLabel(decoded: string)
    requires 'f' !in decoded && 'N' !in decoded
    requires 10 <= |decoded| && decoded[..10] == "Overweight"
    ensures Classify(decoded) == Excess
  {
    AbsentCharacter(decoded, "Insufficient", 'f');
    AbsentCharacter(decoded, "Normal", 'N');
    StartsWith(decoded, "Overweight");
  }

  // The branch each fitted label falls in, one label at a time.
  lemma InsufficientWeightBranch() ensures Classify(KnownLabels[0]) == Underweight {
    StartsWith(KnownLabels[0], "Insufficient");
  }
  lemma NormalWeightBranch() ensures Classify(KnownLabels[1]) == Ideal {
    IdealLabel(KnownLabels[1]);
  }
  lemma OverweightLevelIBranch() ensures Classify(KnownLabels[2]) == Excess {
    OverweightLabel(KnownLabels[2]);
  }
  lemma OverweightLevelIIBranch() ensures Classify(KnownLabels[3]) == Excess {
    OverweightLabel(KnownLabels[3]);
  }
  lemma ObesityTypeIBranch() ensures Classify(KnownLabels[4]) == Obese {
    ObeseLabel(KnownLabels[4]);
  }
  lemma ObesityTypeIIBranch() ensures Classify(KnownLabels[5]) == Obese {
    ObeseLabel(KnownLabels[5]);
  }
  lemma ObesityTypeIIIBranch() ensures Classify(KnownLabels[6]) == Obese {
    ObeseLabel(KnownLabels[6]);
  }

  /**
    Over the fitted label vocabulary the chain is exhaustive: the first
    label is underweight, the second ideal, the next two overweight, and
    the last branch is reached by the three obesity labels.
   */
  lemma KnownLabelCategories(i: nat)
    requires i < |KnownLabels|
    ensures Classify(KnownLabels[i]) ==
      if i == 0 then Underweight else if i == 1 then Ideal else if i <= 3 then Excess else Obese
  {
    match i
    case 0 => InsufficientWeightBranch();
    case 1 => NormalWeightBranch();
    case 2 => OverweightLevelIBranch();
    case 3 => OverweightLevelIIBranch();
    case 4 => ObesityTypeIBranch();
    case 5 => ObesityTypeIIBranch();
    case 6 => ObesityTypeIIIBranch();
  }

  /**
    The screen shows the two lightest labels as a success, the two
    overweight labels as a warning and the three obesity labels as an error.
   */
  lemma KnownLabelTiers(i: nat)
    requires i < |KnownLabels|
    ensures Severity(Render(KnownLabels[i])) == if i <= 1 then Success else if i <= 3 then Warning else Error
  {
    KnownLabelCategories(i);
    RenderKeepsCategory(KnownLabels[i]);
  }

  /** "Overweight Level I" is shown as a warning. */
  lemma OverweightExample()
    ensures Severity("Overweight Level I") == Warning
  {
    OverweightLabel("Overweight Level I");
  }

  /** "Obesity Type III" is shown as an error. */
  lemma ObesityExample()
    ensures Severity("Obesity Type III") == Error
  {
    ObeseLabel("Obesity Type III");
  }

  /** "Normal Weight" is shown as a success. */
  lemma NormalExample()
    ensures Severity("Normal Weight") == Success
  {
    IdealLabel("Normal Weight");
  }
}
