/** German display strings for credit amounts and operation types. */
module CreditDisplay {
  import opened Wrappers
  import opened Text
  import opened CreditTypes

  const DefaultLowThreshold := 10

  datatype DisplayInfo = DisplayInfo(credits: int, displayText: string, displayShort: string,
                                     isLow: bool, warningText: Option<string>)

  /** isLowCredits (lines 90-92); an omitted threshold is 10. */
  predicate IsLowCredits(credits: int, threshold: Option<int>)
    ensures threshold.None? ==> (IsLowCredits(credits, threshold) <==> credits <= DefaultLowThreshold)
    ensures threshold.Some? ==> (IsLowCredits(credits, threshold) <==> credits <= threshold.value)
  {
    credits <= threshold.GetOr(DefaultLowThreshold)
  }

  /** formatCredits (lines 12-25). */
  function FormatCredits(credits: int, threshold: Option<int>): (info: DisplayInfo)
    ensures info.credits == credits
    ensures info.isLow <==> credits <= threshold.GetOr(DefaultLowThreshold)
    ensures info.warningText.Some? <==> info.isLow
    ensures info.displayShort == IntToString(credits)
    ensures info.displayText == info.displayShort + " Credits"
    ensures info.isLow ==> info.warningText == Some("Nur noch " + info.displayShort + " Credits übrig")
  {
    var isLow := IsLowCredits(credits, threshold);
    DisplayInfo(credits, IntToString(credits) + " Credits", IntToString(credits), isLow,
                if isLow then Some("Nur noch " + IntToString(credits) + " Credits übrig") else None)
  }

  /** `isLowCredits` and the `isLow` flag agree for every threshold. */
  lemma LowFlagAgrees(credits: int, threshold: Option<int>)
    ensures FormatCredits(credits, threshold).isLow == IsLowCredits(credits, threshold)
  {
  }

  /** The short form reads back to the number shown. */
  lemma {:induction false} ShortFormReadsBack(credits: int)
    ensures var s := FormatCredits(credits, None).displayShort;
      if credits < 0 then s[0] == '-' && ParseNat(s[1..]) == -credits
      else |s| > 0 && IsDigit(s[0]) && ParseNat(s) == credits
  {
    IntToStringRoundTrip(credits);
  }

  /** The partial plural-label map of formatCreditsForOperation; None where a type has no entry. */
  function PluralLabel(op: OperationType): (plural: Option<string>)
    ensures plural.Some? <==> IsBillable(op)
  {
    match op
    case AiGeneration => Some("KI-Generierungen")
    case AiChat => Some("Chat-Nachrichten")
    case ImageGeneration => Some("Bilder")
    case VideoGeneration => Some("Videos")
    case DocumentProcessing => Some("Dokumente")
    case ApiCall => Some("API-Aufrufe")
    case _ => None
  }

  /** formatCreditsForOperation (lines 30-45). */
  function FormatCreditsForOperation(credits: int, op: OperationType): (s: string)
    ensures IsBillable(op) ==> s == IntToString(credits) + " " + PluralLabel(op).value
    ensures !IsBillable(op) ==> s == IntToString(credits) + " Credits"
  {
    IntToString(credits) + " " + PluralLabel(op).GetOr("Credits")
  }

  /** The fallback 'Credits' is used exactly for the types outside the map. */
  lemma FallbackOnlyOutsideMap(credits: int, op: OperationType)
    ensures FormatCreditsForOperation(credits, op) == IntToString(credits) + " Credits" <==> !IsBillable(op)
  {
    if IsBillable(op) {
      var plural := PluralLabel(op).value;
      var prefix := IntToString(credits) + " ";
      assert FormatCreditsForOperation(credits, op) == prefix + plural;
      assert IntToString(credits) + " Credits" == prefix + "Credits";
    }
  }

  /** getOperationLabel (lines 61-77): every label is non-empty, so the `|| operationType`
      fallback is never taken. */
  function OperationLabel(op: OperationType): (name: string)
    ensures name != ""
  {
    match op
    case AiGeneration => "KI-Generierung"
    case AiChat => "Chat"
    case ImageGeneration => "Bildgenerierung"
    case VideoGeneration => "Videogenerierung"
    case DocumentProcessing => "Dokumentverarbeitung"
    case ApiCall => "API-Aufruf"
    case Purchase => "Kauf"
    case Refund => "Rückerstattung"
    case Bonus => "Bonus"
    case Subscription => "Abonnement"
    case AdminAdjustment => "Admin-Anpassung"
  }

  /** The eleven labels are distinct, so a label names its operation type. */
  lemma LabelsDistinct(a: OperationType, b: OperationType)
    ensures OperationLabel(a) == OperationLabel(b) <==> a == b
  {
  }

  /** formatTransactionAmount (lines 82-85). */
  function FormatTransactionAmount(amount: int): (s: string)
    ensures |s| > 9 && s[|s| - 8..] == " Credits"
    ensures s[0] == '+' <==> amount >= 0
    ensures s[0] == '-' <==> amount < 0
    ensures s[1..|s| - 8] == NatToString(if amount < 0 then -amount else amount)
  {
    var digits := NatToString(if amount < 0 then -amount else amount);
    var sign := if amount >= 0 then "+" else "-";
    assert (if amount >= 0 then "+" else "") + IntToString(amount) == sign + digits;
    SignedText(sign, digits);
    (if amount >= 0 then "+" else "") + IntToString(amount) + " Credits"
  }

  lemma SignedText(sign: string, digits: string)
    requires |sign| == 1 && |digits| >= 1
    ensures var s := sign + digits + " Credits";
      |s| > 9 && s[0] == sign[0] && s[|s| - 8..] == " Credits" && s[1..|s| - 8] == digits
  {
  }

  /** Every amount shows a sign: '+' for zero and above, '-' below; the digits after it read
      back to the magnitude. */
  lemma {:induction false} AmountSign(amount: int)
    ensures var s := FormatTransactionAmount(amount);
      |s| > 1 && (s[0] == '+' <==> amount >= 0) && (s[0] == '-' <==> amount < 0)
      && ParseNat(s[1..|s| - 8]) == (if amount < 0 then -amount else amount)
  {
    ParseNatToString(if amount < 0 then -amount else amount);
  }

  lemma ZeroShowsPlus()
    ensures FormatTransactionAmount(0) == "+0 Credits"
  {
    assert NatToString(0) == "0";
  }
}
