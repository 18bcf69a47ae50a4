/**
  Minor-unit amounts and pacs.008 reference ids (crates/kani-iso20022/src/lib.rs:375-392;
  crates/kani-api/src/lib.rs:1004-1010, 1046-1058): printing and parsing undo each other, and exactly when.
 */
module Amounts {
  import opened Wrappers
  import opened Text
  import opened MachineArithmetic

  datatype AmountError = InvalidAmount

  /** `value.parse::<i128>()` on a digit string. */
  function ParseI128(digits: string): Option<int>
    requires AllDigits(digits) && digits != ""
  {
    if DigitsValue(digits) <= MAX_I128 then Some(DigitsValue(digits)) else None
  }

  function ParseMinorUnits(text: string): Result<int, AmountError> {
    var value := Trim(text);
    if value == "" || !AllDigits(value) || (value[0] == '0' && |value| > 1) then Err(InvalidAmount)
    else if ParseI128(value).None? || ParseI128(value).value <= 0 then Err(InvalidAmount)
    else Ok(ParseI128(value).value)
  }

  /** A text parses to an amount exactly when, trimmed, it is that amount's own decimal print, from 1 to 2^127 - 1. */
  lemma ParsesIffPrint(text: string, amount: int)
    ensures ParseMinorUnits(text) == Ok(amount) <==> 1 <= amount <= MAX_I128 && Trim(text) == PrintInt(amount)
  {
    var value := Trim(text);
    if ParseMinorUnits(text) == Ok(amount) {
      PrintOfValue(value);
    }
    if 1 <= amount && value == PrintInt(amount) {
      ValueOfPrint(amount);
    }
  }

  /** Every positive 128-bit amount survives being printed and parsed, with any white space around it. */
  lemma PrintedAmountParses(amount: int, before: string, after: string)
    requires 1 <= amount <= MAX_I128
    requires (forall c | c in before :: IsWhitespace(c)) && (forall c | c in after :: IsWhitespace(c))
    ensures ParseMinorUnits(before + PrintInt(amount) + after) == Ok(amount)
  {
    var digits := PrintInt(amount);
    TrimAround(before, digits, after);
    ParsesIffPrint(before + digits + after, amount);
  }

  // ---- pacs.008 reference ids ----

  const REFERENCE_PREFIX := "pacs.008:"

  function ClientReference(messageId: string, endToEndId: string): string {
    REFERENCE_PREFIX + (Trim(messageId) + ":" + Trim(endToEndId))
  }

  /** `original_pacs008_ids` */
  function OriginalIds(reference: Option<string>): Option<(string, string)> {
    if reference.None? || !(REFERENCE_PREFIX <= reference.value) then None
    else match RSplitOnce(reference.value[|REFERENCE_PREFIX|..], ':')
      case None => None
      case Some((messageId, endToEndId)) =>
        if IsBlank(messageId) || IsBlank(endToEndId) then None else Some((Trim(messageId), Trim(endToEndId)))
  }

  lemma TrimKeepsAbsent(s: string, c: char)
    requires c !in s
    ensures c !in Trim(s)
  {
    TrimStartIsSuffix(s);
    assert c !in TrimStart(s);
  }

  /**
    For ids that are not blank, the reference id reads back as the two trimmed ids exactly when the
    end-to-end id has no colon.
   */
  lemma ReferenceRoundTripIff(messageId: string, endToEndId: string)
    requires !IsBlank(messageId) && !IsBlank(endToEndId)
    ensures OriginalIds(Some(ClientReference(messageId, endToEndId))) == Some((Trim(messageId), Trim(endToEndId)))
            <==> ':' !in Trim(endToEndId)
  {
    var m, e := Trim(messageId), Trim(endToEndId);
    var payload := m + [':'] + e;
    assert ClientReference(messageId, endToEndId)[|REFERENCE_PREFIX|..] == payload;
    assert payload[|m|] == ':';
    TrimIsIdempotent(messageId);
    TrimIsIdempotent(endToEndId);
    if ':' !in e {
      RSplitOnceUnique(m, e, ':');
    } else {
      TrimKeepsAbsent(RSplitOnce(payload, ':').value.1, ':');
    }
  }
}
