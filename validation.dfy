/**
 * The search-form validator (`validate_inputs`): a pure decision over the
 * already-stripped uid and phone fields. The checks run in a fixed order:
 * both fields given, then neither given, then the phone's format.
 */
module Validation {
  import opened Wrappers
  import opened Text

  /** What the validator decides; every outcome but `Accepted` carries a warning. */
  datatype Verdict = Conflict | Missing | BadPhone | Accepted

  /** A well-formed phone number: exactly eight decimal digits. */
  predicate IsPhoneNumber(phone: string)
  {
    IsDigits(phone) && |phone| == 8
  }

  function ValidateInputs(uid: string, phone: string): (v: Verdict)
    ensures v == Conflict <==> uid != "" && phone != ""
    ensures v == Missing <==> uid == "" && phone == ""
    ensures v == BadPhone <==> uid == "" && phone != "" && !IsPhoneNumber(phone)
    ensures v == Accepted <==> (uid != "" && phone == "") || (uid == "" && IsPhoneNumber(phone))
  {
    if uid != "" && phone != "" then Conflict
    else if uid == "" && phone == "" then Missing
    else if phone != "" && (!IsDigits(phone) || |phone| != 8) then BadPhone
    else Accepted
  }

  /** The warning shown for a verdict; `None` for an accepted search. */
  function Message(v: Verdict): (m: Option<string>)
    ensures m.None? <==> v == Accepted
  {
    match v
    case Conflict => Some("Please search by UID or phone, not both at the same time.")
    case Missing => Some("Enter a UID or an 8-digit phone number to search.")
    case BadPhone => Some("Phone number must be exactly 8 digits.")
    case Accepted => None
  }

  /** An accepted search names exactly one of the two fields. */
  lemma AcceptedHasOneField(uid: string, phone: string)
    requires ValidateInputs(uid, phone) == Accepted
    ensures (uid == "") != (phone == "")
    ensures phone != "" ==> IsPhoneNumber(phone)
  {
  }

  /**
   * Fields that are whitespace only count as missing, since the request
   * handler strips both before validating.
   */
  lemma BlankFieldsAreMissing(rawUid: string, rawPhone: string)
    requires AllSpace(rawUid) && AllSpace(rawPhone)
    ensures ValidateInputs(Strip(rawUid), Strip(rawPhone)) == Missing
  {
    StripEmptyIff(rawUid);
    StripEmptyIff(rawPhone);
  }

  /** A uid alongside a malformed phone is still reported as a conflict, not as a bad phone. */
  lemma ConflictBeforeFormat(uid: string, phone: string)
    requires uid != "" && phone != "" && !IsPhoneNumber(phone)
    ensures ValidateInputs(uid, phone) == Conflict
    ensures ValidateInputs("", phone) == BadPhone
  {
  }

  /** Phones of the wrong length or with a non-digit are rejected; "12345678" is accepted. */
  lemma PhoneExamples()
    ensures ValidateInputs("", "1234567") == BadPhone
    ensures ValidateInputs("", "123456789") == BadPhone
    ensures ValidateInputs("", "12a45678") == BadPhone
    ensures ValidateInputs("", "12345678") == Accepted
  {
    assert !IsDigit("12a45678"[2]);
  }
}
