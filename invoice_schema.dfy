/**
 * The invoice form schema shared by the create and update actions: the
 * fields customerId, amount and status of a submitted form are checked
 * independently, and either all pass and give a normalised draft, or the
 * failing fields each get their error message.
 */
module InvoiceSchema {
  import opened Wrappers

  datatype Status = Pending | Paid

  /**
   * The three fields as read from the submitted form; None is a field the
   * form did not carry (FormData.get gives null).  The amount is taken as
   * already converted to a number.
   */
  datatype RawForm = RawForm(customerId: Option<string>, amount: Option<real>, status: Option<string>)

  /** A form that passed validation. */
  datatype Draft = Draft(customerId: string, amount: real, status: Status)

  /** Zod's flattened field errors; an empty list is a field without errors. */
  datatype FieldErrors = FieldErrors(customerId: seq<string>, amount: seq<string>, status: seq<string>)

  datatype Validation = Valid(draft: Draft) | Invalid(errors: FieldErrors)

  const CustomerRequired: string := "Selezionare un cliente è obbligatorio."
  const AmountRequired: string := "L'importo è richiesto e deve essere maggiore di zero."
  const StatusTypeError: string := "Lo stato deve essere 'in sospeso' (pending) o 'pagato' (paid)."

  /** Zod's own message for a string outside the enum. */
  function InvalidEnumValue(received: string): string {
    "Invalid enum value. Expected 'pending' | 'paid', received '" + received + "'"
  }

  function StatusName(s: Status): string {
    match s
    case Pending => "pending"
    case Paid => "paid"
  }

  // What each field accepts, stated on the raw input.

  predicate CustomerIdAccepted(raw: Option<string>) {
    raw.Some? && raw.value != ""
  }

  predicate AmountAccepted(raw: Option<real>) {
    raw.Some? && raw.value > 0.0
  }

  predicate StatusAccepted(raw: Option<string>) {
    raw == Some("pending") || raw == Some("paid")
  }

  /** customerId: null becomes "", then the string must have at least one character. */
  function CheckCustomerId(raw: Option<string>): Result<string, string> {
    var s := if raw.None? then "" else raw.value;
    if |s| >= 1 then Ok(s) else Err(CustomerRequired)
  }

  /** amount: a missing value defaults to 0, null stays null, and only a number above 0 passes. */
  function CheckAmount(raw: Option<real>): Result<real, string> {
    match raw
    case Some(v) => if v > 0.0 then Ok(v) else Err(AmountRequired)
    case None => Err(AmountRequired)
  }

  /** status: a non-string is a type error; a string must be one of the two names. */
  function CheckStatus(raw: Option<string>): Result<Status, string> {
    match raw
    case None => Err(StatusTypeError)
    case Some(s) =>
      if s == "pending" then Ok(Pending)
      else if s == "paid" then Ok(Paid)
      else Err(InvalidEnumValue(s))
  }

  function Messages<T>(r: Result<T, string>): seq<string> {
    if r.Err? then [r.error] else []
  }

  /**
   * safeParse of the schema with id and date omitted: every field is
   * checked, and the form passes only if all three do.
   */
  function Validate(form: RawForm): (v: Validation)
    ensures v.Valid? <==>
      CustomerIdAccepted(form.customerId) && AmountAccepted(form.amount) && StatusAccepted(form.status)
    ensures v.Valid? ==>
      && Some(v.draft.customerId) == form.customerId
      && Some(v.draft.amount) == form.amount
      && Some(StatusName(v.draft.status)) == form.status
    ensures v.Invalid? ==>
      && (v.errors.customerId != [] <==> !CustomerIdAccepted(form.customerId))
      && (v.errors.amount != [] <==> !AmountAccepted(form.amount))
      && (v.errors.status != [] <==> !StatusAccepted(form.status))
      && (v.errors.customerId == [] || v.errors.customerId == [CustomerRequired])
      && (v.errors.amount == [] || v.errors.amount == [AmountRequired])
      && (form.status.None? ==> v.errors.status == [StatusTypeError])
      && (form.status.Some? && !StatusAccepted(form.status) ==>
            v.errors.status == [InvalidEnumValue(form.status.value)])
  {
    var c := CheckCustomerId(form.customerId);
    var a := CheckAmount(form.amount);
    var s := CheckStatus(form.status);
    if c.Ok? && a.Ok? && s.Ok? then Valid(Draft(c.value, a.value, s.value))
    else Invalid(FieldErrors(Messages(c), Messages(a), Messages(s)))
  }

  /** The form a valid draft would have been submitted as. */
  function ToForm(d: Draft): RawForm {
    RawForm(Some(d.customerId), Some(d.amount), Some(StatusName(d.status)))
  }

  /** Submitting a draft with a customer and a positive amount validates back to that draft. */
  lemma ValidateRoundTrip(d: Draft)
    requires d.customerId != "" && d.amount > 0.0
    ensures Validate(ToForm(d)) == Valid(d)
  {
  }
}
