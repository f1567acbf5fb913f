/**
 * The admin "create certificate" page: the form state, its change handlers, the conversion
 * of the title to the API's numeric `method`, the payload sent to `createService`, and the
 * toast and navigation after the call settles.
 *
 * Dates are abstract instants; the clock, the two-years-later date and `Math.random()` are
 * inputs, and so is the message of the error `createService` rejects with.
 */
module CreateCertificate {
  import opened Wrappers
  import opened JsText
  import opened JsNumber
  import opened Records
  import ApiServices

  const SUCCESS_PATH := "/admin/certificates"
  const OFFICE := Location("Egypt", "Cairo", "33 Gamal El-Deen Kassem St., Nasr City")

  datatype FormData = FormData(
    title: string,
    recipientName: string,
    category: string,
    issueDate: int,
    expiryDate: int,
    serialNumber: string,
    description: string,
    additionalInfo: string,
    status: string)

  /** The text fields an input or a select can change, by their `name`. */
  datatype TextField = Title | RecipientName | Category | SerialNumber | Description | AdditionalInfo | Status

  datatype DateField = IssueDate | ExpiryDate

  function TextOf(form: FormData, field: TextField): string {
    match field
    case Title => form.title
    case RecipientName => form.recipientName
    case Category => form.category
    case SerialNumber => form.serialNumber
    case Description => form.description
    case AdditionalInfo => form.additionalInfo
    case Status => form.status
  }

  /** `{ ...prev, [name]: value }` for a text field: that field reads back the value, nothing else changes. */
  function WithText(form: FormData, field: TextField, value: string): (r: FormData)
    ensures TextOf(r, field) == value
    ensures forall other | other != field :: TextOf(r, other) == TextOf(form, other)
    ensures r.issueDate == form.issueDate && r.expiryDate == form.expiryDate
  {
    match field
    case Title => form.(title := value)
    case RecipientName => form.(recipientName := value)
    case Category => form.(category := value)
    case SerialNumber => form.(serialNumber := value)
    case Description => form.(description := value)
    case AdditionalInfo => form.(additionalInfo := value)
    case Status => form.(status := value)
  }

  /** `{ ...prev, [name]: value }` for a date field. */
  function WithDate(form: FormData, field: DateField, value: int): (r: FormData)
    ensures field.IssueDate? ==> r.issueDate == value && r.expiryDate == form.expiryDate
    ensures field.ExpiryDate? ==> r.expiryDate == value && r.issueDate == form.issueDate
    ensures forall f :: TextOf(r, f) == TextOf(form, f)
  {
    if field.IssueDate? then form.(issueDate := value) else form.(expiryDate := value)
  }

  /** `Math.floor(10000 + Math.random() * 90000)` for a random draw `u` in [0, 1): a five-digit number. */
  function SerialDigits(u: real): (n: nat)
    requires 0.0 <= u < 1.0
    ensures 10000 <= n <= 99999
  {
    var x := 10000.0 + u * 90000.0;
    assert 10000.0 <= x < 100000.0;
    x.Floor
  }

  /** The initial serial number `CERT-<five digits>`: the digits after the dash read back as the drawn number. */
  function InitialSerial(u: real): (serial: string)
    requires 0.0 <= u < 1.0
    ensures StartsWith(serial, "CERT-")
    ensures AllDigits(serial[5..]) && DigitsValue(serial[5..]) == SerialDigits(u)
  {
    var digits := NatToString(SerialDigits(u));
    DigitsValueOfNatToString(SerialDigits(u));
    assert ("CERT-" + digits)[5..] == digits;
    "CERT-" + digits
  }

  /** The form when the page opens at `now`: empty texts, status active, an expiry two years on. */
  function InitialForm(now: int, twoYearsLater: int, u: real): (form: FormData)
    requires 0.0 <= u < 1.0
    ensures form.issueDate == now && form.expiryDate == twoYearsLater
    ensures form.status == "active" && form.serialNumber == InitialSerial(u)
    ensures forall f | f != Status && f != SerialNumber :: TextOf(form, f) == ""
  {
    FormData("", "", "", now, twoYearsLater, InitialSerial(u), "", "", "active")
  }

  /**
   * The `method` sent for a title: `parseInt(title, 10)` when the title is non-empty and
   * `isNaN(title)` is false, and 1 otherwise (the `includes("iso")` branch also picks 1).
   */
  function MethodValue(title: string): (m: Num)
    ensures title == "" || !IsNumericString(title) ==> m == Int(1)
    ensures title != "" && IsNumericString(title) ==> m == ParseInt10(title)
  {
    if title != "" then
      if IsNumericString(title) then ParseInt10(title)
      else if Includes(ToLower(title), "iso") then Int(1)
      else Int(1)
    else Int(1)
  }

  /** A title that is a number in decimal digits is sent as that number. */
  lemma MethodValueOfNumber(n: nat)
    ensures MethodValue(NatToString(n)) == Int(n)
  {
    NatStringIsNumeric(n);
  }

  /** A title mentioning ISO in any case is never read as a number, so it is sent as method 1. */
  lemma IsoTitleIsMethodOne(title: string)
    requires Includes(ToLower(title), "iso")
    ensures !IsNumericString(title)
    ensures MethodValue(title) == Int(1)
  {
    var i :| OccursAt(ToLower(title), "iso", i);
    assert ToLower(title)[i + 1] == "iso"[1];
    assert title[i + 1] == 's' || title[i + 1] == 'S';
    if IsNumericString(title) {
      NumericStringHasNoLetterS(title);
      assert false;
    }
  }

  /**
   * A title of white space only passes `isNaN` (it reads as 0) but `parseInt` finds no digits,
   * so the method sent is NaN rather than the default 1.
   */
  lemma BlankTitleIsNaN()
    ensures MethodValue(" ") == NaN
  {
    assert IsBlank(" ");
    assert TrimStart(" ") == [];
  }

  /** The request body `createService` receives. */
  datatype ServicePayload = ServicePayload(
    name: string,
    serialNumber: string,
    methodCode: Num,
    startDate: int,
    endDate: int,
    location: Location)

  /** `serviceData`: the recipient, serial, converted title and dates, at the fixed office location. */
  function Payload(form: FormData): (p: ServicePayload)
    ensures p.name == form.recipientName && p.serialNumber == form.serialNumber
    ensures p.methodCode == MethodValue(form.title)
    ensures p.startDate == form.issueDate && p.endDate == form.expiryDate
    ensures p.location == OFFICE
  {
    ServicePayload(form.recipientName, form.serialNumber, MethodValue(form.title), form.issueDate, form.expiryDate, OFFICE)
  }

  /** Category, description, additional information and status are edited on the form but never sent. */
  lemma PayloadIgnoresDisplayFields(form: FormData, field: TextField, value: string)
    requires field in {Category, Description, AdditionalInfo, Status}
    ensures Payload(WithText(form, field, value)) == Payload(form)
  {
  }

  class CreatePage {
    var form: FormData
    var isSubmitting: bool

    constructor (now: int, twoYearsLater: int, u: real)
      requires 0.0 <= u < 1.0
      ensures form == InitialForm(now, twoYearsLater, u) && !isSubmitting
    {
      form := InitialForm(now, twoYearsLater, u);
      isSubmitting := false;
    }

    /** `handleInputChange` and `handleSelectChange`: both set one named text field. */
    method ChangeField(field: TextField, value: string)
      modifies this
      ensures form == WithText(old(form), field, value)
      ensures isSubmitting == old(isSubmitting)
    {
      form := WithText(form, field, value);
    }

    /** `handleDateChange` */
    method ChangeDate(field: DateField, value: int)
      modifies this
      ensures form == WithDate(old(form), field, value)
      ensures isSubmitting == old(isSubmitting)
    {
      form := WithDate(form, field, value);
    }

    /**
     * `handleSubmit`: the payload of the current form is sent; on success a confirmation
     * toast and the move to the certificate list, on a rejection a destructive toast with the
     * error's message and no navigation. Either way the form stays as it was and submitting ends.
     */
    method Submit(created: Result<ApiServices.Reply, ApiError>, messageOf: ApiError -> string)
      returns (sent: ServicePayload, notice: Notice, navigateTo: Option<string>)
      modifies this
      ensures sent == Payload(old(form))
      ensures created.Success? ==>
                && notice == Notice("Certificate Created", "Certificate has been successfully created.", None)
                && navigateTo == Some(SUCCESS_PATH)
      ensures created.Failure? ==>
                && notice == Notice("Error", "An error occurred while creating the certificate: " + messageOf(created.error), Some("destructive"))
                && navigateTo == None
      ensures form == old(form) && !isSubmitting
    {
      isSubmitting := true;
      sent := Payload(form);
      if created.Success? {
        notice := Notice("Certificate Created", "Certificate has been successfully created.", None);
        navigateTo := Some(SUCCESS_PATH);
      } else {
        notice := Notice("Error", "An error occurred while creating the certificate: " + messageOf(created.error), Some("destructive"));
        navigateTo := None;
      }
      isSubmitting := false;
    }
  }
}
