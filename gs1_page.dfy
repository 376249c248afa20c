/** The GS1 payment page: its form state, the input and customer-type
    handlers, the submit-time validation, and the two request bodies it posts
    (the transaction record and the token request). */
module Gs1Page {
  import opened Common
  import Creation
  import Token

  datatype CustomerType = Corporate | Personal

  /** The keys of the form. */
  datatype FormField =
    | InvoiceNumber | Gs1MemberId | TaxId | OthersReference
    | CompanyName | FirstName | LastName
    | ContactFirstName | ContactLastName | Phone | Email | Address | ServiceOrProduct | TotalAmount

  datatype FormData = FormData(
    invoiceNumber: string,
    gs1MemberId: string,
    taxId: string,
    othersReference: string,
    companyName: string,
    firstName: string,
    lastName: string,
    contactFirstName: string,
    contactLastName: string,
    phone: string,
    email: string,
    address: string,
    serviceOrProduct: string,
    totalAmount: string)

  /** An entry of the error map. The page shows translated text; the model
      keeps which message it is, and `NoError` for the emptied entry `''`. */
  datatype ErrorText = NoError | Required | InvalidEmail | InvalidPhone

  /** The page's state. */
  datatype PageState = PageState(
    customerType: CustomerType,
    form: FormData,
    errors: map<FormField, ErrorText>,
    memberSearchError: string)

  const EmptyForm := FormData("", "", "", "", "", "", "", "", "", "", "", "", "", "")
  const InitialState := PageState(Corporate, EmptyForm, map[], "")

  /** `form[field]` */
  function Value(form: FormData, f: FormField): string {
    match f
    case InvoiceNumber => form.invoiceNumber
    case Gs1MemberId => form.gs1MemberId
    case TaxId => form.taxId
    case OthersReference => form.othersReference
    case CompanyName => form.companyName
    case FirstName => form.firstName
    case LastName => form.lastName
    case ContactFirstName => form.contactFirstName
    case ContactLastName => form.contactLastName
    case Phone => form.phone
    case Email => form.email
    case Address => form.address
    case ServiceOrProduct => form.serviceOrProduct
    case TotalAmount => form.totalAmount
  }

  /** `{ ...form, [field]: v }` */
  function SetValue(form: FormData, f: FormField, v: string): (r: FormData)
    ensures Value(r, f) == v
    ensures forall g :: g != f ==> Value(r, g) == Value(form, g)
  {
    match f
    case InvoiceNumber => form.(invoiceNumber := v)
    case Gs1MemberId => form.(gs1MemberId := v)
    case TaxId => form.(taxId := v)
    case OthersReference => form.(othersReference := v)
    case CompanyName => form.(companyName := v)
    case FirstName => form.(firstName := v)
    case LastName => form.(lastName := v)
    case ContactFirstName => form.(contactFirstName := v)
    case ContactLastName => form.(contactLastName := v)
    case Phone => form.(phone := v)
    case Email => form.(email := v)
    case Address => form.(address := v)
    case ServiceOrProduct => form.(serviceOrProduct := v)
    case TotalAmount => form.(totalAmount := v)
  }

  /** The characters `String.prototype.trim` removes and the regular-expression
      class `\s` matches: white space and line terminators. */
  predicate IsSpace(c: char) {
    || c == ' ' || c == '\t' || c == '\n' || c == '\r' || c == '\U{000B}' || c == '\U{000C}'
    || c == '\U{00A0}' || c == '\U{1680}' || ('\U{2000}' <= c <= '\U{200A}')
    || c == '\U{2028}' || c == '\U{2029}' || c == '\U{202F}' || c == '\U{205F}'
    || c == '\U{3000}' || c == '\U{FEFF}'
  }

  /** `!s.trim()` */
  predicate Blank(s: string) {
    forall k :: 0 <= k < |s| ==> IsSpace(s[k])
  }

  /** `/^[^\s@]+@[^\s@]+\.[^\s@]+$/`: one `@` after a non-empty local part, a
      `.` with something on both sides after it, and no white space. */
  predicate EmailShape(s: string) {
    exists i, j :: 0 < i && i + 1 < j < |s| - 1 && s[i] == '@' && s[j] == '.'
      && forall k :: 0 <= k < |s| && k != i ==> !IsSpace(s[k]) && s[k] != '@'
  }

  /** `s.replace(/[-\s]/g, '')` */
  function StripPhone(s: string): (r: string)
    ensures |r| <= |s|
    ensures forall k :: 0 <= k < |r| ==> r[k] != '-' && !IsSpace(r[k])
    ensures forall k :: 0 <= k < |s| && s[k] != '-' && !IsSpace(s[k]) ==> s[k] in r
  {
    if s == [] then []
    else if s[0] == '-' || IsSpace(s[0]) then StripPhone(s[1..])
    else
      var rest := StripPhone(s[1..]);
      assert forall k :: 1 <= k < |s| ==> s[k] == s[1..][k - 1];
      [s[0]] + rest
  }

  /** The deletion works character by character and keeps the order of what it
      keeps: stripping a concatenation strips each part. */
  lemma {:induction false} StripPhoneConcat(a: string, b: string)
    ensures StripPhone(a + b) == StripPhone(a) + StripPhone(b)
    decreases |a|
  {
    if a == [] {
      assert a + b == b;
    } else {
      assert (a + b)[0] == a[0] && (a + b)[1..] == a[1..] + b;
      StripPhoneConcat(a[1..], b);
    }
  }

  /** Every character other than `-` and white space is kept as often as it
      occurs, so the length `PhoneShape` tests is the count of kept characters. */
  lemma {:induction false} StripPhoneCounts(s: string)
    ensures forall c :: multiset(StripPhone(s))[c] == if c == '-' || IsSpace(c) then 0 else multiset(s)[c]
    decreases |s|
  {
    if s != [] {
      assert s == [s[0]] + s[1..];
      StripPhoneCounts(s[1..]);
    }
  }

  /** One character is deleted exactly when it is `-` or white space. */
  lemma StripPhoneChar(c: char)
    ensures StripPhone([c]) == if c == '-' || IsSpace(c) then [] else [c]
  {
  }

  /** `/^[0-9]{9,10}$/` */
  predicate PhoneShape(s: string) {
    9 <= |s| <= 10 && forall k :: 0 <= k < |s| ==> '0' <= s[k] <= '9'
  }

  /** The fields a customer type makes required: the corporate form asks for
      the company and the person's name, the personal form for the name and
      the contact name. */
  predicate IsRequired(ct: CustomerType, f: FormField) {
    match f
    case CompanyName => ct == Corporate
    case ContactFirstName => ct == Personal
    case ContactLastName => ct == Personal
    case OthersReference => false
    case Address => false
    case ServiceOrProduct => false
    case _ => true
  }

  /** The message a field ends up with, or `None` when it passes. */
  function FieldError(ct: CustomerType, form: FormData, f: FormField): Option<ErrorText> {
    if f == Email && form.email != "" && !EmailShape(form.email) then Some(InvalidEmail)
    else if f == Phone && form.phone != "" && !PhoneShape(StripPhone(form.phone)) then Some(InvalidPhone)
    else if IsRequired(ct, f) && Blank(Value(form, f)) then Some(Required)
    else None
  }

  /** `validateForm`: the error map built check by check, and whether it is empty. */
  method ValidateForm(ct: CustomerType, form: FormData) returns (errors: map<FormField, ErrorText>, valid: bool)
    ensures forall f :: f in errors <==> FieldError(ct, form, f).Some?
    ensures forall f :: f in errors ==> errors[f] == FieldError(ct, form, f).value
    ensures valid <==> forall f :: FieldError(ct, form, f).None?
  {
    errors := RequiredChecks(ct, form);
    // a malformed email or phone replaces the required message
    var badEmail := form.email != "" && !EmailShape(form.email);
    var badPhone := form.phone != "" && !PhoneShape(StripPhone(form.phone));
    if badEmail { errors := errors[Email := InvalidEmail]; }
    if badPhone { errors := errors[Phone := InvalidPhone]; }
    valid := |errors| == 0;
    if !valid {
      var f :| f in errors;
      assert FieldError(ct, form, f).Some?;
    }
  }

  /** The fields section 2 of `validateForm` checks: the company name of a
      corporate customer, the names of a personal one. */
  function CustomerNameFields(ct: CustomerType): set<FormField> {
    if ct == Corporate then {CompanyName} else {FirstName, LastName}
  }

  /** The names the conditional part of section 3 checks: for a corporate
      customer its first and last name, for a personal one the contact's. */
  function ContactNameFields(ct: CustomerType): set<FormField> {
    if ct == Corporate then {FirstName, LastName} else {ContactFirstName, ContactLastName}
  }

  /** The fields the four sections check, section by section. */
  function SectionFields(ct: CustomerType): seq<set<FormField>> {
    [{InvoiceNumber, Gs1MemberId, TaxId}, CustomerNameFields(ct), {Phone, Email}, ContactNameFields(ct), {TotalAmount}]
  }

  /** The sections check each field required for the customer type, and no other. */
  lemma RequiredCase(ct: CustomerType, f: FormField)
    ensures var s := SectionFields(ct);
      IsRequired(ct, f) <==> f in s[0] || f in s[1] || f in s[2] || f in s[3] || f in s[4]
  {
  }

  /** Every message in the map is the `required` text. */
  predicate AllRequired(errors: map<FormField, ErrorText>) {
    forall g :: g in errors ==> errors[g] == Required
  }

  /** What one section does: it adds `required` for exactly its blank fields. */
  predicate FlagsBlank(form: FormData, fields: set<FormField>, errors: map<FormField, ErrorText>,
                       r: map<FormField, ErrorText>) {
    && (forall g :: g in r <==> g in errors || (g in fields && Blank(Value(form, g))))
    && (AllRequired(errors) ==> AllRequired(r))
  }

  /** Section 1: the three identifiers. */
  method CheckIdentifiers(form: FormData, errors: map<FormField, ErrorText>) returns (r: map<FormField, ErrorText>)
    ensures FlagsBlank(form, {InvoiceNumber, Gs1MemberId, TaxId}, errors, r)
  {
    r := errors;
    if Blank(form.invoiceNumber) { r := r[InvoiceNumber := Required]; }
    if Blank(form.gs1MemberId) { r := r[Gs1MemberId := Required]; }
    if Blank(form.taxId) { r := r[TaxId := Required]; }
  }

  /** Section 2: the customer's own names. */
  method CheckCustomerNames(ct: CustomerType, form: FormData, errors: map<FormField, ErrorText>)
    returns (r: map<FormField, ErrorText>)
    ensures FlagsBlank(form, CustomerNameFields(ct), errors, r)
  {
    r := errors;
    if ct == Corporate {
      if Blank(form.companyName) { r := r[CompanyName := Required]; }
    } else {
      if Blank(form.firstName) { r := r[FirstName := Required]; }
      if Blank(form.lastName) { r := r[LastName := Required]; }
    }
  }

  /** Section 3, its unconditional part: phone and email. */
  method CheckContact(form: FormData, errors: map<FormField, ErrorText>) returns (r: map<FormField, ErrorText>)
    ensures FlagsBlank(form, {Phone, Email}, errors, r)
  {
    r := errors;
    if Blank(form.phone) { r := r[Phone := Required]; }
    if Blank(form.email) { r := r[Email := Required]; }
  }

  /** Section 3, its conditional part: the contact's names. */
  method CheckContactNames(ct: CustomerType, form: FormData, errors: map<FormField, ErrorText>)
    returns (r: map<FormField, ErrorText>)
    ensures FlagsBlank(form, ContactNameFields(ct), errors, r)
  {
    r := errors;
    if ct == Corporate {
      if Blank(form.firstName) { r := r[FirstName := Required]; }
      if Blank(form.lastName) { r := r[LastName := Required]; }
    } else {
      if Blank(form.contactFirstName) { r := r[ContactFirstName := Required]; }
      if Blank(form.contactLastName) { r := r[ContactLastName := Required]; }
    }
  }

  /** Section 4: the amount. */
  method CheckAmount(form: FormData, errors: map<FormField, ErrorText>) returns (r: map<FormField, ErrorText>)
    ensures FlagsBlank(form, {TotalAmount}, errors, r)
  {
    r := errors;
    if Blank(form.totalAmount) { r := r[TotalAmount := Required]; }
  }

  /** The required-field checks of `validateForm`, sections 1 to 4. */
  method RequiredChecks(ct: CustomerType, form: FormData) returns (errors: map<FormField, ErrorText>)
    ensures forall f :: f in errors <==> IsRequired(ct, f) && Blank(Value(form, f))
    ensures forall f :: f in errors ==> errors[f] == Required
  {
    var e0 := CheckIdentifiers(form, map[]);
    var e1 := CheckCustomerNames(ct, form, e0);
    var e2 := CheckContact(form, e1);
    var e3 := CheckContactNames(ct, form, e2);
    errors := CheckAmount(form, e3);
    forall f
      ensures f in errors <==> IsRequired(ct, f) && Blank(Value(form, f))
    {
      RequiredCase(ct, f);
    }
  }

  /** The five name fields a customer-type switch empties. */
  const NameFields := {CompanyName, FirstName, LastName, ContactFirstName, ContactLastName}

  /** `handleCustomerTypeChange` */
  function SwitchCustomerType(s: PageState, ct: CustomerType): (r: PageState)
    ensures r.customerType == ct && r.memberSearchError == ""
    ensures forall f :: f in NameFields ==> Value(r.form, f) == "" && f in r.errors && r.errors[f] == NoError
    ensures forall f :: f !in NameFields ==> Value(r.form, f) == Value(s.form, f)
    ensures forall f :: f !in NameFields ==> (f in r.errors <==> f in s.errors)
    ensures forall f :: f !in NameFields && f in s.errors ==> r.errors[f] == s.errors[f]
  {
    PageState(ct,
              s.form.(companyName := "", firstName := "", lastName := "",
                      contactFirstName := "", contactLastName := ""),
              s.errors[CompanyName := NoError][FirstName := NoError][LastName := NoError]
                      [ContactFirstName := NoError][ContactLastName := NoError],
              "")
  }

  /** Switching twice is switching once to the second type. */
  lemma SwitchTwice(s: PageState, a: CustomerType, b: CustomerType)
    ensures SwitchCustomerType(SwitchCustomerType(s, a), b) == SwitchCustomerType(s, b)
  {
    var once := SwitchCustomerType(s, b);
    var twice := SwitchCustomerType(SwitchCustomerType(s, a), b);
    assert twice.errors.Keys == once.errors.Keys;
  }

  /** `handleInputChange`: set the field, empty a shown error for it, and for a
      personal customer copy a first or last name into the contact name when
      that was empty before the edit. */
  function InputChange(s: PageState, f: FormField, v: string): (r: PageState)
    ensures r.customerType == s.customerType && r.memberSearchError == s.memberSearchError
    ensures Value(r.form, f) == v
    ensures Value(r.form, ContactFirstName) ==
      if s.customerType == Personal && f == FirstName && s.form.contactFirstName == "" then v
      else Value(SetValue(s.form, f, v), ContactFirstName)
    ensures Value(r.form, ContactLastName) ==
      if s.customerType == Personal && f == LastName && s.form.contactLastName == "" then v
      else Value(SetValue(s.form, f, v), ContactLastName)
    ensures forall g :: g != f && g != ContactFirstName && g != ContactLastName ==> Value(r.form, g) == Value(s.form, g)
    ensures r.errors.Keys == s.errors.Keys
    ensures f in s.errors && s.errors[f] != NoError ==> r.errors[f] == NoError
    ensures forall g :: g in s.errors && g != f ==> r.errors[g] == s.errors[g]
  {
    var form := SetValue(s.form, f, v);
    var errors := if f in s.errors && s.errors[f] != NoError then s.errors[f := NoError] else s.errors;
    var form' :=
      if s.customerType == Personal && f == FirstName && s.form.contactFirstName == "" then form.(contactFirstName := v)
      else if s.customerType == Personal && f == LastName && s.form.contactLastName == "" then form.(contactLastName := v)
      else form;
    s.(form := form', errors := errors)
  }

  /** For a personal customer, a typed name is copied into an empty contact name,
      and a contact name already filled in is never overwritten. */
  lemma AutofillOnlyIntoEmptyContact(s: PageState, v: string)
    requires s.customerType == Personal
    ensures s.form.contactFirstName == "" ==> InputChange(s, FirstName, v).form.contactFirstName == v
    ensures s.form.contactFirstName != "" ==>
      InputChange(s, FirstName, v).form.contactFirstName == s.form.contactFirstName
    ensures InputChange(SwitchCustomerType(s, Corporate), FirstName, v).form.contactFirstName == ""
  {
    assert Value(InputChange(s, FirstName, v).form, ContactFirstName) == InputChange(s, FirstName, v).form.contactFirstName;
  }

  /** `value || null` */
  function OrNull(s: string): Option<string> {
    if s == "" then None else Some(s)
  }

  function CustomerTypeText(ct: CustomerType): string {
    if ct == Corporate then "corporate" else "personal"
  }

  /** The invoice number the page stores and pays: `<invoiceNumber>-<Date.now()>`. */
  function SubmittedInvoice(form: FormData, timestamp: string): (inv: string)
    ensures StartsWith(inv, form.invoiceNumber + "-") && |inv| == |form.invoiceNumber| + 1 + |timestamp|
    ensures inv[|form.invoiceNumber| + 1..] == timestamp
  {
    var inv := form.invoiceNumber + "-" + timestamp;
    assert inv[..|form.invoiceNumber + "-"|] == form.invoiceNumber + "-";
    inv
  }

  /** A `parseFloat` result as it arrives in a body written by
      `JSON.stringify`: a finite number as itself, NaN and the infinities as
      `null`. */
  function PostedAmount(n: Num): (a: Creation.AmountField)
    ensures a.AmountNumber? <==> n.Finite?
    ensures a.AmountNumber? ==> a.n == n
    ensures a.AmountMissing? <==> !n.Finite?
  {
    if n.Finite? then Creation.AmountNumber(n) else Creation.AmountMissing
  }

  /** The body posted to the GS1 create route. `amount` is what `parseFloat`
      made of the amount field; the body is sent through `JSON.stringify`. */
  function PaymentBody(ct: CustomerType, form: FormData, timestamp: string, amount: Num): (req: Creation.PaymentRequest)
    ensures req.invoiceNumber == Some(SubmittedInvoice(form, timestamp))
    ensures req.originalInvoiceNumber == Some(form.invoiceNumber)
    ensures req.customerType == Some(CustomerTypeText(ct))
    ensures req.companyName.Some? <==> ct == Corporate
    ensures req.firstName.Some? <==> ct == Personal
    ensures req.lastName.Some? <==> ct == Personal
    ensures req.contactFirstName.Some? <==> ct == Personal
    ensures req.contactLastName.Some? <==> ct == Personal
    ensures req.address.None? && req.contactPersonName.None?
    // a non-finite amount is posted as null
    ensures req.totalAmount == PostedAmount(amount)
    ensures Creation.AmountTruthy(req.totalAmount) <==> amount.Finite? && amount.v != 0
  {
    Creation.PaymentRequest(
      Some(SubmittedInvoice(form, timestamp)),
      Some(form.invoiceNumber),
      Some(CustomerTypeText(ct)),
      if ct == Corporate then Some(form.companyName) else None,
      if ct == Personal then Some(form.firstName) else None,
      if ct == Personal then Some(form.lastName) else None,
      None,
      if ct == Personal then Some(form.contactFirstName) else None,
      if ct == Personal then Some(form.contactLastName) else None,
      OrNull(form.taxId),
      OrNull(form.gs1MemberId),
      OrNull(form.phone),
      OrNull(form.email),
      None,
      Some(form.serviceOrProduct),
      OrNull(form.othersReference),
      PostedAmount(amount))
  }

  /** The body posted to the GS1 token route, with the same timestamped invoice.
      The route's `parseFloat` reads back a finite amount unchanged and the
      `null` that `JSON.stringify` wrote for a non-finite one as NaN. */
  function TokenBody(ct: CustomerType, form: FormData, timestamp: string, amount: Num): (req: Token.TokenRequest)
    ensures req.invoiceNo == Some(SubmittedInvoice(form, timestamp))
    ensures req.description == Some(if form.serviceOrProduct != "" then form.serviceOrProduct else "Payment")
    ensures req.userDefined5 == Some(CustomerTypeText(ct))
    ensures req.amount == (if amount.Finite? then amount else NaN)
  {
    var name := if ct == Corporate then form.companyName else form.firstName + " " + form.lastName;
    Token.TokenRequest(
      Some(SubmittedInvoice(form, timestamp)),
      if amount.Finite? then amount else NaN,
      Some(if form.serviceOrProduct != "" then form.serviceOrProduct else "Payment"),
      Some(SubmittedInvoice(form, timestamp)),
      Some(name),
      Some(form.phone),
      Some(form.email),
      Some(CustomerTypeText(ct)))
  }

  /** The page's create body passes the GS1 route's required-field check
      exactly when `parseFloat` gave a finite, non-zero amount: the invoice is
      always the non-empty timestamped one, a zero is falsy, and NaN or an
      infinity arrives as `null`. Form validation does not help: it only
      rejects a blank amount field, not one such as "abc" or "1e999". */
  lemma PaymentBodyPassesRequiredCheck(ct: CustomerType, form: FormData, timestamp: string, amount: Num)
    ensures Creation.FirstMissing(Creation.RequiredFields(Creation.Gs1), PaymentBody(ct, form, timestamp, amount)).None?
      <==> amount.Finite? && amount.v != 0
  {
    var req := PaymentBody(ct, form, timestamp, amount);
    assert Creation.Supplied(req, Creation.InvoiceNumber);
    Creation.Gs1NeedsOnlyInvoiceAndAmount(req);
  }
}
