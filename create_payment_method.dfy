/**
 * The "new payment method" dialog of a project's admin page
 * (`CreatePaymentMethod.tsx`): a form of text fields, a per-field error map,
 * validation that depends on the chosen type, and the payload built once
 * validation passes.
 */
module CreatePaymentMethod {
  import opened Wrappers
  import opened JsText
  import opened PaymentMethodPayload

  datatype AccountType = Checking | Savings

  function AccountTypeName(a: AccountType): (r: string)
    ensures r == "checking" <==> a == Checking
  {
    match a
    case Checking => "checking"
    case Savings => "savings"
  }

  /** The text fields of `TCreateForm` (`account_type` is the one non-text field). */
  datatype TextField =
    | Label | PixKey | PixHolderName | BankName | BankCode
    | Agency | AccountNumber | AccountHolderName | Document

  /** A key of the error map: a text field or `account_type`. */
  datatype FormField = Text(field: TextField) | AccountTypeField

  /** `TCreateForm` */
  datatype CreateForm = CreateForm(
    labelText: string,
    pixKey: string,
    pixHolderName: string,
    bankName: string,
    bankCode: string,
    agency: string,
    accountNumber: string,
    accountType: AccountType,
    accountHolderName: string,
    document: string)
  {
    function Get(f: TextField): string {
      match f
      case Label => labelText
      case PixKey => pixKey
      case PixHolderName => pixHolderName
      case BankName => bankName
      case BankCode => bankCode
      case Agency => agency
      case AccountNumber => accountNumber
      case AccountHolderName => accountHolderName
      case Document => document
    }

    /** `{ ...prev, [field]: value }`: only `field` changes. */
    function With(f: TextField, value: string): (r: CreateForm)
      ensures r.Get(f) == value
      ensures forall g :: g != f ==> r.Get(g) == Get(g)
      ensures r.accountType == accountType
    {
      match f
      case Label => this.(labelText := value)
      case PixKey => this.(pixKey := value)
      case PixHolderName => this.(pixHolderName := value)
      case BankName => this.(bankName := value)
      case BankCode => this.(bankCode := value)
      case Agency => this.(agency := value)
      case AccountNumber => this.(accountNumber := value)
      case AccountHolderName => this.(accountHolderName := value)
      case Document => this.(document := value)
    }
  }

  /** The form as the dialog opens and after every reset. */
  const EmptyForm := CreateForm("", "", "", "", "", "", "", Checking, "", "")

  // ------------------------------------------------------------ validation

  /** The fields that must not be blank for a payment-method type. */
  function RequiredFields(t: PaymentMethodType): (r: set<TextField>)
    ensures Label !in r && BankCode !in r && Document !in r
  {
    match t
    case Pix => {PixKey, PixHolderName}
    case BankTransfer => {BankName, Agency, AccountNumber, AccountHolderName}
  }

  /** A required field for `t` that is blank once trimmed: validation reports it. */
  predicate Reported(t: PaymentMethodType, form: CreateForm, f: TextField) {
    f in RequiredFields(t) && IsBlank(form.Get(f))
  }

  /** The fields validation reports. */
  function ReportedFields(t: PaymentMethodType, form: CreateForm): set<FormField> {
    set f: TextField | Reported(t, form, f) :: Text(f)
  }

  /** The message shown under each required field. */
  function CreateErrorMessage(f: TextField): string {
    match f
    case PixKey => "Informe a chave PIX"
    case PixHolderName => "Informe o nome do titular"
    case BankName => "Informe o nome do banco"
    case Agency => "Informe a agencia"
    case AccountNumber => "Informe a conta"
    case AccountHolderName => "Informe o titular"
    case _ => ""
  }

  /** For `pix`, exactly the blank ones among the key and the holder name are reported. */
  lemma {:induction false} PixReported(form: CreateForm)
    ensures ReportedFields(Pix, form) ==
      (if IsBlank(form.pixKey) then {Text(PixKey)} else {}) +
      (if IsBlank(form.pixHolderName) then {Text(PixHolderName)} else {})
  {
    var reported := ReportedFields(Pix, form);
    forall f | Reported(Pix, form, f) ensures Text(f) in reported { }
  }

  /**
   * For a bank transfer, exactly the blank ones among the bank name, agency,
   * account number and holder name are reported.
   */
  lemma {:induction false} BankTransferReported(form: CreateForm)
    ensures ReportedFields(BankTransfer, form) ==
      (if IsBlank(form.bankName) then {Text(BankName)} else {}) +
      (if IsBlank(form.agency) then {Text(Agency)} else {}) +
      (if IsBlank(form.accountNumber) then {Text(AccountNumber)} else {}) +
      (if IsBlank(form.accountHolderName) then {Text(AccountHolderName)} else {})
  {
    var reported := ReportedFields(BankTransfer, form);
    forall f | Reported(BankTransfer, form, f) ensures Text(f) in reported { }
  }

  /** `label`, `bank_code` and `document` are never reported, whatever they hold. */
  lemma OptionalFieldsNeverReported(t: PaymentMethodType, form: CreateForm)
    ensures Text(Label) !in ReportedFields(t, form)
    ensures Text(BankCode) !in ReportedFields(t, form)
    ensures Text(Document) !in ReportedFields(t, form)
  {
  }

  /**
   * The error map of `handleCreatePaymentMethod`, filled field by field: one
   * entry, with that field's message, for every reported field.
   */
  method CollectCreateErrors(t: PaymentMethodType, form: CreateForm) returns (newErrors: map<FormField, string>)
    ensures newErrors.Keys == ReportedFields(t, form)
    ensures forall f :: Text(f) in newErrors ==> newErrors[Text(f)] == CreateErrorMessage(f)
  {
    if t == Pix {
      newErrors := CollectPixErrors(form);
      PixReported(form);
    } else {
      newErrors := CollectBankTransferErrors(form);
      BankTransferReported(form);
    }
  }

  /** The PIX half of the checks. */
  method CollectPixErrors(form: CreateForm) returns (newErrors: map<FormField, string>)
    ensures newErrors.Keys ==
      (if IsBlank(form.pixKey) then {Text(PixKey)} else {}) +
      (if IsBlank(form.pixHolderName) then {Text(PixHolderName)} else {})
    ensures forall f :: Text(f) in newErrors ==> newErrors[Text(f)] == CreateErrorMessage(f)
  {
    newErrors := map[];
    if IsBlank(form.pixKey) {
      newErrors := newErrors[Text(PixKey) := "Informe a chave PIX"];
    }
    if IsBlank(form.pixHolderName) {
      newErrors := newErrors[Text(PixHolderName) := "Informe o nome do titular"];
    }
  }

  /** The bank-transfer half of the checks. */
  method CollectBankTransferErrors(form: CreateForm) returns (newErrors: map<FormField, string>)
    ensures newErrors.Keys ==
      (if IsBlank(form.bankName) then {Text(BankName)} else {}) +
      (if IsBlank(form.agency) then {Text(Agency)} else {}) +
      (if IsBlank(form.accountNumber) then {Text(AccountNumber)} else {}) +
      (if IsBlank(form.accountHolderName) then {Text(AccountHolderName)} else {})
    ensures forall f :: Text(f) in newErrors ==> newErrors[Text(f)] == CreateErrorMessage(f)
  {
    newErrors := map[];
    if IsBlank(form.bankName) {
      newErrors := newErrors[Text(BankName) := "Informe o nome do banco"];
    }
    if IsBlank(form.agency) {
      newErrors := newErrors[Text(Agency) := "Informe a agencia"];
    }
    if IsBlank(form.accountNumber) {
      newErrors := newErrors[Text(AccountNumber) := "Informe a conta"];
    }
    if IsBlank(form.accountHolderName) {
      newErrors := newErrors[Text(AccountHolderName) := "Informe o titular"];
    }
  }

  // --------------------------------------------------------------- payload

  /** The request body: `payment_method_type`, `payment_method_payload` and `label`. */
  datatype CreatePayload = CreatePayload(
    methodType: PaymentMethodType,
    payload: MethodPayload,
    labelText: Option<string>)

  /**
   * The payload built once validation passes: every text field trimmed, a
   * blank label, bank code or document left out, the account type copied.
   */
  function BuildCreatePayload(t: PaymentMethodType, form: CreateForm): (p: CreatePayload)
    ensures p.methodType == t
    ensures p.payload.PixPayload? <==> t == Pix
    ensures p.labelText.Some? <==> !IsBlank(form.labelText)
    ensures p.labelText == OrUndefined(Trim(form.labelText))
    ensures t == Pix ==> p.payload == PixPayload(Trim(form.pixKey), Trim(form.pixHolderName))
    ensures t == BankTransfer ==>
      && p.payload.bankName == Trim(form.bankName)
      && p.payload.bankCode == OrUndefined(Trim(form.bankCode))
      && p.payload.agency == Trim(form.agency)
      && p.payload.accountNumber == Trim(form.accountNumber)
      && p.payload.accountType == AccountTypeName(form.accountType)
      && p.payload.accountHolderName == Trim(form.accountHolderName)
      && p.payload.document == OrUndefined(Trim(form.document))
  {
    var labelValue := Trim(form.labelText);
    var body :=
      if t == Pix then
        PixPayload(Trim(form.pixKey), Trim(form.pixHolderName))
      else
        BankTransferPayload(
          Trim(form.bankName),
          OrUndefined(Trim(form.bankCode)),
          Trim(form.agency),
          Trim(form.accountNumber),
          AccountTypeName(form.accountType),
          Trim(form.accountHolderName),
          OrUndefined(Trim(form.document)));
    CreatePayload(t, body, OrUndefined(labelValue))
  }

  /** A sent text that is present: non-empty and trimmed. */
  predicate Filled(s: string) {
    s != [] && Trimmed(s)
  }

  /** Every text of the body is trimmed, and every optional text present is filled. */
  predicate CleanPayload(p: CreatePayload) {
    (p.labelText.Some? ==> Filled(p.labelText.value)) &&
    match p.payload
    case PixPayload(key, holder) => Trimmed(key) && Trimmed(holder)
    case BankTransferPayload(name, code, agency, number, _, holder, document) =>
      Trimmed(name) && Trimmed(agency) && Trimmed(number) && Trimmed(holder) &&
      (code.Some? ==> Filled(code.value)) && (document.Some? ==> Filled(document.value))
  }

  /** A trimmed text is filled exactly when the text was not blank. */
  lemma TrimmedText(s: string)
    ensures Trimmed(Trim(s))
    ensures Filled(Trim(s)) <==> !IsBlank(s)
  {
  }

  /** An optional text sent as `text.trim() || undefined` is absent or filled. */
  lemma TrimmedOptional(s: string)
    ensures OrUndefined(Trim(s)).Some? ==> Filled(OrUndefined(Trim(s)).value)
  {
    var t := Trim(s);
    assert Trimmed(t);
  }

  /** A PIX payload holds only trimmed text, whatever the form holds. */
  lemma {:induction false} PixPayloadIsClean(form: CreateForm)
    ensures CleanPayload(BuildCreatePayload(Pix, form))
  {
    TrimmedOptional(form.labelText);
    TrimmedText(form.pixKey);
    TrimmedText(form.pixHolderName);
  }

  /** Once validation passes, the PIX key and holder name sent are filled. */
  lemma {:induction false} PixValidatedFilled(form: CreateForm)
    requires ReportedFields(Pix, form) == {}
    ensures var p := BuildCreatePayload(Pix, form).payload;
      Filled(p.pixKey) && Filled(p.pixHolderName)
  {
    PixReported(form);
    TrimmedText(form.pixKey);
    TrimmedText(form.pixHolderName);
  }

  /**
   * A bank-transfer payload holds only trimmed text, and its optional bank
   * code and document are absent rather than blank, whatever the form holds.
   */
  lemma {:induction false} BankTransferPayloadIsClean(form: CreateForm)
    ensures CleanPayload(BuildCreatePayload(BankTransfer, form))
  {
    TrimmedOptional(form.labelText);
    TrimmedText(form.bankName);
    TrimmedOptional(form.bankCode);
    TrimmedText(form.agency);
    TrimmedText(form.accountNumber);
    TrimmedText(form.accountHolderName);
    TrimmedOptional(form.document);
  }

  /** Once validation passes, the bank name, agency, account number and holder sent are filled. */
  lemma {:induction false} BankTransferValidatedFilled(form: CreateForm)
    requires ReportedFields(BankTransfer, form) == {}
    ensures var p := BuildCreatePayload(BankTransfer, form).payload;
      Filled(p.bankName) && Filled(p.agency) && Filled(p.accountNumber) && Filled(p.accountHolderName)
  {
    BankTransferReported(form);
    TrimmedText(form.bankName);
    TrimmedText(form.agency);
    TrimmedText(form.accountNumber);
    TrimmedText(form.accountHolderName);
  }

  // ------------------------------------------------------------ the dialog

  /** The dialog's state: the chosen type, the form and the error map. */
  class CreatePaymentMethodDialog {
    var methodType: PaymentMethodType
    var form: CreateForm
    var errors: map<FormField, string>

    constructor()
      ensures methodType == Pix && form == EmptyForm && errors == map[]
    {
      methodType := Pix;
      form := EmptyForm;
      errors := map[];
    }

    /** `resetCreateForm` */
    method ResetCreateForm()
      modifies this
      ensures methodType == Pix && form == EmptyForm && errors == map[]
    {
      methodType := Pix;
      form := EmptyForm;
      errors := map[];
    }

    /** `updateCreateField` on a text field: set it and clear its error only. */
    method UpdateCreateField(f: TextField, value: string)
      modifies this
      ensures form == old(form).With(f, value)
      ensures errors == old(errors)[Text(f) := ""]
      ensures methodType == old(methodType)
    {
      form := form.With(f, value);
      errors := errors[Text(f) := ""];
    }

    /** `updateCreateField("account_type", …)` */
    method UpdateAccountType(value: AccountType)
      modifies this
      ensures form == old(form).(accountType := value)
      ensures errors == old(errors)[AccountTypeField := ""]
      ensures methodType == old(methodType)
    {
      form := form.(accountType := value);
      errors := errors[AccountTypeField := ""];
    }

    /** The PIX and bank-transfer buttons: choose the type and clear every error. */
    method SelectType(t: PaymentMethodType)
      modifies this
      ensures methodType == t && errors == map[] && form == old(form)
    {
      methodType := t;
      errors := map[];
    }

    /**
     * `handleCreatePaymentMethod`: when a required field is blank the error
     * map is replaced and nothing is sent; otherwise the payload is sent and,
     * when the server accepts it (`accepted`), the dialog is reset.
     */
    method HandleCreatePaymentMethod(accepted: bool) returns (sent: Option<CreatePayload>)
      modifies this
      ensures sent.None? <==> ReportedFields(old(methodType), old(form)) != {}
      ensures sent.None? ==>
        errors.Keys == ReportedFields(old(methodType), old(form)) &&
        (forall f :: Text(f) in errors ==> errors[Text(f)] == CreateErrorMessage(f)) &&
        methodType == old(methodType) && form == old(form)
      ensures sent.Some? ==> sent.value == BuildCreatePayload(old(methodType), old(form))
      ensures sent.Some? && accepted ==> methodType == Pix && form == EmptyForm && errors == map[]
      ensures sent.Some? && !accepted ==>
        methodType == old(methodType) && form == old(form) && errors == old(errors)
    {
      var newErrors := CollectCreateErrors(methodType, form);
      if |newErrors| > 0 {
        errors := newErrors;
        return None;
      }
      assert newErrors == map[];
      sent := Some(BuildCreatePayload(methodType, form));
      if accepted {
        ResetCreateForm();
      }
    }
  }
}
