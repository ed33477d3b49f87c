/**
 * The "new project" page of the admin area (`AdminProjectNew.tsx`): a form
 * kept as a dictionary of text fields, its validation rules, the request body
 * built from it, and the mapping of the server's validation errors back onto
 * the form.
 */
module AdminProjectNew {
  import opened Wrappers
  import opened JsText
  import opened PaymentMethodPayload

  /** The names of the form's fields. */
  const ProjectFieldNames: set<string> := {
    "title", "description", "participant_limit", "amount_per_participant",
    "payment_interval", "payments_per_interval", "payment_method_type",
    "pix_key", "pix_holder_name", "bank_name", "bank_code", "agency",
    "account_number", "account_type", "account_holder_name", "document"
  }

  /** The form as the page opens. */
  const InitialFormData: map<string, string> := map[
    "title" := "", "description" := "", "participant_limit" := "",
    "amount_per_participant" := "", "payment_interval" := "month",
    "payments_per_interval" := "1", "payment_method_type" := "pix",
    "pix_key" := "", "pix_holder_name" := "", "bank_name" := "", "bank_code" := "",
    "agency" := "", "account_number" := "", "account_type" := "checking",
    "account_holder_name" := "", "document" := ""
  ]

  /** Every field of the form has a value. */
  predicate HasAllFields(formData: map<string, string>) {
    ProjectFieldNames <= formData.Keys
  }

  // ------------------------------------------------------------ validation

  /**
   * `!x || parseInt(x) < 1`: empty, or a number below one. Text that
   * `parseInt` reads as `NaN` is not below one and passes.
   */
  predicate BelowOne(x: string) {
    x == [] || (ParseInt(x).Num? && ParseInt(x).n < 1)
  }

  /**
   * The rules of `validateForm` on the project's own fields: `key` is
   * reported for this form. `amountAtMostZero` is the value of
   * `parseFloat(amount_per_participant) <= 0`.
   */
  predicate ProjectRule(formData: map<string, string>, amountAtMostZero: bool, key: string)
    requires HasAllFields(formData)
  {
    || (key == "title" && IsBlank(formData["title"]))
    || (key == "participant_limit" && BelowOne(formData["participant_limit"]))
    || (key == "amount_per_participant" && (formData["amount_per_participant"] == [] || amountAtMostZero))
    || (key == "payments_per_interval" && BelowOne(formData["payments_per_interval"]))
  }

  /** The PIX rules: the key and the holder name must not be blank. */
  predicate PixRule(formData: map<string, string>, key: string)
    requires HasAllFields(formData)
  {
    || (key == "pix_key" && IsBlank(formData["pix_key"]))
    || (key == "pix_holder_name" && IsBlank(formData["pix_holder_name"]))
  }

  /** The bank rules: bank name, agency, account number and holder must not be blank. */
  predicate BankRule(formData: map<string, string>, key: string)
    requires HasAllFields(formData)
  {
    || (key == "bank_name" && IsBlank(formData["bank_name"]))
    || (key == "agency" && IsBlank(formData["agency"]))
    || (key == "account_number" && IsBlank(formData["account_number"]))
    || (key == "account_holder_name" && IsBlank(formData["account_holder_name"]))
  }

  /**
   * The rules of `validateForm` on the payment method: the PIX fields when
   * the type is `pix`, the bank fields for any other type.
   */
  predicate PaymentRule(formData: map<string, string>, key: string)
    requires HasAllFields(formData)
  {
    if formData["payment_method_type"] == "pix" then PixRule(formData, key) else BankRule(formData, key)
  }

  /** The rule table of `validateForm`: `key` is reported for this form. */
  predicate Reports(formData: map<string, string>, amountAtMostZero: bool, key: string)
    requires HasAllFields(formData)
  {
    ProjectRule(formData, amountAtMostZero, key) || PaymentRule(formData, key)
  }

  /** The message `validateForm` stores under each key it reports. */
  function ProjectErrorMessage(key: string): string {
    if key == "title" then "Título é obrigatório"
    else if key == "participant_limit" then "Limite deve ser maior que 0"
    else if key == "amount_per_participant" then "Valor deve ser maior que 0"
    else if key == "payments_per_interval" then "Deve ser pelo menos 1"
    else if key == "pix_key" then "Chave PIX é obrigatória"
    else if key == "pix_holder_name" then "Nome do titular é obrigatório"
    else if key == "bank_name" then "Nome do banco é obrigatório"
    else if key == "agency" then "Agência é obrigatória"
    else if key == "account_number" then "Conta é obrigatória"
    else if key == "account_holder_name" then "Titular é obrigatório"
    else ""
  }

  /**
   * The error map `validateForm` fills rule by rule: exactly the reported
   * keys, each with its message.
   */
  method CollectProjectErrors(formData: map<string, string>, amountAtMostZero: bool)
    returns (newErrors: map<string, string>)
    requires HasAllFields(formData)
    ensures forall key :: key in newErrors <==> Reports(formData, amountAtMostZero, key)
    ensures forall key :: key in newErrors ==> newErrors[key] == ProjectErrorMessage(key)
  {
    newErrors := CollectProjectFieldErrors(formData, amountAtMostZero);
    if formData["payment_method_type"] == "pix" {
      newErrors := AddPixErrors(formData, newErrors);
    } else {
      newErrors := AddBankErrors(formData, newErrors);
    }
  }

  /** The project half of `validateForm`: title, limit, amount and payments per interval. */
  method CollectProjectFieldErrors(formData: map<string, string>, amountAtMostZero: bool)
    returns (newErrors: map<string, string>)
    requires HasAllFields(formData)
    ensures forall key :: key in newErrors <==> ProjectRule(formData, amountAtMostZero, key)
    ensures forall key :: key in newErrors ==> newErrors[key] == ProjectErrorMessage(key)
  {
    newErrors := map[];
    if IsBlank(formData["title"]) {
      newErrors := newErrors["title" := "Título é obrigatório"];
    }
    if BelowOne(formData["participant_limit"]) {
      newErrors := newErrors["participant_limit" := "Limite deve ser maior que 0"];
    }
    if formData["amount_per_participant"] == [] || amountAtMostZero {
      newErrors := newErrors["amount_per_participant" := "Valor deve ser maior que 0"];
    }
    if BelowOne(formData["payments_per_interval"]) {
      newErrors := newErrors["payments_per_interval" := "Deve ser pelo menos 1"];
    }
  }

  /** The PIX checks, added to the errors found so far. */
  method AddPixErrors(formData: map<string, string>, errorsSoFar: map<string, string>)
    returns (newErrors: map<string, string>)
    requires HasAllFields(formData)
    ensures forall key :: key in newErrors <==> key in errorsSoFar || PixRule(formData, key)
    ensures forall key :: key in newErrors ==>
      newErrors[key] == if PixRule(formData, key) then ProjectErrorMessage(key) else errorsSoFar[key]
  {
    newErrors := errorsSoFar;
    if IsBlank(formData["pix_key"]) {
      newErrors := newErrors["pix_key" := "Chave PIX é obrigatória"];
    }
    if IsBlank(formData["pix_holder_name"]) {
      newErrors := newErrors["pix_holder_name" := "Nome do titular é obrigatório"];
    }
  }

  /** The bank-transfer checks, added to the errors found so far. */
  method AddBankErrors(formData: map<string, string>, errorsSoFar: map<string, string>)
    returns (newErrors: map<string, string>)
    requires HasAllFields(formData)
    ensures forall key :: key in newErrors <==> key in errorsSoFar || BankRule(formData, key)
    ensures forall key :: key in newErrors ==>
      newErrors[key] == if BankRule(formData, key) then ProjectErrorMessage(key) else errorsSoFar[key]
  {
    newErrors := errorsSoFar;
    if IsBlank(formData["bank_name"]) {
      newErrors := newErrors["bank_name" := "Nome do banco é obrigatório"];
    }
    if IsBlank(formData["agency"]) {
      newErrors := newErrors["agency" := "Agência é obrigatória"];
    }
    if IsBlank(formData["account_number"]) {
      newErrors := newErrors["account_number" := "Conta é obrigatória"];
    }
    if IsBlank(formData["account_holder_name"]) {
      newErrors := newErrors["account_holder_name" := "Titular é obrigatório"];
    }
  }

  // --------------------------------------------------------------- payload

  /** The body of the create-project request. */
  datatype ProjectPayload = ProjectPayload(
    title: string,
    description: Option<string>,
    participantLimit: ParsedInt,
    amountPerParticipant: string,
    paymentInterval: string,
    paymentsPerInterval: ParsedInt,
    paymentMethodType: string,
    paymentMethodPayload: MethodPayload)

  /**
   * The request body: the texts as typed (untrimmed), the counts through
   * `parseInt`, an empty description, bank code or document left out, and a
   * PIX or bank-transfer payload according to the chosen type.
   */
  function BuildProjectPayload(formData: map<string, string>): (p: ProjectPayload)
    requires HasAllFields(formData)
    ensures p.title == formData["title"] && p.amountPerParticipant == formData["amount_per_participant"]
    ensures p.description.None? <==> formData["description"] == []
    ensures p.description.Some? ==> p.description.value == formData["description"]
    ensures p.participantLimit == ParseInt(formData["participant_limit"])
    ensures p.paymentsPerInterval == ParseInt(formData["payments_per_interval"])
    ensures p.paymentInterval == formData["payment_interval"]
    ensures p.paymentMethodType == formData["payment_method_type"]
    ensures p.paymentMethodPayload.PixPayload? <==> formData["payment_method_type"] == "pix"
    ensures p.paymentMethodPayload.PixPayload? ==>
      p.paymentMethodPayload.pixKey == formData["pix_key"] &&
      p.paymentMethodPayload.pixHolderName == formData["pix_holder_name"]
    ensures p.paymentMethodPayload.BankTransferPayload? ==>
      && p.paymentMethodPayload.bankName == formData["bank_name"]
      && (p.paymentMethodPayload.bankCode.None? <==> formData["bank_code"] == [])
      && (p.paymentMethodPayload.bankCode.Some? ==> p.paymentMethodPayload.bankCode.value == formData["bank_code"])
      && p.paymentMethodPayload.agency == formData["agency"]
      && p.paymentMethodPayload.accountNumber == formData["account_number"]
      && p.paymentMethodPayload.accountType == formData["account_type"]
      && p.paymentMethodPayload.accountHolderName == formData["account_holder_name"]
      && (p.paymentMethodPayload.document.None? <==> formData["document"] == [])
      && (p.paymentMethodPayload.document.Some? ==> p.paymentMethodPayload.document.value == formData["document"])
  {
    ProjectPayload(
      formData["title"],
      OrUndefined(formData["description"]),
      ParseInt(formData["participant_limit"]),
      formData["amount_per_participant"],
      formData["payment_interval"],
      ParseInt(formData["payments_per_interval"]),
      formData["payment_method_type"],
      if formData["payment_method_type"] == "pix" then
        PixPayload(formData["pix_key"], formData["pix_holder_name"])
      else
        BankTransferPayload(
          formData["bank_name"],
          OrUndefined(formData["bank_code"]),
          formData["agency"],
          formData["account_number"],
          formData["account_type"],
          formData["account_holder_name"],
          OrUndefined(formData["document"])))
  }

  /** A count that passed validation: `NaN`, or at least one. */
  predicate AcceptedCount(n: ParsedInt) {
    n.NaN? || n.n >= 1
  }

  /**
   * The body sent after validation passes has a non-blank title, counts that
   * are `NaN` or at least one, and non-blank required payment fields; those
   * texts are sent exactly as typed, surrounding whitespace included.
   */
  lemma {:induction false} ValidatedPayload(formData: map<string, string>, amountAtMostZero: bool)
    requires HasAllFields(formData)
    requires forall key :: !Reports(formData, amountAtMostZero, key)
    ensures var p := BuildProjectPayload(formData);
      && !IsBlank(p.title) && p.title == formData["title"]
      && AcceptedCount(p.participantLimit) && AcceptedCount(p.paymentsPerInterval)
      && p.amountPerParticipant != [] && !amountAtMostZero
      && match p.paymentMethodPayload
         case PixPayload(key, holder) => !IsBlank(key) && !IsBlank(holder)
         case BankTransferPayload(name, _, agency, number, _, holder, _) =>
           !IsBlank(name) && !IsBlank(agency) && !IsBlank(number) && !IsBlank(holder)
  {
    assert !Reports(formData, amountAtMostZero, "title");
    assert !Reports(formData, amountAtMostZero, "participant_limit");
    assert !Reports(formData, amountAtMostZero, "amount_per_participant");
    assert !Reports(formData, amountAtMostZero, "payments_per_interval");
    assert !Reports(formData, amountAtMostZero, "pix_key");
    assert !Reports(formData, amountAtMostZero, "pix_holder_name");
    assert !Reports(formData, amountAtMostZero, "bank_name");
    assert !Reports(formData, amountAtMostZero, "agency");
    assert !Reports(formData, amountAtMostZero, "account_number");
    assert !Reports(formData, amountAtMostZero, "account_holder_name");
  }

  // --------------------------------------------------------- server errors

  /** `messages[0]`; an empty list gives the empty string (`undefined` in the source). */
  function FirstMessage(messages: seq<string>): string {
    if messages == [] then "" else messages[0]
  }

  /**
   * The `forEach` over the server's `validationErrors`: every field it names
   * gets the first of its messages, and no other field appears.
   */
  method FirstMessages(validationErrors: map<string, seq<string>>) returns (formErrors: map<string, string>)
    ensures formErrors.Keys == validationErrors.Keys
    ensures forall key :: key in validationErrors ==> formErrors[key] == FirstMessage(validationErrors[key])
  {
    formErrors := map[];
    var pending := validationErrors.Keys;
    while pending != {}
      invariant pending <= validationErrors.Keys
      invariant formErrors.Keys == validationErrors.Keys - pending
      invariant forall key :: key in formErrors ==> formErrors[key] == FirstMessage(validationErrors[key])
      decreases pending
    {
      var key :| key in pending;
      formErrors := formErrors[key := FirstMessage(validationErrors[key])];
      pending := pending - {key};
    }
  }

  /** `apiError.message || "Erro ao criar projeto."` */
  function GeneralErrorMessage(message: Option<string>): (r: string)
    ensures r != []
    ensures message.Some? && message.value != [] ==> r == message.value
  {
    if message.Some? && message.value != [] then message.value else "Erro ao criar projeto."
  }

  /** What the server answers to the create request. */
  datatype CreateOutcome =
    | Created(id: int)
    | Rejected(message: Option<string>, validationErrors: Option<map<string, seq<string>>>)

  // -------------------------------------------------------------- the page

  /** The page's state: the form, the per-field errors and the general error. */
  class ProjectForm {
    var formData: map<string, string>
    var errors: map<string, string>
    var generalError: string

    predicate Valid()
      reads this
    {
      HasAllFields(formData)
    }

    constructor()
      ensures Valid()
      ensures formData == InitialFormData && errors == map[] && generalError == ""
    {
      formData := InitialFormData;
      errors := map[];
      generalError := "";
    }

    /** `updateField`: set one field and clear that field's error only. */
    method UpdateField(field: string, value: string)
      requires Valid()
      modifies this
      ensures Valid()
      ensures formData == old(formData)[field := value]
      ensures errors == old(errors)[field := ""]
      ensures generalError == old(generalError)
    {
      formData := formData[field := value];
      errors := errors[field := ""];
    }

    /**
     * `validateForm`: replace the error map with the reported keys and their
     * messages, and answer whether none was reported.
     */
    method ValidateForm(amountAtMostZero: bool) returns (valid: bool)
      requires Valid()
      modifies this
      ensures Valid()
      ensures formData == old(formData) && generalError == old(generalError)
      ensures forall key :: key in errors <==> Reports(formData, amountAtMostZero, key)
      ensures forall key :: key in errors ==> errors[key] == ProjectErrorMessage(key)
      ensures valid <==> errors == map[]
      ensures valid <==> forall key :: !Reports(formData, amountAtMostZero, key)
    {
      var newErrors := CollectProjectErrors(formData, amountAtMostZero);
      errors := newErrors;
      valid := |newErrors| == 0;
      if !valid {
        var key :| key in newErrors;
        assert Reports(formData, amountAtMostZero, key);
      }
    }

    /**
     * `handleSubmit`: clear the general error and validate; when validation
     * passes, send the payload. A created project leads to its page; a
     * rejection maps the server's field errors onto the form (when it sent
     * any) and shows its message or the default one.
     */
    method HandleSubmit(amountAtMostZero: bool, outcome: CreateOutcome)
      returns (sent: Option<ProjectPayload>, navigateTo: Option<string>)
      requires Valid()
      modifies this
      ensures Valid() && formData == old(formData)
      ensures sent.None? <==> exists key :: Reports(formData, amountAtMostZero, key)
      ensures sent.None? ==> navigateTo.None? && generalError == ""
      ensures sent.None? ==>
        (forall key :: key in errors <==> Reports(formData, amountAtMostZero, key)) &&
        forall key :: key in errors ==> errors[key] == ProjectErrorMessage(key)
      ensures sent.Some? && !(outcome.Rejected? && outcome.validationErrors.Some?) ==> errors == map[]
      ensures sent.Some? ==> sent.value == BuildProjectPayload(formData)
      ensures sent.Some? && outcome.Created? ==>
        navigateTo == Some("/admin/projects/" + IntToString(outcome.id)) && generalError == ""
      ensures sent.Some? && outcome.Rejected? ==>
        navigateTo.None? && generalError == GeneralErrorMessage(outcome.message)
      ensures sent.Some? && outcome.Rejected? && outcome.validationErrors.Some? ==>
        errors.Keys == outcome.validationErrors.value.Keys &&
        forall key :: key in errors ==> errors[key] == FirstMessage(outcome.validationErrors.value[key])
    {
      generalError := "";
      var valid := ValidateForm(amountAtMostZero);
      if !valid {
        return None, None;
      }
      sent := Some(BuildProjectPayload(formData));
      match outcome
      case Created(id) =>
        navigateTo := Some("/admin/projects/" + IntToString(id));
      case Rejected(message, validationErrors) =>
        navigateTo := None;
        if validationErrors.Some? {
          errors := FirstMessages(validationErrors.value);
        }
        generalError := GeneralErrorMessage(message);
    }
  }
}
