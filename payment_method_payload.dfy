/**
 * The body sent to the server for a project's payment method: a PIX key or
 * a bank account (`src/types/TPaymentMethodPayload.ts`).
 */
module PaymentMethodPayload {
  import opened Wrappers

  /** `TPaymentMethodType` */
  datatype PaymentMethodType = Pix | BankTransfer

  /** The wire name of a payment-method type. */
  function TypeName(t: PaymentMethodType): (r: string)
    ensures r == "pix" <==> t == Pix
  {
    match t
    case Pix => "pix"
    case BankTransfer => "bank_transfer"
  }

  /**
   * `IPaymentMethodPayloadPix | IPaymentMethodPayloadBankTransfer`; an absent
   * optional field is `None`.
   */
  datatype MethodPayload =
    | PixPayload(pixKey: string, pixHolderName: string)
    | BankTransferPayload(
        bankName: string,
        bankCode: Option<string>,
        agency: string,
        accountNumber: string,
        accountType: string,
        accountHolderName: string,
        document: Option<string>)
}
