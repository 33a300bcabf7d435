/**
 * The transfer form's state (the component's `useState` fields) and the
 * handlers that update it: a scan, a scan error, the token field's blur,
 * the amount field's change, and the submission with its two outcomes.
 */
module TransferForm {
  import opened Wrappers
  import opened VietQr
  import BankDirectory
  import IntParsing
  import AmountPolicy
  import TokenPolicy

  const InvalidQrMessage: string := "QR Code không hợp lệ"
  const InvalidTokenMessage: string := "Token không hợp lệ"
  const SuccessMessage: string := "Chuyển tiền thành công"
  const FailurePrefix: string := "Chuyển tiền thất bại. Lý do: "

  /**
   * The body posted to the transfer endpoint. `None` is a field that is
   * `null` or `undefined` in the posted object.
   */
  datatype TransferRequest = TransferRequest(
    token: Option<string>,
    bankCode: Option<string>,
    customerAccount: Option<string>,
    amount: int,
    remark: Option<string>)

  /** How the transfer call settled: resolved, or rejected with the response body's `message` (if any) and the error's own `message`. */
  datatype Response = Resolved | Rejected(responseMessage: Option<string>, errorMessage: string)

  /** The toast shown when the call settles. */
  datatype Notice = SuccessToast(text: string) | ErrorToast(text: string)

  /** The request built from the current token, record and amount. */
  function MakeRequest(token: Option<string>, qr: Option<Record>, amount: int): (r: TransferRequest)
    ensures r.token == token && r.amount == amount
    ensures r.customerAccount == (if qr.Some? then Some(qr.value.consumer.bankNumber) else None)
    ensures r.remark == (if qr.Some? then qr.value.additionalData.purpose else None)
    ensures r.bankCode.Some? <==>
              qr.Some? && exists b :: b in BankDirectory.SupportedBanks && b.bin == qr.value.consumer.bankBin
    ensures r.bankCode.Some? ==>
              exists b :: b in BankDirectory.SupportedBanks && b.bin == qr.value.consumer.bankBin &&
                          b.bankCode == r.bankCode.value
  {
    var bank := if qr.Some? then BankDirectory.Resolve(qr.value.consumer.bankBin) else None;
    TransferRequest(
      token,
      if bank.Some? then Some(bank.value.bankCode) else None,
      if qr.Some? then Some(qr.value.consumer.bankNumber) else None,
      amount,
      if qr.Some? then qr.value.additionalData.purpose else None)
  }

  /** `error?.response?.data?.message || error.message`: an empty message falls back too. */
  function FailureReason(responseMessage: Option<string>, errorMessage: string): (r: string)
    ensures responseMessage.Some? && responseMessage.value != "" ==> r == responseMessage.value
    ensures responseMessage.None? || responseMessage.value == "" ==> r == errorMessage
  {
    if responseMessage.Some? && responseMessage.value != "" then responseMessage.value else errorMessage
  }

  class Form {
    /** The `accessToken` query parameter read at start-up. */
    const initTokenData: Option<string>
    var qrData: Option<Record>
    var tokenData: Option<string>
    var qrErrorMessage: Option<string>
    var tokenErrorMessage: Option<string>
    var isValidToken: bool
    var isValidQr: bool
    var amount: int

    /**
     * The form's invariant: a QR flagged valid is held and was decoded
     * valid, only valid records are ever held, a token flagged valid is
     * held and well formed, and the amount is in range.
     */
    ghost predicate Valid()
      reads this
    {
      (isValidQr ==> qrData.Some? && qrErrorMessage.None?) &&
      (qrData.Some? ==> qrData.value.isValid) &&
      (isValidToken ==> tokenData.Some? && TokenPolicy.Matches(TokenPolicy.TokenPattern, tokenData.value) &&
                        tokenErrorMessage.None?) &&
      AmountPolicy.InRange(amount)
    }

    constructor (accessToken: Option<string>)
      ensures Valid()
      ensures initTokenData == accessToken && tokenData == accessToken
      ensures qrData == None && qrErrorMessage == None && tokenErrorMessage == None
      ensures !isValidToken && !isValidQr
      ensures amount == AmountPolicy.InitialAmount
    {
      initTokenData := accessToken;
      tokenData := accessToken;
      qrData := None;
      qrErrorMessage := None;
      tokenErrorMessage := None;
      isValidToken := false;
      isValidQr := false;
      amount := AmountPolicy.InitialAmount;
    }

    /** The pay button is enabled exactly when the scanned QR is flagged valid. */
    predicate SubmitEnabled()
      reads this
      ensures Valid() && SubmitEnabled() ==> qrData.Some? && qrData.value.isValid
    {
      isValidQr
    }

    /** An enabled button means a valid record is held, so the request carries its account number. */
    lemma EnabledMeansValidRecord()
      requires Valid() && SubmitEnabled()
      ensures qrData.Some? && qrData.value.isValid
      ensures MakeRequest(tokenData, qrData, amount).customerAccount == Some(qrData.value.consumer.bankNumber)
      ensures AmountPolicy.InRange(MakeRequest(tokenData, qrData, amount).amount)
    {
    }

    /** A scan: the scanner's text is decoded by the external `decode`. */
    method QrChange(data: string, decode: string -> Record)
      requires Valid()
      modifies this`qrData, this`isValidQr, this`qrErrorMessage
      ensures Valid()
      ensures decode(data).isValid ==>
                qrErrorMessage == None && qrData == Some(decode(data)) && isValidQr
      ensures !decode(data).isValid ==>
                qrErrorMessage == Some(InvalidQrMessage) && !isValidQr && qrData == old(qrData)
    {
      var decoded := decode(data);
      if decoded.isValid {
        qrErrorMessage := None;
        qrData := Some(decoded);
        isValidQr := true;
      } else {
        qrErrorMessage := Some(InvalidQrMessage);
        isValidQr := false;
      }
    }

    /** A scanner error; `errorText` is the error's `toString()`. */
    method QrError(errorText: string)
      requires Valid()
      modifies this`qrData, this`isValidQr, this`qrErrorMessage
      ensures Valid()
      ensures qrErrorMessage == Some(errorText) && !isValidQr && qrData == None
    {
      qrErrorMessage := Some(errorText);
      isValidQr := false;
      qrData := None;
    }

    /** The token field lost focus holding `value`. */
    method ChangeToken(value: string)
      requires Valid()
      modifies this`tokenData, this`isValidToken, this`tokenErrorMessage
      ensures Valid()
      ensures TokenPolicy.IsToken(value) ==>
                tokenErrorMessage == None && tokenData == Some(value) && isValidToken
      ensures !TokenPolicy.IsToken(value) ==>
                tokenErrorMessage == Some(InvalidTokenMessage) && !isValidToken && tokenData == old(tokenData)
    {
      TokenPolicy.TokenPatternMeaning(value);
      if TokenPolicy.Matches(TokenPolicy.TokenPattern, value) {
        tokenErrorMessage := None;
        tokenData := Some(value);
        isValidToken := true;
      } else {
        tokenErrorMessage := Some(InvalidTokenMessage);
        isValidToken := false;
      }
    }

    /** The amount field changed to `text`: parse, cap at the maximum, raise to the minimum, store. */
    method ChangeAmount(text: string)
      requires Valid()
      modifies this`amount
      ensures Valid()
      ensures amount == AmountPolicy.AmountFromText(text)
    {
      var value := IntParsing.ParseIntOrZero(text);
      if value > AmountPolicy.Max {
        value := AmountPolicy.Max;
      }
      if value < AmountPolicy.Min {
        value := AmountPolicy.Min;
      }
      amount := value;
    }

    /** Pressing pay: the request posted, built from the state at this moment; nothing changes until the call settles. */
    method Submit() returns (request: TransferRequest)
      ensures request == MakeRequest(tokenData, qrData, amount)
    {
      request := MakeRequest(tokenData, qrData, amount);
    }

    /** The transfer call settled with `response`. Success consumes the scanned code; failure changes no state. */
    method Respond(response: Response) returns (notice: Notice)
      requires Valid()
      modifies this`qrData, this`isValidQr
      ensures Valid()
      ensures response.Resolved? ==>
                notice == SuccessToast(SuccessMessage) && qrData == None && !isValidQr
      ensures response.Rejected? ==>
                notice == ErrorToast(FailurePrefix + FailureReason(response.responseMessage, response.errorMessage)) &&
                qrData == old(qrData) && isValidQr == old(isValidQr)
    {
      match response
      case Resolved =>
        notice := SuccessToast(SuccessMessage);
        qrData := None;
        isValidQr := false;
      case Rejected(responseMessage, errorMessage) =>
        notice := ErrorToast(FailurePrefix + FailureReason(responseMessage, errorMessage));
    }
  }

  /**
   * A client of the handlers: scan a valid code for BIN 970422, enter an
   * amount and a token, and pay.
   */
  method PaymentScenario(data: string, decode: string -> Record)
    requires decode(data).isValid && decode(data).consumer.bankBin == "970422"
  {
    var form := new Form(None);
    form.QrChange(data, decode);
    assert form.SubmitEnabled();
    var text := IntParsing.Decimal(250000);
    AmountPolicy.AmountOfInRangeText(250000, "");
    assert text + "" == text;
    form.ChangeAmount(text);
    assert form.amount == 250000;
    var token := "550e8400-e29b-41d4-a716-446655440000";
    TokenPolicy.TokenAcceptsLowerCaseUuid();
    TokenPolicy.TokenPatternMeaning(token);
    form.ChangeToken(token);
    assert form.isValidToken;
    var request := form.Submit();
    BankDirectory.ResolveSupported();
    assert request.bankCode == Some("mbbank");
    assert request.amount == 250000 && request.token == Some(token);
  }

  /** A client of the outcome handler: success consumes the code, failure keeps it and reports the service's reason. */
  method OutcomeScenario(data: string, decode: string -> Record)
    requires decode(data).isValid
  {
    var form := new Form(None);
    form.QrChange(data, decode);
    var notice := form.Respond(Rejected(Some("insufficient funds"), "Request failed with status code 400"));
    assert notice == ErrorToast(FailurePrefix + "insufficient funds");
    assert form.SubmitEnabled();
    notice := form.Respond(Resolved);
    assert notice == SuccessToast(SuccessMessage);
    assert !form.SubmitEnabled() && form.qrData == None;
  }
}
