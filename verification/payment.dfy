/** The payment composable, src/composables/usePayment.ts: pay the WiFi contract
    from the shared wallet session, and map the failures of the payment and of the
    server-side verification to the messages the page shows. The amount is turned
    into wei by the ethers library, whose outcome is an input, as are the wallet's
    answers and the verification server's. */
module Payment {
  import opened Js
  import opened EthersCompat
  import opened WalletFixed

  /** `CONTRACT_CONFIG.address`. */
  const ContractAddress: string := "0x870f01a9a4ebCbB1Aaeb2ee3ca09c447B9B8d9AA"

  const NotConnected: string := "钱包未连接"
  const UserCancelled: string := "用户取消了交易"
  const InsufficientFunds: string := "余额不足"
  const PaymentFailed: string := "支付失败"
  const ServerTimeout: string := "服务器响应超时"
  const ServerErrorPrefix: string := "服务器错误: "
  const NetworkFailure: string := "网络连接失败"

  /** The wallet's code for a request the user rejected. */
  const UserRejectedCode: int := 4001

  /** `PaymentResult`: `{ success, txHash?, error? }`. */
  datatype PaymentResult = PaymentResult(success: bool, txHash: Option<string>, error: Option<string>)

  /** The message for a failed payment: user rejection first, then lack of funds,
      then the error's own message or a generic one. */
  function PaymentErrorMessage(e: JsError): (message: string)
    ensures message != ""
    ensures e.code == NumCode(UserRejectedCode) ==> message == UserCancelled
    ensures e.code == StrCode("INSUFFICIENT_FUNDS") ==> message == InsufficientFunds
    ensures e.code != NumCode(UserRejectedCode) && e.code != StrCode("INSUFFICIENT_FUNDS") ==>
      message == OrElse(e.message, PaymentFailed)
  {
    if e.code == NumCode(UserRejectedCode) then UserCancelled
    else if e.code == StrCode("INSUFFICIENT_FUNDS") then InsufficientFunds
    else OrElse(e.message, PaymentFailed)
  }

  /** A code that only looks like 4001 does not count as a user rejection. */
  lemma StringCodeIsNotRejection(e: JsError)
    requires e.code == StrCode("4001") && e.message != ""
    ensures PaymentErrorMessage(e) == e.message
  {
  }

  /** `payAndReturn(paidAmount, returnedAmount)`. Without a provider nothing
      happens. A missing signer is requested once; failing that, the provider pays.
      `signerAccountsReply` answers the signer's `eth_accounts`, `parsed` is the
      outcome of `parseEther`, and `hasEthereum`, `senderAccountsReply` and
      `sendReply` feed `payForWiFi`. */
  method PayAndReturn(wallet: SharedWallet, signerAccountsReply: Reply<seq<string>>, parsed: Reply<int>,
                      hasEthereum: bool, senderAccountsReply: Reply<seq<string>>, sendReply: Reply<string>)
    returns (r: PaymentResult, submitted: Option<Submission>)
    modifies wallet
    ensures old(wallet.provider) == null ==>
      r == PaymentResult(false, None, Some(NotConnected)) && submitted.None? && unchanged(wallet)
    ensures old(wallet.provider) != null ==>
      && wallet.provider == old(wallet.provider)
      // one acquisition attempt, whose failure is not fatal
      && (old(wallet.signer) != null ==> wallet.signer == old(wallet.signer))
      && (old(wallet.signer) == null ==>
            (wallet.signer != null <==> signerAccountsReply.Ok? && signerAccountsReply.value != []) &&
            (wallet.signer != null ==> fresh(wallet.signer) && wallet.signer.address == signerAccountsReply.value[0]))
      // the signer pays when there is one, otherwise the provider
      && submitted.Some?
      && submitted.value.channel == (if wallet.signer != null then SignerSend else ProviderTransport)
      && submitted.value.tx.to == ContractAddress
      && submitted.value.tx.data == PayForWiFiSelector
      && submitted.value.tx.value == TxValue(ParseEther(parsed))
      && (wallet.signer != null ==> submitted.value.tx.from == Some(wallet.signer.address))
      // the whole transaction: the provider pays from the sender payForWiFi resolves
      && (wallet.signer == null ==>
            submitted.value.tx == BuildTx(ContractAddress,
              Sender(ProviderHandle(wallet.provider), hasEthereum, senderAccountsReply), ParseEther(parsed)))
      && (wallet.signer != null ==>
            submitted.value.tx == wallet.signer.WithFrom(BuildTx(ContractAddress,
              Sender(SignerHandle(wallet.signer), hasEthereum, senderAccountsReply), ParseEther(parsed))))
      && (r.success <==> sendReply.Ok?)
      && (r.success ==> r == PaymentResult(true, Some(sendReply.value), None))
      && (!r.success ==> r == PaymentResult(false, None, Some(PaymentErrorMessage(sendReply.error))))
  {
    if wallet.provider == null {
      return PaymentResult(false, None, Some(NotConnected)), None;
    }
    if wallet.signer == null {
      var obtained := GetSigner(signerAccountsReply);
      if obtained.Success? {
        wallet.signer := obtained.value;
      }
    }
    var handle := if wallet.signer != null then SignerHandle(wallet.signer) else ProviderHandle(wallet.provider);
    var wei := ParseEther(parsed);
    var sent;
    submitted, sent := PayForWiFi(ContractAddress, handle, wei, hasEthereum, senderAccountsReply, sendReply);
    match sent {
      case Success(response) =>
        var receipt := Wait(response);
        r := PaymentResult(true, Some(receipt.hash), None);
      case Failure(e) =>
        r := PaymentResult(false, None, Some(PaymentErrorMessage(e)));
    }
  }

  /** `ServerResponse`: `{ success, message, allowAccess }`. */
  datatype ServerResponse = ServerResponse(success: bool, message: string, allowAccess: bool)

  /** What a failed `axios.post` carries: its `code` and, when the server answered,
      the HTTP status of `error.response`. */
  datatype AxiosError = AxiosError(code: ErrorCode, responseStatus: Option<int>)

  /** The response `verifyPayment` makes up for a failed request: a timeout first,
      then a server answer with its status, then a network failure. Access is never
      granted. */
  function VerifyFailure(e: AxiosError): (response: ServerResponse)
    ensures !response.success && !response.allowAccess
    ensures e.code == StrCode("ECONNABORTED") ==> response.message == ServerTimeout
    ensures e.code != StrCode("ECONNABORTED") && e.responseStatus.Some? ==>
      response.message == ServerErrorPrefix + Decimal(e.responseStatus.value)
    ensures e.code != StrCode("ECONNABORTED") && e.responseStatus.None? ==>
      response.message == NetworkFailure
  {
    if e.code == StrCode("ECONNABORTED") then ServerResponse(false, ServerTimeout, false)
    else if e.responseStatus.Some? then
      ServerResponse(false, ServerErrorPrefix + Decimal(e.responseStatus.value), false)
    else ServerResponse(false, NetworkFailure, false)
  }

  /** `verifyPayment(paymentData)`: the server's own response, or the made-up one. */
  function VerifyPayment(reply: Result<ServerResponse, AxiosError>): (response: ServerResponse)
    ensures reply.Success? ==> response == reply.value
    ensures reply.Failure? ==> !response.allowAccess && !response.success
    ensures reply.Failure? ==> response == VerifyFailure(reply.error)
  {
    match reply
    case Success(answer) => answer
    case Failure(e) => VerifyFailure(e)
  }

  /** The status in a server-error message can be read back: it follows the prefix
      as decimal digits, which denote the status. */
  lemma ServerErrorMessageShape(e: AxiosError)
    requires e.code != StrCode("ECONNABORTED") && e.responseStatus.Some? && e.responseStatus.value >= 0
    ensures |VerifyFailure(e).message| > |ServerErrorPrefix|
    ensures VerifyFailure(e).message[..|ServerErrorPrefix|] == ServerErrorPrefix
    ensures IsDigitString(VerifyFailure(e).message[|ServerErrorPrefix|..])
    ensures DecimalValue(VerifyFailure(e).message[|ServerErrorPrefix|..]) == e.responseStatus.value
  {
    var m := VerifyFailure(e).message;
    assert m[|ServerErrorPrefix|..] == Decimal(e.responseStatus.value);
    DecimalReadsBack(e.responseStatus.value);
  }
}
