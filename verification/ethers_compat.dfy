/** The ethers v6 compatibility layer of src/utils/ethersCompat.ts: a hand-made
    provider and signer over the injected wallet object (`window.ethereum`), a
    contract stub whose `payForWiFi` builds and submits the payment transaction, and
    wrappers that turn library failures into fixed fallback values.

    Every call into the wallet, and every call into the ethers library, is an input
    here: a `Reply` says how the awaited request settled. Whether the wallet object
    is present is a boolean. */
module EthersCompat {
  import opened Js
  import opened JsHex

  /** The provider object built by `createProvider`. All of its methods forward to
      the wallet object it captured, so it needs no state of its own. */
  class CompatProvider {
    constructor ()
    {
    }
  }

  /** The signer object built by `getSigner`: it remembers the first account the
      wallet reported. */
  class CompatSigner {
    const address: string

    constructor (address: string)
      ensures this.address == address
    {
      this.address := address;
    }

    /** `getAddress()`: the remembered account. */
    function GetAddress(): (a: string)
    {
      address
    }

    /** The transaction that `sendTransaction(tx)` passes to `eth_sendTransaction`:
        the caller's transaction with `from` forced to the remembered account. */
    function WithFrom(tx: Tx): (sent: Tx)
      ensures sent.from == Some(address)
      ensures sent.to == tx.to && sent.value == tx.value && sent.data == tx.data
    {
      tx.(from := Some(address))
    }
  }

  const ProviderError: string := "无法创建 ethers provider"
  const SignerError: string := "无法获取 signer"
  const NoChannelError: string := "No valid signer or provider found"

  /** The function selector of `payForWiFi()`. */
  const PayForWiFiSelector: string := "0x8e7ea5d3"

  /** `createProvider(ethereum)`: fails, with the layer's own message, exactly when
      the wallet object is missing. */
  method CreateProvider(hasEthereum: bool) returns (r: Result<CompatProvider, JsError>)
    ensures r.Failure? <==> !hasEthereum
    ensures r.Failure? ==> r.error == Thrown(ProviderError)
    ensures r.Success? ==> fresh(r.value)
  {
    if !hasEthereum {
      return Failure(Thrown(ProviderError));
    }
    var provider := new CompatProvider();
    r := Success(provider);
  }

  /** `getNetwork()` (and the wrapper of the same name, whose catch the provider
      never reaches): the `eth_chainId` answer read as hex, or 0 when the request
      fails. */
  function ChainIdOf(chainIdReply: Reply<string>): (chainId: JsInt)
    ensures chainIdReply.Rejected? ==> chainId == Int(0)
    ensures chainIdReply.Ok? ==> chainId == ParseInt16(chainIdReply.value)
  {
    match chainIdReply
    case Ok(hex) => ParseInt16(hex)
    case Rejected(_) => Int(0)
  }

  /** A wallet that answers `eth_chainId` with `toString(16)` of a non-negative id
      after "0x" is read back as that id. */
  lemma ChainIdRoundTrip(id: nat)
    ensures ChainIdOf(Ok("0x" + ToString16(id))) == Int(id)
  {
    ParsePrefixedToString16(id);
  }

  /** The provider's `getBalance(address)`: the balance as a BigInt, or 0 when the
      request fails or its answer does not convert. `balanceReply` carries the
      outcome of the request together with the conversion: `Ok(None)` is an answer
      that `BigInt` rejects. */
  function ProviderBalance(balanceReply: Reply<Option<int>>): (balance: int)
    ensures balanceReply.Ok? && balanceReply.value.Some? ==> balance == balanceReply.value.value
    ensures !(balanceReply.Ok? && balanceReply.value.Some?) ==> balance == 0
  {
    match balanceReply
    case Ok(Some(b)) => b
    case _ => 0
  }

  /** `EthersCompat.formatEther(value)`: the library's text, or "0" when it throws.
      `formatted` is the outcome of the library call. */
  function FormatEther(formatted: Reply<string>): (text: string)
    ensures formatted.Ok? ==> text == formatted.value
    ensures formatted.Rejected? ==> text == "0"
  {
    match formatted
    case Ok(s) => s
    case Rejected(_) => "0"
  }

  /** `EthersCompat.parseEther(text)`: the library's amount in wei, or 0 when it
      throws. */
  function ParseEther(parsed: Reply<int>): (wei: int)
    ensures parsed.Ok? ==> wei == parsed.value
    ensures parsed.Rejected? ==> wei == 0
  {
    match parsed
    case Ok(v) => v
    case Rejected(_) => 0
  }

  /** `EthersCompat.getBalance(provider, address)` over a compat provider: the
      provider never throws, so the text is the library's rendering of the balance
      (of 0 when the request failed), or "0" when the rendering throws. */
  function BalanceText(balanceReply: Reply<Option<int>>, formatEther: int -> Reply<string>): (text: string)
    ensures formatEther(ProviderBalance(balanceReply)).Rejected? ==> text == "0"
    ensures formatEther(ProviderBalance(balanceReply)).Ok? ==> text == formatEther(ProviderBalance(balanceReply)).value
    ensures balanceReply.Rejected? ==> text == FormatEther(formatEther(0))
  {
    FormatEther(formatEther(ProviderBalance(balanceReply)))
  }

  /** `EthersCompat.getSigner(provider)` over a compat provider: `eth_accounts` must
      answer with at least one account; any failure becomes the wrapper's message. */
  method GetSigner(accountsReply: Reply<seq<string>>) returns (r: Result<CompatSigner, JsError>)
    ensures r.Failure? <==> accountsReply.Rejected? || accountsReply.value == []
    ensures r.Failure? ==> r.error == Thrown(SignerError)
    ensures r.Success? ==> fresh(r.value) && r.value.address == accountsReply.value[0]
  {
    match accountsReply {
      case Rejected(_) =>
        return Failure(Thrown(SignerError));
      case Ok(accounts) =>
        if accounts == [] {
          return Failure(Thrown(SignerError));
        }
        var signer := new CompatSigner(accounts[0]);
        r := Success(signer);
    }
  }

  /** The transaction object `payForWiFi` builds. */
  datatype Tx = Tx(to: string, from: Option<string>, value: string, data: string)

  /** `'0x' + value.toString(16)`. */
  function TxValue(wei: int): (hex: string)
    ensures |hex| >= 3 && hex[..2] == "0x"
    // lower-case digits with no leading zero, and a '-' after the prefix for a negative amount
    ensures wei >= 0 ==> hex == "0x" + ToString16Nat(wei)
    ensures wei < 0 ==> hex == "0x-" + ToString16Nat(-wei)
    ensures wei >= 0 ==> ParseInt16(hex) == Int(wei)
    ensures wei < 0 ==> ParseInt16(hex) == NaN
  {
    ParsePrefixedToString16(wei);
    "0x" + ToString16(wei)
  }

  /** The transaction for paying `wei` to `contract` from `from`. */
  function BuildTx(contract: string, from: Option<string>, wei: int): (tx: Tx)
    ensures tx.to == contract && tx.from == from && tx.data == PayForWiFiSelector
    ensures tx.value == TxValue(wei)
    ensures wei >= 0 ==> tx.value == "0x" + ToString16Nat(wei) && ParseInt16(tx.value) == Int(wei)
  {
    Tx(contract, from, TxValue(wei), PayForWiFiSelector)
  }

  /** What the contract stub was created with: the signer, the provider, or
      nothing usable. */
  datatype Handle = SignerHandle(signer: CompatSigner) | ProviderHandle(provider: CompatProvider) | NoHandle

  /** The three ways of submitting, in order of preference. */
  datatype Channel = SignerSend | ProviderTransport | WindowTransport

  /** What reached `eth_sendTransaction`, and through which channel. */
  datatype Submission = Submission(channel: Channel, tx: Tx)

  /** The object `payForWiFi` resolves to. */
  datatype TxResponse = TxResponse(hash: string)

  /** The object `wait()` resolves to. */
  datatype Receipt = Receipt(hash: string, blockNumber: int, confirmations: int, status: int)

  /** `wait()`: a fixed, successful receipt for the submitted hash. */
  function Wait(response: TxResponse): (receipt: Receipt)
    ensures receipt.hash == response.hash && receipt.status == 1
    ensures receipt.blockNumber == 1 && receipt.confirmations == 1
  {
    Receipt(response.hash, 1, 1, 1)
  }

  /** The sender `payForWiFi` resolves, in order: the signer's address; when that
      is missing or empty and the wallet object is present, the first account
      `eth_accounts` reports (none for an empty list); a rejected `eth_accounts`
      keeps what the signer gave, an empty address included. */
  function Sender(handle: Handle, hasEthereum: bool, accountsReply: Reply<seq<string>>): (from: Option<string>)
    ensures handle.SignerHandle? && handle.signer.address != "" ==> from == Some(handle.signer.address)
    ensures !(handle.SignerHandle? && handle.signer.address != "") && hasEthereum && accountsReply.Ok? ==>
      from == (if accountsReply.value == [] then None else Some(accountsReply.value[0]))
    ensures !(hasEthereum && accountsReply.Ok?) ==>
      from == (if handle.SignerHandle? then Some(handle.signer.address) else None)
    ensures from.Some? ==>
      (handle.SignerHandle? && from == Some(handle.signer.address)) ||
      (accountsReply.Ok? && accountsReply.value != [] && from == Some(accountsReply.value[0]))
  {
    if handle.SignerHandle? && handle.signer.address != "" then Some(handle.signer.address)
    else if hasEthereum && accountsReply.Ok? then
      (if accountsReply.value == [] then None else Some(accountsReply.value[0]))
    else if handle.SignerHandle? then Some(handle.signer.address)
    else None
  }

  /** The channel `payForWiFi` submits through, if any. */
  function ChannelFor(handle: Handle, hasEthereum: bool): (channel: Option<Channel>)
    ensures channel.None? <==> handle.NoHandle? && !hasEthereum
    ensures handle.SignerHandle? ==> channel == Some(SignerSend)
    ensures handle.ProviderHandle? ==> channel == Some(ProviderTransport)
    ensures handle.NoHandle? && hasEthereum ==> channel == Some(WindowTransport)
  {
    match handle
    case SignerHandle(_) => Some(SignerSend)
    case ProviderHandle(_) => Some(ProviderTransport)
    case NoHandle => if hasEthereum then Some(WindowTransport) else None
  }

  /** `contract.payForWiFi({ value })` for the stub made by `createContract(contract,
      abi, handle)`: resolve the sender step by step, build the transaction, and
      submit it through the first available channel. `hasEthereum` says whether
      `window.ethereum` is present, `accountsReply` is its `eth_accounts` answer and
      `sendReply` the answer to `eth_sendTransaction`. */
  method PayForWiFi(contract: string, handle: Handle, wei: int, hasEthereum: bool,
                    accountsReply: Reply<seq<string>>, sendReply: Reply<string>)
    returns (submitted: Option<Submission>, r: Result<TxResponse, JsError>)
    ensures submitted.None? <==> ChannelFor(handle, hasEthereum).None?
    ensures submitted.None? ==> r == Failure(Thrown(NoChannelError))
    ensures submitted.Some? ==>
      && submitted.value.channel == ChannelFor(handle, hasEthereum).value
      && (r.Success? <==> sendReply.Ok?)
      && (r.Success? ==> r.value == TxResponse(sendReply.value))
      && (r.Failure? ==> r.error == sendReply.error)
    // the signer overrides the resolved sender with its own account
    ensures submitted.Some? && handle.SignerHandle? ==>
      submitted.value.tx == handle.signer.WithFrom(BuildTx(contract, Sender(handle, hasEthereum, accountsReply), wei))
    ensures submitted.Some? && !handle.SignerHandle? ==>
      submitted.value.tx == BuildTx(contract, Sender(handle, hasEthereum, accountsReply), wei)
  {
    var fromAddress: Option<string> := None;
    if handle.SignerHandle? {
      fromAddress := Some(handle.signer.GetAddress());
    }
    if (fromAddress.None? || fromAddress.value == "") && hasEthereum {
      match accountsReply {
        case Ok(accounts) =>
          fromAddress := if accounts == [] then None else Some(accounts[0]);
        case Rejected(_) =>
      }
    }
    var tx := BuildTx(contract, fromAddress, wei);

    var channel: Channel;
    if handle.SignerHandle? {
      channel := SignerSend;
      tx := handle.signer.WithFrom(tx);
    } else if handle.ProviderHandle? {
      channel := ProviderTransport;
    } else if hasEthereum {
      channel := WindowTransport;
    } else {
      return None, Failure(Thrown(NoChannelError));
    }
    submitted := Some(Submission(channel, tx));
    match sendReply {
      case Ok(hash) => r := Success(TxResponse(hash));
      case Rejected(e) => r := Failure(e);
    }
  }

  /** Whatever sender was resolved, a signer submits from its own account. */
  lemma SignerSendsFromItsAccount(signer: CompatSigner, contract: string, from: Option<string>, wei: int)
    ensures signer.WithFrom(BuildTx(contract, from, wei)).from == Some(signer.address)
    ensures signer.WithFrom(BuildTx(contract, from, wei)) == BuildTx(contract, Some(signer.address), wei)
  {
  }
}
