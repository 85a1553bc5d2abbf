/** The older wallet session manager, src/composables/useWallet.ts. Each call of
    `useWallet` gets its own `provider` and `signer`, built with the ethers library
    directly (`BrowserProvider`, `JsonRpcSigner`). It differs from the manager in
    use in where it assigns and resets them: the provider is assigned before any
    check that can fail, a signer is required for a successful connect, and a failed
    check resets the session.

    The library's objects carry no state the code reads, so they are bare classes;
    their calls are inputs: `send`, `getSigner`, `getAddress`, `getNetwork` (the
    chain id as a number) and `getBalance`. */
module WalletLegacy {
  import opened Js
  import opened MonadNetwork
  import opened EthersCompat

  /** `new ethers.BrowserProvider(window.ethereum)`. */
  class BrowserProvider {
    constructor ()
    {
    }
  }

  /** The signer `getSigner()` resolves to. */
  class JsonRpcSigner {
    constructor ()
    {
    }
  }

  /** The error of the first call that rejects once the provider exists, in the
      order `connectWallet` awaits them: `send`, `getSigner`, `getAddress`,
      `getNetwork`; none when all four succeed. */
  function FirstRejection(sendReply: Reply<()>, signerReply: Reply<()>,
                          addressReply: Reply<string>, networkReply: Reply<int>): (e: Option<JsError>)
    ensures e.None? <==> sendReply.Ok? && signerReply.Ok? && addressReply.Ok? && networkReply.Ok?
    ensures e.Some? ==>
      (sendReply.Rejected? && e.value == sendReply.error) ||
      (sendReply.Ok? && signerReply.Rejected? && e.value == signerReply.error) ||
      (sendReply.Ok? && signerReply.Ok? && addressReply.Rejected? && e.value == addressReply.error) ||
      (sendReply.Ok? && signerReply.Ok? && addressReply.Ok? && networkReply.Rejected? && e.value == networkReply.error)
    // an earlier rejection hides every later one
    ensures sendReply.Rejected? ==> e == Some(sendReply.error)
    ensures sendReply.Ok? && signerReply.Rejected? ==> e == Some(signerReply.error)
  {
    if sendReply.Rejected? then Some(sendReply.error)
    else if signerReply.Rejected? then Some(signerReply.error)
    else if addressReply.Rejected? then Some(addressReply.error)
    else if networkReply.Rejected? then Some(networkReply.error)
    else None
  }

  class Session {
    var provider: BrowserProvider?
    var signer: JsonRpcSigner?

    constructor ()
      ensures provider == null && signer == null
    {
      provider := null;
      signer := null;
    }

    /** `connectWallet`: the refusals before the provider is built leave the session
        alone; after it, every failing call (including `getSigner`) resets both. */
    method ConnectWallet(hasEthereum: bool, accountsReply: Reply<seq<string>>,
                         switchReply: Reply<()>, addReply: Reply<()>,
                         sendReply: Reply<()>, signerReply: Reply<()>,
                         addressReply: Reply<string>, networkReply: Reply<int>)
      returns (r: ConnectResult)
      modifies this
      ensures !hasEthereum ==> r == Refused(Some(InstallWallet)) && unchanged(this)
      ensures hasEthereum && accountsReply.Rejected? ==>
        && r == Refused(Some(OrElse(accountsReply.error.message, ConnectFailed)))
        && provider == null && signer == null
      ensures hasEthereum && accountsReply.Ok? && accountsReply.value == [] ==>
        r == Refused(Some(NoAccounts)) && unchanged(this)
      ensures hasEthereum && accountsReply.Ok? && accountsReply.value != [] &&
              !SwitchToMonadTestnet(hasEthereum, switchReply, addReply) ==>
        r == Refused(Some(SwitchFailed)) && unchanged(this)
      ensures r.success <==>
        hasEthereum && accountsReply.Ok? && accountsReply.value != [] &&
        SwitchToMonadTestnet(hasEthereum, switchReply, addReply) &&
        sendReply.Ok? && signerReply.Ok? && addressReply.Ok? && networkReply.Ok?
      // a successful connect always holds a signer
      ensures r.success ==>
        && r == ConnectResult(true, Some(addressReply.value), Some(Int(networkReply.value)), None)
        && provider != null && fresh(provider) && signer != null && fresh(signer)
      // once the provider exists, any failure resets the session
      ensures !r.success && hasEthereum && accountsReply.Ok? && accountsReply.value != [] &&
              SwitchToMonadTestnet(hasEthereum, switchReply, addReply) ==>
        && provider == null && signer == null
        && r.error.Some? && r.error.value != ""
        // the message of the first failing call, or the generic one
        && r.error == Some(OrElse(FirstRejection(sendReply, signerReply, addressReply, networkReply).value.message,
                                  ConnectFailed))
    {
      if !hasEthereum {
        return Refused(Some(InstallWallet));
      }
      if accountsReply.Rejected? {
        provider := null;
        signer := null;
        return Refused(Some(OrElse(accountsReply.error.message, ConnectFailed)));
      }
      if accountsReply.value == [] {
        return Refused(Some(NoAccounts));
      }
      var switched := SwitchToMonadTestnet(hasEthereum, switchReply, addReply);
      if !switched {
        return Refused(Some(SwitchFailed));
      }
      provider := new BrowserProvider();
      var failure: Option<JsError> := None;
      if sendReply.Rejected? {
        failure := Some(sendReply.error);
      } else if signerReply.Rejected? {
        failure := Some(signerReply.error);
      } else {
        signer := new JsonRpcSigner();
        if addressReply.Rejected? {
          failure := Some(addressReply.error);
        } else if networkReply.Rejected? {
          failure := Some(networkReply.error);
        }
      }
      if failure.Some? {
        provider := null;
        signer := null;
        return Refused(Some(OrElse(failure.value.message, ConnectFailed)));
      }
      r := ConnectResult(true, Some(addressReply.value), Some(Int(networkReply.value)), None);
    }

    /** `checkConnection`: a fresh provider is assigned before the chain is checked,
        so a wrong chain leaves it in place; a failing signer falls back to the
        first account; a failing account or network request resets the session. */
    method CheckConnection(hasEthereum: bool, accountsReply: Reply<seq<string>>,
                           networkReply: Reply<int>, signerReply: Reply<()>, addressReply: Reply<string>)
      returns (r: ConnectResult)
      modifies this
      ensures !hasEthereum ==> r == Refused(None) && unchanged(this)
      ensures hasEthereum && accountsReply.Rejected? ==>
        r == Refused(None) && provider == null && signer == null
      ensures hasEthereum && accountsReply.Ok? && accountsReply.value == [] ==>
        r == Refused(None) && unchanged(this)
      ensures hasEthereum && accountsReply.Ok? && accountsReply.value != [] && networkReply.Rejected? ==>
        r == Refused(None) && provider == null && signer == null
      ensures hasEthereum && accountsReply.Ok? && accountsReply.value != [] &&
              networkReply.Ok? && networkReply.value != ChainId ==>
        r == Refused(Some(WrongChain)) && provider != null && fresh(provider) && signer == old(signer)
      ensures r.success <==>
        hasEthereum && accountsReply.Ok? && accountsReply.value != [] &&
        networkReply.Ok? && networkReply.value == ChainId
      ensures r.success ==>
        && provider != null && fresh(provider)
        && r.chainId == Some(Int(ChainId)) && r.error.None?
        // the signer's address when both signer calls succeed, otherwise the first account
        && r.address == Some(if signerReply.Ok? && addressReply.Ok? then addressReply.value
                             else accountsReply.value[0])
        && (signerReply.Ok? ==> signer != null && fresh(signer))
        && (signerReply.Rejected? ==> signer == old(signer))
    {
      if !hasEthereum {
        return Refused(None);
      }
      if accountsReply.Rejected? {
        provider := null;
        signer := null;
        return Refused(None);
      }
      var accounts := accountsReply.value;
      if accounts == [] {
        return Refused(None);
      }
      provider := new BrowserProvider();
      if networkReply.Rejected? {
        provider := null;
        signer := null;
        return Refused(None);
      }
      if networkReply.value != ChainId {
        return Refused(Some(WrongChain));
      }
      var address := accounts[0];
      if signerReply.Ok? {
        signer := new JsonRpcSigner();
        if addressReply.Ok? {
          address := addressReply.value;
        }
      }
      r := ConnectResult(true, Some(address), Some(Int(networkReply.value)), None);
    }

    /** `getBalance(address)`: "0" without a provider or on any failure, otherwise
        the library's rendering of the balance. */
    function GetBalance(balanceReply: Reply<int>, formatEther: int -> Reply<string>): (text: string)
      reads this
      ensures provider == null ==> text == "0"
      ensures provider != null && balanceReply.Rejected? ==> text == "0"
      ensures provider != null && balanceReply.Ok? ==> text == FormatEther(formatEther(balanceReply.value))
    {
      if provider == null then "0"
      else match balanceReply
        case Rejected(_) => "0"
        case Ok(balance) =>
          match formatEther(balance)
          case Ok(s) => s
          case Rejected(_) => "0"
    }

    /** `disconnect`: forget the session. */
    method Disconnect()
      modifies this
      ensures provider == null && signer == null
    {
      provider := null;
      signer := null;
    }
  }
}
