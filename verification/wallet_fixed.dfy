/** The wallet session manager in use, src/composables/useWalletFixed.ts. Its
    `provider` and `signer` live at module level, so every caller of `useWallet`
    (the payment composable included) shares one pair; `SharedWallet` is that pair.
    They are built through the compatibility layer, and only on the paths the code
    assigns them.

    The wallet's answers are inputs: `eth_requestAccounts` or `eth_accounts`,
    the chain switch and add, `eth_chainId`, and the `eth_accounts` request the
    compat `getSigner` makes. */
module WalletFixed {
  import opened Js
  import opened JsHex
  import opened MonadNetwork
  import opened EthersCompat

  class SharedWallet {
    var provider: CompatProvider?
    var signer: CompatSigner?

    constructor ()
      ensures provider == null && signer == null
    {
      provider := null;
      signer := null;
    }

    /** `connectWallet`: ask for accounts, switch to the test network, then build
        the provider, read the network and try for a signer. Only a thrown error
        resets the session; refusals before the provider is built leave it alone. */
    method ConnectWallet(hasEthereum: bool, accountsReply: Reply<seq<string>>,
                         switchReply: Reply<()>, addReply: Reply<()>,
                         chainIdReply: Reply<string>, signerAccountsReply: Reply<seq<string>>)
      returns (r: ConnectResult)
      modifies this
      ensures !hasEthereum ==> r == Refused(Some(InstallWallet)) && unchanged(this)
      ensures hasEthereum && accountsReply.Rejected? ==>
        && r == Refused(Some(OrElse(accountsReply.error.message, ConnectFailed)))
        && provider == null && signer == null
      ensures hasEthereum && accountsReply.Ok? && accountsReply.value == [] ==>
        r == Refused(Some(NoAccounts)) && unchanged(this)
      ensures hasEthereum && accountsReply.Ok? && accountsReply.value != [] &&
              !SwitchToMonadTestnet(hasEthereum, switchReply, addReply) ==>
        r == Refused(Some(SwitchFailed)) && unchanged(this)
      ensures r.success <==>
        hasEthereum && accountsReply.Ok? && accountsReply.value != [] &&
        SwitchToMonadTestnet(hasEthereum, switchReply, addReply)
      ensures r.success ==>
        && r == ConnectResult(true, Some(accountsReply.value[0]), Some(ChainIdOf(chainIdReply)), None)
        && provider != null && fresh(provider)
        // a missing signer does not fail the connection
        && (signer != null <==> signerAccountsReply.Ok? && signerAccountsReply.value != [])
        && (signer != null ==> fresh(signer) && signer.address == signerAccountsReply.value[0])
    {
      if !hasEthereum {
        return Refused(Some(InstallWallet));
      }
      match accountsReply {
        case Rejected(e) =>
          provider := null;
          signer := null;
          return Refused(Some(OrElse(e.message, ConnectFailed)));
        case Ok(accounts) =>
          if accounts == [] {
            return Refused(Some(NoAccounts));
          }
          var switched := SwitchToMonadTestnet(hasEthereum, switchReply, addReply);
          if !switched {
            return Refused(Some(SwitchFailed));
          }
          var created := CreateProvider(hasEthereum);
          provider := created.value;
          var network := ChainIdOf(chainIdReply);
          var address := accounts[0];
          var obtained := GetSigner(signerAccountsReply);
          if obtained.Success? {
            signer := obtained.value;
          } else {
            signer := null;
          }
          r := ConnectResult(true, Some(address), Some(network), None);
      }
    }

    /** `checkConnection`: silently restore a session the wallet already
        authorised. Every refusal leaves the session as it was; success builds the
        provider and tries for a signer only where they are missing. */
    method CheckConnection(hasEthereum: bool, accountsReply: Reply<seq<string>>,
                           chainIdReply: Reply<string>, signerAccountsReply: Reply<seq<string>>)
      returns (r: ConnectResult)
      modifies this
      ensures r.success <==>
        hasEthereum && accountsReply.Ok? && accountsReply.value != [] &&
        chainIdReply.Ok? && ParseInt16(chainIdReply.value) == Int(ChainId)
      ensures !r.success ==> unchanged(this)
      // only a chain mismatch carries a message
      ensures !r.success ==>
        r == Refused(if hasEthereum && accountsReply.Ok? && accountsReply.value != [] && chainIdReply.Ok?
                     then Some(WrongChain) else None)
      ensures r.success ==>
        && r == ConnectResult(true, Some(accountsReply.value[0]), Some(Int(ChainId)), None)
        && provider != null
        && (old(provider) != null ==> provider == old(provider))
        && (old(provider) == null ==> fresh(provider))
        && (old(signer) != null ==> signer == old(signer))
        && (old(signer) == null ==>
              (signer != null <==> signerAccountsReply.Ok? && signerAccountsReply.value != []) &&
              (signer != null ==> fresh(signer) && signer.address == signerAccountsReply.value[0]))
    {
      if !hasEthereum {
        return Refused(None);
      }
      if accountsReply.Rejected? || accountsReply.value == [] {
        return Refused(None);
      }
      var accounts := accountsReply.value;
      if chainIdReply.Rejected? {
        return Refused(None);
      }
      if ParseInt16(chainIdReply.value) != Int(ChainId) {
        return Refused(Some(WrongChain));
      }
      if provider == null {
        var created := CreateProvider(hasEthereum);
        provider := created.value;
      }
      if signer == null {
        var obtained := GetSigner(signerAccountsReply);
        if obtained.Success? {
          signer := obtained.value;
        } else {
          signer := null;
        }
      }
      r := ConnectResult(true, Some(accounts[0]), Some(Int(ChainId)), None);
    }

    /** `getBalance(address)`: through the session's provider, or a temporary one
        when there is none; "0" only when no provider can be built. A failed balance
        request is swallowed by the compat provider, so it shows as the rendering
        of 0. */
    method GetBalance(hasEthereum: bool, balanceReply: Reply<Option<int>>, formatEther: int -> Reply<string>)
      returns (text: string)
      ensures provider == null && !hasEthereum ==> text == "0"
      ensures provider != null || hasEthereum ==> text == BalanceText(balanceReply, formatEther)
      ensures formatEther(ProviderBalance(balanceReply)).Rejected? ==> text == "0"
    {
      var tempProvider := provider;
      if tempProvider == null {
        var created := CreateProvider(hasEthereum);
        if created.Failure? {
          return "0";
        }
        tempProvider := created.value;
      }
      text := BalanceText(balanceReply, formatEther);
    }

    /** `disconnect`: forget the session; doing it twice changes nothing more. */
    method Disconnect()
      modifies this
      ensures provider == null && signer == null
    {
      provider := null;
      signer := null;
    }
  }
}
