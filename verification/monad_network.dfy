/** The Monad test network both wallet managers target, and the switch-or-add step
    they share (src/composables/useWalletFixed.ts and src/composables/useWallet.ts
    carry identical copies). The two wallet RPC calls are inputs: their outcomes are
    given, and the add outcome is only consulted when the switch fails with 4902. */
module MonadNetwork {
  import opened Js
  import opened JsHex

  /** `MONAD_TESTNET.chainId`, as sent to the wallet. */
  const ChainIdHex: string := "0x279F"

  /** The decimal chain id the connection check compares against. */
  const ChainId: int := 10143

  /** The wallet's answer that the chain is unknown to it and must be added. */
  const UnknownChainCode: int := 4902

  /** `ConnectResult`: `{ success, address?, chainId?, error? }`. */
  datatype ConnectResult = ConnectResult(success: bool, address: Option<string>, chainId: Option<JsInt>, error: Option<string>)

  /** `{ success: false }` with an optional message. */
  function Refused(error: Option<string>): ConnectResult
  {
    ConnectResult(false, None, None, error)
  }

  const InstallWallet: string := "请安装 MetaMask 钱包"
  const NoAccounts: string := "未获取到钱包账户"
  const SwitchFailed: string := "无法切换到 Monad 测试网，请手动添加网络"
  const ConnectFailed: string := "连接钱包失败"
  const WrongChain: string := "请切换到 Monad 测试网"

  /** The hex id sent to the wallet and the decimal id checked are the same chain. */
  lemma ChainIdHexDecodes()
    ensures ParseInt16(ChainIdHex) == Int(ChainId)
  {
    var body := ChainIdHex[2..];
    assert body == "279F";
    assert AllHex(body);
    HexRunOfAllHex(body);
    assert body[..3] == "279" && body[..2] == "27" && body[..1] == "2" && body[..0] == "";
    assert DigitValue('F') == 15 && DigitValue('9') == 9 && DigitValue('7') == 7 && DigitValue('2') == 2;
    assert DigitsValue("2") == 2;
    assert DigitsValue("27") == 39;
    assert DigitsValue("279") == 633;
    assert DigitsValue(body) == 10143;
    assert ChainIdHex[0] == '0' && ChainIdHex[1] == 'x';
  }

  /** `switchToMonadTestnet`: true exactly when the switch succeeds, or the switch
      fails with 4902 and the add succeeds. */
  function SwitchToMonadTestnet(hasEthereum: bool, switchReply: Reply<()>, addReply: Reply<()>): (switched: bool)
    ensures switched <==>
      hasEthereum &&
      (switchReply.Ok? || (switchReply.error.code == NumCode(UnknownChainCode) && addReply.Ok?))
    ensures !hasEthereum ==> !switched
  {
    if !hasEthereum then false
    else match switchReply
      case Ok(_) => true
      case Rejected(e) =>
        if e.code == NumCode(UnknownChainCode) then addReply.Ok? else false
  }

  /** The add request matters only after a 4902 rejection: otherwise any add outcome
      gives the same answer. A string code "4902" is not 4902. */
  lemma AddOnlyAfterUnknownChain(hasEthereum: bool, switchReply: Reply<()>, add1: Reply<()>, add2: Reply<()>)
    requires !(switchReply.Rejected? && switchReply.error.code == NumCode(UnknownChainCode))
    ensures SwitchToMonadTestnet(hasEthereum, switchReply, add1) == SwitchToMonadTestnet(hasEthereum, switchReply, add2)
  {
  }
}
