/**
 * Chain icons (src/components/ui/chain-icon.tsx): a logo looked up by chain
 * id, and a coloured initial shown instead when there is no logo or the
 * image failed to load.
 */
module ChainIcon {
  import opened Wrappers
  import Chains

  const LifiBase: string := "https://raw.githubusercontent.com/lifinance/types/main/src/assets/icons/chains"
  const LlamafiBase: string := "https://icons.llamao.fi/icons/chains/rsz"

  /** `chainLogoUrls[chainId]`. */
  function LogoUrl(chainId: Chains.ChainId): (url: Option<string>)
    ensures url.Some? ==> url.value != ""
  {
    match chainId
    case 1 => Some(LifiBase + "/ethereum.svg")
    case 11155111 => Some(LifiBase + "/ethereum.svg")
    case 8453 => Some(LifiBase + "/base.svg")
    case 84532 => Some(LifiBase + "/base.svg")
    case 10 => Some(LifiBase + "/optimism.svg")
    case 11155420 => Some(LifiBase + "/optimism.svg")
    case 42161 => Some(LifiBase + "/arbitrum.svg")
    case 421614 => Some(LifiBase + "/arbitrum.svg")
    case 137 => Some(LifiBase + "/polygon.svg")
    case 80002 => Some(LifiBase + "/polygon.svg")
    case 56 => Some(LifiBase + "/bsc.svg")
    case 97 => Some(LifiBase + "/bsc.svg")
    case 100 => Some(LifiBase + "/gnosis.svg")
    case 7777777 => Some(LlamafiBase + "_zora.jpg")
    case 534352 => Some(LifiBase + "/scroll.svg")
    case 59144 => Some(LifiBase + "/linea.svg")
    case 34443 => Some(LifiBase + "/mode.svg")
    case 5000 => Some(LifiBase + "/mantle.svg")
    case 42220 => Some(LifiBase + "/celo.svg")
    case 81457 => Some(LifiBase + "/blast.svg")
    case 252 => Some(LifiBase + "/fraxtal.svg")
    case 1329 => Some(LifiBase + "/sei.svg")
    case 60808 => Some(LifiBase + "/bob.svg")
    case 130 => Some(LifiBase + "/unichain.svg")
    case 480 => Some(LifiBase + "/world.svg")
    case 80094 => Some(LifiBase + "/berachain.svg")
    case 57073 => Some(LifiBase + "/ink.svg")
    case 9745 => Some(LifiBase + "/plasma.svg")
    case 1514 => Some(LlamafiBase + "_story.jpg")
    case 5330 => Some(LlamafiBase + "_superseed.jpg")
    case 33139 => Some(LifiBase + "/apechain.svg")
    case 146 => Some(LifiBase + "/sonic.svg")
    case 1868 => Some(LifiBase + "/soneium.svg")
    case 196 => Some(LifiBase + "/xlayer.svg")
    case _ => None
  }

  /** `chainColors[chainId]`. */
  function ColorEntry(chainId: Chains.ChainId): Option<string>
  {
    match chainId
    case 1 => Some("#627EEA")
    case 8453 => Some("#0052FF")
    case 10 => Some("#FF0420")
    case 42161 => Some("#12AAFF")
    case 137 => Some("#8247E5")
    case 56 => Some("#F0B90B")
    case 100 => Some("#04795B")
    case 7777777 => Some("#000000")
    case 534352 => Some("#FFEEDA")
    case 59144 => Some("#121212")
    case 34443 => Some("#DFFE00")
    case 5000 => Some("#000000")
    case 42220 => Some("#FCFF52")
    case 81457 => Some("#FCFC03")
    case 252 => Some("#000000")
    case 1329 => Some("#9B1B30")
    case 60808 => Some("#F25D23")
    case 130 => Some("#FF007A")
    case 480 => Some("#000000")
    case 80094 => Some("#7C3F00")
    case 57073 => Some("#7B3FE4")
    case 9745 => Some("#FF6B35")
    case 1514 => Some("#6366F1")
    case 5330 => Some("#00FF00")
    case 33139 => Some("#0050FF")
    case 146 => Some("#1969FF")
    case 1868 => Some("#000000")
    case 196 => Some("#000000")
    case 11155111 => Some("#627EEA")
    case 84532 => Some("#0052FF")
    case 11155420 => Some("#FF0420")
    case 421614 => Some("#12AAFF")
    case 80002 => Some("#8247E5")
    case 97 => Some("#F0B90B")
    case _ => None
  }

  /** The table of `getChainInitial`. */
  function InitialEntry(chainId: Chains.ChainId): Option<string>
  {
    match chainId
    case 1 => Some("E")
    case 11155111 => Some("E")
    case 8453 => Some("B")
    case 84532 => Some("B")
    case 10 => Some("O")
    case 11155420 => Some("O")
    case 42161 => Some("A")
    case 421614 => Some("A")
    case 137 => Some("P")
    case 80002 => Some("P")
    case 56 => Some("B")
    case 97 => Some("B")
    case 100 => Some("G")
    case 7777777 => Some("Z")
    case 534352 => Some("S")
    case 59144 => Some("L")
    case 34443 => Some("M")
    case 5000 => Some("M")
    case 42220 => Some("C")
    case 81457 => Some("B")
    case 252 => Some("F")
    case 1329 => Some("S")
    case 60808 => Some("B")
    case 130 => Some("U")
    case 480 => Some("W")
    case 80094 => Some("B")
    case 57073 => Some("I")
    case 9745 => Some("P")
    case 1514 => Some("S")
    case 5330 => Some("S")
    case 33139 => Some("A")
    case 146 => Some("S")
    case 1868 => Some("S")
    case 196 => Some("X")
    case _ => None
  }

  /** The testnets of the wallet configuration, each with the mainnet it mirrors. */
  const TestnetOf: map<Chains.ChainId, Chains.ChainId> :=
    map[11155111 := 1, 84532 := 8453, 11155420 := 10, 421614 := 42161, 80002 := 137, 97 := 56]

  /** `getChainInitial`: the table letter, or `?` (an empty entry is falsy too). */
  function GetChainInitial(chainId: Chains.ChainId): (initial: string)
    ensures InitialEntry(chainId).Some? && InitialEntry(chainId).value != "" ==> initial == InitialEntry(chainId).value
    ensures InitialEntry(chainId).None? || InitialEntry(chainId).value == "" ==> initial == "?"
  {
    match InitialEntry(chainId)
    case Some(letter) => if letter != "" then letter else "?"
    case None => "?"
  }

  /** `fallbackColor`: the table colour, or `#888`. */
  function FallbackColor(chainId: Chains.ChainId): (color: string)
    ensures ColorEntry(chainId).Some? && ColorEntry(chainId).value != "" ==> color == ColorEntry(chainId).value
    ensures ColorEntry(chainId).None? || ColorEntry(chainId).value == "" ==> color == "#888"
  {
    match ColorEntry(chainId)
    case Some(c) => if c != "" then c else "#888"
    case None => "#888"
  }

  /** What `ChainIcon` renders. */
  datatype IconView = Logo(url: string) | Fallback(color: string, initial: string)

  /** The render: the fallback when there is no (truthy) logo URL or the image failed. */
  function View(chainId: Chains.ChainId, imageError: bool): (v: IconView)
    ensures v.Fallback? <==> LogoUrl(chainId).None? || LogoUrl(chainId).value == "" || imageError
    ensures v.Logo? ==> LogoUrl(chainId) == Some(v.url)
    ensures v.Fallback? ==> v.color == FallbackColor(chainId) && v.initial == GetChainInitial(chainId)
  {
    var logo := LogoUrl(chainId);
    if logo.None? || logo.value == "" || imageError
    then Fallback(FallbackColor(chainId), GetChainInitial(chainId))
    else Logo(logo.value)
  }

  /**
   * One mounted icon. `imageError` is component state: only `onError`
   * writes it, and a new `chainId` prop does not reset it.
   */
  class Icon {
    var chainId: Chains.ChainId
    var imageError: bool

    constructor (chainId: Chains.ChainId)
      ensures this.chainId == chainId && !imageError
    {
      this.chainId := chainId;
      imageError := false;
    }

    /** The mounted icon's render, from its current chain id and error flag. */
    function Render(): (v: IconView)
      reads this
      ensures v.Fallback? <==> LogoUrl(chainId).None? || imageError
      ensures v.Logo? ==> LogoUrl(chainId) == Some(v.url)
      ensures v.Fallback? ==> v.color == FallbackColor(chainId) && v.initial == GetChainInitial(chainId)
    {
      View(chainId, imageError)
    }

    /** The `<img>` `onError` handler: the flag goes to true and stays there. */
    method OnImageError()
      modifies this
      ensures imageError && chainId == old(chainId)
    {
      imageError := true;
    }

    /** A re-render with another `chainId` prop; the error flag is kept. */
    method SetChainId(newChainId: Chains.ChainId)
      modifies this
      ensures chainId == newChainId && imageError == old(imageError)
    {
      chainId := newChainId;
    }
  }

  /** Each testnet shows its mainnet's logo, colour and initial. */
  lemma TestnetLooksLikeMainnet(t: Chains.ChainId)
    requires t in TestnetOf
    ensures LogoUrl(t).Some? && LogoUrl(t) == LogoUrl(TestnetOf[t])
    ensures ColorEntry(t).Some? && FallbackColor(t) == FallbackColor(TestnetOf[t])
    ensures InitialEntry(t).Some? && GetChainInitial(t) == GetChainInitial(TestnetOf[t])
  {
  }

  /** Every chain with a logo also has its own colour and a real initial for the fallback. */
  lemma LogoHasFallback(chainId: Chains.ChainId)
    requires LogoUrl(chainId).Some?
    ensures ColorEntry(chainId).Some? && FallbackColor(chainId) == ColorEntry(chainId).value
    ensures InitialEntry(chainId).Some? && GetChainInitial(chainId) != "?"
  {
  }

  /** A listed chain shows its logo until the image fails, and the fallback after. */
  lemma ListedLogosShow(chainId: Chains.ChainId)
    requires LogoUrl(chainId).Some?
    ensures View(chainId, false) == Logo(LogoUrl(chainId).value)
    ensures View(chainId, true) == Fallback(FallbackColor(chainId), GetChainInitial(chainId))
  {
  }

  /** Every chain of the wallet configuration has a logo. */
  lemma SupportedChainsHaveLogos()
    ensures forall id :: id in Chains.SupportedChainIds ==> LogoUrl(id).Some?
  {
  }

  /**
   * Once an image has failed, the icon shows the fallback for every chain
   * it is later given, even one whose logo would load.
   */
  method ErrorOutlivesChainChange(icon: Icon, second: Chains.ChainId) returns (v: IconView)
    requires !icon.imageError
    modifies icon
    ensures v == Fallback(FallbackColor(second), GetChainInitial(second))
  {
    icon.OnImageError();
    icon.SetChainId(second);
    v := icon.Render();
  }
}
