/**
  The page header: which navigation link is highlighted for the current
  route, the class each link gets, the wallet area (balance and shortened
  address when connected, a connect button otherwise) and the open/closed
  flag of the wallet-selection dialog.
 */
module Header {
  import opened Js
  import opened Web3Config
  import opened LanguageContext

  // ---------------------------------------------------------------------------
  // Navigation

  /** `isActive(path)` for the current `pathname` (None while unknown): the
      home link only on "/" itself, every other link on a raw prefix match. */
  function IsActive(pathname: Option<string>, path: string): (r: bool)
    ensures !Truthy(pathname) ==> !r
    ensures path == "/" ==> (r <==> pathname == Some("/"))
    ensures path != "/" ==> (r <==> Truthy(pathname) && StartsWith(pathname.value, path))
  {
    if !Truthy(pathname) then false
    else if path == "/" && pathname.value == "/" then true
    else if path != "/" && StartsWith(pathname.value, path) then true
    else false
  }

  /** The prefix match is not segment-aware: a route that merely begins with
      a link's path also highlights it, and so does any sub-route. */
  lemma PrefixNotSegmentAware()
    ensures IsActive(Some("/marketplace-old"), "/marketplace")
    ensures IsActive(Some("/plans/pro"), "/plans")
    ensures !IsActive(Some("/plans"), "/")
  {
    assert "/marketplace-old"[..12] == "/marketplace";
    assert "/plans/pro"[..6] == "/plans";
  }

  /** The three links of the navigation bar. */
  const NavPaths: seq<string> := ["/", "/marketplace", "/plans"]

  /** Whatever the route, at most one of the three navigation links is
      highlighted. */
  lemma NavLinksExclusive(pathname: Option<string>)
    ensures IsActive(pathname, NavPaths[0]) ==>
              !IsActive(pathname, NavPaths[1]) && !IsActive(pathname, NavPaths[2])
    ensures IsActive(pathname, NavPaths[1]) ==> !IsActive(pathname, NavPaths[2])
  {
    if Truthy(pathname) && |pathname.value| >= 2 {
      var p := pathname.value;
      assert StartsWith(p, "/marketplace") ==> p[1] == 'm';
      assert StartsWith(p, "/plans") ==> p[1] == 'p';
    }
  }

  const ActiveLinkClass: string := "text-primary underline underline-offset-8 decoration-2"
  const InactiveLinkClass: string := "text-zinc-400 hover:text-primary transition-colors"

  /** `getLinkClass(path)`: the active class exactly when the link is active. */
  function GetLinkClass(pathname: Option<string>, path: string): (r: string)
    ensures r == ActiveLinkClass <==> IsActive(pathname, path)
    ensures r == InactiveLinkClass <==> !IsActive(pathname, path)
  {
    if IsActive(pathname, path) then ActiveLinkClass else InactiveLinkClass
  }

  /** A rendered navigation link. */
  datatype NavLink = NavLink(href: string, className: string, text: string)

  /** The navigation bar: home, marketplace and plans, in that order, each
      labelled through `t` and classed by the current route. */
  function NavLinks(pathname: Option<string>, language: Language): (r: seq<NavLink>)
    ensures |r| == |NavPaths|
    ensures forall i :: 0 <= i < |r| ==> r[i].href == NavPaths[i]
    ensures forall i :: 0 <= i < |r| ==>
              (r[i].className == ActiveLinkClass <==> IsActive(pathname, NavPaths[i]))
    ensures r[0].text == Translate(language, "explore")
    ensures r[1].text == Translate(language, "marketplace")
    ensures r[2].text == Translate(language, "plans")
  {
    [NavLink("/", GetLinkClass(pathname, "/"), Translate(language, "explore")),
     NavLink("/marketplace", GetLinkClass(pathname, "/marketplace"), Translate(language, "marketplace")),
     NavLink("/plans", GetLinkClass(pathname, "/plans"), Translate(language, "plans"))]
  }

  // ---------------------------------------------------------------------------
  // Wallet area

  /** The address as the connected header shows it: `slice(0, 6)`, "...",
      `slice(-4)`. */
  function ShortAddress(address: string): (r: string)
    ensures |r| == Min(6, |address|) + 3 + Min(4, |address|)
  {
    Slice(address, 0, 6) + "..." + SliceFrom(address, -4)
  }

  /** The header's `slice` form and `formatAddress` agree on every address
      that can be shown (a connected address is non-empty); on the empty one
      only `formatAddress` gives the empty string. */
  lemma ShortAddressIsFormatAddress(address: string)
    ensures address != "" ==> ShortAddress(address) == FormatAddress(address)
    ensures address == "" ==> ShortAddress(address) == "..." && FormatAddress(address) == ""
  {
    var n := |address|;
    assert Slice(address, 0, 6) == address[..Min(6, n)] == Substring(address, 0, 6);
    assert SliceIndex(-4, n) == Clamp(n - 4, n);
    assert SliceFrom(address, -4) == address[Clamp(n - 4, n)..] == SubstringFrom(address, n - 4);
  }

  /** What the right-hand wallet area renders. */
  datatype WalletArea =
    | AccountControls(balanceLabel: string, shortAddress: string, buttonLabel: string)
    | ConnectButton(buttonLabel: string)

  /** The account controls (balance in SYS, shortened address, disconnect
      button) exactly when the session is connected, i.e. holds a non-empty
      address; otherwise the connect button. */
  function WalletControls(address: Option<string>, balance: string, language: Language): (r: WalletArea)
    ensures r.AccountControls? <==> Truthy(address)
    ensures r.AccountControls? ==>
              && r.balanceLabel == balance + " SYS"
              && r.shortAddress == FormatAddress(address.value)
              && r.buttonLabel == Translate(language, "disconnect")
    ensures r.ConnectButton? ==> r.buttonLabel == Translate(language, "connectWallet")
  {
    if Truthy(address) then
      ShortAddressIsFormatAddress(address.value);
      AccountControls(balance + " SYS", ShortAddress(address.value), Translate(language, "disconnect"))
    else
      ConnectButton(Translate(language, "connectWallet"))
  }

  /** The language button shows the current code in capitals. */
  function LanguageButtonText(language: Language): (r: string)
    ensures r == "EN" <==> language == En
    ensures r == "ES" <==> language == Es
  {
    match language
    case En => "EN"
    case Es => "ES"
  }

  /** The theme button shows a sun in the dark theme and a moon otherwise. */
  datatype ThemeIcon = Sun | Moon

  function ThemeButtonIcon(theme: string): (r: ThemeIcon)
    ensures r == Sun <==> theme == "dark"
  {
    if theme == "dark" then Sun else Moon
  }

  // ---------------------------------------------------------------------------
  // Wallet-selection dialog

  /** The open/closed flag of the wallet-selection dialog. */
  class HeaderState {
    var isWalletModalOpen: bool

    constructor ()
      ensures !isWalletModalOpen
    {
      isWalletModalOpen := false;
    }

    /** The class list of the dialog overlay: "visible" is added while open. */
    function OverlayClass(): (r: string)
      reads this
      ensures isWalletModalOpen ==> r == "modal-overlay visible"
      ensures !isWalletModalOpen ==> r == "modal-overlay "
    {
      "modal-overlay " + (if isWalletModalOpen then "visible" else "")
    }

    /** `openModal()` */
    method OpenModal()
      modifies this
      ensures isWalletModalOpen
    {
      isWalletModalOpen := true;
    }

    /** `closeModal()` */
    method CloseModal()
      modifies this
      ensures !isWalletModalOpen
    {
      isWalletModalOpen := false;
    }
  }
}
