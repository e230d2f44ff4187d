/**
  The two-language text tables, the lookup `t` with its fallback chain, and
  the language setting, which the toggle flips and which is kept in local
  storage under "nft-lang".
 */
module LanguageContext {
  import opened Js
  import opened Browser

  datatype Language = En | Es

  /** The code a language is stored and named by. */
  function Code(language: Language): string
  {
    match language
    case En => "en"
    case Es => "es"
  }

  /** Reads a stored value back: only exactly "en" or "es" names a language. */
  function ParseLanguage(stored: string): (r: Option<Language>)
    ensures r.Some? <==> stored == "en" || stored == "es"
    ensures r.Some? ==> Code(r.value) == stored
  {
    if stored == "en" then Some(En)
    else if stored == "es" then Some(Es)
    else None
  }

  /** Storing a language and reading it back gives the same language. */
  lemma ParseCode(language: Language)
    ensures ParseLanguage(Code(language)) == Some(language)
  {
  }

  /** The storage key of the language setting. */
  const LanguageKey: string := "nft-lang"

  /** The English table: the text of each key, None where the key is absent. */
  function EnglishText(key: string): Option<string>
  {
    match key
    case "connectWallet" => Some("Connect Wallet")
    case "disconnect" => Some("Disconnect")
    case "searchPlaceholder" => Some("Search NFTs...")
    case "price" => Some("Price")
    case "offers" => Some("offers")
    case "noOffers" => Some("No offers")
    case "notListed" => Some("Not listed")
    case "noNFTs" => Some("No NFTs found")
    case "loading" => Some("Loading...")
    case "available" => Some("Available")
    case "notInstalled" => Some("Not Installed")
    case "walletLocked" => Some("Wallet is locked. Please unlock it and try again.")
    case "signToVerify" => Some("Sign to verify wallet ownership")
    case "verified" => Some("Verified!")
    case "signFailed" => Some("Signature cancelled")
    case "deployNFT" => Some("Deploy NFT Contract")
    case "mintNFT" => Some("Mint NFT")
    case "youAreOwner" => Some("You own this collection")
    case "createCollection" => Some("Create Collection")
    case "deployDescription" => Some("Deploy your own NFT contract on the blockchain")
    case "deploy" => Some("Deploy")
    case "mint" => Some("Mint")
    case "collectionName" => Some("Collection Name")
    case "collectionSymbol" => Some("Symbol")
    case "royaltyPercent" => Some("Royalty % (0-10)")
    case "deployingContract" => Some("Deploying contract...")
    case "contractDeployed" => Some("Contract deployed!")
    case "mintingNFT" => Some("Minting NFT...")
    case "nftMinted" => Some("NFT Minted!")
    case "noBytecode" => Some("Place nft.bytecode in /contracts/ to enable deployment")
    case "enterTokenURI" => Some("Token URI (metadata URL)")
    case "enterRecipient" => Some("Recipient address")
    case "selectWallet" => Some("Select Wallet")
    case "chooseWallet" => Some("Choose how you want to connect")
    case "download" => Some("Download")
    case "deployingOn" => Some("Deploying on:")
    case "advancedOptions" => Some("Advanced Options")
    case "hintName" => Some("The display name of your NFT collection")
    case "hintSymbol" => Some("Short identifier (like a ticker), 3-5 characters")
    case "hintBaseURI" => Some("URL prefix for token metadata (IPFS or HTTP)")
    case "hintMaxSupply" => Some("Maximum NFTs that can be minted")
    case "hintMintPrice" => Some("Price per mint (0 = free)")
    case "hintRoyaltyReceiver" => Some("Address to receive royalties (default: you)")
    case "hintRoyaltyFee" => Some("% of secondary sales you receive")
    case "switchNetwork" => Some("Switch Network")
    case "switchingNetwork" => Some("Switching network...")
    case "lastTx" => Some("Last Sale")
    case "noTx" => Some("No sales")
    case "owner" => Some("Owner")
    case "share" => Some("Share")
    case "explore" => Some("Explore")
    case "marketplace" => Some("Marketplace")
    case "collections" => Some("Collections")
    case "stats" => Some("Stats")
    case _ => None
  }

  /** The Spanish table, over the same keys. */
  function SpanishText(key: string): Option<string>
  {
    match key
    case "connectWallet" => Some("Conectar Wallet")
    case "disconnect" => Some("Desconectar")
    case "searchPlaceholder" => Some("Buscar NFTs...")
    case "price" => Some("Precio")
    case "offers" => Some("ofertas")
    case "noOffers" => Some("Sin ofertas")
    case "notListed" => Some("No listado")
    case "noNFTs" => Some("No se encontraron NFTs")
    case "loading" => Some("Cargando...")
    case "available" => Some("Disponible")
    case "notInstalled" => Some("No instalado")
    case "walletLocked" => Some("Wallet bloqueada. Desbloquéala e intenta de nuevo.")
    case "signToVerify" => Some("Firma para verificar propiedad de la wallet")
    case "verified" => Some("¡Verificado!")
    case "signFailed" => Some("Firma cancelada")
    case "deployNFT" => Some("Crear Contrato NFT")
    case "mintNFT" => Some("Mintear NFT")
    case "youAreOwner" => Some("Eres dueño de esta colección")
    case "createCollection" => Some("Crear Colección")
    case "deployDescription" => Some("Despliega tu propio contrato NFT en la blockchain")
    case "deploy" => Some("Desplegar")
    case "mint" => Some("Mintear")
    case "collectionName" => Some("Nombre de Colección")
    case "collectionSymbol" => Some("Símbolo")
    case "royaltyPercent" => Some("Regalía % (0-10)")
    case "deployingContract" => Some("Desplegando contrato...")
    case "contractDeployed" => Some("¡Contrato desplegado!")
    case "mintingNFT" => Some("Minteando NFT...")
    case "nftMinted" => Some("¡NFT Minteado!")
    case "noBytecode" => Some("Coloca nft.bytecode en /contracts/ para habilitar despliegue")
    case "enterTokenURI" => Some("URI del Token (URL de metadata)")
    case "enterRecipient" => Some("Dirección del destinatario")
    case "selectWallet" => Some("Seleccionar Wallet")
    case "chooseWallet" => Some("Elige cómo quieres conectarte")
    case "download" => Some("Descargar")
    case "deployingOn" => Some("Desplegando en:")
    case "advancedOptions" => Some("Opciones Avanzadas")
    case "hintName" => Some("El nombre de tu colección NFT")
    case "hintSymbol" => Some("Identificador corto (como ticker), 3-5 caracteres")
    case "hintBaseURI" => Some("URL base para metadata (IPFS o HTTP)")
    case "hintMaxSupply" => Some("Máximo de NFTs que se pueden mintear")
    case "hintMintPrice" => Some("Precio por mint (0 = gratis)")
    case "hintRoyaltyReceiver" => Some("Dirección para recibir regalías (default: tú)")
    case "hintRoyaltyFee" => Some("% de ventas secundarias que recibes")
    case "switchNetwork" => Some("Cambiar Red")
    case "switchingNetwork" => Some("Cambiando red...")
    case "lastTx" => Some("Última Venta")
    case "noTx" => Some("Sin ventas")
    case "owner" => Some("Dueño")
    case "share" => Some("Compartir")
    case "explore" => Some("Explorar")
    case "marketplace" => Some("Mercado")
    case "collections" => Some("Colecciones")
    case "stats" => Some("Estadísticas")
    case _ => None
  }

  /** `translations[language]` */
  function Text(language: Language, key: string): Option<string>
  {
    match language
    case En => EnglishText(key)
    case Es => SpanishText(key)
  }

  /** `translations[language][key]` used as a condition: a missing entry is
      `undefined` and, like the empty string, falsy. */
  predicate HasText(language: Language, key: string)
  {
    Text(language, key).Some? && Text(language, key).value != ""
  }

  /** `t(key)`: the current language's text, else the English text, else the
      key itself. Whatever it returns is one of those three candidates. */
  function Translate(language: Language, key: string): (r: string)
    ensures r == key || (HasText(language, key) && Some(r) == Text(language, key))
                     || (HasText(En, key) && Some(r) == EnglishText(key))
  {
    if HasText(language, key) then Text(language, key).value
    else if HasText(En, key) then EnglishText(key).value
    else key
  }

  /** The three levels of the fallback, in order. */
  lemma TranslateFallback(language: Language, key: string)
    ensures HasText(language, key) ==> Some(Translate(language, key)) == Text(language, key)
    ensures !HasText(language, key) && HasText(En, key) ==>
              Some(Translate(language, key)) == EnglishText(key)
    ensures !HasText(language, key) && !HasText(En, key) ==> Translate(language, key) == key
  {
  }

  /** English never falls back to anything but the key. */
  lemma TranslateEnglish(key: string)
    ensures Translate(En, key) == (if HasText(En, key) then EnglishText(key).value else key)
  {
  }

  /** Keys the pages use that neither table has are shown as themselves. */
  lemma UntranslatedKeys(language: Language)
    ensures Translate(language, "allNFTs") == "allNFTs"
    ensures Translate(language, "plans") == "plans"
  {
  }

  /** Header texts in both languages. */
  lemma HeaderTexts()
    ensures Translate(En, "connectWallet") == "Connect Wallet"
    ensures Translate(Es, "connectWallet") == "Conectar Wallet"
    ensures Translate(Es, "marketplace") == "Mercado"
  {
  }

  /** The language the toggle switches to. */
  function Toggled(language: Language): (r: Language)
    ensures r != language
  {
    if language == En then Es else En
  }

  /** Toggling twice restores the original language. */
  lemma ToggleTwice(language: Language)
    ensures Toggled(Toggled(language)) == language
  {
  }

  /** The language setting of the page and the storage it persists to. */
  class LanguageProvider {
    var language: Language
    const storage: LocalStorage

    constructor (storage: LocalStorage)
      ensures language == En && this.storage == storage
    {
      language := En;
      this.storage := storage;
    }

    /** `t(key)` in the current language: its text, else the English text,
        else the key. */
    function T(key: string): (r: string)
      reads this
      ensures HasText(language, key) ==> Some(r) == Text(language, key)
      ensures !HasText(language, key) && HasText(En, key) ==> Some(r) == EnglishText(key)
      ensures !HasText(language, key) && !HasText(En, key) ==> r == key
    {
      TranslateFallback(language, key);
      Translate(language, key)
    }

    /** The mount effect: a stored "en" or "es" is adopted; anything else,
        or nothing, leaves the language as it is. Storage is only read. */
    method LoadStoredLanguage()
      modifies this
      ensures var stored := storage.GetItem(LanguageKey);
              language == (if stored.Some? && ParseLanguage(stored.value).Some?
                           then ParseLanguage(stored.value).value else old(language))
    {
      var stored := storage.GetItem(LanguageKey);
      if stored.Some? {
        var parsed := ParseLanguage(stored.value);
        if parsed.Some? {
          language := parsed.value;
        }
      }
    }

    /** `setLanguage(lang)`: the setting and the stored value both become
        `lang`; no other stored entry changes. */
    method SetLanguage(lang: Language)
      modifies this, storage
      ensures language == lang
      ensures storage.items == old(storage.items)[LanguageKey := Code(lang)]
      ensures ParseLanguage(storage.items[LanguageKey]) == Some(lang)
    {
      language := lang;
      storage.SetItem(LanguageKey, Code(lang));
    }

    /** `toggleLanguage()`: flips between English and Spanish and stores it. */
    method ToggleLanguage()
      modifies this, storage
      ensures language == Toggled(old(language))
      ensures storage.items == old(storage.items)[LanguageKey := Code(language)]
    {
      SetLanguage(Toggled(language));
    }
  }
}
