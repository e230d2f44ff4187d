/**
  The item page's detail panels: the attributes grid, which is omitted when
  there are no attributes, and the blockchain-details table with its
  defaults and its truncation of long values.
 */
module NftItemDetails {
  import opened Js
  import opened Web3Config

  /** One NFT attribute as the metadata carries it. */
  datatype Attribute = Attribute(traitType: string, value: string)

  /** `AttributesGrid`: nothing for missing or empty attributes, otherwise one
      tile per attribute, in the given order. */
  function AttributesGrid(attributes: Option<seq<Attribute>>): (r: Option<seq<Attribute>>)
    ensures r.None? <==> attributes.None? || |attributes.value| == 0
    ensures r.Some? ==> r.value == attributes.value
  {
    if attributes.None? || |attributes.value| == 0 then None else Some(attributes.value)
  }

  /** The longest value shown in full. */
  const MaxShownLength: nat := 20

  /** How a detail value is shown: longer than 20 characters, it becomes its
      first six characters, "..." and its last four; otherwise it is shown
      unchanged. */
  function TruncateValue(v: string): (r: string)
    ensures |r| <= MaxShownLength
    ensures r == v <==> |v| <= MaxShownLength
    ensures |v| > MaxShownLength ==> |r| == 13 && r == v[..6] + "..." + v[|v| - 4..]
  {
    if |v| > MaxShownLength then Substring(v, 0, 6) + "..." + SubstringFrom(v, |v| - 4) else v
  }

  /** A truncated value is the same short form the wallet helpers give an
      address. */
  lemma TruncateIsFormatAddress(v: string)
    requires |v| > MaxShownLength
    ensures TruncateValue(v) == FormatAddress(v)
  {
    FormatLongAddress(v);
  }

  /** Truncation is idempotent: a shown value is shown unchanged. */
  lemma TruncateIdempotent(v: string)
    ensures TruncateValue(TruncateValue(v)) == TruncateValue(v)
  {
  }

  /** One row of the blockchain-details table. */
  datatype DetailRow = DetailRow(title: string, value: string, isLink: bool)

  const DefaultStandard: string := "ERC-721"
  const DefaultNetworkLabel: string := "Rollux L2"

  /** The rows of `BlockchainDetails`: contract address, token id, token
      standard, network and metadata storage, in that order. An empty address
      or token id shows "Unknown"; the standard and network defaults apply
      only when the argument is absent, so an empty one stays empty. Only the
      contract address and the metadata storage are links. */
  function BlockchainDetails(contractAddress: string, tokenId: string,
                             standard: Option<string>, network: Option<string>): (r: seq<DetailRow>)
    ensures |r| == 5
    ensures r[0].title == "Contract Address" && r[1].title == "Token ID"
            && r[2].title == "Token Standard" && r[3].title == "Network"
            && r[4].title == "Metadata Storage"
    ensures forall i :: 0 <= i < |r| ==> (r[i].isLink <==> i == 0 || i == 4)
    ensures r[0].value == (if contractAddress == "" then "Unknown" else contractAddress)
    ensures r[1].value == (if tokenId == "" then "Unknown" else tokenId)
    ensures r[2].value == (if standard.None? then DefaultStandard else standard.value)
    ensures r[3].value == (if network.None? then DefaultNetworkLabel else network.value)
    ensures r[4].value == "IPFS"
  {
    [DetailRow("Contract Address", if contractAddress != "" then contractAddress else "Unknown", true),
     DetailRow("Token ID", if tokenId != "" then tokenId else "Unknown", false),
     DetailRow("Token Standard", if standard.Some? then standard.value else DefaultStandard, false),
     DetailRow("Network", if network.Some? then network.value else DefaultNetworkLabel, false),
     DetailRow("Metadata Storage", "IPFS", true)]
  }

  /** The values as the table shows them. */
  function ShownValues(rows: seq<DetailRow>): (r: seq<string>)
    ensures |r| == |rows|
    ensures forall i :: 0 <= i < |r| ==> r[i] == TruncateValue(rows[i].value)
  {
    if rows == [] then [] else [TruncateValue(rows[0].value)] + ShownValues(rows[1..])
  }

  /** A 42-character contract address is shown as 13 characters; a token id
      of at most 20 digits and the defaults are shown in full. */
  lemma ShownDetails(contractAddress: string, tokenId: string)
    requires |contractAddress| == 42 && 0 < |tokenId| <= MaxShownLength
    ensures var shown := ShownValues(BlockchainDetails(contractAddress, tokenId, None, None));
            && shown[0] == contractAddress[..6] + "..." + contractAddress[38..]
            && shown[1] == tokenId
            && shown[2] == DefaultStandard && shown[3] == DefaultNetworkLabel && shown[4] == "IPFS"
  {
  }
}
