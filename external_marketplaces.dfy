/**
  The external-marketplace service: the configured marketplaces, the
  per-marketplace fetchers (stubs that return no products), the aggregation
  that merges their results, orders them by price and keeps the first
  `limit`, and the blockchain sync stub.

  Prices are modelled as integers (hundredths of the currency unit) so the
  comparator `a.price - b.price` is an exact comparison. The order the
  aggregation produces is the one a stable sort by that comparator gives,
  defined here as `SortByPrice`.
 */
module ExternalMarketplaces {
  import opened Js

  datatype ExternalProduct = ExternalProduct(
    externalId: string,
    name: string,
    description: string,
    imageUrl: string,
    category: string,
    price: int,
    externalUrl: string,
    marketplace: string)

  datatype ExternalMarketplace = ExternalMarketplace(id: string, name: string, apiUrl: string, isActive: bool)

  /** `EXTERNAL_MARKETPLACES`: Etsy, Alibaba and Amazon, none active yet. */
  const ExternalMarketplaceTable: seq<ExternalMarketplace> := [
    ExternalMarketplace("etsy", "Etsy", "https://openapi.etsy.com/v3", false),
    ExternalMarketplace("alibaba", "Alibaba", "https://gw.api.alibaba.com", false),
    ExternalMarketplace("amazon", "Amazon", "https://webservices.amazon.com/paapi5", false)
  ]

  /** The identifiers of the configured marketplaces are distinct and none is
      active. */
  lemma MarketplaceTableFacts()
    ensures forall i, j :: 0 <= i < j < |ExternalMarketplaceTable| ==>
              ExternalMarketplaceTable[i].id != ExternalMarketplaceTable[j].id
    ensures forall i :: 0 <= i < |ExternalMarketplaceTable| ==> !ExternalMarketplaceTable[i].isActive
  {
  }

  /** `fetchEtsyProducts(category, limit)`: not connected to Etsy yet; it
      yields no products and never rejects. */
  function FetchEtsyProducts(category: string, limit: real): (r: Result<seq<ExternalProduct>>)
    ensures r.Ok? && |r.value| == 0
  {
    Ok([])
  }

  /** `fetchAlibabaProducts(category, limit)`: likewise a stub with no
      products. */
  function FetchAlibabaProducts(category: string, limit: real): (r: Result<seq<ExternalProduct>>)
    ensures r.Ok? && |r.value| == 0
  {
    Ok([])
  }

  // ---------------------------------------------------------------------------
  // Ordering by price

  /** Ascending by price. */
  predicate SortedByPrice(s: seq<ExternalProduct>)
  {
    forall i, j :: 0 <= i < j < |s| ==> s[i].price <= s[j].price
  }

  /** `x` placed before the first element whose price is not below its own. */
  function InsertByPrice(x: ExternalProduct, t: seq<ExternalProduct>): (r: seq<ExternalProduct>)
    ensures |r| == |t| + 1
  {
    if t == [] || x.price <= t[0].price then [x] + t
    else [t[0]] + InsertByPrice(x, t[1..])
  }

  /** The stable sort by price: each element, from the last to the first, is
      inserted ahead of the later elements of equal price. */
  function SortByPrice(s: seq<ExternalProduct>): (r: seq<ExternalProduct>)
    ensures |r| == |s|
  {
    if s == [] then [] else InsertByPrice(s[0], SortByPrice(s[1..]))
  }

  /** The products of price `p`, in their order in `s`. */
  function FilterPrice(s: seq<ExternalProduct>, p: int): (r: seq<ExternalProduct>)
    ensures |r| <= |s|
    ensures forall i :: 0 <= i < |r| ==> r[i].price == p
  {
    if s == [] then []
    else (if s[0].price == p then [s[0]] else []) + FilterPrice(s[1..], p)
  }

  /** Inserting adds exactly the one product. */
  lemma {:induction false} InsertByPricePermutes(x: ExternalProduct, t: seq<ExternalProduct>)
    ensures multiset(InsertByPrice(x, t)) == multiset(t) + multiset{x}
    decreases |t|
  {
    if t != [] && x.price > t[0].price {
      InsertByPricePermutes(x, t[1..]);
      assert t == [t[0]] + t[1..];
    }
  }

  /** The sort is a permutation of its input. */
  lemma {:induction false} SortByPricePermutes(s: seq<ExternalProduct>)
    ensures multiset(SortByPrice(s)) == multiset(s)
    decreases |s|
  {
    if s != [] {
      SortByPricePermutes(s[1..]);
      InsertByPricePermutes(s[0], SortByPrice(s[1..]));
      assert s == [s[0]] + s[1..];
    }
  }

  /** Inserting into a list ordered by price keeps it ordered; the new
      first price is the smaller of `x`'s and the old first one. */
  lemma {:induction false} InsertKeepsSorted(x: ExternalProduct, t: seq<ExternalProduct>)
    requires SortedByPrice(t)
    ensures SortedByPrice(InsertByPrice(x, t))
    ensures InsertByPrice(x, t)[0].price == (if t == [] then x.price else Min(x.price, t[0].price))
    decreases |t|
  {
    if t != [] && x.price > t[0].price {
      var rest := InsertByPrice(x, t[1..]);
      InsertKeepsSorted(x, t[1..]);
      assert t[0].price <= rest[0].price;
      var r := [t[0]] + rest;
      forall i, j | 0 <= i < j < |r| ensures r[i].price <= r[j].price {
        if i == 0 {
          assert r[j] == rest[j - 1];
          assert rest[0].price <= rest[j - 1].price;
        } else {
          assert r[i] == rest[i - 1] && r[j] == rest[j - 1];
        }
      }
    }
  }

  /** The sort orders by price. */
  lemma {:induction false} SortByPriceSorted(s: seq<ExternalProduct>)
    ensures SortedByPrice(SortByPrice(s))
    decreases |s|
  {
    if s != [] {
      SortByPriceSorted(s[1..]);
      InsertKeepsSorted(s[0], SortByPrice(s[1..]));
    }
  }

  lemma {:induction false} FilterConcat(a: seq<ExternalProduct>, b: seq<ExternalProduct>, p: int)
    ensures FilterPrice(a + b, p) == FilterPrice(a, p) + FilterPrice(b, p)
    decreases |a|
  {
    if a == [] {
      assert a + b == b;
    } else {
      var head := if a[0].price == p then [a[0]] else [];
      assert (a + b)[0] == a[0] && (a + b)[1..] == a[1..] + b;
      calc {
        FilterPrice(a + b, p);
        head + FilterPrice(a[1..] + b, p);
        { FilterConcat(a[1..], b, p); }
        head + (FilterPrice(a[1..], p) + FilterPrice(b, p));
        (head + FilterPrice(a[1..], p)) + FilterPrice(b, p);
      }
    }
  }

  /** Inserting `x` puts it ahead of every element of its price. */
  lemma {:induction false} FilterInsert(x: ExternalProduct, t: seq<ExternalProduct>, p: int)
    ensures FilterPrice(InsertByPrice(x, t), p) == (if x.price == p then [x] else []) + FilterPrice(t, p)
    decreases |t|
  {
    var own := if x.price == p then [x] else [];
    if t == [] || x.price <= t[0].price {
      FilterConcat([x], t, p);
    } else {
      var first := if t[0].price == p then [t[0]] else [];
      var inserted, rest := InsertByPrice(x, t), InsertByPrice(x, t[1..]);
      assert inserted[0] == t[0] && inserted[1..] == rest;
      assert FilterPrice(inserted, p) == first + FilterPrice(rest, p);
      assert FilterPrice(t, p) == first + FilterPrice(t[1..], p);
      FilterInsert(x, t[1..], p);
      if x.price == p {
        assert first == [];
      } else {
        assert own == [];
      }
    }
  }

  /** The sort is stable: the products of any one price keep their relative
      order. */
  lemma {:induction false} SortByPriceStable(s: seq<ExternalProduct>, p: int)
    ensures FilterPrice(SortByPrice(s), p) == FilterPrice(s, p)
    decreases |s|
  {
    if s != [] {
      SortByPriceStable(s[1..], p);
      FilterInsert(s[0], SortByPrice(s[1..]), p);
    }
  }

  /** The products of a prefix of `s` of one price are a prefix of those of
      `s`. */
  lemma FilterPrefix(s: seq<ExternalProduct>, n: nat, p: int)
    requires n <= |s|
    ensures FilterPrice(s[..n], p) <= FilterPrice(s, p)
  {
    FilterConcat(s[..n], s[n..], p);
    assert s == s[..n] + s[n..];
  }

  // ---------------------------------------------------------------------------
  // Aggregation

  /**
    `aggregateExternalProducts(category, limit)` with the two fetchers'
    settled results as parameters. Both fetches are awaited before anything
    is added, so a rejected fetch returns the still-empty accumulator.
    Otherwise the result is the first `limit` elements (`slice(0, limit)`,
    so a negative limit drops that many from the end) of the Etsy products
    followed by the Alibaba products, stably sorted by price: it is ordered
    by price, holds only fetched products, and on equal prices keeps every
    Etsy product ahead of every Alibaba one.
   */
  method AggregateExternalProducts(category: string, limit: int,
                                   etsyReply: Result<seq<ExternalProduct>>,
                                   alibabaReply: Result<seq<ExternalProduct>>)
    returns (r: seq<ExternalProduct>)
    ensures etsyReply.Err? || alibabaReply.Err? ==> r == []
    ensures etsyReply.Ok? && alibabaReply.Ok? ==>
              r == Slice(SortByPrice(etsyReply.value + alibabaReply.value), 0, limit)
    ensures SortedByPrice(r)
    ensures etsyReply.Ok? && alibabaReply.Ok? ==>
              && (forall x :: x in r ==> x in etsyReply.value || x in alibabaReply.value)
              && (0 <= limit ==> |r| == Min(limit, |etsyReply.value| + |alibabaReply.value|))
              && (limit < 0 ==> |r| == Max(|etsyReply.value| + |alibabaReply.value| + limit, 0))
              && (forall p :: FilterPrice(r, p) <= FilterPrice(etsyReply.value, p) + FilterPrice(alibabaReply.value, p))
  {
    var allProducts: seq<ExternalProduct> := [];
    if etsyReply.Err? || alibabaReply.Err? {
      return allProducts;
    }
    var etsyProducts, alibabaProducts := etsyReply.value, alibabaReply.value;
    allProducts := allProducts + etsyProducts + alibabaProducts;
    assert allProducts == etsyProducts + alibabaProducts;
    var sorted := SortByPrice(allProducts);
    SortByPriceSorted(allProducts);
    r := Slice(sorted, 0, limit);
    var n := SliceIndex(limit, |sorted|);
    assert r == sorted[..n];
    SortByPricePermutes(allProducts);
    forall x | x in r ensures x in etsyProducts || x in alibabaProducts {
      assert x in multiset(sorted);
    }
    forall p ensures FilterPrice(r, p) <= FilterPrice(etsyProducts, p) + FilterPrice(alibabaProducts, p) {
      FilterPrefix(sorted, n, p);
      SortByPriceStable(allProducts, p);
      FilterConcat(etsyProducts, alibabaProducts, p);
    }
  }

  /** With the stub fetchers the aggregation yields no products, whatever the
      category and limit. */
  method AggregateFromStubs(category: string, limit: int) returns (r: seq<ExternalProduct>)
    ensures r == []
  {
    var etsy := FetchEtsyProducts(category, limit as real / 2.0);
    var alibaba := FetchAlibabaProducts(category, limit as real / 2.0);
    r := AggregateExternalProducts(category, limit, etsy, alibaba);
  }

  /** `syncProductToBlockchain(product, marketplaceId)`: not connected to a
      contract yet; it reports success for every product. */
  function SyncProductToBlockchain(product: ExternalProduct, marketplaceId: int): (ok: bool)
    ensures ok
  {
    true
  }

  // ---------------------------------------------------------------------------
  // Sample data

  /** `getMockExternalProducts()`, prices in hundredths. */
  const MockExternalProducts: seq<ExternalProduct> := [
    ExternalProduct("ext-1", "Lana Merino Premium - Etsy",
      "Lana merino 100% natural, perfecta para tejer suéteres y bufandas.",
      "https://images.unsplash.com/photo-1582559362941-e5e5f3ccf8e7", "lana", 2599,
      "https://etsy.com/listing/example1", "Etsy"),
    ExternalProduct("ext-2", "Algodón Orgánico - Alibaba",
      "Algodón orgánico certificado, ideal para productos textiles sostenibles.",
      "https://images.unsplash.com/photo-1616486029423-aaa4789e8c9a", "algodón", 1850,
      "https://alibaba.com/product/example2", "Alibaba"),
    ExternalProduct("ext-3", "Seda China Premium - Alibaba",
      "Seda de alta calidad importada directamente de China.",
      "https://images.unsplash.com/photo-1559827260-dc66d52bef19", "seda", 4500,
      "https://alibaba.com/product/example3", "Alibaba")
  ]

  /** Ordered by price, the sample products come as cotton, merino, silk. */
  lemma MockProductsByPrice()
    ensures var sorted := SortByPrice(MockExternalProducts);
            sorted == [MockExternalProducts[1], MockExternalProducts[0], MockExternalProducts[2]]
  {
    var m := MockExternalProducts;
    assert m[1..] == [m[1], m[2]] && m[2..] == [m[2]];
    assert SortByPrice([m[2]]) == [m[2]];
    assert SortByPrice(m[1..]) == [m[1], m[2]];
  }
}
