/** The shop's fixed data: exchange rate, identity block and product catalog. */
module StoreConstants {
  import opened Invoice

  /** Córdobas per US dollar. */
  const DefaultExchangeRate: real := 36.6243

  const StoreName: string := "PandaStore"
  const StoreAddress: seq<string> := ["Reparto San Juan,", "Managua,", "Nicaragua - 11027"]
  const StoreEmail: string := "pandastorenic@gmail.com"
  const StorePhone: string := "+505 8372 5528"

  const ProductCatalog: seq<Product> := [
    Product("1001", "Xiaomi Mi Band 8"),
    Product("1002", "Xiaomi Mi TV Box S, 2a Generación"),
    Product("1004", "Amazon Fire TV HD"),
    Product("1014", "Amazon Fire TV Stick 4K"),
    Product("1015", "Echo Dot 5ta Generación"),
    Product("1110", "Amazon Echo Show 5")
  ]
}
