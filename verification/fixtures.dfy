/**
 * The seed data of constants.tsx that the modelled code reads: the product
 * catalogue, and the merchant, customer and ticket lists in the JSON shape
 * the storage layer writes. Only the identifying fields of the merchant,
 * customer and ticket records are kept: no modelled rule reads the others.
 */
module Fixtures {
  import opened Json
  import opened Types

  /** INITIAL_PRODUCTS (constants.tsx:5-9); images are not modelled. */
  const InitialProducts: seq<Product> := [
    Product("1", "Bamboo Toothbrush", 4.50, "Home", 50, 95, Paper, 0.05),
    Product("2", "Organic Cotton Bag", 12.00, "Fashion", 25, 88, Reusable, 0.15),
    Product("3", "Recycled Paper Notebook", 8.99, "Office", 40, 92, Paper, 0.08)
  ]

  /** The name the merchant-reset rule looks for. */
  const DesKelly: string := "Des Kelly Interiors"

  function Record(id: string, name: string): Json {
    JObj(map["id" := JStr(id), "name" := JStr(name)])
  }

  /** MOCK_MERCHANTS (constants.tsx:17-193) as stored: ten merchant objects, by id and name. */
  const MockMerchants: Json := JArr([
    Record("m1", "Avoca Handweavers"), Record("m2", "Butler's Chocolate Cafe"), Record("m3", "Fallon & Byrne"),
    Record("m4", "Murphy's Ice Cream"), Record("m5", "The Happy Pear"), Record("m6", "Sheridans Cheesemongers"),
    Record("m7", "McCambridge's of Galway"), Record("m8", "O'Conaill Chocolate"), Record("m9", "Keogh's Farm"),
    Record("m10", "SuperValu Ireland")
  ])

  const MockMerchantCount: nat := 10

  /** INITIAL_PRODUCTS as stored. */
  const InitialProductsJson: Json :=
    JArr([Record("1", "Bamboo Toothbrush"), Record("2", "Organic Cotton Bag"), Record("3", "Recycled Paper Notebook")])

  /** MOCK_CUSTOMERS (constants.tsx:201-205) as stored. */
  const MockCustomers: Json :=
    JArr([Record("c1", "Siobhan O'Neill"), Record("c2", "Liam Murphy"), Record("c3", "Cian Kelly")])

  /** MOCK_TICKETS (constants.tsx:195-199) as stored, by id and subject. */
  const MockTickets: Json :=
    JArr([Record("TK-101", "Printer jam on terminal"), Record("TK-102", "Network connectivity dropped"),
          Record("TK-103", "Terminal won't power on")])
}
