/**
 * The two label tables of the page, Indonesian (`id`) and English (`en`),
 * and the sidebar's language choice between them.
 */
module Locale {

  /** The label keys the page looks up. */
  const LABEL_KEYS: set<string> := {
    "title", "upload", "filter", "city", "product", "payment", "date",
    "sales", "profit", "qty", "c1", "c2", "c3", "c4", "c5"
  }

  const ID_LABELS: map<string, string> := map[
    "title" := "Dashboard Bisnis Supermarket",
    "upload" := "Unggah File Excel",
    "filter" := "Filter Data",
    "city" := "Kota",
    "product" := "Kategori Produk",
    "payment" := "Metode Pembayaran",
    "date" := "Rentang Tanggal",
    "sales" := "Total Pendapatan",
    "profit" := "Total Keuntungan",
    "qty" := "Total Produk Terjual",
    "c1" := "Pendapatan per Kategori Produk",
    "c2" := "Pendapatan per Kota",
    "c3" := "Distribusi Metode Pembayaran",
    "c4" := "Tren Pendapatan Harian",
    "c5" := "Jumlah Produk Terjual per Kategori"
  ]

  const EN_LABELS: map<string, string> := map[
    "title" := "Supermarket Business Dashboard",
    "upload" := "Upload Excel File",
    "filter" := "Data Filter",
    "city" := "City",
    "product" := "Product Line",
    "payment" := "Payment Method",
    "date" := "Date Range",
    "sales" := "Total Revenue",
    "profit" := "Total Profit",
    "qty" := "Total Quantity Sold",
    "c1" := "Revenue by Product Line",
    "c2" := "Revenue by City",
    "c3" := "Payment Method Distribution",
    "c4" := "Daily Revenue Trend",
    "c5" := "Quantity Sold by Product Line"
  ]

  /** The table of tables, keyed by locale tag. */
  const LANG: map<string, map<string, string>> := map["id" := ID_LABELS, "en" := EN_LABELS]

  /** The options of the language select box. */
  const CHOICES: seq<string> := ["Bahasa", "English"]

  /** Both tables define the same labels. */
  lemma TablesShareKeys()
    ensures LANG.Keys == {"id", "en"}
    ensures LANG["id"].Keys == LANG["en"].Keys == LABEL_KEYS
  {
  }

  /** "Bahasa" picks the Indonesian table, anything else the English one;
      either way every label the page uses is there. */
  function SelectLabels(choice: string): (t: map<string, string>)
    ensures choice == "Bahasa" ==> t == ID_LABELS
    ensures choice != "Bahasa" ==> t == EN_LABELS
    ensures t.Keys == LABEL_KEYS
  {
    TablesShareKeys();
    if choice == "Bahasa" then LANG["id"] else LANG["en"]
  }

  /** The two options of the select box give two different tables. */
  lemma ChoicesGiveDistinctTables()
    ensures SelectLabels(CHOICES[0])["title"] == "Dashboard Bisnis Supermarket"
    ensures SelectLabels(CHOICES[1])["title"] == "Supermarket Business Dashboard"
    ensures SelectLabels(CHOICES[0]) != SelectLabels(CHOICES[1])
  {
    assert CHOICES[0] == "Bahasa" && CHOICES[1] != "Bahasa";
    assert ID_LABELS["title"] == "Dashboard Bisnis Supermarket";
    assert EN_LABELS["title"] == "Supermarket Business Dashboard";
  }
}
