/**
 * The client's `ComponentLibraryService`: the constant table of component definitions the
 * designer offers, the two categories that list them, and the demo data shown in freshly
 * added invoice components, with the lookups over them.
 */
module ComponentLibrary {
  import opened Wrappers
  import opened Payload

  /** A definition's `defaultPosition`; `size` and `width` appear on some definitions only. */
  datatype Anchor = Anchor(x: real, y: real, size: Option<real>, width: Option<real>)

  /** One entry of the component table; `kind` is its `type` string. */
  datatype Definition = Definition(
    id: string,
    name: string,
    icon: string,
    kind: string,
    dataField: Option<string>,
    description: string,
    defaultPosition: Anchor)

  datatype Category = Category(id: string, name: string, icon: string, components: seq<string>)

  function At(x: real, y: real): Anchor {
    Anchor(x, y, None, None)
  }

  function Data(id: string, name: string, icon: string, kind: string, field: string, description: string,
                anchor: Anchor): Definition {
    Definition(id, name, icon, kind, Some(field), description, anchor)
  }

  /** The component table: each key with the definition stored under it, in insertion order. */
  const Table: seq<(string, Definition)> := [
    ("text", Definition("text", "Texte", "text", "text", None, "Bloc de texte personnalisable", At(50.0, 50.0))),
    ("image", Definition("image", "Image", "image", "image", None, "Image personnalisable",
                         Anchor(50.0, 50.0, Some(1.0), None))),
    ("separator", Definition("separator", "Séparateur", "minus", "separator", None,
                             "Ligne de séparation horizontale", Anchor(50.0, 50.0, None, Some(500.0)))),
    ("pager", Definition("pager", "Numérotation de page", "file-text", "pager", None,
                         "Numéro de page / Nombre total de pages", At(297.5, 800.0))),
    ("client-address", Data("client-address", "Adresse client", "map-pin", "invoice-data", "clientDetails",
                            "Adresse du client (depuis la base de données)", At(400.0, 150.0))),
    ("company-address", Data("company-address", "Adresse entreprise", "home", "invoice-data", "companyDetails",
                             "Adresse de l'entreprise (depuis la base de données)", At(50.0, 150.0))),
    ("client-name", Data("client-name", "Nom du client", "user", "invoice-data", "clientName",
                         "Nom du client (depuis la base de données)", At(400.0, 100.0))),
    ("company-name", Data("company-name", "Nom de l'entreprise", "briefcase", "invoice-data", "companyName",
                          "Nom de l'entreprise (depuis la base de données)", At(50.0, 100.0))),
    ("invoice-number", Data("invoice-number", "Num Facture", "hash", "invoice-data", "invoiceNumber",
                            "Numéro de facture (depuis la base de données)", At(50.0, 100.0))),
    ("invoice-date", Data("invoice-date", "Dates de facture", "calendar", "invoice-dates", "invoiceDates",
                          "Dates de la facture (depuis la base de données)", At(50.0, 150.0))),
    ("articles-table", Data("articles-table", "Tableau d'articles", "grid", "invoice-table", "articles",
                            "Tableau des articles (personnalisable)", At(50.0, 250.0))),
    ("amounts-summary", Data("amounts-summary", "Résumé des montants", "dollar-sign", "invoice-summary", "amounts",
                             "Résumé des montants (personnalisable)", At(400.0, 500.0)))
  ]

  const Categories: seq<Category> := [
    Category("basic", "Éléments de base", "layout-template", ["text", "image", "separator", "pager"]),
    Category("invoice", "Éléments de facture", "file-text",
             ["client-address", "company-address", "client-name", "company-name", "invoice-number",
              "invoice-date", "articles-table", "amounts-summary"])
  ]

  /** The value stored under `key` in an object literal given as its entries. */
  function Lookup<V>(entries: seq<(string, V)>, key: string): (r: Option<V>)
    ensures r.Some? <==> exists i :: 0 <= i < |entries| && entries[i].0 == key
    ensures r.Some? ==> exists i :: 0 <= i < |entries| && entries[i] == (key, r.value)
  {
    if entries == [] then None
    else if entries[0].0 == key then Some(entries[0].1)
    else
      var r := Lookup(entries[1..], key);
      assert forall i :: 0 <= i < |entries[1..]| ==> entries[1..][i] == entries[i + 1];
      r
  }

  /** `getComponent(componentId)`: the definition under that key, None for undefined. */
  function GetComponent(componentId: string): Option<Definition> {
    Lookup(Table, componentId)
  }

  /** `categories.find(cat => cat.id === categoryId)` */
  function FindCategory(cats: seq<Category>, categoryId: string): (r: Option<Category>)
    ensures r.Some? ==> r.value in cats && r.value.id == categoryId
    ensures r.None? ==> forall c :: c in cats ==> c.id != categoryId
  {
    if cats == [] then None
    else if cats[0].id == categoryId then Some(cats[0])
    else FindCategory(cats[1..], categoryId)
  }

  /** `getComponentsByCategory(categoryId)`: the category's ids looked up in order, [] for an unknown one. */
  function GetComponentsByCategory(categoryId: string): seq<Option<Definition>> {
    match FindCategory(Categories, categoryId)
    case None => []
    case Some(cat) => seq(|cat.components|, i requires 0 <= i < |cat.components| => GetComponent(cat.components[i]))
  }

  /** `getAllComponents()`: the table's values in insertion order. */
  function GetAllComponents(): (all: seq<Definition>)
    ensures |all| == |Table| && forall i :: 0 <= i < |Table| ==> all[i] == Table[i].1
  {
    seq(|Table|, i requires 0 <= i < |Table| => Table[i].1)
  }

  /** A demo value: a text, a pair of dates, the article rows, or the three amounts. */
  datatype DemoValue =
    | DemoText(s: string)
    | DemoDates(dates: Dates)
    | DemoArticles(rows: seq<Row>)
    | DemoAmounts(subtotal: real, tax: real, total: real)

  const DemoArticleRows: seq<Row> := [
    Row("Développement site web", 1.0, 1200.0, 20.0, 1200.0),
    Row("Hébergement annuel", 12.0, 25.0, 20.0, 300.0),
    Row("Maintenance", 5.0, 75.0, 20.0, 375.0)
  ]

  const DemoTable: seq<(string, DemoValue)> := [
    ("clientName", DemoText("Entreprise ABC")),
    ("clientAddress", DemoText("123 Rue du Client\n75001 Paris\nFrance")),
    ("companyName", DemoText("Ma Société SARL")),
    ("companyAddress", DemoText("456 Avenue de l'Entreprise\n69001 Lyon\nFrance")),
    ("invoiceNumber", DemoText("INV/2020/07/0003")),
    ("invoiceDates", DemoDates(Dates("07/06/2020", "08/07/2020"))),
    ("articles", DemoArticles(DemoArticleRows)),
    ("amounts", DemoAmounts(1875.0, 375.0, 2250.0))
  ]

  /** Strings are falsy when empty; objects and arrays are always truthy. */
  predicate DemoTruthy(v: DemoValue) {
    !v.DemoText? || v.s != ""
  }

  /** `getDemoData(dataField)`: the entry, or None (null) for a missing or falsy one. */
  function GetDemoData(dataField: string): (r: Option<DemoValue>)
    ensures r.Some? ==> Lookup(DemoTable, dataField) == r && DemoTruthy(r.value)
    ensures r.None? ==> Lookup(DemoTable, dataField).None? || !DemoTruthy(Lookup(DemoTable, dataField).value)
  {
    match Lookup(DemoTable, dataField)
    case Some(v) => if DemoTruthy(v) then Some(v) else None
    case None => None
  }

  // ----- Properties of the tables -----

  /** The keys of the component table, in order. */
  const TableKeys: seq<string> := ["text", "image", "separator", "pager", "client-address", "company-address",
                                   "client-name", "company-name", "invoice-number", "invoice-date",
                                   "articles-table", "amounts-summary"]

  lemma TableKeysInOrder()
    ensures |TableKeys| == |Table| && forall i :: 0 <= i < |Table| ==> Table[i].0 == TableKeys[i]
  {
  }

  /** Every entry of the component table carries its own key as its `id`. */
  lemma TableIdsMatchKeys()
    ensures forall i :: 0 <= i < |Table| ==> Table[i].1.id == Table[i].0
  {
  }

  /** A key of the table resolves through `getComponent` to the entry whose `id` is that key. */
  lemma {:induction false} LookupResolves(componentId: string)
    requires componentId in TableKeys
    ensures GetComponent(componentId).Some? && GetComponent(componentId).value.id == componentId
  {
    TableKeysInOrder();
    var i :| 0 <= i < |TableKeys| && TableKeys[i] == componentId;
    assert Table[i].0 == componentId;
    TableIdsMatchKeys();
    var d := GetComponent(componentId).value;
    var j :| 0 <= j < |Table| && Table[j] == (componentId, d);
  }

  /** Every id a category lists is a key of the component table. */
  lemma CategoriesListTableKeys()
    ensures forall c, k :: c in Categories && 0 <= k < |c.components| ==> c.components[k] in TableKeys
  {
  }

  /**
   * `getComponentsByCategory` gives [] exactly for an id that is not "basic" or "invoice";
   * for those two it gives each listed component, in listed order, resolved to the
   * definition whose `id` is the listed one.
   */
  lemma ComponentsByCategory(categoryId: string)
    ensures GetComponentsByCategory(categoryId) == [] <==> categoryId != "basic" && categoryId != "invoice"
    ensures forall c :: c in Categories && c.id == categoryId ==>
              |GetComponentsByCategory(categoryId)| == |c.components|
              && forall k :: 0 <= k < |c.components| ==>
                   GetComponentsByCategory(categoryId)[k].Some?
                   && GetComponentsByCategory(categoryId)[k].value.id == c.components[k]
  {
    var r := GetComponentsByCategory(categoryId);
    match FindCategory(Categories, categoryId)
    case None =>
    case Some(cat) =>
      assert cat == Categories[0] || cat == Categories[1];
      forall k | 0 <= k < |cat.components|
        ensures r[k].Some? && r[k].value.id == cat.components[k]
      {
        CategoriesListTableKeys();
        LookupResolves(cat.components[k]);
      }
  }

  /** Each demo article's total is its quantity times its unit price. */
  lemma DemoArticlesConsistent()
    ensures forall r :: r in DemoArticleRows ==> r.total == r.quantity * r.unitPrice
  {
  }

  function RowsTotal(rows: seq<Row>): real {
    if rows == [] then 0.0 else RowsTotal(rows[..|rows| - 1]) + rows[|rows| - 1].total
  }

  /** The demo subtotal is the sum of the article totals, the tax 20% of it, and the total their sum. */
  lemma DemoAmountsConsistent()
    ensures GetDemoData("amounts") == Some(DemoAmounts(1875.0, 375.0, 2250.0))
    ensures RowsTotal(DemoArticleRows) == 1875.0
    ensures 1875.0 * 20.0 / 100.0 == 375.0 && 1875.0 + 375.0 == 2250.0
  {
    LookupFirst(DemoTable, 7, "amounts");
    var rows := DemoArticleRows;
    assert rows[..2][..1][..0] == [];
    assert rows[..2][..1] == rows[..1];
    assert rows[..3][..2] == rows[..2];
    assert rows[..3] == rows;
    assert RowsTotal(rows[..1]) == 1200.0;
    assert RowsTotal(rows[..2]) == 1500.0;
  }

  /** The first entry under a key is the one the lookup finds. */
  lemma {:induction false} LookupFirst<V>(entries: seq<(string, V)>, i: nat, key: string)
    requires i < |entries| && entries[i].0 == key && forall j :: 0 <= j < i ==> entries[j].0 != key
    ensures Lookup(entries, key) == Some(entries[i].1)
  {
    if i > 0 {
      LookupFirst(entries[1..], i - 1, key);
    }
  }

  /** Every demo value is truthy. */
  lemma DemoValuesTruthy()
    ensures forall i :: 0 <= i < |DemoTable| ==> DemoTruthy(DemoTable[i].1)
  {
  }

  /** A key with no demo entry gives None; so does each of the table's `dataField`s "clientDetails" and "companyDetails". */
  lemma DemoMissing(dataField: string)
    requires forall i :: 0 <= i < |DemoTable| ==> DemoTable[i].0 != dataField
    ensures GetDemoData(dataField).None?
  {
  }

  /** Of the table's data fields, exactly "clientDetails" and "companyDetails" have no demo value. */
  lemma DataFieldsWithoutDemo()
    ensures forall i :: 0 <= i < |Table| && Table[i].1.dataField.Some? ==>
              (GetDemoData(Table[i].1.dataField.value).None? <==>
               Table[i].1.dataField.value in {"clientDetails", "companyDetails"})
  {
    forall i | 0 <= i < |Table| && Table[i].1.dataField.Some?
      ensures GetDemoData(Table[i].1.dataField.value).None? <==>
              Table[i].1.dataField.value in {"clientDetails", "companyDetails"}
    {
      var f := Table[i].1.dataField.value;
      if f == "clientDetails" || f == "companyDetails" {
        DemoMissing(f);
      } else {
        var keys := ["clientName", "clientAddress", "companyName", "companyAddress", "invoiceNumber",
                     "invoiceDates", "articles", "amounts"];
        assert forall j :: 0 <= j < |DemoTable| ==> DemoTable[j].0 == keys[j];
        assert f in keys;
        var j :| 0 <= j < |keys| && keys[j] == f;
        assert DemoTable[j].0 == f;
        DemoValuesTruthy();
      }
    }
  }
}
