/**
 * The store-creation form of the dashboard: the product rows, the storage size,
 * and the `name|price|description` text the rows are sent as.
 */
module ProductForm {
  import opened Wrappers
  import opened Text
  import MysqlTemplates

  datatype ProductRow = ProductRow(name: string, price: string, description: string)

  const EmptyRow: ProductRow := ProductRow("", "", "")

  /** The rows the form opens with. */
  const DefaultProducts: seq<ProductRow> := [
    ProductRow("Classic T-Shirt", "20.00", "A classic cotton t-shirt"),
    ProductRow("Denim Jeans", "45.00", "Blue denim jeans"),
    ProductRow("Sneakers", "60.00", "Comfortable running shoes")]

  const DefaultStorageSize: int := 2

  // ---------------------------------------------------------------------------
  // Serialisation
  // ---------------------------------------------------------------------------

  /** A row is sent only when both its name and its price are non-empty. */
  predicate Kept(p: ProductRow) {
    p.name != "" && p.price != ""
  }

  /** The rows that are sent, in their original order. */
  function KeptRows(rows: seq<ProductRow>): seq<ProductRow>
    decreases |rows|
  {
    if rows == [] then []
    else (if Kept(rows[0]) then [rows[0]] else []) + KeptRows(rows[1..])
  }

  /** The rows sent are exactly the rows with a name and a price. */
  lemma {:induction false} KeptRowsMembers(rows: seq<ProductRow>)
    ensures forall p :: p in KeptRows(rows) ==> Kept(p) && p in rows
    ensures forall p :: p in rows && Kept(p) ==> p in KeptRows(rows)
    decreases |rows|
  {
    if rows != [] {
      KeptRowsMembers(rows[1..]);
      assert forall p :: p in rows <==> p == rows[0] || p in rows[1..];
    }
  }

  /** Filtering commutes with concatenation, so the order of the rows is kept. */
  lemma {:induction false} KeptRowsAppend(a: seq<ProductRow>, b: seq<ProductRow>)
    ensures KeptRows(a + b) == KeptRows(a) + KeptRows(b)
    decreases |a|
  {
    if a == [] {
      assert a + b == b;
    } else {
      KeptRowsAppend(a[1..], b);
      assert (a + b)[1..] == a[1..] + b;
      assert (a + b)[0] == a[0];
    }
  }

  function FormatRow(p: ProductRow): string {
    p.name + "|" + p.price + "|" + p.description
  }

  function Lines(rows: seq<ProductRow>): (lines: seq<string>)
    ensures |lines| == |rows|
    ensures forall i :: 0 <= i < |rows| ==> lines[i] == FormatRow(rows[i])
  {
    seq(|rows|, i requires 0 <= i < |rows| => FormatRow(rows[i]))
  }

  /** The `sample_products` text: the kept rows, one per line, no line break after the last. */
  function FormatProducts(rows: seq<ProductRow>): (s: string)
    ensures KeptRows(rows) == [] ==> s == ""
    ensures |KeptRows(rows)| == 1 ==> s == FormatRow(KeptRows(rows)[0])
  {
    Join(Lines(KeptRows(rows)), '\n')
  }

  /** How a receiver reads one line back: three fields separated by `|`. */
  function ParseRow(line: string): Option<ProductRow> {
    var fields := Split(line, '|');
    if |fields| == 3 then Some(ProductRow(fields[0], fields[1], fields[2])) else None
  }

  function ParseLines(lines: seq<string>): Option<seq<ProductRow>>
    decreases |lines|
  {
    if lines == [] then Some([])
    else
      match (ParseRow(lines[0]), ParseLines(lines[1..]))
      case (Some(p), Some(rest)) => Some([p] + rest)
      case _ => None
  }

  /** How a receiver reads the whole text back: no rows for the empty text, else one row per line. */
  function ParseProducts(s: string): Option<seq<ProductRow>> {
    if s == "" then Some([]) else ParseLines(Split(s, '\n'))
  }

  /** No field holds a separator. */
  predicate Clean(p: ProductRow) {
    && '|' !in p.name && '|' !in p.price && '|' !in p.description
    && '\n' !in p.name && '\n' !in p.price && '\n' !in p.description
  }

  lemma RowRoundTrip(p: ProductRow)
    requires Clean(p)
    ensures '\n' !in FormatRow(p)
    ensures ParseRow(FormatRow(p)) == Some(p)
  {
    var fields := [p.name, p.price, p.description];
    assert Join(fields[2..], '|') == p.description;
    assert Join(fields[1..], '|') == p.price + ['|'] + p.description;
    assert Join(fields, '|') == p.name + ['|'] + (p.price + ['|'] + p.description);
    assert FormatRow(p) == Join(fields, '|');
    SplitJoin(fields, '|');
  }

  lemma {:induction false} LinesRoundTrip(rows: seq<ProductRow>)
    requires forall i :: 0 <= i < |rows| ==> Clean(rows[i])
    ensures ParseLines(Lines(rows)) == Some(rows)
    decreases |rows|
  {
    if rows != [] {
      RowRoundTrip(rows[0]);
      LinesRoundTrip(rows[1..]);
      assert Lines(rows)[1..] == Lines(rows[1..]);
      assert rows == [rows[0]] + rows[1..];
    }
  }

  /**
   * The text carries exactly the kept rows, in order, whenever no field holds
   * `|` or a line break.
   */
  lemma FormatProductsRoundTrip(rows: seq<ProductRow>)
    requires forall i :: 0 <= i < |rows| ==> Clean(rows[i])
    ensures ParseProducts(FormatProducts(rows)) == Some(KeptRows(rows))
  {
    var kept := KeptRows(rows);
    KeptRowsMembers(rows);
    if kept != [] {
      var lines := Lines(kept);
      forall i | 0 <= i < |lines| ensures '\n' !in lines[i] {
        assert kept[i] in kept;
        RowRoundTrip(kept[i]);
      }
      SplitJoin(lines, '\n');
      assert |lines[0]| >= 2 by { assert FormatRow(kept[0]) == kept[0].name + "|" + kept[0].price + "|" + kept[0].description; }
      JoinNonEmpty(lines, '\n');
      forall i | 0 <= i < |kept| ensures Clean(kept[i]) {
        assert kept[i] in kept;
      }
      LinesRoundTrip(kept);
    }
  }

  lemma JoinNonEmpty(parts: seq<string>, sep: char)
    requires |parts| > 0 && parts[0] != ""
    ensures Join(parts, sep) != ""
  {
    if |parts| > 1 {
      assert Join(parts, sep) == parts[0] + [sep] + Join(parts[1..], sep);
    }
  }

  // ---------------------------------------------------------------------------
  // Editing the rows
  // ---------------------------------------------------------------------------

  /** `addProductRow`: one empty row after the others. */
  function AppendEmptyRow(rows: seq<ProductRow>): (r: seq<ProductRow>)
    ensures |r| == |rows| + 1 && r[..|rows|] == rows && r[|rows|] == EmptyRow
  {
    rows + [EmptyRow]
  }

  /** `removeProductRow`: every element whose position differs from `index`; nothing is removed for an index out of range. */
  function RemoveAt<T>(s: seq<T>, index: int): (r: seq<T>)
    ensures 0 <= index < |s| ==> r == s[..index] + s[index + 1..]
    ensures !(0 <= index < |s|) ==> r == s
    decreases |s|
  {
    if s == [] then []
    else
      var rest := RemoveAt(s[1..], index - 1);
      assert 0 < index < |s| ==> s[1..][..index - 1] == s[1..index] && s[1..][index..] == s[index + 1..];
      assert s == [s[0]] + s[1..];
      (if index == 0 then [] else [s[0]]) + rest
  }

  /** An added empty row is never sent, and removing it again gives the rows back. */
  lemma AddRowKeepsFormat(rows: seq<ProductRow>)
    ensures FormatProducts(AppendEmptyRow(rows)) == FormatProducts(rows)
    ensures RemoveAt(AppendEmptyRow(rows), |rows|) == rows
  {
    KeptRowsAppend(rows, [EmptyRow]);
    assert KeptRows([EmptyRow]) == [];
    assert KeptRows(rows) + [] == KeptRows(rows);
    assert AppendEmptyRow(rows)[..|rows|] == rows;
  }

  datatype Field = Name | Price | Description

  /** The row with one field replaced. */
  function Edit(p: ProductRow, field: Field, value: string): ProductRow {
    match field
    case Name => p.(name := value)
    case Price => p.(price := value)
    case Description => p.(description := value)
  }

  /** The MySQL claim the note under the storage field adds: the `2Gi` of the database template. */
  const MysqlClaimGi: nat := 2

  /** The 2 Gi the form adds to its displayed total is the claim the MySQL template requests. */
  lemma DisplayedTotalMatchesTemplate()
    ensures MysqlTemplates.MysqlStorage == NatToString(MysqlClaimGi) + "Gi"
  {
  }

  // ---------------------------------------------------------------------------
  // The form as written: rows are shared mutable objects
  // ---------------------------------------------------------------------------

  /** A product row as the dashboard holds it: an object whose fields the inputs assign. */
  class Row {
    var name: string
    var price: string
    var description: string

    constructor(p: ProductRow)
      ensures Value() == p
    {
      name := p.name;
      price := p.price;
      description := p.description;
    }

    function Value(): ProductRow
      reads this
    {
      ProductRow(name, price, description)
    }
  }

  function Values(rows: seq<Row>): (vs: seq<ProductRow>)
    reads rows
    ensures |vs| == |rows|
    ensures forall i :: 0 <= i < |rows| ==> vs[i] == rows[i].Value()
    decreases |rows|
  {
    if rows == [] then [] else [rows[0].Value()] + Values(rows[1..])
  }

  predicate Distinct(rows: seq<Row>) {
    forall i, j :: 0 <= i < j < |rows| ==> rows[i] != rows[j]
  }

  /**
   * The form state as written: `defaults` is the one array of default row objects,
   * and `products` is reset to that very array when the form opens.
   */
  class RowForm {
    const defaults: seq<Row>
    var products: seq<Row>
    var storageSize: int
    var isModalOpen: bool

    ghost predicate Valid()
      reads this
    {
      Distinct(defaults) && Distinct(products)
    }

    constructor()
      ensures Valid()
      ensures Values(defaults) == DefaultProducts
      ensures products == defaults && storageSize == DefaultStorageSize && !isModalOpen
      ensures forall i :: 0 <= i < |defaults| ==> fresh(defaults[i])
    {
      var r0 := new Row(DefaultProducts[0]);
      var r1 := new Row(DefaultProducts[1]);
      var r2 := new Row(DefaultProducts[2]);
      defaults := [r0, r1, r2];
      products := [r0, r1, r2];
      storageSize := DefaultStorageSize;
      isModalOpen := false;
    }

    /** `openModal`: the products become the default array itself, the size 2. */
    method OpenModal()
      requires Valid()
      modifies this
      ensures Valid()
      ensures products == defaults && storageSize == DefaultStorageSize && isModalOpen
    {
      products := defaults;
      storageSize := DefaultStorageSize;
      isModalOpen := true;
    }

    /** `handleProductChange`: a copy of the array, then an assignment into the row object it shares. */
    method HandleProductChange(index: int, field: Field, value: string)
      requires Valid()
      requires 0 <= index < |products|
      modifies this, products[index]
      ensures Valid()
      ensures products == old(products) && storageSize == old(storageSize) && isModalOpen == old(isModalOpen)
      ensures Values(products) == old(Values(products))[index := Edit(old(products[index].Value()), field, value)]
    {
      var newProducts := products;
      var row := newProducts[index];
      match field {
        case Name => row.name := value;
        case Price => row.price := value;
        case Description => row.description := value;
      }
      products := newProducts;
    }

    method AddProductRow()
      requires Valid()
      modifies this
      ensures Valid()
      ensures |products| == |old(products)| + 1 && products[..|old(products)|] == old(products)
      ensures fresh(products[|old(products)|])
      ensures Values(products) == AppendEmptyRow(old(Values(products)))
      ensures storageSize == old(storageSize) && isModalOpen == old(isModalOpen)
    {
      var row := new Row(EmptyRow);
      products := products + [row];
    }

    method RemoveProductRow(index: int)
      requires Valid()
      modifies this
      ensures Valid()
      ensures products == RemoveAt(old(products), index)
      ensures storageSize == old(storageSize) && isModalOpen == old(isModalOpen)
    {
      products := RemoveAt(products, index);
    }

    /** What `handleCreate` sends as `sample_products`. */
    function SerializedProducts(): string
      reads this, products
    {
      FormatProducts(Values(products))
    }
  }

  /**
   * Open the form, rename the first product, open it again: as written the rename
   * is still shown, because the edit went into the default row object.
   */
  method ReopenAfterEditAsWritten() returns (shown: ProductRow)
    ensures shown == ProductRow("My Shirt", "20.00", "A classic cotton t-shirt")
    ensures shown != DefaultProducts[0]
  {
    var form := new RowForm();
    form.OpenModal();
    form.HandleProductChange(0, Name, "My Shirt");
    form.OpenModal();
    shown := form.products[0].Value();
  }

  // ---------------------------------------------------------------------------
  // The form as intended: rows are values
  // ---------------------------------------------------------------------------

  /** The form state with rows copied on edit, so the defaults cannot be changed. */
  class Form {
    var products: seq<ProductRow>
    var storageSize: int
    var isModalOpen: bool

    constructor()
      ensures products == DefaultProducts && storageSize == DefaultStorageSize && !isModalOpen
    {
      products := DefaultProducts;
      storageSize := DefaultStorageSize;
      isModalOpen := false;
    }

    /** Resets the products to the three defaults and the size to 2, whatever was edited before. */
    method OpenModal()
      modifies this
      ensures products == DefaultProducts && storageSize == DefaultStorageSize && isModalOpen
    {
      products := DefaultProducts;
      storageSize := DefaultStorageSize;
      isModalOpen := true;
    }

    method HandleProductChange(index: int, field: Field, value: string)
      requires 0 <= index < |products|
      modifies this
      ensures products == old(products)[index := Edit(old(products)[index], field, value)]
      ensures storageSize == old(storageSize) && isModalOpen == old(isModalOpen)
    {
      products := products[index := Edit(products[index], field, value)];
    }

    method AddProductRow()
      modifies this
      ensures products == AppendEmptyRow(old(products))
      ensures storageSize == old(storageSize) && isModalOpen == old(isModalOpen)
    {
      products := AppendEmptyRow(products);
    }

    method RemoveProductRow(index: int)
      modifies this
      ensures products == RemoveAt(old(products), index)
      ensures storageSize == old(storageSize) && isModalOpen == old(isModalOpen)
    {
      products := RemoveAt(products, index);
    }

    function SerializedProducts(): string
      reads this
    {
      FormatProducts(products)
    }

    /** The total under the storage field: the chosen size and the database's 2 Gi. */
    function DisplayedTotalGi(): (total: int)
      reads this
      ensures total == storageSize + MysqlClaimGi
    {
      storageSize + 2
    }
  }

  /** The same steps on the intended form: reopening shows the default rows again. */
  method ReopenAfterEdit() returns (shown: ProductRow)
    ensures shown == DefaultProducts[0]
  {
    var form := new Form();
    form.OpenModal();
    form.HandleProductChange(0, Name, "My Shirt");
    form.OpenModal();
    shown := form.products[0];
  }
}
