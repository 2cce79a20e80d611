/** Values shared by every transformer of the export engine: the failure-carrying
    result type, the cells an exported row is made of, JavaScript's `||` fallback,
    `new Map(entries)` and the column filter. */
module Common {

  type Id = string

  datatype Option<T> = None | Some(value: T)

  function GetOr<K, V>(m: map<K, V>, k: K, default: V): V
  {
    if k in m then m[k] else default
  }

  /** The failures that abort a whole export call; there is no partial result. */
  datatype ExportError =
    | DataSourceError(offset: nat)   // a read of the data source failed (at this row offset)
    | NotFound                       // the requested wave does not exist
    | UnknownDataset(name: string)   // the dataset identifier is not one of the five known ones

  datatype Result<T> = Success(value: T) | Failure(error: ExportError)

  /** One entry of the `_productDetails` metadata of a compact (multiline) row. */
  datatype ProductDetail = ProductDetail(
    createdAt: string,
    welleName: string,
    glName: string,
    marketName: string,
    marketChain: string,
    marketAddress: string,
    marketPostalCode: string,
    marketCity: string,
    containerName: string,
    containerType: string,
    productName: string,
    quantity: int,
    valuePerUnit: int,
    totalValue: int)

  /** One pre-sale item as it is serialised into the `products_json` column. */
  datatype PreSaleLine = PreSaleLine(name: string, quantity: int, itemType: string)

  /** The value of one column of an exported row. Where the source renders text from
      structured data with number formatting (the multiline product list of a compact
      row, a JSON array), the cell keeps the structure instead of the text. */
  datatype Cell =
    | Text(s: string)
    | Num(n: int)
    | Flag(b: bool)
    | Null
    | ProductLines(lines: seq<ProductDetail>, total: int)
    | ProductList(details: seq<ProductDetail>)
    | PreSaleJson(items: seq<PreSaleLine>)

  /** An exported row: column name to value, as a JavaScript object. */
  type Row = map<string, Cell>

  /** JavaScript truthiness of a cell (objects and arrays are truthy). */
  predicate Truthy(c: Cell)
  {
    match c
    case Text(s) => s != ""
    case Num(n) => n != 0
    case Flag(b) => b
    case Null => false
    case _ => true
  }

  /** A nullable text column copied without a fallback. */
  function Nullable(v: Option<string>): Cell
  {
    match v
    case Some(s) => Text(s)
    case None => Null
  }

  /** The text every transformer shows for a missing name. */
  const Unknown := "Unbekannt"

  /** The label of an `is_active` flag. */
  function ActiveLabel(active: bool): string
  {
    if active then "Aktiv" else "Inaktiv"
  }

  /** `s || fallback` on a nullable string, with null represented by "". */
  function OrText(s: string, fallback: string): string
  {
    if s != "" then s else fallback
  }

  /** `new Map(entries)`, or a Map filled by successive `set` calls:
      a later entry overwrites an earlier one with the same key. */
  function ToMap<K, V>(entries: seq<(K, V)>): map<K, V>
  {
    if entries == [] then map[]
    else
      var last := entries[|entries| - 1];
      ToMap(entries[..|entries| - 1])[last.0 := last.1]
  }

  /** The Map has a key for every entry and no other. */
  lemma {:induction false} ToMapKeys<K, V>(entries: seq<(K, V)>)
    ensures ToMap(entries).Keys == set i | 0 <= i < |entries| :: entries[i].0
  {
    if entries != [] {
      var prefix := entries[..|entries| - 1];
      ToMapKeys(prefix);
      assert forall i :: 0 <= i < |prefix| ==> prefix[i] == entries[i];
      assert (set i | 0 <= i < |entries| :: entries[i].0) ==
             (set i | 0 <= i < |prefix| :: prefix[i].0) + {entries[|entries| - 1].0};
    }
  }

  /** The value of a key is the one of the last entry written with that key. */
  lemma {:induction false} ToMapWitness<K, V>(entries: seq<(K, V)>, k: K)
    requires k in ToMap(entries)
    ensures exists i :: 0 <= i < |entries| && entries[i] == (k, ToMap(entries)[k]) &&
              (forall j :: i < j < |entries| ==> entries[j].0 != k)
  {
    var last := entries[|entries| - 1];
    var prefix := entries[..|entries| - 1];
    if last.0 != k {
      ToMapWitness(prefix, k);
      var i :| 0 <= i < |prefix| && prefix[i] == (k, ToMap(prefix)[k]) &&
              (forall j :: i < j < |prefix| ==> prefix[j].0 != k);
      assert entries[i] == prefix[i];
      assert forall j :: i < j < |entries| - 1 ==> entries[j] == prefix[j];
    }
  }

  /** The entry that wins for a key is the last one written with that key. */
  lemma ToMapLastWins<K, V>(entries: seq<(K, V)>, i: nat)
    requires i < |entries|
    requires forall j :: i < j < |entries| ==> entries[j].0 != entries[i].0
    ensures entries[i].0 in ToMap(entries) && ToMap(entries)[entries[i].0] == entries[i].1
  {
    var m := ToMap(entries);
    var k := entries[i].0;
    ToMapWitness(entries, k);
    var i' :| 0 <= i' < |entries| && entries[i'] == (k, m[k]) &&
              (forall j :: i' < j < |entries| ==> entries[j].0 != k);
    assert i' == i;
  }

  /** Appending one entry sets its key to its value. */
  lemma ToMapSnoc<K, V>(entries: seq<(K, V)>, x: (K, V))
    ensures ToMap(entries + [x]) == ToMap(entries)[x.0 := x.1]
  {
    assert (entries + [x])[..|entries|] == entries;
  }

  /** No value occurs twice. */
  predicate Distinct<T(==)>(xs: seq<T>)
  {
    forall i, j | 0 <= i < j < |xs| :: xs[i] != xs[j]
  }

  /** The column filter of every transformer: the row keeps each requested column
      that the built row owns (`hasOwnProperty`), with its value unchanged. */
  function SelectColumns(columns: seq<string>, row: Row): (r: Row)
    ensures r.Keys == set c | c in columns && c in row
    ensures forall c | c in r :: r[c] == row[c]
  {
    if columns == [] then map[]
    else
      var rest := SelectColumns(columns[..|columns| - 1], row);
      var c := columns[|columns| - 1];
      assert forall x :: x in columns <==> x in columns[..|columns| - 1] || x == c;
      if c in row then rest[c := row[c]] else rest
  }

  /** `parts.join(sep)`. */
  function Join(parts: seq<string>, sep: string): string
  {
    if |parts| == 0 then ""
    else if |parts| == 1 then parts[0]
    else parts[0] + sep + Join(parts[1..], sep)
  }

  /** A join is empty exactly when there is nothing to join, as long as no part is. */
  lemma {:induction false} JoinEmpty(parts: seq<string>, sep: string)
    requires forall i :: 0 <= i < |parts| ==> parts[i] != ""
    ensures Join(parts, sep) == "" <==> parts == []
  {
    if |parts| > 1 {
      assert (parts[0] + sep + Join(parts[1..], sep))[..|parts[0]|] == parts[0];
    }
  }

  function DigitText(n: nat): string
    decreases n
  {
    var d := ['0', '1', '2', '3', '4', '5', '6', '7', '8', '9'][n % 10];
    if n < 10 then [d] else DigitText(n / 10) + [d]
  }

  /** A number interpolated into a template string (integers only). */
  function DecimalText(n: int): string
  {
    if n < 0 then "-" + DigitText(-n) else DigitText(n)
  }

  /** The sum of a sequence of integers. */
  function Sum(xs: seq<int>): int
  {
    if xs == [] then 0 else xs[0] + Sum(xs[1..])
  }

  lemma {:induction false} SumAppend(a: seq<int>, b: seq<int>)
    ensures Sum(a + b) == Sum(a) + Sum(b)
  {
    if a == [] {
      assert a + b == b;
    } else {
      assert (a + b)[1..] == a[1..] + b;
      SumAppend(a[1..], b);
    }
  }
}
