/** The admin list column that shows a purchase's products: the names in
    the stored JSON details, joined by commas, with fallbacks for an empty
    list and for data it cannot read. */
module Admin {

  import opened Options
  import opened Models

  /** A JSON value as stored in a JSON column. Numbers are kept as integers;
      the column only needs to tell a string from everything else. */
  datatype Json =
    | JNull
    | JBool(b: bool)
    | JInt(n: int)
    | JStr(s: string)
    | JList(items: seq<Json>)
    | JObject(fields: map<string, Json>)

  const NoProducts: string := "Sin productos"
  const NoName: string := "Sin nombre"
  const Unreadable: string := "Error al leer productos"

  /** The parts written one after another with `sep` between neighbours. */
  function Join(parts: seq<string>, sep: string): (r: string)
    ensures parts == [] ==> r == []
    ensures |parts| == 1 ==> r == parts[0]
  {
    if parts == [] then []
    else if |parts| == 1 then parts[0]
    else parts[0] + sep + Join(parts[1..], sep)
  }

  function TotalLength(parts: seq<string>): nat {
    if parts == [] then 0 else |parts[0]| + TotalLength(parts[1..])
  }

  /** A join is as long as its parts plus one separator per gap. */
  lemma {:induction false} JoinLength(parts: seq<string>, sep: string)
    requires parts != []
    ensures |Join(parts, sep)| == TotalLength(parts) + (|parts| - 1) * |sep|
    decreases |parts|
  {
    if |parts| > 1 {
      JoinLength(parts[1..], sep);
    }
  }

  /** Joining one more part at the end adds the separator and that part. */
  lemma {:induction false} JoinSnoc(parts: seq<string>, x: string, sep: string)
    requires parts != []
    ensures Join(parts + [x], sep) == Join(parts, sep) + sep + x
    decreases |parts|
  {
    if |parts| == 1 {
      assert (parts + [x])[1..] == [x];
    } else {
      assert (parts + [x])[1..] == parts[1..] + [x];
      JoinSnoc(parts[1..], x, sep);
    }
  }

  /** The name an element contributes: its "nombre" string, the fallback
      when it has no such key, or None when the element is not an object
      or the name is not a string (the join would fail on it). */
  function ItemName(item: Json): (r: Option<string>)
    ensures r.Some? <==>
      item.JObject? && ("nombre" !in item.fields || item.fields["nombre"].JStr?)
    ensures r.Some? && "nombre" in item.fields ==> r.value == item.fields["nombre"].s
    ensures r.Some? && "nombre" !in item.fields ==> r.value == NoName
  {
    match item
    case JObject(fields) =>
      if "nombre" !in fields then Some(NoName)
      else if fields["nombre"].JStr? then Some(fields["nombre"].s)
      else None
    case _ => None
  }

  /** The names of all elements, or None when any one cannot be read. */
  function ItemNames(items: seq<Json>): (r: Option<seq<string>>)
    ensures r.Some? <==> forall i :: 0 <= i < |items| ==> ItemName(items[i]).Some?
    ensures r.Some? ==> |r.value| == |items|
    ensures r.Some? ==> forall i :: 0 <= i < |items| ==> r.value[i] == ItemName(items[i]).value
  {
    if items == [] then Some([])
    else
      match (ItemName(items[0]), ItemNames(items[1..]))
      case (Some(n), Some(rest)) =>
        assert forall i :: 1 <= i < |items| ==> items[i] == items[1..][i - 1];
        Some([n] + rest)
      case (None, _) => None
      case (Some(_), None) =>
        assert exists i :: 0 <= i < |items[1..]| && ItemName(items[1..][i]).None?;
        None
  }

  /** The products column. Iterating a list visits its elements; an empty
      list, object or string iterates nothing; a non-empty object or string
      yields keys or characters, which have no `get`; any other value is not
      iterable. Every failure shows the unreadable-data text. */
  function FormatProducts(d: Json): (r: string)
    ensures d.JList? && d.items == [] ==> r == NoProducts
    ensures d.JList? && d.items != [] && ItemNames(d.items).Some? ==>
      r == Join(ItemNames(d.items).value, ", ")
    ensures d.JList? && ItemNames(d.items).None? ==> r == Unreadable
    ensures d.JObject? ==> r == (if d.fields == map[] then NoProducts else Unreadable)
    ensures d.JStr? ==> r == (if d.s == [] then NoProducts else Unreadable)
    ensures d.JNull? || d.JBool? || d.JInt? ==> r == Unreadable
  {
    match d
    case JList(items) =>
      (match ItemNames(items)
       case None => Unreadable
       case Some(names) => if names == [] then NoProducts else Join(names, ", "))
    case JObject(fields) => if fields == map[] then NoProducts else Unreadable
    case JStr(s) => if s == [] then NoProducts else Unreadable
    case _ => Unreadable
  }

  /** How a recorded purchase stores one detail. */
  function DetailJson(d: Detail): Json {
    JObject(map["id_producto" := JInt(d.id), "nombre" := JStr(d.name)])
  }

  function DetailName(d: Detail): string {
    d.name
  }

  /** For details written by a checkout the column is exactly the product
      names in purchase order, joined by commas. */
  lemma DetailsShowNames(details: seq<Detail>)
    requires details != []
    ensures FormatProducts(JList(seq(|details|, i requires 0 <= i < |details| => DetailJson(details[i]))))
         == Join(seq(|details|, i requires 0 <= i < |details| => DetailName(details[i])), ", ")
  {
    var items := seq(|details|, i requires 0 <= i < |details| => DetailJson(details[i]));
    var names := seq(|details|, i requires 0 <= i < |details| => DetailName(details[i]));
    forall i | 0 <= i < |items|
      ensures ItemName(items[i]) == Some(names[i])
    {
      assert items[i] == DetailJson(details[i]);
    }
    assert ItemNames(items).value == names;
  }
}
