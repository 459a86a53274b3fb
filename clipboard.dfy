/**
 * The clipboard form of a cell (parseClipboardCell / cellToClipboard).
 * JSON text is produced and read by a stringify/parse pair that the model
 * takes as parameters; only their values, not their text format, matter.
 */
module Clipboard {
  import opened Wrappers
  import opened SimulationTypes

  /** A parsed JSON value. */
  datatype Json =
    | JNull
    | JBool(b: bool)
    | JNumber(n: real)
    | JString(s: string)
    | JArray(items: seq<Json>)
    | JObject(fields: map<string, Json>)

  /** `v.key`: undefined (None) unless `v` is an object that has `key`. */
  function Member(v: Json, key: string): (r: Option<Json>)
    ensures r.Some? <==> v.JObject? && key in v.fields
  {
    if v.JObject? && key in v.fields then Some(v.fields[key]) else None
  }

  /** JavaScript truthiness of a property read; undefined is falsy. */
  predicate Truthy(v: Option<Json>)
  {
    match v
    case None => false
    case Some(JNull) => false
    case Some(JBool(b)) => b
    case Some(JNumber(n)) => n != 0.0
    case Some(JString(s)) => s != ""
    case Some(JArray(_)) => true
    case Some(JObject(_)) => true
  }

  function RowJson(row: seq<int>): Json
  {
    JArray(seq(|row|, j requires 0 <= j < |row| => JNumber(row[j] as real)))
  }

  function GenesJson(genes: seq<seq<int>>): Json
  {
    JArray(seq(|genes|, i requires 0 <= i < |genes| => RowJson(genes[i])))
  }

  /** The object JSON.stringify sees for a cell: its nine properties. */
  function CellJson(c: CellData): Json
  {
    var r := c.record;
    JObject(map[
      "originalId" := JNumber(r.originalId as real),
      "energy" := JNumber(r.energy as real),
      "maxEnergy" := JNumber(r.maxEnergy as real),
      "will" := JNumber(r.will as real),
      "maxEnergyToGet" := JNumber(r.maxEnergyToGet as real),
      "energyInFieldCell" := JNumber(r.energyInFieldCell as real),
      "energyFromSun" := JNumber(r.energyFromSun as real),
      "activeGen" := JNumber(r.activeGen as real),
      "genes" := GenesJson(c.genes)])
  }

  /** cellToClipboard: the JSON text of the cell. */
  function CellToClipboard(c: CellData, stringify: Json -> string): string
  {
    stringify(CellJson(c))
  }

  /**
   * parseClipboardCell: the parsed value when it has a truthy originalId and
   * truthy genes; None (null) when parsing throws or either is missing or
   * falsy. The value is returned as parsed: the cast to CellData checks nothing.
   */
  function ParseClipboardCell(text: string, parse: string -> Option<Json>): (r: Option<Json>)
    ensures r.Some? <==>
      parse(text).Some? && Truthy(Member(parse(text).value, "originalId")) && Truthy(Member(parse(text).value, "genes"))
    ensures r.Some? ==> r == parse(text)
  {
    match parse(text)
    case None => None
    case Some(data) =>
      if Truthy(Member(data, "originalId")) && Truthy(Member(data, "genes")) then Some(data) else None
  }

  // ---------------------------------------------------------------------
  // Reading a parsed value as a cell
  // ---------------------------------------------------------------------

  function IntOf(v: Json): (r: Option<int>)
    ensures r.Some? ==> v == JNumber(r.value as real)
  {
    if v.JNumber? && v.n.Floor as real == v.n then Some(v.n.Floor) else None
  }

  function RowOf(items: seq<Json>): (r: Option<seq<int>>)
    ensures r.Some? ==> |r.value| == |items|
  {
    if items == [] then Some([])
    else match (IntOf(items[0]), RowOf(items[1..]))
      case (Some(x), Some(rest)) => Some([x] + rest)
      case _ => None
  }

  function GenesOf(rows: seq<Json>): (r: Option<seq<seq<int>>>)
    ensures r.Some? ==> |r.value| == |rows|
  {
    if rows == [] then Some([])
    else match (rows[0], GenesOf(rows[1..]))
      case (JArray(items), Some(rest)) =>
        (match RowOf(items)
         case Some(row) => Some([row] + rest)
         case None => None)
      case _ => None
  }

  function IntMember(v: Json, key: string): Option<int>
  {
    match Member(v, key)
    case Some(x) => IntOf(x)
    case None => None
  }

  /** The cell a parsed value describes, when every property has the right shape. */
  function CellOf(v: Json): Option<CellData>
  {
    match (IntMember(v, "originalId"), IntMember(v, "energy"), IntMember(v, "maxEnergy"), IntMember(v, "will"),
           IntMember(v, "maxEnergyToGet"), IntMember(v, "energyInFieldCell"), IntMember(v, "energyFromSun"),
           IntMember(v, "activeGen"), Member(v, "genes"))
    case (Some(id), Some(e), Some(me), Some(w), Some(mg), Some(f), Some(sun), Some(g), Some(JArray(rows))) =>
      (match GenesOf(rows)
       case Some(genes) => Some(CellData(CellRecord(id, e, me, w, mg, f, sun, g), genes))
       case None => None)
    case _ => None
  }

  lemma {:induction false} RowRoundTrip(row: seq<int>)
    ensures RowOf(RowJson(row).items) == Some(row)
  {
    var items := RowJson(row).items;
    if row != [] {
      assert items[1..] == RowJson(row[1..]).items;
      RowRoundTrip(row[1..]);
      assert IntOf(items[0]) == Some(row[0]);
      assert [row[0]] + row[1..] == row;
    }
  }

  lemma {:induction false} GenesRoundTrip(genes: seq<seq<int>>)
    ensures GenesOf(GenesJson(genes).items) == Some(genes)
  {
    var rows := GenesJson(genes).items;
    if genes != [] {
      assert rows[1..] == GenesJson(genes[1..]).items;
      GenesRoundTrip(genes[1..]);
      RowRoundTrip(genes[0]);
      assert [genes[0]] + genes[1..] == genes;
    }
  }

  /** The clipboard object of a cell reads back as that cell. */
  lemma CellRoundTrip(c: CellData)
    ensures CellOf(CellJson(c)) == Some(c)
  {
    GenesRoundTrip(c.genes);
  }

  /**
   * With parse inverting stringify, pasting a copied cell gives back the
   * same cell exactly when its originalId is not the empty sentinel 0.
   */
  lemma ClipboardRoundTrip(c: CellData, parse: string -> Option<Json>, stringify: Json -> string)
    requires parse(stringify(CellJson(c))) == Some(CellJson(c))
    ensures c.record.originalId != 0 <==> ParseClipboardCell(CellToClipboard(c, stringify), parse).Some?
    ensures c.record.originalId != 0 ==>
      ParseClipboardCell(CellToClipboard(c, stringify), parse) == Some(CellJson(c))
      && CellOf(CellJson(c)) == Some(c)
  {
    var v := CellJson(c);
    assert Member(v, "originalId") == Some(JNumber(c.record.originalId as real));
    assert Member(v, "genes") == Some(GenesJson(c.genes));
    CellRoundTrip(c);
  }

  /** A record whose originalId is 0, or which has no genes, is refused. */
  lemma RejectsEmptyOrGeneless(text: string, parse: string -> Option<Json>, fields: map<string, Json>)
    requires parse(text) == Some(JObject(fields))
    requires ("originalId" in fields && fields["originalId"] == JNumber(0.0)) || "genes" !in fields
    ensures ParseClipboardCell(text, parse) == None
  {
  }
}
