/**
 * The node roster: the spreadsheet of monitored nodes, read into one
 * descriptor per row that names a node id.
 */
module Roster {
  import opened Records
  import opened Text

  /** A spreadsheet cell: blank (pandas reads it as NaN) or the text `str()` gives its value. */
  datatype Cell = Blank | Filled(text: string)

  /** `str(cell)`: a blank cell is the float NaN, whose text is "nan". */
  function CellText(c: Cell): string {
    match c
    case Blank => "nan"
    case Filled(t) => t
  }

  /** One spreadsheet row: the `Name`, `ID` and `Type` cells. */
  datatype Row = Row(name: Cell, id: Cell, hwType: Cell)

  /** A read spreadsheet: its column headers and its rows. */
  datatype Sheet = Sheet(columns: seq<string>, rows: seq<Row>)

  /** A monitored node as configured: display name, peer id, hardware class. */
  datatype NodeDescriptor = NodeDescriptor(customName: string, nodeId: string, hardwareType: string)

  predicate HasRequiredColumns(sheet: Sheet) {
    "Name" in sheet.columns && "ID" in sheet.columns && "Type" in sheet.columns
  }

  /** No whitespace at either end. */
  predicate Stripped(s: string) {
    s == [] || (!IsSpace(s[0]) && !IsSpace(s[|s| - 1]))
  }

  /** No lower-case ASCII letter. */
  predicate NoLowerCase(s: string) {
    forall i :: 0 <= i < |s| ==> !('a' <= s[i] <= 'z')
  }

  /** `df.dropna(subset=['ID'])`: the rows whose ID cell is not blank, in sheet order. */
  function KeptRows(rows: seq<Row>): (kept: seq<Row>)
    ensures |kept| <= |rows|
    ensures forall r :: r in kept <==> r in rows && r.id.Filled?
  {
    if rows == [] then []
    else (if rows[0].id.Filled? then [rows[0]] else []) + KeptRows(rows[1..])
  }

  /** Upper-casing keeps a stripped string stripped. */
  lemma UpperKeepsStripped(s: string)
    requires Stripped(s)
    ensures Stripped(Upper(s)) && NoLowerCase(Upper(s))
  {
  }

  /**
   * The descriptor of one kept row: name and id stripped, the hardware class
   * stripped and upper-cased.
   */
  function Describe(r: Row): NodeDescriptor {
    NodeDescriptor(Strip(CellText(r.name)), Strip(CellText(r.id)), Upper(Strip(CellText(r.hwType))))
  }

  /**
   * Every field of a descriptor is stripped, its hardware class has no
   * lower-case letter, and re-normalising the descriptor changes nothing.
   */
  lemma DescribeNormalises(r: Row)
    ensures var d := Describe(r);
      Stripped(d.customName) && Stripped(d.nodeId) && Stripped(d.hardwareType)
      && NoLowerCase(d.hardwareType)
      && Describe(Row(Filled(d.customName), Filled(d.nodeId), Filled(d.hardwareType))) == d
  {
    var d := Describe(r);
    StripShape(CellText(r.name));
    StripShape(CellText(r.id));
    StripShape(CellText(r.hwType));
    StripIdempotent(CellText(r.name));
    StripIdempotent(CellText(r.id));
    UpperKeepsStripped(Strip(CellText(r.hwType)));
    StripIdempotent(d.hardwareType);
    assert Strip(d.hardwareType) == d.hardwareType by {
      assert TrimStart(d.hardwareType) == d.hardwareType;
      assert TrimEnd(d.hardwareType) == d.hardwareType;
    }
    UpperIdempotent(d.hardwareType);
  }

  /** Upper-casing a string without lower-case letters changes nothing. */
  lemma UpperIdempotent(s: string)
    requires NoLowerCase(s)
    ensures Upper(s) == s
  {
  }

  /**
   * `read_nodes_data` once the file is read (`sheet` is `None` when it could
   * not be): no roster when a required column is missing, otherwise one
   * descriptor per row with an ID, in sheet order.
   */
  method ReadNodes(sheet: Option<Sheet>) returns (nodes: seq<NodeDescriptor>)
    ensures sheet.None? || !HasRequiredColumns(sheet.value) ==> nodes == []
    ensures sheet.Some? && HasRequiredColumns(sheet.value) ==>
      var kept := KeptRows(sheet.value.rows);
      |nodes| == |kept| && forall i :: 0 <= i < |kept| ==> nodes[i] == Describe(kept[i])
  {
    nodes := [];
    if sheet.None? || !HasRequiredColumns(sheet.value) {
      return;
    }
    nodes := DescribeKept(KeptRows(sheet.value.rows));
  }

  /** The row loop: one descriptor per kept row, in order. */
  method DescribeKept(kept: seq<Row>) returns (nodes: seq<NodeDescriptor>)
    ensures |nodes| == |kept| && forall i :: 0 <= i < |kept| ==> nodes[i] == Describe(kept[i])
  {
    nodes := [];
    var i := 0;
    while i < |kept|
      invariant i <= |kept| && |nodes| == i
      invariant forall j :: 0 <= j < i ==> nodes[j] == Describe(kept[j])
    {
      nodes := nodes + [Describe(kept[i])];
      i := i + 1;
    }
  }

  /** A row whose ID cell holds only whitespace is kept, with an empty id. */
  lemma BlankLookingIdIsKept(name: Cell, ty: Cell)
    ensures var r := Row(name, Filled("  "), ty);
      KeptRows([r]) == [r] && Describe(r).nodeId == ""
  {
    assert TrimStart(" ") == "";
  }
}
