/**
 * The loops every writer runs in the same way: the enumeration scan, a
 * sheet's reference-resolution scans and the database's two-pass Load.
 */
module Emit {
  import opened Wrappers
  import opened Schema
  import opened Code

  lemma ColumnsEnumsStep(withFlags: bool, cols: seq<Column>, j: nat)
    requires j <= |cols|
    ensures ColumnsEnums(withFlags, cols[..|cols|]) == ColumnsEnums(withFlags, cols)
    ensures j < |cols| ==> ColumnsEnums(withFlags, cols[..j + 1]) == ColumnsEnums(withFlags, cols[..j]) + ColumnEnums(withFlags, cols[j])
  {
    FlatMapWhole(c => ColumnEnums(withFlags, c), cols);
    if j < |cols| {
      FlatMapPrefix(c => ColumnEnums(withFlags, c), cols, j);
    }
  }

  lemma EnumSectionStep(withFlags: bool, sheets: seq<Sheet>, i: nat)
    requires i <= |sheets|
    ensures EnumSection(withFlags, sheets[..|sheets|]) == EnumSection(withFlags, sheets)
    ensures i < |sheets| ==> EnumSection(withFlags, sheets[..i + 1]) == EnumSection(withFlags, sheets[..i]) + SheetEnums(withFlags, sheets[i])
  {
    FlatMapWhole(s => SheetEnums(withFlags, s), sheets);
    if i < |sheets| {
      FlatMapPrefix(s => SheetEnums(withFlags, s), sheets, i);
    }
  }

  lemma AllDiagnosticsStep(unsupported: set<CastleType>, sheets: seq<Sheet>, i: nat)
    requires i <= |sheets|
    ensures AllDiagnostics(unsupported, sheets[..|sheets|]) == AllDiagnostics(unsupported, sheets)
    ensures i < |sheets| ==> AllDiagnostics(unsupported, sheets[..i + 1]) == AllDiagnostics(unsupported, sheets[..i]) + SheetDiagnostics(unsupported, sheets[i])
  {
    assert sheets[..|sheets|] == sheets;
    if i < |sheets| {
      FlatMapPrefix(s => SheetDiagnostics(unsupported, s), sheets, i);
    }
  }

  /** The diagnostics after one more sheet's class. */
  lemma AllDiagnosticsAfter(unsupported: set<CastleType>, sheets: seq<Sheet>, i: nat,
                            start: seq<string>, mid: seq<string>, items: seq<string>)
    requires i < |sheets|
    requires mid == start + AllDiagnostics(unsupported, sheets[..i])
    requires items == mid + SheetDiagnostics(unsupported, sheets[i])
    ensures items == start + AllDiagnostics(unsupported, sheets[..i + 1])
  {
    AllDiagnosticsStep(unsupported, sheets, i);
  }

  lemma ResolveScansStep(all: seq<Sheet>, cols: seq<Column>, j: nat)
    requires j <= |cols|
    ensures ResolveScans(all, cols[..|cols|]) == ResolveScans(all, cols)
    ensures j < |cols| ==> ResolveScans(all, cols[..j + 1]) == ResolveScans(all, cols[..j]) + ResolveScanLine(all, cols[j])
  {
    assert cols[..|cols|] == cols;
    if j < |cols| {
      FlatMapPrefix(c => ResolveScanLine(all, c), cols, j);
    }
  }

  /**
   * The scan for enumerations (and, when `withFlags`, flag constants) over
   * every column of every sheet, in schema then column order.
   */
  method WriteEnumerations(sheets: seq<Sheet>, withFlags: bool) returns (lines: seq<Line>)
    ensures lines == EnumSection(withFlags, sheets)
  {
    lines := [];
    for i := 0 to |sheets|
      invariant lines == EnumSection(withFlags, sheets[..i])
    {
      var columns := sheets[i].columns;
      var sheetLines := [];
      for j := 0 to |columns|
        invariant sheetLines == ColumnsEnums(withFlags, columns[..j])
      {
        var block := WriteColumnEnums(columns[j], withFlags);
        ColumnsEnumsStep(withFlags, columns, j);
        sheetLines := sheetLines + block;
      }
      ColumnsEnumsStep(withFlags, columns, |columns|);
      EnumSectionStep(withFlags, sheets, i);
      lines := lines + sheetLines;
    }
    EnumSectionStep(withFlags, sheets, |sheets|);
  }

  /** One column's share of the enumeration scan: an enum block, the flag constants, or nothing. */
  method WriteColumnEnums(column: Column, withFlags: bool) returns (lines: seq<Line>)
    ensures lines == ColumnEnums(withFlags, column)
  {
    lines := [];
    var values := column.enumerations;
    if column.typeId == Enum {
      lines := [EnumOpen("E_" + Upper(column.name))];
      for k := 0 to |values|
        invariant lines == [EnumOpen("E_" + Upper(column.name))] + FlatMap(EnumValueLine, values[..k])
      {
        FlatMapPrefix(EnumValueLine, values, k);
        lines := lines + [EnumValue(Upper(values[k]))];
      }
      FlatMapWhole(EnumValueLine, values);
      lines := lines + [EnumClose];
    } else if column.typeId == Flags && withFlags {
      var prefix := Upper(column.name) + "_";
      var index := 0;
      for k := 0 to |values|
        invariant index == k
        invariant lines == FlagConsts(prefix, values[..k])
      {
        assert values[..k + 1][..k] == values[..k];
        lines := lines + [FlagConst(prefix + Upper(values[k]), FlagValue(index))];
        index := index + 1;
      }
      assert values[..|values|] == values;
    }
  }

  /** A sheet's ResolveReferences body, or nothing where a Ref column's target lookup comes back null. */
  method WriteResolveReferences(sheets: seq<Sheet>, sheet: Sheet) returns (resolve: Option<seq<Line>>)
    ensures resolve.None? <==> SheetDangles(sheets, sheet)
    ensures resolve.Some? ==> resolve.value == ResolveScans(sheets, sheet.columns)
  {
    var lines := [];
    for j := 0 to |sheet.columns|
      invariant lines == ResolveScans(sheets, sheet.columns[..j])
      invariant forall k :: 0 <= k < j ==> !Dangling(sheets, sheet.columns[k])
    {
      var col := sheet.columns[j];
      ResolveScansStep(sheets, sheet.columns, j);
      if col.typeId == Ref {
        var target := FindSheet(sheets, col.key);
        if target.None? {
          assert Dangling(sheets, col);
          return None;
        }
        lines := lines + [ResolveScan(col.name, col.key, target.value.keyName)];
      }
    }
    ResolveScansStep(sheets, sheet.columns, |sheet.columns|);
    resolve := Some(lines);
  }

  /** The database Load: the dispatch chain inside the loop over the document's sheets, then the resolve pass. */
  method WriteDatabaseLoad(sheets: seq<Sheet>, dbName: string) returns (lines: seq<Line>)
    ensures lines == DatabaseLoadBody(sheets, dbName)
  {
    var chain := [];
    var first := true;
    for i := 0 to |sheets|
      invariant chain == DispatchChain(sheets[..i])
      invariant first == (TopLevel(sheets[..i]) == [])
    {
      DispatchChainPrefix(sheets, i);
      if IsNested(sheets[i].name) {
        continue;
      }
      chain := chain + [Dispatch(if first then If else ElseIf, sheets[i].name)];
      first := false;
    }
    assert sheets[..|sheets|] == sheets;
    var passes := [];
    for i := 0 to |sheets|
      invariant passes == ResolvePasses(sheets[..i])
    {
      FlatMapPrefix(ResolvePassLine, sheets, i);
      if HasReferences(sheets[i]) {
        passes := passes + [ResolvePass(sheets[i].name)];
      }
    }
    FlatMapWhole(ResolvePassLine, sheets);
    lines := [BodyOpen(DatabaseLoad(dbName)), SheetsLoopOpen] + chain + [SheetsLoopClose] + passes + [BodyClose];
  }
}
