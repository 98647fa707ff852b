/**
 * The C++ (Urho3D) writer: a header with forward declarations, enum and flag
 * constants, one class per sheet and the database class; and a source file
 * with each class's Load, destructor and ResolveReferences, and the database's
 * destructor and two-pass Load.
 */
module CppWriter {
  import opened Wrappers
  import opened Schema
  import opened Code
  import opened Emit

  /** Column types this backend reports as unsupported. Float is absent: it is dropped without a diagnostic. */
  const Unsupported: set<CastleType> := {Custom, Dynamic, Layer, TileLayer, TilePos}

  datatype Files = Files(header: seq<Line>, source: seq<Line>)

  /** The header the source file includes: the "hd" switch, when present, is a directory prefix. */
  function HeaderPath(switches: map<string, string>, headerFile: string): string
  {
    if "hd" in switches then switches["hd"] + "/" + headerFile else headerFile
  }

  /** The element class of a List column: the parent sheet's name (not '@'-replaced), '_', the column's name. */
  function ListElement(sheet: Sheet, col: Column): string
  {
    sheet.name + "_" + col.name
  }

  /** The member declaration(s) a column adds to its sheet's class. */
  function ColumnDecl(sheet: Sheet, col: Column): seq<Line>
  {
    match col.typeId
    case UniqueIdentifier => [Field("String", col.name)]
    case Boolean => [Field("bool", col.name)]
    case Color => [Field("Color", col.name)]
    case Enum => [Field("E_" + Upper(col.name), col.name)]
    case File => [Field("String", col.name)]
    case Flags => [Field("unsigned", col.name)]
    case Image => [Field("String", col.name)]
    case Integer => [Field("int", col.name)]
    case List => [Field("Vector<" + ListElement(sheet, col) + "*>", col.name)]
    case Ref => [Field(col.key + "*", col.name), Field("String", col.name + "Key")]
    case Text => [Field("String", col.name)]
    case Custom => []
    case Dynamic => []
    case Layer => []
    case TileLayer => []
    case TilePos => []
    case Float => []
  }

  /** The statement(s) a column adds to its sheet's Load. */
  function ColumnLoad(sheet: Sheet, col: Column): seq<Line>
  {
    match col.typeId
    case UniqueIdentifier => [LoadField(col.name, AsString)]
    case Boolean => [LoadField(col.name, AsBool)]
    case Color => [LoadField(col.name, AsColor)]
    case Enum => [LoadField(col.name, AsEnum("E_" + Upper(col.name)))]
    case File => [LoadField(col.name, AsString)]
    case Flags => [LoadField(col.name, AsUInt)]
    case Image => [LoadField(col.name, AsString)]
    case Integer => [LoadField(col.name, AsInt)]
    case List => [LoadList(col.name, ListElement(sheet, col))]
    case Ref => [SetNull(col.name), LoadKey(col.name)]
    case Text => [LoadField(col.name, AsString)]
    case Custom => []
    case Dynamic => []
    case Layer => []
    case TileLayer => []
    case TilePos => []
    case Float => []
  }

  /** The statement(s) a column adds to its sheet's destructor. */
  function ColumnCleanup(col: Column): seq<Line>
  {
    if col.typeId == Ref then [SetNull(col.name)]
    else if col.typeId == List then [DeleteAll(col.name), ClearList(col.name)]
    else []
  }

  function Decls(sheet: Sheet, cols: seq<Column>): seq<Line>
  {
    FlatMap(c => ColumnDecl(sheet, c), cols)
  }

  function Loads(sheet: Sheet, cols: seq<Column>): seq<Line>
  {
    FlatMap(c => ColumnLoad(sheet, c), cols)
  }

  function Cleanups(cols: seq<Column>): seq<Line>
  {
    FlatMap(ColumnCleanup, cols)
  }

  /** A sheet's class declaration in the header. */
  function ClassDecl(dbName: string, sheet: Sheet): seq<Line>
  {
    var cls := ClassName(sheet.name);
    [ClassOpen(cls)] + Decls(sheet, sheet.columns)
    + [Declare(Destructor(cls)), Declare(LoadMethod(cls)), Declare(ResolveMethod(cls, dbName)), ClassClose]
  }

  /** A sheet's Load definition in the source file. */
  function LoadDef(sheet: Sheet): seq<Line>
  {
    [BodyOpen(LoadMethod(ClassName(sheet.name)))] + Loads(sheet, sheet.columns) + [BodyClose]
  }

  function ClassDecls(dbName: string, sheets: seq<Sheet>): seq<Line>
  {
    FlatMap(s => ClassDecl(dbName, s), sheets)
  }

  function LoadDefs(sheets: seq<Sheet>): seq<Line>
  {
    FlatMap(LoadDef, sheets)
  }

  /** A sheet's destructor and ResolveReferences definitions; `all` is the schema the Ref keys are looked up in. */
  function SheetDefs(all: seq<Sheet>, dbName: string, sheet: Sheet): seq<Line>
  {
    var cls := ClassName(sheet.name);
    [BodyOpen(Destructor(cls))] + Cleanups(sheet.columns)
    + [BodyClose, BodyOpen(ResolveMethod(cls, dbName))] + ResolveScans(all, sheet.columns) + [BodyClose]
  }

  function AllSheetDefs(all: seq<Sheet>, dbName: string, sheets: seq<Sheet>): seq<Line>
  {
    FlatMap(s => SheetDefs(all, dbName, s), sheets)
  }

  function DbListField(s: Sheet): seq<Line>
  {
    if IsNested(s.name) then [] else [Field("Vector<" + s.name + "*>", s.name + "List")]
  }

  function DbListFields(sheets: seq<Sheet>): seq<Line>
  {
    FlatMap(DbListField, sheets)
  }

  /** The database class declaration: one vector per sheet without '@'. */
  function DbClass(dbName: string, sheets: seq<Sheet>): seq<Line>
  {
    [ClassOpen(dbName), Declare(Destructor(dbName))] + DbListFields(sheets)
    + [Declare(DatabaseLoad(dbName)), ClassClose]
  }

  function DbCleanup(s: Sheet): seq<Line>
  {
    if IsNested(s.name) then [] else [DeleteAll(ClassName(s.name) + "List"), ClearList(ClassName(s.name) + "List")]
  }

  function DbCleanups(sheets: seq<Sheet>): seq<Line>
  {
    FlatMap(DbCleanup, sheets)
  }

  function DbDestructor(dbName: string, sheets: seq<Sheet>): seq<Line>
  {
    [BodyOpen(Destructor(dbName))] + DbCleanups(sheets) + [BodyClose]
  }

  function Banner(sourceFileName: string): Line
  {
    Verbatim("// AUTOGENERATED C++ SOURCE CODE FROM " + sourceFileName)
  }

  function HeaderPreamble(sourceFileName: string): seq<Line>
  {
    [ Banner(sourceFileName), Verbatim("#pragma once;"),
      Verbatim("#include <Urho3D/Math/Color.h>"), Verbatim("#include <Urho3D/Resource/JSONFile.h>"),
      Verbatim("#include <Urho3D/Resource/JSONValue.h>"), Verbatim("#include <Urho3D/Container/Str.h>"),
      Verbatim("#include <Urho3D/Container/Vector.h>"), Verbatim("using namespace Urho3D;") ]
  }

  function ForwardSection(dbName: string, sheets: seq<Sheet>): seq<Line>
  {
    [Verbatim("// Forward declarations")] + ForwardDecls(sheets) + [ForwardDecl(dbName)]
  }

  function Header(sheets: seq<Sheet>, switches: map<string, string>, sourceFileName: string): seq<Line>
  {
    var dbName := DbName(switches);
    HeaderPreamble(sourceFileName) + NamespaceOpening(switches) + ForwardSection(dbName, sheets)
    + EnumSection(true, sheets) + ClassDecls(dbName, sheets) + DbClass(dbName, sheets)
    + NamespaceClosing(switches)
  }

  function Source(sheets: seq<Sheet>, switches: map<string, string>, sourceFileName: string, headerFile: string): seq<Line>
  {
    var dbName := DbName(switches);
    [Banner(sourceFileName), Include(HeaderPath(switches, headerFile))] + NamespaceOpening(switches)
    + LoadDefs(sheets) + AllSheetDefs(sheets, dbName, sheets) + DbDestructor(dbName, sheets)
    + DatabaseLoadBody(sheets, dbName) + NamespaceClosing(switches)
  }

  /** What the writer does: both files, unless a Ref column's Key names no sheet. */
  function Result(sheets: seq<Sheet>, switches: map<string, string>, sourceFileName: string, headerFile: string): Outcome<Files>
  {
    if exists s :: s in sheets && SheetDangles(sheets, s) then Threw(NullReference)
    else Wrote(Files(Header(sheets, switches, sourceFileName), Source(sheets, switches, sourceFileName, headerFile)))
  }

  // ---------------------------------------------------------------------------
  // Properties of the emitted C++

  /**
   * A column of an unsupported type adds no member and no Load statement and
   * exactly one diagnostic naming the column and its type; the columns before
   * and after it are emitted as if it were absent.
   */
  lemma UnsupportedColumnSkipped(sheet: Sheet, a: seq<Column>, c: Column, b: seq<Column>)
    requires c.typeId in {Custom, Dynamic, Layer, TileLayer, TilePos}
    ensures Decls(sheet, a + [c] + b) == Decls(sheet, a) + Decls(sheet, b)
    ensures Loads(sheet, a + [c] + b) == Loads(sheet, a) + Loads(sheet, b)
    ensures Diagnostics(Unsupported, a + [c] + b) ==
            Diagnostics(Unsupported, a) + ["Sheet " + c.name + ", type " + TypeName(c.typeId) + " unsupported"]
            + Diagnostics(Unsupported, b)
  {
    assert ColumnDecl(sheet, c) == [] && ColumnLoad(sheet, c) == [];
    assert Decls(sheet, a + [c] + b) == Decls(sheet, a) + Decls(sheet, b) by {
      FlatMapSplit(x => ColumnDecl(sheet, x), a, c, b);
    }
    assert Loads(sheet, a + [c] + b) == Loads(sheet, a) + Loads(sheet, b) by {
      FlatMapSplit(x => ColumnLoad(sheet, x), a, c, b);
    }
    DiagnosticsSplit(Unsupported, a, c, b);
  }

  /** A Float column vanishes from the C++ output without a diagnostic. */
  lemma FloatColumnDropped(sheet: Sheet, a: seq<Column>, c: Column, b: seq<Column>)
    requires c.typeId == Float
    ensures Decls(sheet, a + [c] + b) == Decls(sheet, a) + Decls(sheet, b)
    ensures Loads(sheet, a + [c] + b) == Loads(sheet, a) + Loads(sheet, b)
    ensures Diagnostics(Unsupported, a + [c] + b) == Diagnostics(Unsupported, a) + Diagnostics(Unsupported, b)
  {
    assert ColumnDecl(sheet, c) == [] && ColumnLoad(sheet, c) == [];
    assert Decls(sheet, a + [c] + b) == Decls(sheet, a) + Decls(sheet, b) by {
      FlatMapSplit(x => ColumnDecl(sheet, x), a, c, b);
    }
    assert Loads(sheet, a + [c] + b) == Loads(sheet, a) + Loads(sheet, b) by {
      FlatMapSplit(x => ColumnLoad(sheet, x), a, c, b);
    }
    DiagnosticsSplit(Unsupported, a, c, b);
  }

  /**
   * A Ref column declares a pointer to its Key's class and a `<name>Key`
   * string; its Load nulls the pointer and reads only the key string.
   */
  lemma RefColumnMembers(sheet: Sheet, a: seq<Column>, c: Column, b: seq<Column>)
    requires c.typeId == Ref
    ensures Decls(sheet, a + [c] + b) ==
            Decls(sheet, a) + [Field(c.key + "*", c.name), Field("String", c.name + "Key")] + Decls(sheet, b)
    ensures Loads(sheet, a + [c] + b) == Loads(sheet, a) + [SetNull(c.name), LoadKey(c.name)] + Loads(sheet, b)
    ensures Diagnostics(Unsupported, a + [c] + b) == Diagnostics(Unsupported, a) + Diagnostics(Unsupported, b)
  {
    assert Decls(sheet, a + [c] + b) == Decls(sheet, a) + [Field(c.key + "*", c.name), Field("String", c.name + "Key")] + Decls(sheet, b) by {
      FlatMapSplit(x => ColumnDecl(sheet, x), a, c, b);
    }
    assert Loads(sheet, a + [c] + b) == Loads(sheet, a) + [SetNull(c.name), LoadKey(c.name)] + Loads(sheet, b) by {
      FlatMapSplit(x => ColumnLoad(sheet, x), a, c, b);
    }
    DiagnosticsSplit(Unsupported, a, c, b);
  }

  /** Every other column declares one member under its own name and loads it with one statement. */
  lemma SupportedColumnMember(sheet: Sheet, c: Column)
    requires c.typeId !in Unsupported && c.typeId !in {Float, Ref}
    ensures |ColumnDecl(sheet, c)| == 1 && ColumnDecl(sheet, c)[0].Field? && ColumnDecl(sheet, c)[0].fieldName == c.name
    ensures |ColumnLoad(sheet, c)| == 1
    ensures (ColumnLoad(sheet, c)[0].LoadField? || ColumnLoad(sheet, c)[0].LoadList?) &&
            ColumnLoad(sheet, c)[0].fieldName == c.name
    ensures ColumnDiagnostic(Unsupported, c) == []
  {
  }

  /**
   * A sheet destructor holds exactly: a null assignment for each Ref column,
   * and for each List column a delete of every element and a clear; nothing else.
   */
  lemma CleanupsExactly(cols: seq<Column>, l: Line)
    ensures l in Cleanups(cols) <==>
            exists c :: c in cols && ((c.typeId == Ref && l == SetNull(c.name)) ||
                                      (c.typeId == List && (l == DeleteAll(c.name) || l == ClearList(c.name))))
  {
    FlatMapIn(ColumnCleanup, cols, l);
  }

  /** A List column's elements are deleted before the list is cleared. */
  lemma ListCleanupOrder(a: seq<Column>, c: Column, b: seq<Column>)
    requires c.typeId == List
    ensures Cleanups(a + [c] + b) == Cleanups(a) + [DeleteAll(c.name), ClearList(c.name)] + Cleanups(b)
  {
    FlatMapSplit(ColumnCleanup, a, c, b);
  }

  /** The database class holds one vector per sheet without '@', in schema order, named `<sheet>List`. */
  lemma {:induction false} DbListFieldsAt(sheets: seq<Sheet>)
    ensures |DbListFields(sheets)| == |TopLevel(sheets)|
    ensures forall k :: 0 <= k < |TopLevel(sheets)| ==>
              DbListFields(sheets)[k] == Field("Vector<" + TopLevel(sheets)[k].name + "*>", TopLevel(sheets)[k].name + "List")
  {
    if sheets != [] {
      DbListFieldsAt(sheets[..|sheets| - 1]);
    }
  }

  /** The database destructor deletes and clears each of those vectors, and no other. */
  lemma DbCleanupsAt(sheets: seq<Sheet>)
    ensures |DbCleanups(sheets)| == 2 * |TopLevel(sheets)|
    ensures forall k :: 0 <= k < |TopLevel(sheets)| ==>
              DbCleanups(sheets)[2 * k] == DeleteAll(TopLevel(sheets)[k].name + "List") &&
              DbCleanups(sheets)[2 * k + 1] == ClearList(TopLevel(sheets)[k].name + "List")
  {
    DbCleanupsLength(sheets);
    forall k | 0 <= k < |TopLevel(sheets)|
      ensures DbCleanups(sheets)[2 * k] == DeleteAll(TopLevel(sheets)[k].name + "List")
      ensures DbCleanups(sheets)[2 * k + 1] == ClearList(TopLevel(sheets)[k].name + "List")
    {
      DbCleanupAt(sheets, k);
    }
  }

  lemma {:induction false} DbCleanupsLength(sheets: seq<Sheet>)
    ensures |DbCleanups(sheets)| == 2 * |TopLevel(sheets)|
  {
    if sheets != [] {
      DbCleanupsLength(sheets[..|sheets| - 1]);
    }
  }

  lemma {:induction false} DbCleanupAt(sheets: seq<Sheet>, k: nat)
    requires k < |TopLevel(sheets)|
    ensures 2 * k + 1 < |DbCleanups(sheets)|
    ensures DbCleanups(sheets)[2 * k] == DeleteAll(TopLevel(sheets)[k].name + "List")
    ensures DbCleanups(sheets)[2 * k + 1] == ClearList(TopLevel(sheets)[k].name + "List")
  {
    var init, last := sheets[..|sheets| - 1], sheets[|sheets| - 1];
    var front, top := DbCleanups(init), TopLevel(init);
    assert DbCleanups(sheets) == front + DbCleanup(last);
    assert TopLevel(sheets) == top + if IsNested(last.name) then [] else [last];
    assert |front| == 2 * |top| by {
      DbCleanupsLength(init);
    }
    if k < |top| {
      assert 2 * k + 1 < |front| && front[2 * k] == DeleteAll(top[k].name + "List") &&
             front[2 * k + 1] == ClearList(top[k].name + "List") by {
        DbCleanupAt(init, k);
      }
      assert TopLevel(sheets)[k] == top[k];
    } else {
      assert 2 * k == |front|;
      assert TopLevel(sheets)[k] == last && ClassName(last.name) == last.name;
    }
  }

  /**
   * ResolveReferences holds one first-match scan per Ref column, over the
   * list named by the column's Key, comparing the target sheet's key field.
   */
  lemma ResolveScansExactly(all: seq<Sheet>, cols: seq<Column>, l: Line)
    ensures l in ResolveScans(all, cols) <==>
            exists c :: c in cols && c.typeId == Ref && l == ResolveScan(c.name, c.key, KeyField(all, c.key))
  {
    FlatMapIn(c => ResolveScanLine(all, c), cols, l);
  }

  /** The writer throws iff some Ref column's Key names no sheet; otherwise it writes both files. */
  lemma ResultThrowsIffDangling(sheets: seq<Sheet>, switches: map<string, string>, sourceFileName: string, headerFile: string)
    ensures Result(sheets, switches, sourceFileName, headerFile).Threw? <==>
            exists s, c :: s in sheets && c in s.columns && c.typeId == Ref && forall t :: t in sheets ==> t.name != c.key
    ensures Result(sheets, switches, sourceFileName, headerFile).Threw? ==>
            Result(sheets, switches, sourceFileName, headerFile).exception == NullReference
  {
  }

  // ---------------------------------------------------------------------------
  // One more element of a fold

  lemma ColumnStep(sheet: Sheet, cols: seq<Column>, j: nat)
    requires j <= |cols|
    ensures Decls(sheet, cols[..|cols|]) == Decls(sheet, cols)
    ensures Loads(sheet, cols[..|cols|]) == Loads(sheet, cols)
    ensures Diagnostics(Unsupported, cols[..|cols|]) == Diagnostics(Unsupported, cols)
    ensures j < |cols| ==> Decls(sheet, cols[..j + 1]) == Decls(sheet, cols[..j]) + ColumnDecl(sheet, cols[j])
    ensures j < |cols| ==> Loads(sheet, cols[..j + 1]) == Loads(sheet, cols[..j]) + ColumnLoad(sheet, cols[j])
    ensures j < |cols| ==> Diagnostics(Unsupported, cols[..j + 1]) == Diagnostics(Unsupported, cols[..j]) + ColumnDiagnostic(Unsupported, cols[j])
  {
    assert cols[..|cols|] == cols;
    if j < |cols| {
      FlatMapPrefix(c => ColumnDecl(sheet, c), cols, j);
      FlatMapPrefix(c => ColumnLoad(sheet, c), cols, j);
      FlatMapPrefix(c => ColumnDiagnostic(Unsupported, c), cols, j);
    }
  }

  lemma ClassDeclsStep(dbName: string, sheets: seq<Sheet>, i: nat)
    requires i <= |sheets|
    ensures ClassDecls(dbName, sheets[..|sheets|]) == ClassDecls(dbName, sheets)
    ensures LoadDefs(sheets[..|sheets|]) == LoadDefs(sheets)
    ensures i < |sheets| ==> ClassDecls(dbName, sheets[..i + 1]) == ClassDecls(dbName, sheets[..i]) + ClassDecl(dbName, sheets[i])
    ensures i < |sheets| ==> LoadDefs(sheets[..i + 1]) == LoadDefs(sheets[..i]) + LoadDef(sheets[i])
  {
    assert sheets[..|sheets|] == sheets;
    if i < |sheets| {
      FlatMapPrefix(s => ClassDecl(dbName, s), sheets, i);
      FlatMapPrefix(LoadDef, sheets, i);
    }
  }

  lemma AllSheetDefsStep(all: seq<Sheet>, dbName: string, sheets: seq<Sheet>, i: nat)
    requires i <= |sheets|
    ensures AllSheetDefs(all, dbName, sheets[..|sheets|]) == AllSheetDefs(all, dbName, sheets)
    ensures i < |sheets| ==> AllSheetDefs(all, dbName, sheets[..i + 1]) == AllSheetDefs(all, dbName, sheets[..i]) + SheetDefs(all, dbName, sheets[i])
  {
    assert sheets[..|sheets|] == sheets;
    if i < |sheets| {
      FlatMapPrefix(s => SheetDefs(all, dbName, s), sheets, i);
    }
  }

  // ---------------------------------------------------------------------------
  // The writer

  /**
   * WriteClassDefinitions: builds the header and source text, appending a
   * diagnostic per unsupported column to `errors`; the files are written only
   * when no exception was raised (the write itself is left to the caller).
   */
  method WriteClassDefinitions(database: CastleDB, sourceFileName: string, headerFile: string,
                               switches: map<string, string>, errors: ErrorList)
    returns (outcome: Outcome<Files>)
    modifies errors
    ensures errors.items == old(errors.items) + AllDiagnostics(Unsupported, database.sheets)
    ensures outcome == Result(database.sheets, switches, sourceFileName, headerFile)
  {
    var sheets := database.sheets;
    var dbName := DbName(switches);
    var headerText := HeaderPreamble(sourceFileName);
    var sourceText := [Banner(sourceFileName), Include(HeaderPath(switches, headerFile))];
    if "ns" in switches {
      headerText := headerText + [NamespaceOpen(switches["ns"])];
      sourceText := sourceText + [NamespaceOpen(switches["ns"])];
    } else {
      assert headerText + [] == headerText;
      assert sourceText + [] == sourceText;
    }
    assert headerText == HeaderPreamble(sourceFileName) + NamespaceOpening(switches);
    assert sourceText == [Banner(sourceFileName), Include(HeaderPath(switches, headerFile))] + NamespaceOpening(switches);
    var forward := WriteForwardDeclarations(sheets, dbName);
    var enums := WriteEnumerations(sheets, true);
    headerText := headerText + forward + enums;
    var classes, loads := WriteClasses(sheets, dbName, errors);
    headerText := headerText + classes;
    sourceText := sourceText + loads;
    var defs := WriteDefinitions(sheets, dbName);
    if defs.Threw? {
      return Threw(defs.exception);
    }
    sourceText := sourceText + defs.files;
    var dbClass := WriteDatabaseClass(sheets, dbName);
    headerText := headerText + dbClass;
    var dbDestructor := WriteDatabaseDestructor(sheets, dbName);
    var dbLoad := WriteDatabaseLoad(sheets, dbName);
    sourceText := sourceText + dbDestructor + dbLoad;
    ghost var headerBody, sourceBody := headerText, sourceText;
    if "ns" in switches {
      headerText := headerText + [NamespaceClose];
      sourceText := sourceText + [NamespaceClose];
    } else {
      assert headerText + [] == headerText;
      assert sourceText + [] == sourceText;
    }
    assert headerText == headerBody + NamespaceClosing(switches);
    assert sourceText == sourceBody + NamespaceClosing(switches);
    outcome := Wrote(Files(headerText, sourceText));
  }

  /** One forward declaration per sheet, then the database class's. */
  method WriteForwardDeclarations(sheets: seq<Sheet>, dbName: string) returns (lines: seq<Line>)
    ensures lines == ForwardSection(dbName, sheets)
  {
    lines := [Verbatim("// Forward declarations")];
    for i := 0 to |sheets|
      invariant lines == [Verbatim("// Forward declarations")] + ForwardDecls(sheets[..i])
    {
      FlatMapPrefix(ForwardDeclLine, sheets, i);
      lines := lines + [ForwardDecl(ClassName(sheets[i].name))];
    }
    FlatMapWhole(ForwardDeclLine, sheets);
    lines := lines + [ForwardDecl(dbName)];
  }

  /**
   * The per-sheet loop building each class declaration and its Load
   * definition, reporting unsupported columns as it meets them.
   */
  method WriteClasses(sheets: seq<Sheet>, dbName: string, errors: ErrorList)
    returns (header: seq<Line>, source: seq<Line>)
    modifies errors
    ensures header == ClassDecls(dbName, sheets)
    ensures source == LoadDefs(sheets)
    ensures errors.items == old(errors.items) + AllDiagnostics(Unsupported, sheets)
  {
    header, source := [], [];
    ghost var start := errors.items;
    for i := 0 to |sheets|
      invariant header == ClassDecls(dbName, sheets[..i])
      invariant source == LoadDefs(sheets[..i])
      invariant errors.items == start + AllDiagnostics(Unsupported, sheets[..i])
    {
      var classStr, cppClassStr := WriteClass(sheets[i], dbName, errors);
      assert errors.items == start + AllDiagnostics(Unsupported, sheets[..i + 1]) by {
        AllDiagnosticsStep(Unsupported, sheets, i);
      }
      assert header + classStr == ClassDecls(dbName, sheets[..i + 1]) &&
             source + cppClassStr == LoadDefs(sheets[..i + 1]) by {
        ClassDeclsStep(dbName, sheets, i);
      }
      header := header + classStr;
      source := source + cppClassStr;
    }
    ClassDeclsStep(dbName, sheets, |sheets|);
    AllDiagnosticsStep(Unsupported, sheets, |sheets|);
  }

  /** One sheet's class declaration and Load definition. */
  method WriteClass(sheet: Sheet, dbName: string, errors: ErrorList)
    returns (classStr: seq<Line>, cppClassStr: seq<Line>)
    modifies errors
    ensures classStr == ClassDecl(dbName, sheet)
    ensures cppClassStr == LoadDef(sheet)
    ensures errors.items == old(errors.items) + SheetDiagnostics(Unsupported, sheet)
  {
    var sheetName := ClassName(sheet.name);
    var decls, loads := [], [];
    for j := 0 to |sheet.columns|
      invariant decls == Decls(sheet, sheet.columns[..j])
      invariant loads == Loads(sheet, sheet.columns[..j])
      invariant errors.items == old(errors.items) + Diagnostics(Unsupported, sheet.columns[..j])
    {
      var decl, load := WriteColumn(sheet, sheet.columns[j], errors);
      ColumnStep(sheet, sheet.columns, j);
      decls := decls + decl;
      loads := loads + load;
    }
    ColumnStep(sheet, sheet.columns, |sheet.columns|);
    classStr := [ClassOpen(sheetName)] + decls
                + [Declare(Destructor(sheetName)), Declare(LoadMethod(sheetName)),
                   Declare(ResolveMethod(sheetName, dbName)), ClassClose];
    cppClassStr := [BodyOpen(LoadMethod(sheetName))] + loads + [BodyClose];
  }

  /** The switch over a column's type: its member declarations, its Load statements, or a diagnostic. */
  method WriteColumn(sheet: Sheet, column: Column, errors: ErrorList)
    returns (decl: seq<Line>, load: seq<Line>)
    modifies errors
    ensures decl == ColumnDecl(sheet, column)
    ensures load == ColumnLoad(sheet, column)
    ensures errors.items == old(errors.items) + ColumnDiagnostic(Unsupported, column)
  {
    decl, load := [], [];
    match column.typeId {
      case UniqueIdentifier =>
        decl, load := [Field("String", column.name)], [LoadField(column.name, AsString)];
      case Boolean =>
        decl, load := [Field("bool", column.name)], [LoadField(column.name, AsBool)];
      case Color =>
        decl, load := [Field("Color", column.name)], [LoadField(column.name, AsColor)];
      case Custom =>
        errors.Add(UnsupportedMessage(column));
      case Dynamic =>
        errors.Add(UnsupportedMessage(column));
      case Enum =>
        decl := [Field("E_" + Upper(column.name), column.name)];
        load := [LoadField(column.name, AsEnum("E_" + Upper(column.name)))];
      case File =>
        decl, load := [Field("String", column.name)], [LoadField(column.name, AsString)];
      case Flags =>
        decl, load := [Field("unsigned", column.name)], [LoadField(column.name, AsUInt)];
      case Image =>
        decl, load := [Field("String", column.name)], [LoadField(column.name, AsString)];
      case Integer =>
        decl, load := [Field("int", column.name)], [LoadField(column.name, AsInt)];
      case Layer =>
        errors.Add(UnsupportedMessage(column));
      case List =>
        decl := [Field("Vector<" + (sheet.name + "_" + column.name) + "*>", column.name)];
        load := [LoadList(column.name, sheet.name + "_" + column.name)];
      case Ref =>
        decl := [Field(column.key + "*", column.name), Field("String", column.name + "Key")];
        load := [SetNull(column.name), LoadKey(column.name)];
      case Text =>
        decl, load := [Field("String", column.name)], [LoadField(column.name, AsString)];
      case TileLayer =>
        errors.Add(UnsupportedMessage(column));
      case TilePos =>
        errors.Add(UnsupportedMessage(column));
      case Float =>
    }
  }

  /**
   * The per-sheet destructors and ResolveReferences definitions. Looking up a
   * Ref column's target with FirstOrDefault and calling GetKeyName() on it
   * raises a NullReferenceException when the Key names no sheet.
   */
  method WriteDefinitions(sheets: seq<Sheet>, dbName: string) returns (r: Outcome<seq<Line>>)
    ensures (exists s :: s in sheets && SheetDangles(sheets, s)) ==> r == Threw(NullReference)
    ensures (forall s :: s in sheets ==> !SheetDangles(sheets, s)) ==> r == Wrote(AllSheetDefs(sheets, dbName, sheets))
  {
    var sourceText := [];
    for i := 0 to |sheets|
      invariant sourceText == AllSheetDefs(sheets, dbName, sheets[..i])
      invariant forall k :: 0 <= k < i ==> !SheetDangles(sheets, sheets[k])
    {
      var sheet := sheets[i];
      var sheetName := ClassName(sheet.name);
      var cleanup := WriteDestructor(sheet);
      var resolve := WriteResolveReferences(sheets, sheet);
      if resolve.None? {
        return Threw(NullReference);
      }
      AllSheetDefsStep(sheets, dbName, sheets, i);
      sourceText := sourceText + ([BodyOpen(Destructor(sheetName))] + cleanup
                                  + [BodyClose, BodyOpen(ResolveMethod(sheetName, dbName))] + resolve.value + [BodyClose]);
    }
    AllSheetDefsStep(sheets, dbName, sheets, |sheets|);
    r := Wrote(sourceText);
  }

  /** A sheet's destructor body: clear each Ref, delete and clear each List. */
  method WriteDestructor(sheet: Sheet) returns (cleanup: seq<Line>)
    ensures cleanup == Cleanups(sheet.columns)
  {
    cleanup := [];
    for j := 0 to |sheet.columns|
      invariant cleanup == Cleanups(sheet.columns[..j])
    {
      var col := sheet.columns[j];
      FlatMapPrefix(ColumnCleanup, sheet.columns, j);
      if col.typeId == Ref {
        cleanup := cleanup + [SetNull(col.name)];
      } else if col.typeId == List {
        cleanup := cleanup + [DeleteAll(col.name), ClearList(col.name)];
      }
    }
    FlatMapWhole(ColumnCleanup, sheet.columns);
  }

  method WriteDatabaseClass(sheets: seq<Sheet>, dbName: string) returns (lines: seq<Line>)
    ensures lines == DbClass(dbName, sheets)
  {
    lines := [ClassOpen(dbName), Declare(Destructor(dbName))];
    for i := 0 to |sheets|
      invariant lines == [ClassOpen(dbName), Declare(Destructor(dbName))] + DbListFields(sheets[..i])
    {
      FlatMapPrefix(DbListField, sheets, i);
      if IsNested(sheets[i].name) {
        continue;
      }
      lines := lines + [Field("Vector<" + sheets[i].name + "*>", sheets[i].name + "List")];
    }
    FlatMapWhole(DbListField, sheets);
    lines := lines + [Declare(DatabaseLoad(dbName)), ClassClose];
  }

  method WriteDatabaseDestructor(sheets: seq<Sheet>, dbName: string) returns (lines: seq<Line>)
    ensures lines == DbDestructor(dbName, sheets)
  {
    lines := [BodyOpen(Destructor(dbName))];
    for i := 0 to |sheets|
      invariant lines == [BodyOpen(Destructor(dbName))] + DbCleanups(sheets[..i])
    {
      FlatMapPrefix(DbCleanup, sheets, i);
      if IsNested(sheets[i].name) {
        continue;
      }
      var list := ClassName(sheets[i].name) + "List";
      lines := lines + [DeleteAll(list), ClearList(list)];
    }
    FlatMapWhole(DbCleanup, sheets);
    lines := lines + [BodyClose];
  }
}
