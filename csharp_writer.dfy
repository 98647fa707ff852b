/**
 * The C# writer: one source file, entirely inside the namespace named by the
 * mandatory "ns" switch, holding the enum declarations (no flag constants),
 * one class per sheet with properties, Load and ResolveReferences, and the
 * database class with its lists and two-pass Load.
 */
module CSharpWriter {
  import opened Wrappers
  import opened Schema
  import opened Code
  import opened Emit

  /** Column types this backend reports as unsupported; Image is one of them here. */
  const Unsupported: set<CastleType> := {Custom, Dynamic, Image, Layer, TileLayer, TilePos}

  /** The element class of a List column: the parent sheet's name (not '@'-replaced), '_', the column's name. */
  function ListElement(sheet: Sheet, col: Column): string
  {
    sheet.name + "_" + col.name
  }

  /** The member declaration(s) a column adds to its sheet's class. */
  function ColumnDecl(sheet: Sheet, col: Column): seq<Line>
  {
    match col.typeId
    case UniqueIdentifier => [Property("String", col.name)]
    case Boolean => [Property("bool", col.name)]
    case Color => [Property("Color", col.name)]
    case Enum => [Property("E_" + Upper(col.name), col.name)]
    case File => [Property("String", col.name)]
    case Flags => [Property("uint", col.name)]
    case Integer => [Property("int", col.name)]
    case List => [InitField("List<" + ListElement(sheet, col) + ">", col.name, "new List<" + ListElement(sheet, col) + ">()")]
    case Ref => [InitField(col.key, col.name, "null"), PrivateField("String", col.name + "Key")]
    case Text => [Property("String", col.name)]
    case Custom => []
    case Dynamic => []
    case Image => []
    case Layer => []
    case TileLayer => []
    case TilePos => []
    case Float => []
  }

  /** The statement(s) a column adds to its sheet's Load. */
  function ColumnLoad(sheet: Sheet, col: Column): seq<Line>
  {
    match col.typeId
    case UniqueIdentifier => [LoadField(col.name, AsString)]
    case Boolean => [LoadField(col.name, AsBool)]
    case Color => [LoadField(col.name, AsColor)]
    case Enum => [LoadField(col.name, AsEnum("E_" + Upper(col.name)))]
    case File => [LoadField(col.name, AsPropertyText)]
    case Flags => [LoadField(col.name, AsUInt)]
    case Float => [LoadField(col.name, AsFloat)]
    case Integer => [LoadField(col.name, AsInt)]
    case List => [LoadList(col.name, ListElement(sheet, col))]
    case Ref => [LoadKey(col.name)]
    case Text => [LoadField(col.name, AsString)]
    case Image => []
    case Custom => []
    case Dynamic => []
    case Layer => []
    case TileLayer => []
    case TilePos => []
  }

  function Decls(sheet: Sheet, cols: seq<Column>): seq<Line>
  {
    FlatMap(c => ColumnDecl(sheet, c), cols)
  }

  function Loads(sheet: Sheet, cols: seq<Column>): seq<Line>
  {
    FlatMap(c => ColumnLoad(sheet, c), cols)
  }

  /** A sheet's class; `all` is the schema the Ref keys are looked up in. There is no destructor. */
  function ClassText(all: seq<Sheet>, dbName: string, sheet: Sheet): seq<Line>
  {
    var cls := ClassName(sheet.name);
    [ClassOpen(cls)] + Decls(sheet, sheet.columns)
    + [BodyOpen(LoadMethod(cls))] + Loads(sheet, sheet.columns) + [BodyClose]
    + [BodyOpen(ResolveMethod(cls, dbName))] + ResolveScans(all, sheet.columns) + [BodyClose]
    + [ClassClose]
  }

  function Classes(all: seq<Sheet>, dbName: string, sheets: seq<Sheet>): seq<Line>
  {
    FlatMap(s => ClassText(all, dbName, s), sheets)
  }

  function DbListField(s: Sheet): seq<Line>
  {
    if IsNested(s.name) then [] else [InitField("List<" + s.name + ">", s.name + "List", "new List<" + s.name + ">()")]
  }

  function DbListFields(sheets: seq<Sheet>): seq<Line>
  {
    FlatMap(DbListField, sheets)
  }

  /** The database class: one initialised list per sheet without '@', then the two-pass Load. */
  function DbClass(dbName: string, sheets: seq<Sheet>): seq<Line>
  {
    [ClassOpen(dbName)] + DbListFields(sheets) + DatabaseLoadBody(sheets, dbName) + [ClassClose]
  }

  function Banner(sourceFileName: string): Line
  {
    Verbatim("// AUTOGENERATED C# SOURCE CODE FROM " + sourceFileName)
  }

  const Usings: seq<Line> := [
    Verbatim("using System;"), Verbatim("using System.Collections.Generic;"), Verbatim("using System.Linq;"),
    Verbatim("using System.Text;"), Verbatim("using Newtonsoft.Json.Linq;")]

  /** The whole source file, for a given namespace name. */
  function SourceFile(sheets: seq<Sheet>, dbName: string, ns: string, sourceFileName: string): seq<Line>
  {
    [Banner(sourceFileName)] + Usings + [NamespaceOpen(ns)] + EnumSection(false, sheets)
    + Classes(sheets, dbName, sheets) + DbClass(dbName, sheets) + [NamespaceClose]
  }

  /**
   * What the writer does: the "ns" switch is looked up before anything else
   * and its absence throws; otherwise the file, unless a Ref column's Key
   * names no sheet.
   */
  function Result(sheets: seq<Sheet>, switches: map<string, string>, sourceFileName: string): Outcome<seq<Line>>
  {
    if "ns" !in switches then Threw(KeyNotFound("ns"))
    else if exists s :: s in sheets && SheetDangles(sheets, s) then Threw(NullReference)
    else Wrote(SourceFile(sheets, DbName(switches), switches["ns"], sourceFileName))
  }

  /** The diagnostics the writer appends: none without "ns", else those of every sheet its loop reaches. */
  function Reported(sheets: seq<Sheet>, switches: map<string, string>): seq<string>
  {
    if "ns" !in switches then [] else AllDiagnostics(Unsupported, sheets[..SheetsReached(sheets)])
  }

  // ---------------------------------------------------------------------------
  // Properties of the emitted file

  /** Without the "ns" switch the writer throws before emitting or reporting anything. */
  lemma MissingNamespaceThrows(sheets: seq<Sheet>, switches: map<string, string>, sourceFileName: string)
    ensures "ns" !in switches <==> Result(sheets, switches, sourceFileName) == Threw(KeyNotFound("ns"))
    ensures "ns" !in switches ==> Reported(sheets, switches) == []
  {
  }

  /** A column of an unsupported type (Image included) adds no property and no Load statement, and exactly one diagnostic. */
  lemma UnsupportedColumnSkipped(sheet: Sheet, a: seq<Column>, c: Column, b: seq<Column>)
    requires c.typeId in {Custom, Dynamic, Image, Layer, TileLayer, TilePos}
    ensures Decls(sheet, a + [c] + b) == Decls(sheet, a) + Decls(sheet, b)
    ensures Loads(sheet, a + [c] + b) == Loads(sheet, a) + Loads(sheet, b)
    ensures Diagnostics(Unsupported, a + [c] + b) ==
            Diagnostics(Unsupported, a) + ["Sheet " + c.name + ", type " + TypeName(c.typeId) + " unsupported"]
            + Diagnostics(Unsupported, b)
  {
    assert ColumnDecl(sheet, c) == [] && ColumnLoad(sheet, c) == [];
    assert Decls(sheet, a + [c] + b) == Decls(sheet, a) + Decls(sheet, b) by {
      FlatMapSplit(x => ColumnDecl(sheet, x), a, c, b);
    }
    assert Loads(sheet, a + [c] + b) == Loads(sheet, a) + Loads(sheet, b) by {
      FlatMapSplit(x => ColumnLoad(sheet, x), a, c, b);
    }
    DiagnosticsSplit(Unsupported, a, c, b);
  }

  /** A Float column is loaded but never declared, and raises no diagnostic. */
  lemma FloatColumnLoadedUndeclared(sheet: Sheet, a: seq<Column>, c: Column, b: seq<Column>)
    requires c.typeId == Float
    ensures Decls(sheet, a + [c] + b) == Decls(sheet, a) + Decls(sheet, b)
    ensures Loads(sheet, a + [c] + b) == Loads(sheet, a) + [LoadField(c.name, AsFloat)] + Loads(sheet, b)
    ensures Diagnostics(Unsupported, a + [c] + b) == Diagnostics(Unsupported, a) + Diagnostics(Unsupported, b)
  {
    assert Decls(sheet, a + [c] + b) == Decls(sheet, a) + Decls(sheet, b) by {
      FlatMapSplit(x => ColumnDecl(sheet, x), a, c, b);
    }
    assert Loads(sheet, a + [c] + b) == Loads(sheet, a) + [LoadField(c.name, AsFloat)] + Loads(sheet, b) by {
      FlatMapSplit(x => ColumnLoad(sheet, x), a, c, b);
    }
    DiagnosticsSplit(Unsupported, a, c, b);
  }

  /**
   * A List column is declared already holding an empty list; a Ref column is
   * declared null beside a private key string, and its Load assigns only the key.
   */
  lemma ListAndRefMembers(sheet: Sheet, a: seq<Column>, c: Column, b: seq<Column>)
    requires c.typeId in {List, Ref}
    ensures c.typeId == List ==>
              Decls(sheet, a + [c] + b) ==
              Decls(sheet, a) + [InitField("List<" + ListElement(sheet, c) + ">", c.name, "new List<" + ListElement(sheet, c) + ">()")]
              + Decls(sheet, b)
    ensures c.typeId == Ref ==>
              Decls(sheet, a + [c] + b) ==
              Decls(sheet, a) + [InitField(c.key, c.name, "null"), PrivateField("String", c.name + "Key")] + Decls(sheet, b)
    ensures c.typeId == Ref ==> Loads(sheet, a + [c] + b) == Loads(sheet, a) + [LoadKey(c.name)] + Loads(sheet, b)
  {
    assert Decls(sheet, a + [c] + b) == Decls(sheet, a) + ColumnDecl(sheet, c) + Decls(sheet, b) by {
      FlatMapSplit(x => ColumnDecl(sheet, x), a, c, b);
    }
    assert Loads(sheet, a + [c] + b) == Loads(sheet, a) + ColumnLoad(sheet, c) + Loads(sheet, b) by {
      FlatMapSplit(x => ColumnLoad(sheet, x), a, c, b);
    }
  }

  /** The database lists follow the sheets without '@', in schema order. */
  lemma {:induction false} DbListFieldsAt(sheets: seq<Sheet>)
    ensures |DbListFields(sheets)| == |TopLevel(sheets)|
    ensures forall k :: 0 <= k < |TopLevel(sheets)| ==>
              var name := TopLevel(sheets)[k].name;
              DbListFields(sheets)[k] == InitField("List<" + name + ">", name + "List", "new List<" + name + ">()")
  {
    if sheets != [] {
      DbListFieldsAt(sheets[..|sheets| - 1]);
    }
  }

  lemma LoadsInBody(sheet: Sheet)
    ensures forall l :: l in Loads(sheet, sheet.columns) ==> InNamespaceBody(l)
  {
    FlatMapOnly(x => ColumnLoad(sheet, x), sheet.columns, InNamespaceBody);
  }

  lemma DeclsInBody(sheet: Sheet)
    ensures forall l :: l in Decls(sheet, sheet.columns) ==> InNamespaceBody(l)
  {
    FlatMapOnly(x => ColumnDecl(sheet, x), sheet.columns, InNamespaceBody);
  }

  lemma ClassTextInBody(all: seq<Sheet>, dbName: string, sheet: Sheet)
    ensures forall l :: l in ClassText(all, dbName, sheet) ==> InNamespaceBody(l)
  {
    DeclsInBody(sheet);
    LoadsInBody(sheet);
    FlatMapOnly(x => ResolveScanLine(all, x), sheet.columns, InNamespaceBody);
  }

  /** The sheet classes and the database class hold no declaration of the enum scan and no namespace brace. */
  lemma BodyInNamespace(sheets: seq<Sheet>, dbName: string)
    ensures forall l :: l in Classes(sheets, dbName, sheets) + DbClass(dbName, sheets) ==> InNamespaceBody(l)
  {
    assert forall l :: l in Classes(sheets, dbName, sheets) ==> InNamespaceBody(l) by {
      forall x, l | x in sheets && l in ClassText(sheets, dbName, x)
        ensures InNamespaceBody(l)
      {
        ClassTextInBody(sheets, dbName, x);
      }
      FlatMapOnly(x => ClassText(sheets, dbName, x), sheets, InNamespaceBody);
    }
    DbClassInBody(dbName, sheets);
  }

  lemma DbClassInBody(dbName: string, sheets: seq<Sheet>)
    ensures forall l :: l in DbClass(dbName, sheets) ==> InNamespaceBody(l)
  {
    FlatMapOnly(DbListField, sheets, InNamespaceBody);
    DatabaseLoadLines(sheets, dbName);
  }

  /**
   * The namespace is always opened, after the banner and the five using
   * directives, and closed as the last item; each brace occurs once. Every
   * enum declaration sits inside it, and no flag constant is emitted at all.
   */
  lemma NamespaceWrapsAll(sheets: seq<Sheet>, dbName: string, ns: string, sourceFileName: string)
    ensures var file := SourceFile(sheets, dbName, ns, sourceFileName);
            file[6] == NamespaceOpen(ns) && file[|file| - 1] == NamespaceClose &&
            (forall i :: 0 <= i < |file| && file[i].NamespaceOpen? ==> i == 6) &&
            (forall i :: 0 <= i < |file| && file[i].NamespaceClose? ==> i == |file| - 1) &&
            (forall i :: 0 <= i < |file| && IsEnumLine(file[i]) ==> 6 < i < |file| - 1 && !file[i].FlagConst?)
  {
    BodyInNamespace(sheets, dbName);
    EnumSectionOnlyEnums(false, sheets);
    Wrapping(SourceFile(sheets, dbName, ns, sourceFileName), Banner(sourceFileName), ns, EnumSection(false, sheets),
             Classes(sheets, dbName, sheets), DbClass(dbName, sheets));
  }

  /** The placement argument over the file's parts. */
  lemma Wrapping(file: seq<Line>, banner: Line, ns: string, enums: seq<Line>, classes: seq<Line>, db: seq<Line>)
    requires file == [banner] + Usings + [NamespaceOpen(ns)] + enums + classes + db + [NamespaceClose]
    requires banner.Verbatim?
    requires forall k :: 0 <= k < |enums| ==> IsEnumLine(enums[k]) && !enums[k].FlagConst?
    requires forall l :: l in classes + db ==> InNamespaceBody(l)
    ensures file[6] == NamespaceOpen(ns) && file[|file| - 1] == NamespaceClose
    ensures forall i :: 0 <= i < |file| && file[i].NamespaceOpen? ==> i == 6
    ensures forall i :: 0 <= i < |file| && file[i].NamespaceClose? ==> i == |file| - 1
    ensures forall i :: 0 <= i < |file| && IsEnumLine(file[i]) ==> 6 < i < |file| - 1 && !file[i].FlagConst?
  {
    var body := classes + db;
    var front := [banner] + Usings + [NamespaceOpen(ns)];
    assert file == front + enums + body + [NamespaceClose];
    forall i | 0 <= i < |file|
      ensures file[i].NamespaceOpen? ==> i == 6
      ensures file[i].NamespaceClose? ==> i == |file| - 1
      ensures IsEnumLine(file[i]) ==> 6 < i < |file| - 1 && !file[i].FlagConst?
    {
      if i < 7 {
        assert file[i] == front[i];
      } else if i < 7 + |enums| {
        assert file[i] == enums[i - 7];
      } else if i < 7 + |enums| + |body| {
        assert file[i] == body[i - 7 - |enums|];
        assert file[i] in body;
      }
    }
  }

  // ---------------------------------------------------------------------------
  // One more element of a fold

  lemma ColumnStep(sheet: Sheet, cols: seq<Column>, j: nat)
    requires j <= |cols|
    ensures Decls(sheet, cols[..|cols|]) == Decls(sheet, cols)
    ensures Loads(sheet, cols[..|cols|]) == Loads(sheet, cols)
    ensures Diagnostics(Unsupported, cols[..|cols|]) == Diagnostics(Unsupported, cols)
    ensures j < |cols| ==> Decls(sheet, cols[..j + 1]) == Decls(sheet, cols[..j]) + ColumnDecl(sheet, cols[j])
    ensures j < |cols| ==> Loads(sheet, cols[..j + 1]) == Loads(sheet, cols[..j]) + ColumnLoad(sheet, cols[j])
    ensures j < |cols| ==> Diagnostics(Unsupported, cols[..j + 1]) == Diagnostics(Unsupported, cols[..j]) + ColumnDiagnostic(Unsupported, cols[j])
  {
    assert cols[..|cols|] == cols;
    if j < |cols| {
      FlatMapPrefix(c => ColumnDecl(sheet, c), cols, j);
      FlatMapPrefix(c => ColumnLoad(sheet, c), cols, j);
      FlatMapPrefix(c => ColumnDiagnostic(Unsupported, c), cols, j);
    }
  }

  lemma ClassesStep(all: seq<Sheet>, dbName: string, sheets: seq<Sheet>, i: nat)
    requires i <= |sheets|
    ensures Classes(all, dbName, sheets[..|sheets|]) == Classes(all, dbName, sheets)
    ensures i < |sheets| ==> Classes(all, dbName, sheets[..i + 1]) == Classes(all, dbName, sheets[..i]) + ClassText(all, dbName, sheets[i])
  {
    assert sheets[..|sheets|] == sheets;
    if i < |sheets| {
      FlatMapPrefix(s => ClassText(all, dbName, s), sheets, i);
    }
  }

  // ---------------------------------------------------------------------------
  // The writer

  /**
   * WriteClassDefinitions: builds the file text, appending a diagnostic per
   * unsupported column to `errors`; the file is written only when no exception
   * was raised (the write itself is left to the caller).
   */
  method WriteClassDefinitions(database: CastleDB, sourceFileName: string, switches: map<string, string>, errors: ErrorList)
    returns (outcome: Outcome<seq<Line>>)
    modifies errors
    ensures errors.items == old(errors.items) + Reported(database.sheets, switches)
    ensures outcome == Result(database.sheets, switches, sourceFileName)
  {
    var sheets := database.sheets;
    var dbName := DbName(switches);
    if "ns" !in switches {
      return Threw(KeyNotFound("ns"));
    }
    var namespaceName := switches["ns"];
    var fileText := [Banner(sourceFileName)] + Usings + [NamespaceOpen(namespaceName)];
    var enums := WriteEnumerations(sheets, false);
    fileText := fileText + enums;
    var classes := WriteClasses(sheets, dbName, errors);
    if classes.Threw? {
      return Threw(classes.exception);
    }
    fileText := fileText + classes.files;
    var dbClass := WriteDatabaseClass(sheets, dbName);
    fileText := fileText + dbClass + [NamespaceClose];
    outcome := Wrote(fileText);
  }

  /** The sheet loop: each sheet's class in turn, stopping at the first reference scan that throws. */
  method WriteClasses(sheets: seq<Sheet>, dbName: string, errors: ErrorList) returns (r: Outcome<seq<Line>>)
    modifies errors
    ensures errors.items == old(errors.items) + AllDiagnostics(Unsupported, sheets[..SheetsReached(sheets)])
    ensures r == if exists s :: s in sheets && SheetDangles(sheets, s) then Threw(NullReference)
                 else Wrote(Classes(sheets, dbName, sheets))
  {
    var text := [];
    ghost var start := errors.items;
    for i := 0 to |sheets|
      invariant text == Classes(sheets, dbName, sheets[..i])
      invariant errors.items == start + AllDiagnostics(Unsupported, sheets[..i])
      invariant CleanUpTo(sheets, i)
    {
      ghost var mid := errors.items;
      var classStr := WriteClass(sheets, sheets[i], dbName, errors);
      AllDiagnosticsAfter(Unsupported, sheets, i, start, mid, errors.items);
      if classStr.None? {
        SheetsReachedStop(sheets, i);
        return Threw(NullReference);
      }
      assert text + classStr.value == Classes(sheets, dbName, sheets[..i + 1]) by {
        ClassesStep(sheets, dbName, sheets, i);
      }
      text := text + classStr.value;
    }
    SheetsReachedAll(sheets);
    assert sheets[..|sheets|] == sheets;
    r := Wrote(text);
  }

  /**
   * One sheet's class: properties (reporting unsupported columns), Load and
   * ResolveReferences; nothing when a Ref column's Key names no sheet.
   */
  method WriteClass(all: seq<Sheet>, sheet: Sheet, dbName: string, errors: ErrorList) returns (r: Option<seq<Line>>)
    modifies errors
    ensures errors.items == old(errors.items) + SheetDiagnostics(Unsupported, sheet)
    ensures r.None? <==> SheetDangles(all, sheet)
    ensures r.Some? ==> r.value == ClassText(all, dbName, sheet)
  {
    var sheetName := ClassName(sheet.name);
    var decls := WriteDecls(sheet, errors);
    var loads := WriteLoads(sheet);
    var resolve := WriteResolveReferences(all, sheet);
    if resolve.None? {
      return None;
    }
    r := Some([ClassOpen(sheetName)] + decls
              + [BodyOpen(LoadMethod(sheetName))] + loads + [BodyClose]
              + [BodyOpen(ResolveMethod(sheetName, dbName))] + resolve.value + [BodyClose]
              + [ClassClose]);
  }

  /** The property declarations of a sheet's class, reporting each unsupported column. */
  method WriteDecls(sheet: Sheet, errors: ErrorList) returns (decls: seq<Line>)
    modifies errors
    ensures decls == Decls(sheet, sheet.columns)
    ensures errors.items == old(errors.items) + SheetDiagnostics(Unsupported, sheet)
  {
    decls := [];
    for j := 0 to |sheet.columns|
      invariant decls == Decls(sheet, sheet.columns[..j])
      invariant errors.items == old(errors.items) + Diagnostics(Unsupported, sheet.columns[..j])
    {
      var decl := WriteColumnDecl(sheet, sheet.columns[j], errors);
      assert decls + decl == Decls(sheet, sheet.columns[..j + 1]) &&
             errors.items == old(errors.items) + Diagnostics(Unsupported, sheet.columns[..j + 1]) by {
        ColumnStep(sheet, sheet.columns, j);
      }
      decls := decls + decl;
    }
    ColumnStep(sheet, sheet.columns, |sheet.columns|);
  }

  /** The body of a sheet's Load. */
  method WriteLoads(sheet: Sheet) returns (loads: seq<Line>)
    ensures loads == Loads(sheet, sheet.columns)
  {
    loads := [];
    for j := 0 to |sheet.columns|
      invariant loads == Loads(sheet, sheet.columns[..j])
    {
      var load := WriteColumnLoad(sheet, sheet.columns[j]);
      assert loads + load == Loads(sheet, sheet.columns[..j + 1]) by {
        ColumnStep(sheet, sheet.columns, j);
      }
      loads := loads + load;
    }
    ColumnStep(sheet, sheet.columns, |sheet.columns|);
  }

  /** The switch over a column's type for the property declarations, reporting unsupported types. */
  method WriteColumnDecl(sheet: Sheet, column: Column, errors: ErrorList) returns (decl: seq<Line>)
    modifies errors
    ensures decl == ColumnDecl(sheet, column)
    ensures errors.items == old(errors.items) + ColumnDiagnostic(Unsupported, column)
  {
    decl := [];
    match column.typeId {
      case UniqueIdentifier => decl := [Property("String", column.name)];
      case Boolean => decl := [Property("bool", column.name)];
      case Color => decl := [Property("Color", column.name)];
      case Custom => errors.Add(UnsupportedMessage(column));
      case Dynamic => errors.Add(UnsupportedMessage(column));
      case Enum => decl := [Property("E_" + Upper(column.name), column.name)];
      case File => decl := [Property("String", column.name)];
      case Flags => decl := [Property("uint", column.name)];
      case Image => errors.Add(UnsupportedMessage(column));
      case Integer => decl := [Property("int", column.name)];
      case Layer => errors.Add(UnsupportedMessage(column));
      case List =>
        var element := sheet.name + "_" + column.name;
        decl := [InitField("List<" + element + ">", column.name, "new List<" + element + ">()")];
      case Ref => decl := [InitField(column.key, column.name, "null"), PrivateField("String", column.name + "Key")];
      case Text => decl := [Property("String", column.name)];
      case TileLayer => errors.Add(UnsupportedMessage(column));
      case TilePos => errors.Add(UnsupportedMessage(column));
      case Float =>
    }
  }

  /** The switch over a column's type for the Load statements. */
  method WriteColumnLoad(sheet: Sheet, col: Column) returns (load: seq<Line>)
    ensures load == ColumnLoad(sheet, col)
  {
    load := [];
    match col.typeId {
      case UniqueIdentifier => load := [LoadField(col.name, AsString)];
      case Boolean => load := [LoadField(col.name, AsBool)];
      case Color => load := [LoadField(col.name, AsColor)];
      case Enum => load := [LoadField(col.name, AsEnum("E_" + Upper(col.name)))];
      case Image =>
      case File => load := [LoadField(col.name, AsPropertyText)];
      case Flags => load := [LoadField(col.name, AsUInt)];
      case Float => load := [LoadField(col.name, AsFloat)];
      case Integer => load := [LoadField(col.name, AsInt)];
      case List => load := [LoadList(col.name, sheet.name + "_" + col.name)];
      case Ref => load := [LoadKey(col.name)];
      case Text => load := [LoadField(col.name, AsString)];
      case Custom =>
      case Dynamic =>
      case Layer =>
      case TileLayer =>
      case TilePos =>
    }
  }

  /** The database class: the lists and the two-pass Load. */
  method WriteDatabaseClass(sheets: seq<Sheet>, dbName: string) returns (lines: seq<Line>)
    ensures lines == DbClass(dbName, sheets)
  {
    var fields := [];
    for i := 0 to |sheets|
      invariant fields == DbListFields(sheets[..i])
    {
      FlatMapPrefix(DbListField, sheets, i);
      if IsNested(sheets[i].name) {
        continue;
      }
      var name := sheets[i].name;
      fields := fields + [InitField("List<" + name + ">", name + "List", "new List<" + name + ">()")];
    }
    FlatMapWhole(DbListField, sheets);
    var load := WriteDatabaseLoad(sheets, dbName);
    lines := [ClassOpen(dbName)] + fields + load + [ClassClose];
  }
}
