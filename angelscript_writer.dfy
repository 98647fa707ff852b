/**
 * The AngelScript writer: one script file holding the enum and flag
 * declarations, then (inside the optional namespace) one class per sheet with
 * its members, destructor, Load and ResolveReferences, and the database class
 * with its arrays, destructor and two-pass Load.
 */
module AngelscriptWriter {
  import opened Wrappers
  import opened Schema
  import opened Code
  import opened Emit

  /** Column types this backend reports as unsupported. Float is absent: it is loaded but never declared. */
  const Unsupported: set<CastleType> := {Custom, Dynamic, Layer, TileLayer, TilePos}

  /** The element class of a List column: the parent sheet's name (not '@'-replaced), '_', the column's name. */
  function ListElement(sheet: Sheet, col: Column): string
  {
    sheet.name + "_" + col.name
  }

  /** The member declaration(s) a column adds to its sheet's class. */
  function ColumnDecl(sheet: Sheet, col: Column): seq<Line>
  {
    match col.typeId
    case UniqueIdentifier => [Field("String", col.name)]
    case Boolean => [Field("bool", col.name)]
    case Color => [Field("Color", col.name)]
    case Enum => [Field("E_" + Upper(col.name), col.name)]
    case File => [Field("String", col.name)]
    case Flags => [Field("uint", col.name)]
    case Image => [Field("String", col.name)]
    case Integer => [Field("int", col.name)]
    case List => [Field("Array<" + ListElement(sheet, col) + "@>", col.name)]
    case Ref => [Field(col.key + "@", col.name), PrivateField("String", col.name + "Key")]
    case Text => [Field("String", col.name)]
    case Custom => []
    case Dynamic => []
    case Layer => []
    case TileLayer => []
    case TilePos => []
    case Float => []
  }

  /** The `case i: field = E_NAME::VALUE_i; break;` arms of an Enum column's load switch, in value order. */
  function EnumCases(col: Column, values: seq<string>): seq<Line>
  {
    if values == [] then []
    else
      EnumCases(col, values[..|values| - 1])
      + [EnumCase(|values| - 1, col.name, "E_" + Upper(col.name), Upper(values[|values| - 1]))]
  }

  /** The statement(s) a column adds to its sheet's Load. */
  function ColumnLoad(sheet: Sheet, col: Column): seq<Line>
  {
    match col.typeId
    case UniqueIdentifier => [LoadField(col.name, AsString)]
    case Boolean => [LoadField(col.name, AsBool)]
    case Color => [LoadField(col.name, AsColor)]
    case Enum => [EnumSwitchOpen(col.name)] + EnumCases(col, col.enumerations) + [EnumSwitchClose]
    case File => [LoadField(col.name, AsString)]
    case Image => [LoadField(col.name, AsString)]
    case Flags => [LoadField(col.name, AsUInt)]
    case Float => [LoadField(col.name, AsFloat)]
    case Integer => [LoadField(col.name, AsInt)]
    case List => [LoadList(col.name, ListElement(sheet, col))]
    case Ref => [LoadKey(col.name)]
    case Text => [LoadField(col.name, AsString)]
    case Custom => []
    case Dynamic => []
    case Layer => []
    case TileLayer => []
    case TilePos => []
  }

  /** The statement a column adds to its sheet's destructor. */
  function ColumnCleanup(col: Column): seq<Line>
  {
    if col.typeId == List then [ClearList(col.name)]
    else if col.typeId == Ref then [SetNull(col.name)]
    else []
  }

  function Decls(sheet: Sheet, cols: seq<Column>): seq<Line>
  {
    FlatMap(c => ColumnDecl(sheet, c), cols)
  }

  function Loads(sheet: Sheet, cols: seq<Column>): seq<Line>
  {
    FlatMap(c => ColumnLoad(sheet, c), cols)
  }

  function Cleanups(cols: seq<Column>): seq<Line>
  {
    FlatMap(ColumnCleanup, cols)
  }

  /** A sheet's script class; `all` is the schema the Ref keys are looked up in. */
  function ClassText(all: seq<Sheet>, dbName: string, sheet: Sheet): seq<Line>
  {
    var cls := ClassName(sheet.name);
    [ClassOpen(cls)] + Decls(sheet, sheet.columns)
    + [BodyOpen(Destructor(cls))] + Cleanups(sheet.columns) + [BodyClose]
    + [BodyOpen(LoadMethod(cls))] + Loads(sheet, sheet.columns) + [BodyClose]
    + [BodyOpen(ResolveMethod(cls, dbName))] + ResolveScans(all, sheet.columns) + [BodyClose]
    + [ClassClose]
  }

  function Classes(all: seq<Sheet>, dbName: string, sheets: seq<Sheet>): seq<Line>
  {
    FlatMap(s => ClassText(all, dbName, s), sheets)
  }

  function DbListField(s: Sheet): seq<Line>
  {
    if IsNested(s.name) then [] else [Field("Array<" + ClassName(s.name) + "@>", ClassName(s.name) + "List")]
  }

  function DbListFields(sheets: seq<Sheet>): seq<Line>
  {
    FlatMap(DbListField, sheets)
  }

  function DbCleanup(s: Sheet): seq<Line>
  {
    if IsNested(s.name) then [] else [ClearList(ClassName(s.name) + "List")]
  }

  function DbCleanups(sheets: seq<Sheet>): seq<Line>
  {
    FlatMap(DbCleanup, sheets)
  }

  /** The database class: one array per sheet without '@', a destructor clearing them, and the two-pass Load. */
  function DbClass(dbName: string, sheets: seq<Sheet>): seq<Line>
  {
    [ClassOpen(dbName)] + DbListFields(sheets)
    + [BodyOpen(Destructor(dbName))] + DbCleanups(sheets) + [BodyClose]
    + DatabaseLoadBody(sheets, dbName) + [ClassClose]
  }

  function Banner(sourceFileName: string): Line
  {
    Verbatim("// AUTOGENERATED ANGELSCRIPT SOURCE CODE FROM " + sourceFileName)
  }

  /** The whole script file. */
  function Script(sheets: seq<Sheet>, switches: map<string, string>, sourceFileName: string): seq<Line>
  {
    var dbName := DbName(switches);
    [Banner(sourceFileName)] + EnumSection(true, sheets) + NamespaceOpening(switches)
    + Classes(sheets, dbName, sheets) + DbClass(dbName, sheets) + NamespaceClosing(switches)
  }

  /** What the writer does: the script, unless a Ref column's Key names no sheet. */
  function Result(sheets: seq<Sheet>, switches: map<string, string>, sourceFileName: string): Outcome<seq<Line>>
  {
    if exists s :: s in sheets && SheetDangles(sheets, s) then Threw(NullReference)
    else Wrote(Script(sheets, switches, sourceFileName))
  }

  /**
   * The diagnostics the writer appends: those of every sheet it reaches. The
   * exception is raised in the reference scan of the first sheet with a
   * dangling Ref, after that sheet's own diagnostics.
   */
  function Reported(sheets: seq<Sheet>): seq<string>
  {
    AllDiagnostics(Unsupported, sheets[..SheetsReached(sheets)])
  }

  // ---------------------------------------------------------------------------
  // Properties of the emitted script

  /** What the emitted switch does with the integer read from JSON: the value of the first matching case, or nothing. */
  function SwitchSelect(cases: seq<Line>, v: int): Option<string>
  {
    if cases == [] then None
    else if cases[0].EnumCase? && cases[0].index == v then Some(cases[0].valueName)
    else SwitchSelect(cases[1..], v)
  }

  lemma {:induction false} EnumCasesAt(col: Column, values: seq<string>)
    ensures |EnumCases(col, values)| == |values|
    ensures forall i :: 0 <= i < |values| ==>
              EnumCases(col, values)[i] == EnumCase(i, col.name, "E_" + Upper(col.name), Upper(values[i]))
  {
    if values != [] {
      EnumCasesAt(col, values[..|values| - 1]);
    }
  }

  lemma {:induction false} SwitchSelectIndexed(cases: seq<Line>, offset: int, v: int)
    requires forall i :: 0 <= i < |cases| ==> cases[i].EnumCase? && cases[i].index == offset + i
    ensures SwitchSelect(cases, v) == if offset <= v < offset + |cases| then Some(cases[v - offset].valueName) else None
    decreases |cases|
  {
    if cases != [] {
      SwitchSelectIndexed(cases[1..], offset + 1, v);
    }
  }

  /**
   * The load switch of an Enum column maps integer i to the column's i-th
   * value, upper-cased, for every i in range; any other integer matches no
   * case and leaves the field as it was.
   */
  lemma EnumSwitchRoundTrip(col: Column, v: int)
    ensures 0 <= v < |col.enumerations| ==> SwitchSelect(EnumCases(col, col.enumerations), v) == Some(Upper(col.enumerations[v]))
    ensures (v < 0 || v >= |col.enumerations|) ==> SwitchSelect(EnumCases(col, col.enumerations), v) == None
  {
    EnumCasesAt(col, col.enumerations);
    SwitchSelectIndexed(EnumCases(col, col.enumerations), 0, v);
  }

  lemma LoadsInBody(sheet: Sheet)
    ensures forall l :: l in Loads(sheet, sheet.columns) ==> InNamespaceBody(l)
  {
    forall c, l | c in sheet.columns && l in ColumnLoad(sheet, c)
      ensures InNamespaceBody(l)
    {
      if c.typeId == Enum {
        EnumCasesAt(c, c.enumerations);
      }
    }
    FlatMapOnly(x => ColumnLoad(sheet, x), sheet.columns, InNamespaceBody);
  }

  lemma DeclsInBody(sheet: Sheet)
    ensures forall l :: l in Decls(sheet, sheet.columns) ==> InNamespaceBody(l)
  {
    FlatMapOnly(x => ColumnDecl(sheet, x), sheet.columns, InNamespaceBody);
  }

  lemma ClassTextInBody(all: seq<Sheet>, dbName: string, sheet: Sheet)
    ensures forall l :: l in ClassText(all, dbName, sheet) ==> InNamespaceBody(l)
  {
    DeclsInBody(sheet);
    LoadsInBody(sheet);
    FlatMapOnly(ColumnCleanup, sheet.columns, InNamespaceBody);
    FlatMapOnly(x => ResolveScanLine(all, x), sheet.columns, InNamespaceBody);
  }

  /** Everything between the namespace braces: the sheet classes and the database class. */
  lemma BodyInNamespace(sheets: seq<Sheet>, dbName: string)
    ensures forall l :: l in Classes(sheets, dbName, sheets) + DbClass(dbName, sheets) ==> InNamespaceBody(l)
  {
    assert forall l :: l in Classes(sheets, dbName, sheets) ==> InNamespaceBody(l) by {
      forall x, l | x in sheets && l in ClassText(sheets, dbName, x)
        ensures InNamespaceBody(l)
      {
        ClassTextInBody(sheets, dbName, x);
      }
      FlatMapOnly(x => ClassText(sheets, dbName, x), sheets, InNamespaceBody);
    }
    DbClassInBody(dbName, sheets);
  }

  lemma DbClassInBody(dbName: string, sheets: seq<Sheet>)
    ensures forall l :: l in DbClass(dbName, sheets) ==> InNamespaceBody(l)
  {
    FlatMapOnly(DbListField, sheets, InNamespaceBody);
    FlatMapOnly(DbCleanup, sheets, InNamespaceBody);
    DatabaseLoadLines(sheets, dbName);
  }

  /**
   * The script opens a namespace only when "ns" is given, and then right
   * after the last enum or flag declaration, which must stay global; it
   * closes it as the very last item, again only when "ns" is given.
   */
  lemma NamespaceAfterEnums(sheets: seq<Sheet>, switches: map<string, string>, sourceFileName: string)
    ensures var script := Script(sheets, switches, sourceFileName);
            var n := 1 + |EnumSection(true, sheets)|;
            (forall i :: 0 <= i < |script| && IsEnumLine(script[i]) ==> 1 <= i < n) &&
            (forall j :: 0 <= j < |script| && script[j].NamespaceOpen? ==>
               "ns" in switches && j == n && script[j] == NamespaceOpen(switches["ns"])) &&
            ("ns" in switches ==> n < |script| && script[n] == NamespaceOpen(switches["ns"])) &&
            (forall j :: 0 <= j < |script| && script[j].NamespaceClose? ==> "ns" in switches && j == |script| - 1) &&
            script[|script| - 1] == if "ns" in switches then NamespaceClose else ClassClose
  {
    var dbName := DbName(switches);
    BodyInNamespace(sheets, dbName);
    EnumSectionOnlyEnums(true, sheets);
    Placement(Script(sheets, switches, sourceFileName), Banner(sourceFileName), EnumSection(true, sheets),
              switches, Classes(sheets, dbName, sheets), DbClass(dbName, sheets));
  }

  /** The placement argument over the script's five parts. */
  lemma Placement(script: seq<Line>, banner: Line, enums: seq<Line>, switches: map<string, string>,
                  classes: seq<Line>, db: seq<Line>)
    requires script == [banner] + enums + NamespaceOpening(switches) + classes + db + NamespaceClosing(switches)
    requires banner.Verbatim?
    requires forall k :: 0 <= k < |enums| ==> IsEnumLine(enums[k])
    requires forall l :: l in classes + db ==> InNamespaceBody(l)
    requires |db| > 0 && db[|db| - 1] == ClassClose
    ensures var n := 1 + |enums|;
            (forall i :: 0 <= i < |script| && IsEnumLine(script[i]) ==> 1 <= i < n) &&
            (forall j :: 0 <= j < |script| && script[j].NamespaceOpen? ==>
               "ns" in switches && j == n && script[j] == NamespaceOpen(switches["ns"])) &&
            ("ns" in switches ==> n < |script| && script[n] == NamespaceOpen(switches["ns"])) &&
            (forall j :: 0 <= j < |script| && script[j].NamespaceClose? ==> "ns" in switches && j == |script| - 1) &&
            script[|script| - 1] == if "ns" in switches then NamespaceClose else ClassClose
  {
    var open, close := NamespaceOpening(switches), NamespaceClosing(switches);
    var body := classes + db;
    assert script == [banner] + enums + open + body + close;
    var n := 1 + |enums|;
    forall i | 0 <= i < |script|
      ensures IsEnumLine(script[i]) ==> 1 <= i < n
      ensures script[i].NamespaceOpen? ==> "ns" in switches && i == n && script[i] == NamespaceOpen(switches["ns"])
      ensures script[i].NamespaceClose? ==> "ns" in switches && i == |script| - 1
    {
      if i == 0 {
        assert script[i] == banner;
      } else if i < n {
        assert script[i] == enums[i - 1];
      } else if i < n + |open| {
        assert script[i] == open[i - n];
      } else if i < n + |open| + |body| {
        assert script[i] == body[i - n - |open|];
        assert script[i] in body;
      } else {
        assert script[i] == close[i - n - |open| - |body|];
      }
    }
    if "ns" !in switches {
      assert script[|script| - 1] == db[|db| - 1];
    }
  }

  /** A column of an unsupported type adds no member and no Load statement and exactly one diagnostic. */
  lemma UnsupportedColumnSkipped(sheet: Sheet, a: seq<Column>, c: Column, b: seq<Column>)
    requires c.typeId in {Custom, Dynamic, Layer, TileLayer, TilePos}
    ensures Decls(sheet, a + [c] + b) == Decls(sheet, a) + Decls(sheet, b)
    ensures Loads(sheet, a + [c] + b) == Loads(sheet, a) + Loads(sheet, b)
    ensures Diagnostics(Unsupported, a + [c] + b) ==
            Diagnostics(Unsupported, a) + ["Sheet " + c.name + ", type " + TypeName(c.typeId) + " unsupported"]
            + Diagnostics(Unsupported, b)
  {
    assert ColumnDecl(sheet, c) == [] && ColumnLoad(sheet, c) == [];
    assert Decls(sheet, a + [c] + b) == Decls(sheet, a) + Decls(sheet, b) by {
      FlatMapSplit(x => ColumnDecl(sheet, x), a, c, b);
    }
    assert Loads(sheet, a + [c] + b) == Loads(sheet, a) + Loads(sheet, b) by {
      FlatMapSplit(x => ColumnLoad(sheet, x), a, c, b);
    }
    DiagnosticsSplit(Unsupported, a, c, b);
  }

  /** A Float column is loaded but never declared, and raises no diagnostic. */
  lemma FloatColumnLoadedUndeclared(sheet: Sheet, a: seq<Column>, c: Column, b: seq<Column>)
    requires c.typeId == Float
    ensures Decls(sheet, a + [c] + b) == Decls(sheet, a) + Decls(sheet, b)
    ensures Loads(sheet, a + [c] + b) == Loads(sheet, a) + [LoadField(c.name, AsFloat)] + Loads(sheet, b)
    ensures Diagnostics(Unsupported, a + [c] + b) == Diagnostics(Unsupported, a) + Diagnostics(Unsupported, b)
  {
    assert Decls(sheet, a + [c] + b) == Decls(sheet, a) + Decls(sheet, b) by {
      FlatMapSplit(x => ColumnDecl(sheet, x), a, c, b);
    }
    assert Loads(sheet, a + [c] + b) == Loads(sheet, a) + [LoadField(c.name, AsFloat)] + Loads(sheet, b) by {
      FlatMapSplit(x => ColumnLoad(sheet, x), a, c, b);
    }
    DiagnosticsSplit(Unsupported, a, c, b);
  }

  /** A Ref column declares a handle and a private key string; its Load assigns only the key string. */
  lemma RefColumnMembers(sheet: Sheet, a: seq<Column>, c: Column, b: seq<Column>)
    requires c.typeId == Ref
    ensures Decls(sheet, a + [c] + b) ==
            Decls(sheet, a) + [Field(c.key + "@", c.name), PrivateField("String", c.name + "Key")] + Decls(sheet, b)
    ensures Loads(sheet, a + [c] + b) == Loads(sheet, a) + [LoadKey(c.name)] + Loads(sheet, b)
  {
    assert Decls(sheet, a + [c] + b) ==
           Decls(sheet, a) + [Field(c.key + "@", c.name), PrivateField("String", c.name + "Key")] + Decls(sheet, b) by {
      FlatMapSplit(x => ColumnDecl(sheet, x), a, c, b);
    }
    assert Loads(sheet, a + [c] + b) == Loads(sheet, a) + [LoadKey(c.name)] + Loads(sheet, b) by {
      FlatMapSplit(x => ColumnLoad(sheet, x), a, c, b);
    }
  }

  /** The destructor clears each List column and nulls each Ref column, and does nothing else. */
  lemma CleanupsExactly(cols: seq<Column>, l: Line)
    ensures l in Cleanups(cols) <==>
            exists c :: c in cols && ((c.typeId == List && l == ClearList(c.name)) || (c.typeId == Ref && l == SetNull(c.name)))
  {
    FlatMapIn(ColumnCleanup, cols, l);
  }

  /** The database arrays and their clears follow the sheets without '@', in schema order. */
  lemma {:induction false} DbMembersAt(sheets: seq<Sheet>)
    ensures |DbListFields(sheets)| == |TopLevel(sheets)| == |DbCleanups(sheets)|
    ensures forall k :: 0 <= k < |TopLevel(sheets)| ==>
              DbListFields(sheets)[k] == Field("Array<" + TopLevel(sheets)[k].name + "@>", TopLevel(sheets)[k].name + "List") &&
              DbCleanups(sheets)[k] == ClearList(TopLevel(sheets)[k].name + "List")
  {
    if sheets != [] {
      DbMembersAt(sheets[..|sheets| - 1]);
    }
  }

  // ---------------------------------------------------------------------------
  // One more element of a fold

  lemma ColumnStep(sheet: Sheet, cols: seq<Column>, j: nat)
    requires j <= |cols|
    ensures Decls(sheet, cols[..|cols|]) == Decls(sheet, cols)
    ensures Loads(sheet, cols[..|cols|]) == Loads(sheet, cols)
    ensures Cleanups(cols[..|cols|]) == Cleanups(cols)
    ensures Diagnostics(Unsupported, cols[..|cols|]) == Diagnostics(Unsupported, cols)
    ensures j < |cols| ==> Decls(sheet, cols[..j + 1]) == Decls(sheet, cols[..j]) + ColumnDecl(sheet, cols[j])
    ensures j < |cols| ==> Loads(sheet, cols[..j + 1]) == Loads(sheet, cols[..j]) + ColumnLoad(sheet, cols[j])
    ensures j < |cols| ==> Cleanups(cols[..j + 1]) == Cleanups(cols[..j]) + ColumnCleanup(cols[j])
    ensures j < |cols| ==> Diagnostics(Unsupported, cols[..j + 1]) == Diagnostics(Unsupported, cols[..j]) + ColumnDiagnostic(Unsupported, cols[j])
  {
    assert cols[..|cols|] == cols;
    if j < |cols| {
      FlatMapPrefix(c => ColumnDecl(sheet, c), cols, j);
      FlatMapPrefix(c => ColumnLoad(sheet, c), cols, j);
      FlatMapPrefix(ColumnCleanup, cols, j);
      FlatMapPrefix(c => ColumnDiagnostic(Unsupported, c), cols, j);
    }
  }

  lemma ClassesStep(all: seq<Sheet>, dbName: string, sheets: seq<Sheet>, i: nat)
    requires i <= |sheets|
    ensures Classes(all, dbName, sheets[..|sheets|]) == Classes(all, dbName, sheets)
    ensures i < |sheets| ==> Classes(all, dbName, sheets[..i + 1]) == Classes(all, dbName, sheets[..i]) + ClassText(all, dbName, sheets[i])
  {
    assert sheets[..|sheets|] == sheets;
    if i < |sheets| {
      FlatMapPrefix(s => ClassText(all, dbName, s), sheets, i);
    }
  }

  // ---------------------------------------------------------------------------
  // The writer

  /**
   * WriteClassDefinitions: builds the script text, appending a diagnostic per
   * unsupported column to `errors`; the file is written only when no exception
   * was raised (the write itself is left to the caller).
   */
  method WriteClassDefinitions(database: CastleDB, sourceFileName: string, switches: map<string, string>, errors: ErrorList)
    returns (outcome: Outcome<seq<Line>>)
    modifies errors
    ensures errors.items == old(errors.items) + Reported(database.sheets)
    ensures outcome == Result(database.sheets, switches, sourceFileName)
  {
    var sheets := database.sheets;
    var dbName := DbName(switches);
    var fileText := [Banner(sourceFileName)];
    var enums := WriteEnumerations(sheets, true);
    fileText := fileText + enums;
    if "ns" in switches {
      fileText := fileText + [NamespaceOpen(switches["ns"])];
    } else {
      assert fileText + [] == fileText;
    }
    assert fileText == [Banner(sourceFileName)] + EnumSection(true, sheets) + NamespaceOpening(switches);
    var classes := WriteClasses(sheets, dbName, errors);
    if classes.Threw? {
      return Threw(classes.exception);
    }
    fileText := fileText + classes.files;
    var dbClass := WriteDatabaseClass(sheets, dbName);
    fileText := fileText + dbClass;
    ghost var body := fileText;
    if "ns" in switches {
      fileText := fileText + [NamespaceClose];
    } else {
      assert fileText + [] == fileText;
    }
    assert fileText == body + NamespaceClosing(switches);
    outcome := Wrote(fileText);
  }

  /** The sheet loop: each sheet's class in turn, stopping at the first reference scan that throws. */
  method WriteClasses(sheets: seq<Sheet>, dbName: string, errors: ErrorList) returns (r: Outcome<seq<Line>>)
    modifies errors
    ensures errors.items == old(errors.items) + Reported(sheets)
    ensures r == if exists s :: s in sheets && SheetDangles(sheets, s) then Threw(NullReference)
                 else Wrote(Classes(sheets, dbName, sheets))
  {
    var text := [];
    ghost var start := errors.items;
    for i := 0 to |sheets|
      invariant text == Classes(sheets, dbName, sheets[..i])
      invariant errors.items == start + AllDiagnostics(Unsupported, sheets[..i])
      invariant CleanUpTo(sheets, i)
    {
      ghost var mid := errors.items;
      var classStr := WriteClass(sheets, sheets[i], dbName, errors);
      AllDiagnosticsAfter(Unsupported, sheets, i, start, mid, errors.items);
      if classStr.None? {
        SheetsReachedStop(sheets, i);
        return Threw(NullReference);
      }
      assert text + classStr.value == Classes(sheets, dbName, sheets[..i + 1]) by {
        ClassesStep(sheets, dbName, sheets, i);
      }
      text := text + classStr.value;
    }
    SheetsReachedAll(sheets);
    assert sheets[..|sheets|] == sheets;
    r := Wrote(text);
  }

  /**
   * One sheet's class: members (reporting unsupported columns), destructor,
   * Load and ResolveReferences; nothing when a Ref column's Key names no sheet.
   */
  method WriteClass(all: seq<Sheet>, sheet: Sheet, dbName: string, errors: ErrorList) returns (r: Option<seq<Line>>)
    modifies errors
    ensures errors.items == old(errors.items) + SheetDiagnostics(Unsupported, sheet)
    ensures r.None? <==> SheetDangles(all, sheet)
    ensures r.Some? ==> r.value == ClassText(all, dbName, sheet)
  {
    var sheetName := ClassName(sheet.name);
    var decls := WriteDecls(sheet, errors);
    var cleanup := WriteDestructor(sheet);
    var loads := WriteLoads(sheet);
    var resolve := WriteResolveReferences(all, sheet);
    if resolve.None? {
      return None;
    }
    r := Some([ClassOpen(sheetName)] + decls
              + [BodyOpen(Destructor(sheetName))] + cleanup + [BodyClose]
              + [BodyOpen(LoadMethod(sheetName))] + loads + [BodyClose]
              + [BodyOpen(ResolveMethod(sheetName, dbName))] + resolve.value + [BodyClose]
              + [ClassClose]);
  }

  /** The member declarations of a sheet's class, reporting each unsupported column. */
  method WriteDecls(sheet: Sheet, errors: ErrorList) returns (decls: seq<Line>)
    modifies errors
    ensures decls == Decls(sheet, sheet.columns)
    ensures errors.items == old(errors.items) + SheetDiagnostics(Unsupported, sheet)
  {
    decls := [];
    for j := 0 to |sheet.columns|
      invariant decls == Decls(sheet, sheet.columns[..j])
      invariant errors.items == old(errors.items) + Diagnostics(Unsupported, sheet.columns[..j])
    {
      var decl := WriteColumnDecl(sheet, sheet.columns[j], errors);
      assert decls + decl == Decls(sheet, sheet.columns[..j + 1]) &&
             errors.items == old(errors.items) + Diagnostics(Unsupported, sheet.columns[..j + 1]) by {
        ColumnStep(sheet, sheet.columns, j);
      }
      decls := decls + decl;
    }
    ColumnStep(sheet, sheet.columns, |sheet.columns|);
  }

  /** The body of a sheet's destructor: clear each List, null each Ref. */
  method WriteDestructor(sheet: Sheet) returns (cleanup: seq<Line>)
    ensures cleanup == Cleanups(sheet.columns)
  {
    cleanup := [];
    for j := 0 to |sheet.columns|
      invariant cleanup == Cleanups(sheet.columns[..j])
    {
      var col := sheet.columns[j];
      assert Cleanups(sheet.columns[..j + 1]) == Cleanups(sheet.columns[..j]) + ColumnCleanup(col) by {
        ColumnStep(sheet, sheet.columns, j);
      }
      if col.typeId == List {
        cleanup := cleanup + [ClearList(col.name)];
      } else if col.typeId == Ref {
        cleanup := cleanup + [SetNull(col.name)];
      }
    }
    ColumnStep(sheet, sheet.columns, |sheet.columns|);
  }

  /** The body of a sheet's Load. */
  method WriteLoads(sheet: Sheet) returns (loads: seq<Line>)
    ensures loads == Loads(sheet, sheet.columns)
  {
    loads := [];
    for j := 0 to |sheet.columns|
      invariant loads == Loads(sheet, sheet.columns[..j])
    {
      var load := WriteColumnLoad(sheet, sheet.columns[j]);
      assert loads + load == Loads(sheet, sheet.columns[..j + 1]) by {
        ColumnStep(sheet, sheet.columns, j);
      }
      loads := loads + load;
    }
    ColumnStep(sheet, sheet.columns, |sheet.columns|);
  }

  /** The switch over a column's type for the member declarations, reporting unsupported types. */
  method WriteColumnDecl(sheet: Sheet, column: Column, errors: ErrorList) returns (decl: seq<Line>)
    modifies errors
    ensures decl == ColumnDecl(sheet, column)
    ensures errors.items == old(errors.items) + ColumnDiagnostic(Unsupported, column)
  {
    decl := [];
    match column.typeId {
      case UniqueIdentifier => decl := [Field("String", column.name)];
      case Boolean => decl := [Field("bool", column.name)];
      case Color => decl := [Field("Color", column.name)];
      case Custom => errors.Add(UnsupportedMessage(column));
      case Dynamic => errors.Add(UnsupportedMessage(column));
      case Enum => decl := [Field("E_" + Upper(column.name), column.name)];
      case File => decl := [Field("String", column.name)];
      case Flags => decl := [Field("uint", column.name)];
      case Image => decl := [Field("String", column.name)];
      case Integer => decl := [Field("int", column.name)];
      case Layer => errors.Add(UnsupportedMessage(column));
      case List => decl := [Field("Array<" + (sheet.name + "_" + column.name) + "@>", column.name)];
      case Ref => decl := [Field(column.key + "@", column.name), PrivateField("String", column.name + "Key")];
      case Text => decl := [Field("String", column.name)];
      case TileLayer => errors.Add(UnsupportedMessage(column));
      case TilePos => errors.Add(UnsupportedMessage(column));
      case Float =>
    }
  }

  /** The switch over a column's type for the Load statements; an Enum column gets a switch over its ordinals. */
  method WriteColumnLoad(sheet: Sheet, col: Column) returns (load: seq<Line>)
    ensures load == ColumnLoad(sheet, col)
  {
    load := [];
    match col.typeId {
      case UniqueIdentifier => load := [LoadField(col.name, AsString)];
      case Boolean => load := [LoadField(col.name, AsBool)];
      case Color => load := [LoadField(col.name, AsColor)];
      case Enum =>
        var values := col.enumerations;
        load := [EnumSwitchOpen(col.name)];
        for i := 0 to |values|
          invariant load == [EnumSwitchOpen(col.name)] + EnumCases(col, values[..i])
        {
          assert values[..i + 1][..i] == values[..i];
          load := load + [EnumCase(i, col.name, "E_" + Upper(col.name), Upper(values[i]))];
        }
        assert values[..|values|] == values;
        load := load + [EnumSwitchClose];
      case File => load := [LoadField(col.name, AsString)];
      case Image => load := [LoadField(col.name, AsString)];
      case Flags => load := [LoadField(col.name, AsUInt)];
      case Float => load := [LoadField(col.name, AsFloat)];
      case Integer => load := [LoadField(col.name, AsInt)];
      case List => load := [LoadList(col.name, sheet.name + "_" + col.name)];
      case Ref => load := [LoadKey(col.name)];
      case Text => load := [LoadField(col.name, AsString)];
      case Custom =>
      case Dynamic =>
      case Layer =>
      case TileLayer =>
      case TilePos =>
    }
  }

  /** The database class: arrays, destructor and the two-pass Load. */
  method WriteDatabaseClass(sheets: seq<Sheet>, dbName: string) returns (lines: seq<Line>)
    ensures lines == DbClass(dbName, sheets)
  {
    var fields := [];
    for i := 0 to |sheets|
      invariant fields == DbListFields(sheets[..i])
    {
      FlatMapPrefix(DbListField, sheets, i);
      if IsNested(sheets[i].name) {
        continue;
      }
      fields := fields + [Field("Array<" + ClassName(sheets[i].name) + "@>", ClassName(sheets[i].name) + "List")];
    }
    FlatMapWhole(DbListField, sheets);
    var clears := [];
    for i := 0 to |sheets|
      invariant clears == DbCleanups(sheets[..i])
    {
      FlatMapPrefix(DbCleanup, sheets, i);
      if IsNested(sheets[i].name) {
        continue;
      }
      clears := clears + [ClearList(ClassName(sheets[i].name) + "List")];
    }
    FlatMapWhole(DbCleanup, sheets);
    var load := WriteDatabaseLoad(sheets, dbName);
    lines := [ClassOpen(dbName)] + fields + [BodyOpen(Destructor(dbName))] + clears + [BodyClose] + load + [ClassClose];
  }
}
