/**
 * What the writers emit. Each writer builds source text by appending template
 * fragments; here every fragment is one `Line` item that records what varies
 * (names, types, values) and drops what does not (indentation, line breaks,
 * the backend's fixed punctuation). The items are shared by the backends; the
 * writer that emits an item fixes its concrete syntax.
 */
module Code {
  import opened Wrappers
  import opened Schema

  /** The keyword that opens one branch of the database's dispatch chain. */
  datatype Branch = If | ElseIf

  /** How a load statement converts the named input entry into the field's type. */
  datatype Conversion =
    | AsString                // GetString() / Value.ToString()
    | AsBool                  // GetBool() / ToString().Equals("true")
    | AsInt                   // GetInt() / int.Parse
    | AsUInt                  // GetUInt() / uint.Parse
    | AsFloat                 // GetFloat() / float.Parse
    | AsColor                 // field.FromUInt(... unsigned ...)
    | AsEnum(enumType: string)  // (E_X) cast of the integer
    | AsPropertyText          // value.Property("x").ToString(): the whole property, not its value

  /** A generated member whose declaration or body is emitted. */
  datatype Member =
    | Destructor(owner: string)
    | LoadMethod(owner: string)
    | ResolveMethod(owner: string, dbName: string)
    | DatabaseLoad(owner: string)
    | RegisterFunction(dbName: string)

  datatype Line =
    | Verbatim(text: string)                  // a fixed line: banner, include, using
    | Include(path: string)
    | NamespaceOpen(name: string)
    | NamespaceClose
    | ForwardDecl(className: string)
    | EnumOpen(enumName: string)
    | EnumValue(valueName: string)
    | EnumClose
    | FlagConst(constName: string, value: int)
    | ClassOpen(className: string)
    | ClassClose
    | Field(typeName: string, fieldName: string)        // `T name;`
    | Property(typeName: string, fieldName: string)     // `public T name { get; set; }`
    | PrivateField(typeName: string, fieldName: string) // `private T name;`
    | InitField(typeName: string, fieldName: string, init: string)  // `public T name = init;`
    | Declare(member: Member)
    | BodyOpen(member: Member)
    | BodyClose
    | LoadField(fieldName: string, conv: Conversion)   // field from value["field"]
    | LoadKey(fieldName: string)                       // fieldKey = value["field"] as a string
    | LoadList(fieldName: string, elementType: string) // one new element loaded and pushed per array entry
    | EnumSwitchOpen(fieldName: string)
    | EnumCase(index: int, fieldName: string, enumType: string, valueName: string)
    | EnumSwitchClose
    | SetNull(fieldName: string)
    | DeleteAll(listName: string)
    | ClearList(listName: string)
    | ResolveScan(fieldName: string, targetSheet: string, keyField: string)
    | SheetsLoopOpen
    | SheetsLoopClose
    | Dispatch(branch: Branch, sheetName: string)
    | ResolvePass(sheetName: string)
    | FactoryFunction(className: string)
    | ListGetter(className: string, fieldName: string, elementType: string)
    | RegisterEnum(enumName: string)                  // `engine->RegisterEnum("name")`
    | RegisterEnumIndexed(name: string, index: int)   // `engine->RegisterEnum("name", index)`: no enum type is named
    | RegisterRefCounted(className: string)
    | RegisterFactory(className: string)
    | RegisterProperty(className: string, typeName: string, fieldName: string)
    | RegisterListGetter(className: string, elementType: string, fieldName: string)
    | RegisterMethod(className: string, scriptName: string, scriptParams: string,
                     nativeName: string, nativeParams: string)

  /** The runtime exceptions a writer can raise before it writes its files. */
  datatype Exception =
    | NullReference          // FirstOrDefault(...) found nothing and was dereferenced
    | KeyNotFound(key: string)
    | IndexOutOfRange

  /** How a writer ends: files written, returned without writing, or an exception. */
  datatype Outcome<T> = Wrote(files: T) | WroteNothing | Threw(exception: Exception)

  /** The shared diagnostics list every writer appends to. */
  class ErrorList {
    var items: seq<string>

    constructor ()
      ensures items == []
    {
      items := [];
    }

    method Add(message: string)
      modifies this
      ensures items == old(items) + [message]
    {
      items := items + [message];
    }
  }

  /** The database class name: the "db" switch, "GameDatabase" by default. */
  function DbName(switches: map<string, string>): string
  {
    if "db" in switches then switches["db"] else "GameDatabase"
  }

  /** The namespace opening, present iff the "ns" switch is. */
  function NamespaceOpening(switches: map<string, string>): seq<Line>
  {
    if "ns" in switches then [NamespaceOpen(switches["ns"])] else []
  }

  /** The namespace closing, present iff the "ns" switch is. */
  function NamespaceClosing(switches: map<string, string>): seq<Line>
  {
    if "ns" in switches then [NamespaceClose] else []
  }

  // ---------------------------------------------------------------------------
  // Concatenating per-element fragments

  /** The fragments of `f` for each element of `s`, concatenated in order. */
  function FlatMap<T, U>(f: T -> seq<U>, s: seq<T>): seq<U>
  {
    if s == [] then [] else FlatMap(f, s[..|s| - 1]) + f(s[|s| - 1])
  }

  lemma {:induction false} FlatMapAppend<T, U>(f: T -> seq<U>, a: seq<T>, b: seq<T>)
    ensures FlatMap(f, a + b) == FlatMap(f, a) + FlatMap(f, b)
    decreases |b|
  {
    if b == [] {
      assert a + b == a;
    } else {
      var b' := b[..|b| - 1];
      assert (a + b)[..|a + b| - 1] == a + b';
      assert (a + b)[|a + b| - 1] == b[|b| - 1];
      FlatMapAppend(f, a, b');
    }
  }

  /** Extending the prefix by one element appends that element's fragments. */
  lemma FlatMapPrefix<T, U>(f: T -> seq<U>, s: seq<T>, i: nat)
    requires i < |s|
    ensures FlatMap(f, s[..i + 1]) == FlatMap(f, s[..i]) + f(s[i])
  {
    assert s[..i + 1][..i] == s[..i];
  }

  lemma FlatMapWhole<T, U>(f: T -> seq<U>, s: seq<T>)
    ensures FlatMap(f, s[..|s|]) == FlatMap(f, s)
  {
    assert s[..|s|] == s;
  }

  /** One element's fragments, wherever it sits, and nothing else. */
  lemma FlatMapSplit<T, U>(f: T -> seq<U>, a: seq<T>, x: T, b: seq<T>)
    ensures FlatMap(f, a + [x] + b) == FlatMap(f, a) + f(x) + FlatMap(f, b)
  {
    FlatMapAppend(f, a + [x], b);
    FlatMapAppend(f, a, [x]);
    assert FlatMap(f, [x]) == FlatMap(f, []) + f(x) by {
      assert [x][..0] == [];
    }
  }

  /** An item is emitted iff some element's fragment holds it. */
  lemma {:induction false} FlatMapIn<T, U>(f: T -> seq<U>, s: seq<T>, x: U)
    ensures x in FlatMap(f, s) <==> exists e :: e in s && x in f(e)
  {
    if s != [] {
      var init, last := s[..|s| - 1], s[|s| - 1];
      FlatMapIn(f, init, x);
      assert s == init + [last];
      assert forall e :: e in s <==> e in init || e == last;
    }
  }

  /** A property every element's fragment has holds of every emitted item. */
  lemma FlatMapOnly<T, U>(f: T -> seq<U>, s: seq<T>, p: U -> bool)
    requires forall x, l :: x in s && l in f(x) ==> p(l)
    ensures forall l :: l in FlatMap(f, s) ==> p(l)
  {
    forall l | l in FlatMap(f, s)
      ensures p(l)
    {
      FlatMapIn(f, s, l);
    }
  }

  lemma {:induction false} FlatMapSingletons<T, U>(f: T -> seq<U>, s: seq<T>)
    requires forall x :: |f(x)| == 1
    ensures |FlatMap(f, s)| == |s|
    ensures forall i :: 0 <= i < |s| ==> FlatMap(f, s)[i] == f(s[i])[0]
  {
    if s != [] {
      FlatMapSingletons(f, s[..|s| - 1]);
    }
  }

  // ---------------------------------------------------------------------------
  // Diagnostics

  /** The diagnostic for a column whose type the backend does not support. It
      says "Sheet" but carries the column's name. */
  function UnsupportedMessage(c: Column): string
  {
    "Sheet " + c.name + ", type " + TypeName(c.typeId) + " unsupported"
  }

  function ColumnDiagnostic(unsupported: set<CastleType>, c: Column): seq<string>
  {
    if c.typeId in unsupported then [UnsupportedMessage(c)] else []
  }

  /** The diagnostics appended for these columns, in column order. */
  function Diagnostics(unsupported: set<CastleType>, cols: seq<Column>): seq<string>
  {
    FlatMap(c => ColumnDiagnostic(unsupported, c), cols)
  }

  function SheetDiagnostics(unsupported: set<CastleType>, sheet: Sheet): seq<string>
  {
    Diagnostics(unsupported, sheet.columns)
  }

  /** The diagnostics appended for these sheets, in schema then column order. */
  function AllDiagnostics(unsupported: set<CastleType>, sheets: seq<Sheet>): seq<string>
  {
    FlatMap(s => SheetDiagnostics(unsupported, s), sheets)
  }

  /**
   * A column of an unsupported type adds exactly one diagnostic naming it and
   * its type, where it stands; every other column adds none, and the columns
   * around it contribute as they would without it.
   */
  lemma DiagnosticsSplit(unsupported: set<CastleType>, a: seq<Column>, c: Column, b: seq<Column>)
    ensures Diagnostics(unsupported, a + [c] + b) ==
            Diagnostics(unsupported, a)
            + (if c.typeId in unsupported then ["Sheet " + c.name + ", type " + TypeName(c.typeId) + " unsupported"] else [])
            + Diagnostics(unsupported, b)
  {
    FlatMapSplit(c => ColumnDiagnostic(unsupported, c), a, c, b);
  }

  /** Columns of supported types never produce a diagnostic. */
  lemma {:induction false} NoDiagnosticsWhenSupported(unsupported: set<CastleType>, cols: seq<Column>)
    requires forall c :: c in cols ==> c.typeId !in unsupported
    ensures Diagnostics(unsupported, cols) == []
  {
    if cols != [] {
      var init := cols[..|cols| - 1];
      assert forall c :: c in init ==> c in cols;
      NoDiagnosticsWhenSupported(unsupported, init);
    }
  }

  // ---------------------------------------------------------------------------
  // Enumerations and flags

  /** `1 << index` on a 32-bit C# int: the count is taken modulo 32 and bit 31 is the sign. */
  function FlagValue(index: nat): int
  {
    var shift := index % 32;
    if shift == 31 then -0x8000_0000 else Pow2(shift)
  }

  function Pow2(n: nat): (r: nat)
    ensures r >= 1
  {
    if n == 0 then 1 else 2 * Pow2(n - 1)
  }

  lemma {:induction false} Pow2Increasing(i: nat, j: nat)
    requires i < j
    ensures Pow2(i) < Pow2(j)
  {
    if j > i + 1 {
      Pow2Increasing(i, j - 1);
    }
  }

  /**
   * For fewer than 32 values the flag constants are 1, 2, 4, ..., 2^(n-1):
   * positive, pairwise distinct powers of two.
   */
  lemma FlagValuesDistinctPowers(n: nat)
    requires n <= 31
    ensures forall i :: 0 <= i < n ==> FlagValue(i) == Pow2(i) && FlagValue(i) > 0
    ensures forall i, j :: 0 <= i < j < n ==> FlagValue(i) < FlagValue(j)
  {
    forall i | 0 <= i < n
      ensures FlagValue(i) == Pow2(i)
    {
      assert i % 32 == i;
    }
    forall i, j | 0 <= i < j < n
      ensures FlagValue(i) < FlagValue(j)
    {
      Pow2Increasing(i, j);
    }
  }

  /** Beyond the native width the shift wraps: value 31 is negative, value 32 repeats value 0. */
  lemma FlagValuesWrap()
    ensures FlagValue(31) == -2147483648
    ensures FlagValue(32) == FlagValue(0) == 1
  {
  }

  /** The constants `COL_VALUE = 1 << index` for a Flags column, in declaration order. */
  function FlagConsts(prefix: string, values: seq<string>): seq<Line>
  {
    if values == [] then []
    else
      FlagConsts(prefix, values[..|values| - 1])
      + [FlagConst(prefix + Upper(values[|values| - 1]), FlagValue(|values| - 1))]
  }

  /** The i-th flag constant is named after the i-th value and equals 1 << i. */
  lemma {:induction false} FlagConstsAt(prefix: string, values: seq<string>)
    ensures |FlagConsts(prefix, values)| == |values|
    ensures forall i :: 0 <= i < |values| ==>
              FlagConsts(prefix, values)[i] == FlagConst(prefix + Upper(values[i]), FlagValue(i))
  {
    if values != [] {
      FlagConstsAt(prefix, values[..|values| - 1]);
    }
  }

  function EnumValueLine(v: string): seq<Line>
  {
    [EnumValue(Upper(v))]
  }

  /** `enum E_NAME { VALUE0, VALUE1, ... }` for an Enum column. */
  function EnumBlock(col: Column): seq<Line>
  {
    [EnumOpen("E_" + Upper(col.name))] + FlatMap(EnumValueLine, col.enumerations) + [EnumClose]
  }

  /** The enum declaration lists the column's values upper-cased, in declaration order. */
  lemma EnumBlockAt(col: Column)
    ensures |EnumBlock(col)| == |col.enumerations| + 2
    ensures EnumBlock(col)[0] == EnumOpen("E_" + Upper(col.name))
    ensures forall i :: 1 <= i <= |col.enumerations| ==> EnumBlock(col)[i] == EnumValue(Upper(col.enumerations[i - 1]))
    ensures EnumBlock(col)[|col.enumerations| + 1] == EnumClose
  {
    FlatMapSingletons(EnumValueLine, col.enumerations);
  }

  /** The declarations a column adds to the enumeration scan; `withFlags` is false for C#. */
  function ColumnEnums(withFlags: bool, col: Column): seq<Line>
  {
    if col.typeId == Enum then EnumBlock(col)
    else if col.typeId == Flags && withFlags then FlagConsts(Upper(col.name) + "_", col.enumerations)
    else []
  }

  function ColumnsEnums(withFlags: bool, cols: seq<Column>): seq<Line>
  {
    FlatMap(c => ColumnEnums(withFlags, c), cols)
  }

  function SheetEnums(withFlags: bool, sheet: Sheet): seq<Line>
  {
    ColumnsEnums(withFlags, sheet.columns)
  }

  /** The enumeration scan over every column of every sheet. */
  function EnumSection(withFlags: bool, sheets: seq<Sheet>): seq<Line>
  {
    FlatMap(s => SheetEnums(withFlags, s), sheets)
  }

  /** Lines that can only come from the enumeration scan. */
  predicate IsEnumLine(l: Line)
  {
    l.EnumOpen? || l.EnumValue? || l.EnumClose? || l.FlagConst?
  }

  /** Items that may appear between namespace braces after the declarations: no enum or flag declaration, no namespace brace. */
  predicate InNamespaceBody(l: Line)
  {
    !IsEnumLine(l) && !l.NamespaceOpen? && !l.NamespaceClose?
  }

  lemma {:induction false} FlatMapAll<T>(f: T -> seq<Line>, s: seq<T>, p: Line -> bool)
    requires forall x, i :: 0 <= i < |f(x)| ==> p(f(x)[i])
    ensures forall i :: 0 <= i < |FlatMap(f, s)| ==> p(FlatMap(f, s)[i])
  {
    if s != [] {
      FlatMapAll(f, s[..|s| - 1], p);
    }
  }

  /** The lines a column adds to the enumeration scan are enum or flag declarations only. */
  lemma ColumnEnumsOnlyEnums(withFlags: bool, c: Column, i: int)
    requires 0 <= i < |ColumnEnums(withFlags, c)|
    ensures IsEnumLine(ColumnEnums(withFlags, c)[i])
    ensures !withFlags ==> !ColumnEnums(withFlags, c)[i].FlagConst?
  {
    if c.typeId == Enum {
      EnumBlockAt(c);
    } else {
      assert c.typeId == Flags && withFlags;
      FlagConstsAt(Upper(c.name) + "_", c.enumerations);
    }
  }

  /** The enumeration scan emits enum and flag declarations only; without flags, no flag constant. */
  lemma EnumSectionOnlyEnums(withFlags: bool, sheets: seq<Sheet>)
    ensures forall i :: 0 <= i < |EnumSection(withFlags, sheets)| ==> IsEnumLine(EnumSection(withFlags, sheets)[i])
    ensures !withFlags ==> forall i :: 0 <= i < |EnumSection(withFlags, sheets)| ==> !EnumSection(withFlags, sheets)[i].FlagConst?
  {
    var p := (l: Line) => IsEnumLine(l) && (!withFlags ==> !l.FlagConst?);
    forall c: Column, i | 0 <= i < |ColumnEnums(withFlags, c)|
      ensures p(ColumnEnums(withFlags, c)[i])
    {
      ColumnEnumsOnlyEnums(withFlags, c, i);
    }
    forall s: Sheet, i | 0 <= i < |SheetEnums(withFlags, s)|
      ensures p(SheetEnums(withFlags, s)[i])
    {
      FlatMapAll(c => ColumnEnums(withFlags, c), s.columns, p);
    }
    FlatMapAll(s => SheetEnums(withFlags, s), sheets, p);
  }

  // ---------------------------------------------------------------------------
  // Forward declarations, database collections and the two-pass load

  function ForwardDeclLine(s: Sheet): seq<Line>
  {
    [ForwardDecl(ClassName(s.name))]
  }

  function ForwardDecls(sheets: seq<Sheet>): seq<Line>
  {
    FlatMap(ForwardDeclLine, sheets)
  }

  /** Exactly one forward declaration per sheet, in schema order, with '@' replaced by '_'. */
  lemma ForwardDeclsAt(sheets: seq<Sheet>)
    ensures |ForwardDecls(sheets)| == |sheets|
    ensures forall i :: 0 <= i < |sheets| ==>
              ForwardDecls(sheets)[i] == ForwardDecl(ClassName(sheets[i].name)) &&
              '@' !in ForwardDecls(sheets)[i].className
  {
    FlatMapSingletons(ForwardDeclLine, sheets);
  }

  /**
   * The branches of the database Load's dispatch chain: one per sheet without
   * '@', the first opened with `if` and every later one with `else if`.
   */
  function DispatchChain(sheets: seq<Sheet>): seq<Line>
  {
    if sheets == [] then []
    else
      var init, last := sheets[..|sheets| - 1], sheets[|sheets| - 1];
      DispatchChain(init)
      + if IsNested(last.name) then []
        else [Dispatch(if TopLevel(init) == [] then If else ElseIf, last.name)]
  }

  lemma DispatchChainPrefix(sheets: seq<Sheet>, i: nat)
    requires i < |sheets|
    ensures TopLevel(sheets[..i + 1]) == TopLevel(sheets[..i]) + if IsNested(sheets[i].name) then [] else [sheets[i]]
    ensures DispatchChain(sheets[..i + 1]) ==
            DispatchChain(sheets[..i])
            + if IsNested(sheets[i].name) then []
              else [Dispatch(if TopLevel(sheets[..i]) == [] then If else ElseIf, sheets[i].name)]
  {
    assert sheets[..i + 1][..i] == sheets[..i];
  }

  lemma {:induction false} DispatchChainAt(sheets: seq<Sheet>)
    ensures |DispatchChain(sheets)| == |TopLevel(sheets)|
    ensures forall k :: 0 <= k < |TopLevel(sheets)| ==>
              DispatchChain(sheets)[k] == Dispatch(if k == 0 then If else ElseIf, TopLevel(sheets)[k].name)
  {
    if sheets != [] {
      DispatchChainAt(sheets[..|sheets| - 1]);
    }
  }

  function ResolvePassLine(s: Sheet): seq<Line>
  {
    if HasReferences(s) then [ResolvePass(s.name)] else []
  }

  /** After loading: one resolve loop per sheet with references, in schema order. */
  function ResolvePasses(sheets: seq<Sheet>): seq<Line>
  {
    FlatMap(ResolvePassLine, sheets)
  }

  /** The sheets with references, in schema order (nested ones included). */
  function Referencing(sheets: seq<Sheet>): seq<Sheet>
  {
    if sheets == [] then []
    else
      var last := sheets[|sheets| - 1];
      Referencing(sheets[..|sheets| - 1]) + if HasReferences(last) then [last] else []
  }

  lemma {:induction false} ResolvePassesAt(sheets: seq<Sheet>)
    ensures |ResolvePasses(sheets)| == |Referencing(sheets)|
    ensures forall k :: 0 <= k < |Referencing(sheets)| ==>
              ResolvePasses(sheets)[k] == ResolvePass(Referencing(sheets)[k].name)
  {
    if sheets != [] {
      ResolvePassesAt(sheets[..|sheets| - 1]);
    }
  }

  /**
   * The database Load: read the sheets array, dispatch each by name, and only
   * after that loop resolve references.
   */
  function DatabaseLoadBody(sheets: seq<Sheet>, dbName: string): seq<Line>
  {
    [BodyOpen(DatabaseLoad(dbName)), SheetsLoopOpen] + DispatchChain(sheets) + [SheetsLoopClose]
    + ResolvePasses(sheets) + [BodyClose]
  }

  /** The items of the database Load: its braces and loop, dispatch branches and resolve passes, nothing else. */
  predicate LoadBodyLine(l: Line)
  {
    l.BodyOpen? || l.BodyClose? || l.SheetsLoopOpen? || l.SheetsLoopClose? || l.Dispatch? || l.ResolvePass?
  }

  lemma DatabaseLoadLines(sheets: seq<Sheet>, dbName: string)
    ensures forall l :: l in DatabaseLoadBody(sheets, dbName) ==> LoadBodyLine(l)
  {
    assert forall l :: l in DispatchChain(sheets) ==> l.Dispatch? by {
      DispatchChainAt(sheets);
    }
    assert forall l :: l in ResolvePasses(sheets) ==> l.ResolvePass? by {
      FlatMapOnly(ResolvePassLine, sheets, (l: Line) => l.ResolvePass?);
    }
  }

  /** Two phases: every dispatch branch comes before the loop closes, every resolve pass after it. */
  lemma DatabaseLoadTwoPhase(sheets: seq<Sheet>, dbName: string)
    ensures var body := DatabaseLoadBody(sheets, dbName);
            forall i, j :: 0 <= i < |body| && 0 <= j < |body| && body[i].Dispatch? && body[j].ResolvePass? ==> i < j
  {
    var front := [BodyOpen(DatabaseLoad(dbName)), SheetsLoopOpen] + DispatchChain(sheets);
    var back := [SheetsLoopClose] + ResolvePasses(sheets) + [BodyClose];
    assert DatabaseLoadBody(sheets, dbName) == front + back;
    LoadFrontHasNoPass(sheets, dbName, front);
    LoadBackHasNoDispatch(sheets, back);
    TwoPartOrder(front, back);
  }

  lemma LoadFrontHasNoPass(sheets: seq<Sheet>, dbName: string, front: seq<Line>)
    requires front == [BodyOpen(DatabaseLoad(dbName)), SheetsLoopOpen] + DispatchChain(sheets)
    ensures forall k :: 0 <= k < |front| ==> !front[k].ResolvePass?
  {
    var chain := DispatchChain(sheets);
    assert forall k :: 0 <= k < |chain| ==> chain[k].Dispatch? by {
      DispatchChainAt(sheets);
    }
    forall k | 0 <= k < |front|
      ensures !front[k].ResolvePass?
    {
      if k >= 2 {
        assert front[k] == chain[k - 2];
      }
    }
  }

  lemma LoadBackHasNoDispatch(sheets: seq<Sheet>, back: seq<Line>)
    requires back == [SheetsLoopClose] + ResolvePasses(sheets) + [BodyClose]
    ensures forall k :: 0 <= k < |back| ==> !back[k].Dispatch?
  {
    ResolvePassesAt(sheets);
    var passes := ResolvePasses(sheets);
    forall k | 0 <= k < |back|
      ensures !back[k].Dispatch?
    {
      if 1 <= k <= |passes| {
        assert back[k] == passes[k - 1];
      }
    }
  }

  lemma TwoPartOrder(front: seq<Line>, back: seq<Line>)
    requires forall k :: 0 <= k < |front| ==> !front[k].ResolvePass?
    requires forall k :: 0 <= k < |back| ==> !back[k].Dispatch?
    ensures forall i, j ::
              (0 <= i < |front + back| && 0 <= j < |front + back| &&
               (front + back)[i].Dispatch? && (front + back)[j].ResolvePass?) ==> i < j
  {
  }

  // ---------------------------------------------------------------------------
  // Reference resolution code

  /** A Ref column whose Key names no sheet: FirstOrDefault returns null there. */
  predicate Dangling(sheets: seq<Sheet>, c: Column)
  {
    c.typeId == Ref && FindSheet(sheets, c.key).None?
  }

  predicate SheetDangles(sheets: seq<Sheet>, s: Sheet)
  {
    exists c :: c in s.columns && Dangling(sheets, c)
  }

  /** The key field of the sheet a Ref column names (unused when the column dangles). */
  function KeyField(sheets: seq<Sheet>, key: string): string
  {
    match FindSheet(sheets, key)
    case Some(target) => target.keyName
    case None => ""
  }

  function ResolveScanLine(sheets: seq<Sheet>, c: Column): seq<Line>
  {
    if c.typeId == Ref then [ResolveScan(c.name, c.key, KeyField(sheets, c.key))] else []
  }

  /** The body of a sheet's ResolveReferences: one first-match scan per Ref column, in column order. */
  function ResolveScans(sheets: seq<Sheet>, cols: seq<Column>): seq<Line>
  {
    FlatMap(c => ResolveScanLine(sheets, c), cols)
  }

  /** The index of the first sheet holding a dangling Ref column, or the number of sheets. */
  function FirstDangling(all: seq<Sheet>, sheets: seq<Sheet>): (k: nat)
    ensures k <= |sheets|
    ensures forall i :: 0 <= i < k ==> !SheetDangles(all, sheets[i])
    ensures k < |sheets| ==> SheetDangles(all, sheets[k])
  {
    if sheets == [] then 0
    else if SheetDangles(all, sheets[0]) then 0
    else 1 + FirstDangling(all, sheets[1..])
  }

  /**
   * How many sheets a writer that resolves references inside its sheet loop
   * gets through: all of them, or up to and including the first sheet with a
   * dangling Ref column, where the exception is raised.
   */
  function SheetsReached(sheets: seq<Sheet>): (n: nat)
    ensures n <= |sheets|
    ensures (forall s :: s in sheets ==> !SheetDangles(sheets, s)) ==> n == |sheets|
  {
    var k := FirstDangling(sheets, sheets);
    if k < |sheets| then k + 1 else k
  }

  /** None of the first i sheets holds a dangling Ref column (stated one sheet at a time). */
  predicate CleanUpTo(sheets: seq<Sheet>, i: nat)
    requires i <= |sheets|
  {
    i == 0 || (CleanUpTo(sheets, i - 1) && !SheetDangles(sheets, sheets[i - 1]))
  }

  lemma {:induction false} CleanUpToAt(sheets: seq<Sheet>, i: nat)
    requires i <= |sheets| && CleanUpTo(sheets, i)
    ensures forall k :: 0 <= k < i ==> !SheetDangles(sheets, sheets[k])
  {
    if i > 0 {
      CleanUpToAt(sheets, i - 1);
    }
  }

  /** A sheet loop that has passed i clean sheets stops at sheet i exactly when that sheet dangles. */
  lemma SheetsReachedStop(sheets: seq<Sheet>, i: nat)
    requires i < |sheets| && CleanUpTo(sheets, i) && SheetDangles(sheets, sheets[i])
    ensures SheetsReached(sheets) == i + 1
  {
    CleanUpToAt(sheets, i);
  }

  /** A sheet loop that passes every sheet reaches them all, and no sheet dangles. */
  lemma SheetsReachedAll(sheets: seq<Sheet>)
    requires CleanUpTo(sheets, |sheets|)
    ensures SheetsReached(sheets) == |sheets|
    ensures forall s :: s in sheets ==> !SheetDangles(sheets, s)
  {
    CleanUpToAt(sheets, |sheets|);
  }
}
