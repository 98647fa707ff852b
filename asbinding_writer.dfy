/**
 * The AngelScript binding writer: a C++ header declaring the registration
 * function and a C++ source that defines factory functions and List getters
 * and registers, with the script engine, the enums, every sheet's class with
 * its properties, and the database class with its Load/Save methods.
 */
module ASBindingWriter {
  import opened Wrappers
  import opened Schema
  import opened Code
  import CppWriter

  /** The two generated files. */
  datatype BindingFiles = BindingFiles(header: seq<Line>, source: seq<Line>)

  const GateMessage: string := "Can only generate AS bindings for RefCounted derived types"

  /** The "inherits" switch must be exactly "RefCounted" (absent counts as ""). */
  predicate InheritsRefCounted(switches: map<string, string>)
  {
    "inherits" in switches && switches["inherits"] == "RefCounted"
  }

  /** Binary Load/Save are registered when "bin" is "on" or "only". */
  predicate BinIO(switches: map<string, string>)
  {
    "bin" in switches && (switches["bin"] == "on" || switches["bin"] == "only")
  }

  /** The JSON Load is left out when "bin" is "only". */
  predicate JsonOff(switches: map<string, string>)
  {
    "bin" in switches && switches["bin"] == "only"
  }

  function Banner(sourceFileName: string): Line
  {
    Verbatim("// AUTOGENERATED SOURCE CODE FROM " + sourceFileName)
  }

  const Includes: seq<Line> := [
    Include("AngelScript/angelscript.h"), Include("Urho3D/AngelScript/Addons.h"),
    Include("Urho3D/AngelScript/APITemplates.h")]

  function Header(dbName: string, sourceFileName: string): seq<Line>
  {
    [Banner(sourceFileName), Verbatim("#pragma once"), Verbatim("class asIScriptEngine;"), Declare(RegisterFunction(dbName))]
  }

  // ---------------------------------------------------------------------------
  // Factory functions and List getters (schema order)

  function ListGetterLine(cls: string, c: Column): seq<Line>
  {
    if c.typeId == List then [ListGetter(cls, c.name, c.key)] else []
  }

  function ListGetters(cls: string, cols: seq<Column>): seq<Line>
  {
    FlatMap(c => ListGetterLine(cls, c), cols)
  }

  function SheetFactory(s: Sheet): seq<Line>
  {
    [FactoryFunction(ClassName(s.name))] + ListGetters(ClassName(s.name), s.columns)
  }

  function Factories(sheets: seq<Sheet>): seq<Line>
  {
    FlatMap(SheetFactory, sheets)
  }

  // ---------------------------------------------------------------------------
  // Enum registration (schema order)

  /**
   * The two-argument `RegisterEnum(NAME, i)` for each value, with its index
   * as the integer; the enum type the value belongs to is not passed.
   */
  function EnumValueRegs(values: seq<string>): seq<Line>
  {
    if values == [] then []
    else EnumValueRegs(values[..|values| - 1]) + [RegisterEnumIndexed(Upper(values[|values| - 1]), |values| - 1)]
  }

  function ColumnEnumRegs(c: Column): seq<Line>
  {
    if c.typeId == Enum then [RegisterEnum("E_" + Upper(c.name))] + EnumValueRegs(c.enumerations) else []
  }

  function SheetEnumRegs(s: Sheet): seq<Line>
  {
    FlatMap(ColumnEnumRegs, s.columns)
  }

  function EnumRegs(sheets: seq<Sheet>): seq<Line>
  {
    FlatMap(SheetEnumRegs, sheets)
  }

  // ---------------------------------------------------------------------------
  // Type and property registration (sorted order)

  function TypeReg(s: Sheet): seq<Line>
  {
    [RegisterRefCounted(ClassName(s.name)), RegisterFactory(ClassName(s.name))]
  }

  function TypeRegs(sheets: seq<Sheet>): seq<Line>
  {
    FlatMap(TypeReg, sheets)
  }

  /** `Replace("*", "@+")`: a C++ pointer becomes a script handle. */
  function ReplaceStar(s: string): (r: string)
    ensures '*' !in r
    ensures '*' !in s ==> r == s
    ensures |r| >= |s|
  {
    if s == [] then []
    else (if s[0] == '*' then "@+" else [s[0]]) + ReplaceStar(s[1..])
  }

  /** Replacing works piece by piece. */
  lemma {:induction false} ReplaceStarAppend(a: string, b: string)
    ensures ReplaceStar(a + b) == ReplaceStar(a) + ReplaceStar(b)
  {
    if a == [] {
      assert a + b == b;
    } else {
      var head := if a[0] == '*' then "@+" else [a[0]];
      assert (a + b)[0] == a[0] && (a + b)[1..] == a[1..] + b;
      assert ReplaceStar(a + b) == head + ReplaceStar(a[1..] + b);
      ReplaceStarAppend(a[1..], b);
      assert ReplaceStar(a) == head + ReplaceStar(a[1..]);
    }
  }

  /** One character: '*' becomes "@+", any other character stays. */
  lemma ReplaceStarChar(c: char)
    ensures ReplaceStar([c]) == if c == '*' then "@+" else [c]
  {
    assert [c][1..] == [];
  }

  /** A C++ pointer to a type whose name has no '*' becomes a handle to that type. */
  lemma ReplaceStarPointer(name: string)
    requires '*' !in name
    ensures ReplaceStar(name + "*") == name + "@+"
  {
    ReplaceStarAppend(name, "*");
    ReplaceStarChar('*');
  }

  /** A Custom column whose type exists but has no constructor: `Constructors[0]` throws. */
  predicate MissingConstructor(customs: seq<CustomType>, c: Column)
  {
    c.typeId == Custom && FindCustom(customs, c.key).Some? && FindCustom(customs, c.key).value.constructors == []
  }

  predicate SheetThrows(customs: seq<CustomType>, s: Sheet)
  {
    exists c :: c in s.columns && MissingConstructor(customs, c)
  }

  /**
   * The script type a column is registered as a property with, or nothing
   * (List columns get a getter method instead; Layer and TilePos get nothing;
   * a Custom column only when its type exists and its first constructor does
   * not return void).
   */
  function ScriptType(customs: seq<CustomType>, c: Column): Option<string>
  {
    match c.typeId
    case UniqueIdentifier => Some("String")
    case File => Some("String")
    case Image => Some("String")
    case Text => Some("String")
    case Integer => Some("int")
    case Enum => Some("int")
    case Flags => Some("uint")
    case Float => Some("float")
    case Boolean => Some("bool")
    case Color => Some("Color")
    case Ref => Some(c.key + "@+")
    case Dynamic => Some("JSONValue")
    case TileLayer => Some("CastleTileLayer@+")
    case Custom =>
      (match FindCustom(customs, c.key)
       case None => None
       case Some(custom) =>
         if custom.constructors == [] || custom.constructors[0].returnType == "void" then None
         else Some(ReplaceStar(custom.constructors[0].returnType)))
    case List => None
    case Layer => None
    case TilePos => None
  }

  function PropertyLine(customs: seq<CustomType>, cls: string, c: Column): seq<Line>
  {
    if c.typeId == List then [RegisterListGetter(cls, c.key, c.name)]
    else match ScriptType(customs, c)
      case Some(t) => [RegisterProperty(cls, t, c.name)]
      case None => []
  }

  function SheetProps(customs: seq<CustomType>, s: Sheet): seq<Line>
  {
    FlatMap(c => PropertyLine(customs, ClassName(s.name), c), s.columns)
  }

  function PropertyRegs(customs: seq<CustomType>, sheets: seq<Sheet>): seq<Line>
  {
    FlatMap(s => SheetProps(customs, s), sheets)
  }

  // ---------------------------------------------------------------------------
  // The database registration

  function JsonLoad(dbName: string): Line
  {
    RegisterMethod(dbName, "Load", "JSONFile@+", "Load", "JSONFile*")
  }

  function BinaryLoad(dbName: string): Line
  {
    RegisterMethod(dbName, "Load", "Deserializer&", "Load", "Deserializer&")
  }

  /** The script's Save as the source registers it: bound to the native Load. */
  function SaveAsWritten(dbName: string): Line
  {
    RegisterMethod(dbName, "Save", "Serializer&", "Load", "Serializer&")
  }

  /** The script's Save bound to the native Save, as evidently intended. */
  function Save(dbName: string): Line
  {
    RegisterMethod(dbName, "Save", "Serializer&", "Save", "Serializer&")
  }

  /** The database methods as the source registers them. */
  function DbMethods(switches: map<string, string>, dbName: string): seq<Line>
  {
    (if !JsonOff(switches) then [JsonLoad(dbName)] else [])
    + (if BinIO(switches) then [BinaryLoad(dbName), SaveAsWritten(dbName)] else [])
  }

  /** The database methods with the script's Save bound to the native Save. */
  function DbMethodsIntended(switches: map<string, string>, dbName: string): seq<Line>
  {
    (if !JsonOff(switches) then [JsonLoad(dbName)] else [])
    + (if BinIO(switches) then [BinaryLoad(dbName), Save(dbName)] else [])
  }

  /** The source file: `unsorted` is the schema's sheet order, `sorted` the order after the dependency sort. */
  function Source(unsorted: seq<Sheet>, sorted: seq<Sheet>, customs: seq<CustomType>,
                  switches: map<string, string>, sourceFileName: string): seq<Line>
  {
    var dbName := DbName(switches);
    [Banner(sourceFileName)] + Includes + Factories(unsorted) + [FactoryFunction(dbName)]
    + [BodyOpen(RegisterFunction(dbName))] + EnumRegs(unsorted) + TypeRegs(sorted) + PropertyRegs(customs, sorted)
    + [RegisterRefCounted(dbName), RegisterFactory(dbName)] + DbMethods(switches, dbName) + [BodyClose]
  }

  /** What the writer produces once the gate is passed and the sheets are sorted. */
  function Result(unsorted: seq<Sheet>, sorted: seq<Sheet>, customs: seq<CustomType>,
                  switches: map<string, string>, sourceFileName: string): Outcome<BindingFiles>
  {
    if exists s :: s in sorted && SheetThrows(customs, s) then Threw(IndexOutOfRange)
    else Wrote(BindingFiles(Header(DbName(switches), sourceFileName), Source(unsorted, sorted, customs, switches, sourceFileName)))
  }

  // ---------------------------------------------------------------------------
  // Properties

  /**
   * "bin" = "only" registers the binary pair alone, "on" the JSON Load and
   * the binary pair, anything else (or no "bin") the JSON Load alone.
   */
  lemma BinModes(switches: map<string, string>, dbName: string)
    ensures "bin" in switches && switches["bin"] == "only" ==>
              DbMethods(switches, dbName) == [BinaryLoad(dbName), SaveAsWritten(dbName)]
    ensures "bin" in switches && switches["bin"] == "on" ==>
              DbMethods(switches, dbName) == [JsonLoad(dbName), BinaryLoad(dbName), SaveAsWritten(dbName)]
    ensures !("bin" in switches && switches["bin"] in {"on", "only"}) ==>
              DbMethods(switches, dbName) == [JsonLoad(dbName)]
    ensures JsonLoad(dbName) in DbMethods(switches, dbName) <==> !JsonOff(switches)
    ensures BinaryLoad(dbName) in DbMethods(switches, dbName) <==> BinIO(switches)
  {
  }

  /** No part of the source file other than the database methods registers a method. */
  lemma OnlyDbMethodsRegisterMethods(unsorted: seq<Sheet>, sorted: seq<Sheet>, customs: seq<CustomType>,
                                     switches: map<string, string>, sourceFileName: string)
    ensures forall l :: l in Source(unsorted, sorted, customs, switches, sourceFileName) && l.RegisterMethod? ==>
              l in DbMethods(switches, DbName(switches))
    ensures forall l :: l in DbMethods(switches, DbName(switches)) ==> l in Source(unsorted, sorted, customs, switches, sourceFileName)
  {
    var db := DbName(switches);
    var front := [Banner(sourceFileName)] + Includes;
    assert forall l :: l in front ==> !l.RegisterMethod?;
    front := front + Factories(unsorted) + [FactoryFunction(db)] + [BodyOpen(RegisterFunction(db))];
    assert forall l :: l in front ==> !l.RegisterMethod? by {
      FactoriesRegisterNoMethod(unsorted);
    }
    front := front + EnumRegs(unsorted);
    assert forall l :: l in front ==> !l.RegisterMethod? by {
      EnumRegsRegisterNoMethod(unsorted);
    }
    front := front + TypeRegs(sorted);
    assert forall l :: l in front ==> !l.RegisterMethod? by {
      FlatMapOnly(TypeReg, sorted, (l: Line) => !l.RegisterMethod?);
    }
    front := front + PropertyRegs(customs, sorted) + [RegisterRefCounted(db), RegisterFactory(db)];
    assert forall l :: l in front ==> !l.RegisterMethod? by {
      PropertyRegsRegisterNoMethod(customs, sorted);
    }
    assert Source(unsorted, sorted, customs, switches, sourceFileName) == front + DbMethods(switches, db) + [BodyClose];
  }

  lemma FactoriesRegisterNoMethod(sheets: seq<Sheet>)
    ensures forall l :: l in Factories(sheets) ==> !l.RegisterMethod?
  {
    var notMethod := (l: Line) => !l.RegisterMethod?;
    forall s: Sheet, l | l in SheetFactory(s)
      ensures notMethod(l)
    {
      FlatMapOnly(c => ListGetterLine(ClassName(s.name), c), s.columns, notMethod);
    }
    FlatMapOnly(SheetFactory, sheets, notMethod);
  }

  lemma EnumRegsRegisterNoMethod(sheets: seq<Sheet>)
    ensures forall l :: l in EnumRegs(sheets) ==> !l.RegisterMethod?
  {
    var notMethod := (l: Line) => !l.RegisterMethod?;
    forall c: Column, l | l in ColumnEnumRegs(c)
      ensures notMethod(l)
    {
      ColumnEnumRegsAt(c);
      var k :| 0 <= k < |ColumnEnumRegs(c)| && ColumnEnumRegs(c)[k] == l;
      if k > 0 {
        assert ColumnEnumRegs(c)[(k - 1) + 1] == RegisterEnumIndexed(Upper(c.enumerations[k - 1]), k - 1);
      }
    }
    forall s: Sheet, l | l in SheetEnumRegs(s)
      ensures notMethod(l)
    {
      FlatMapOnly(ColumnEnumRegs, s.columns, notMethod);
    }
    FlatMapOnly(SheetEnumRegs, sheets, notMethod);
  }

  lemma PropertyRegsRegisterNoMethod(customs: seq<CustomType>, sheets: seq<Sheet>)
    ensures forall l :: l in PropertyRegs(customs, sheets) ==> !l.RegisterMethod?
  {
    var notMethod := (l: Line) => !l.RegisterMethod?;
    forall s: Sheet, l | l in SheetProps(customs, s)
      ensures notMethod(l)
    {
      FlatMapOnly(c => PropertyLine(customs, ClassName(s.name), c), s.columns, notMethod);
    }
    FlatMapOnly(s => SheetProps(customs, s), sheets, notMethod);
  }

  /**
   * With binary I/O on, the source file registers the script's Save bound to
   * the native Load and never to the native Save; every script Save it
   * registers is that one.
   */
  lemma SaveBindsLoad(unsorted: seq<Sheet>, sorted: seq<Sheet>, customs: seq<CustomType>,
                      switches: map<string, string>, sourceFileName: string)
    ensures var src, db := Source(unsorted, sorted, customs, switches, sourceFileName), DbName(switches);
            (BinIO(switches) ==> SaveAsWritten(db) in src) &&
            Save(db) !in src &&
            forall l :: l in src && l.RegisterMethod? && l.scriptName == "Save" ==>
              BinIO(switches) && l == SaveAsWritten(db) && l.nativeName == "Load"
  {
    var db := DbName(switches);
    OnlyDbMethodsRegisterMethods(unsorted, sorted, customs, switches, sourceFileName);
    assert Save(db) !in DbMethods(switches, db);
    assert BinIO(switches) ==> SaveAsWritten(db) in DbMethods(switches, db);
  }

  /** Every database method of the corrected registration binds a script method to the native method of the same name and parameters. */
  lemma DbMethodsBindLikeNames(switches: map<string, string>, dbName: string)
    ensures forall l :: l in DbMethodsIntended(switches, dbName) ==>
              l.RegisterMethod? && l.className == dbName && l.scriptName == l.nativeName &&
              (l != JsonLoad(dbName) ==> l.scriptParams == l.nativeParams)
    ensures |DbMethodsIntended(switches, dbName)| == |DbMethods(switches, dbName)|
    ensures forall i :: 0 <= i < |DbMethods(switches, dbName)| ==>
              DbMethodsIntended(switches, dbName)[i] ==
              if DbMethods(switches, dbName)[i] == SaveAsWritten(dbName) then Save(dbName) else DbMethods(switches, dbName)[i]
  {
    var json := if !JsonOff(switches) then [JsonLoad(dbName)] else [];
    if BinIO(switches) {
      assert DbMethods(switches, dbName) == json + [BinaryLoad(dbName), SaveAsWritten(dbName)];
      assert DbMethodsIntended(switches, dbName) == json + [BinaryLoad(dbName), Save(dbName)];
    } else {
      assert DbMethods(switches, dbName) == json == DbMethodsIntended(switches, dbName);
    }
  }

  lemma {:induction false} EnumValueRegsAt(values: seq<string>)
    ensures |EnumValueRegs(values)| == |values|
    ensures forall i :: 0 <= i < |values| ==> EnumValueRegs(values)[i] == RegisterEnumIndexed(Upper(values[i]), i)
  {
    if values != [] {
      EnumValueRegsAt(values[..|values| - 1]);
    }
  }

  /** An Enum column registers its enum type first, then each value with its index, in order; other columns register none. */
  lemma ColumnEnumRegsAt(c: Column)
    ensures c.typeId != Enum ==> ColumnEnumRegs(c) == []
    ensures c.typeId == Enum ==>
              |ColumnEnumRegs(c)| == 1 + |c.enumerations| &&
              ColumnEnumRegs(c)[0] == RegisterEnum("E_" + Upper(c.name)) &&
              forall i :: 0 <= i < |c.enumerations| ==>
                ColumnEnumRegs(c)[i + 1] == RegisterEnumIndexed(Upper(c.enumerations[i]), i)
  {
    if c.typeId == Enum {
      var regs := EnumValueRegs(c.enumerations);
      EnumValueRegsAt(c.enumerations);
      assert ColumnEnumRegs(c) == [RegisterEnum("E_" + Upper(c.name))] + regs;
      forall i | 0 <= i < |c.enumerations|
        ensures ColumnEnumRegs(c)[i + 1] == RegisterEnumIndexed(Upper(c.enumerations[i]), i)
      {
        assert ColumnEnumRegs(c)[i + 1] == regs[i];
      }
    }
  }

  /** Registered ordinals are exactly 0..n-1: the value registered as i is the i-th enumeration value. */
  lemma EnumOrdinalsExact(c: Column, name: string, v: int)
    requires c.typeId == Enum
    ensures RegisterEnumIndexed(name, v) in ColumnEnumRegs(c) <==>
              0 <= v < |c.enumerations| && name == Upper(c.enumerations[v])
  {
    ColumnEnumRegsAt(c);
    var regs := ColumnEnumRegs(c);
    if RegisterEnumIndexed(name, v) in regs {
      var k :| 0 <= k < |regs| && regs[k] == RegisterEnumIndexed(name, v);
      assert k != 0;
      assert regs[(k - 1) + 1] == RegisterEnumIndexed(Upper(c.enumerations[k - 1]), k - 1);
    }
    if 0 <= v < |c.enumerations| && name == Upper(c.enumerations[v]) {
      assert regs[v + 1] == RegisterEnumIndexed(name, v);
    }
  }

  /** Each sheet, in sorted order, is registered as a reference type with its factory, '@' replaced by '_'. */
  lemma TypeRegsAt(sheets: seq<Sheet>)
    ensures |TypeRegs(sheets)| == 2 * |sheets|
    ensures forall k :: 0 <= k < |sheets| ==>
              TypeRegs(sheets)[2 * k] == RegisterRefCounted(ClassName(sheets[k].name)) &&
              TypeRegs(sheets)[2 * k + 1] == RegisterFactory(ClassName(sheets[k].name))
  {
    TypeRegsLength(sheets);
    forall k | 0 <= k < |sheets|
      ensures TypeRegs(sheets)[2 * k] == RegisterRefCounted(ClassName(sheets[k].name))
      ensures TypeRegs(sheets)[2 * k + 1] == RegisterFactory(ClassName(sheets[k].name))
    {
      TypeRegAt(sheets, k);
    }
  }

  lemma {:induction false} TypeRegsLength(sheets: seq<Sheet>)
    ensures |TypeRegs(sheets)| == 2 * |sheets|
  {
    if sheets != [] {
      TypeRegsLength(sheets[..|sheets| - 1]);
    }
  }

  lemma {:induction false} TypeRegAt(sheets: seq<Sheet>, k: nat)
    requires k < |sheets|
    ensures 2 * k + 1 < |TypeRegs(sheets)|
    ensures TypeRegs(sheets)[2 * k] == RegisterRefCounted(ClassName(sheets[k].name))
    ensures TypeRegs(sheets)[2 * k + 1] == RegisterFactory(ClassName(sheets[k].name))
  {
    var init := sheets[..|sheets| - 1];
    var front := TypeRegs(init);
    assert TypeRegs(sheets) == front + TypeReg(sheets[|sheets| - 1]);
    assert |front| == 2 * |init| by {
      TypeRegsLength(init);
    }
    if k < |init| {
      assert 2 * k + 1 < |front| && front[2 * k] == RegisterRefCounted(ClassName(init[k].name)) &&
             front[2 * k + 1] == RegisterFactory(ClassName(init[k].name)) by {
        TypeRegAt(init, k);
      }
      assert init[k] == sheets[k];
    } else {
      assert 2 * k == |front|;
    }
  }

  /**
   * The sort only reorders: every sheet given a factory function (schema
   * order) is registered with the engine (sorted order), and no other.
   */
  lemma FactoriesAndRegistrationsAgree(unsorted: seq<Sheet>, sorted: seq<Sheet>, cls: string)
    requires multiset(sorted) == multiset(unsorted)
    ensures FactoryFunction(cls) in Factories(unsorted) <==> exists s :: s in unsorted && ClassName(s.name) == cls
    ensures RegisterFactory(cls) in TypeRegs(sorted) <==> exists s :: s in unsorted && ClassName(s.name) == cls
  {
    forall s ensures s in sorted <==> s in unsorted {
      assert s in sorted <==> s in multiset(sorted);
      assert s in unsorted <==> s in multiset(unsorted);
    }
    forall s | s in unsorted
      ensures FactoryFunction(cls) in SheetFactory(s) <==> ClassName(s.name) == cls
    {
      assert forall l :: l in ListGetters(ClassName(s.name), s.columns) ==> l.ListGetter? by {
        FlatMapOnly(c => ListGetterLine(ClassName(s.name), c), s.columns, (l: Line) => l.ListGetter?);
      }
    }
    FlatMapIn(SheetFactory, unsorted, FactoryFunction(cls));
    FlatMapIn(TypeReg, sorted, RegisterFactory(cls));
  }

  /** Each List column gets one getter function and one `get_` method registration, and nothing else does. */
  lemma ListGettersExactly(customs: seq<CustomType>, s: Sheet, l: Line)
    ensures l in ListGetters(ClassName(s.name), s.columns) <==>
              exists c :: c in s.columns && c.typeId == List && l == ListGetter(ClassName(s.name), c.name, c.key)
    ensures l.RegisterListGetter? ==>
              (l in SheetProps(customs, s) <==>
               exists c :: c in s.columns && c.typeId == List && l == RegisterListGetter(ClassName(s.name), c.key, c.name))
  {
    var cls := ClassName(s.name);
    FlatMapIn(c => ListGetterLine(cls, c), s.columns, l);
    FlatMapIn(c => PropertyLine(customs, cls, c), s.columns, l);
  }

  /** Layer and TilePos columns register nothing (and no diagnostic exists in this writer). */
  lemma LayerAndTilePosSkipped(customs: seq<CustomType>, sheet: Sheet, a: seq<Column>, c: Column, b: seq<Column>)
    requires c.typeId in {Layer, TilePos}
    ensures var s := Sheet(sheet.name, a + [c] + b, sheet.keyName);
            SheetProps(customs, s) == SheetProps(customs, Sheet(sheet.name, a, sheet.keyName)) + SheetProps(customs, Sheet(sheet.name, b, sheet.keyName))
  {
    FlatMapSplit(x => PropertyLine(customs, ClassName(sheet.name), x), a, c, b);
  }

  /**
   * Property registrations correspond to the columns, other than List
   * columns, that have a script type: each registers its own name with that
   * type on the sheet's class.
   */
  lemma PropertiesNameColumns(customs: seq<CustomType>, s: Sheet, l: Line)
    ensures l in SheetProps(customs, s) && l.RegisterProperty? <==>
              exists c :: c in s.columns && c.typeId != List && ScriptType(customs, c).Some? &&
                l == RegisterProperty(ClassName(s.name), ScriptType(customs, c).value, c.name)
  {
    FlatMapIn(c => PropertyLine(customs, ClassName(s.name), c), s.columns, l);
  }

  /** The script type a C++ member type is exposed as: unsigned as uint, a pointer as a handle, an enum as int. */
  function ScriptOfCpp(cppType: string): string
  {
    if cppType == "unsigned" then "uint"
    else if |cppType| > 0 && cppType[|cppType| - 1] == '*' then ReplaceStar(cppType)
    else if |cppType| >= 2 && cppType[..2] == "E_" then "int"
    else cppType
  }

  /**
   * Agreement with the C++ writer: a column it declares a member for is
   * registered under the member's name, with the script type of the member's
   * C++ type.
   */
  lemma PropertiesMatchCppFields(customs: seq<CustomType>, s: Sheet, c: Column)
    requires c in s.columns && c.typeId !in {Float, Dynamic, TileLayer, Custom, List, Layer, TilePos}
    requires '*' !in c.name && '*' !in c.key
    ensures exists f :: f in CppWriter.Decls(s, s.columns) && f.Field? && f.fieldName == c.name &&
              RegisterProperty(ClassName(s.name), ScriptOfCpp(f.typeName), c.name) in SheetProps(customs, s)
  {
    var cls := ClassName(s.name);
    var f := CppWriter.ColumnDecl(s, c)[0];
    assert f.Field? && f.fieldName == c.name && ScriptType(customs, c) == Some(ScriptOfCpp(f.typeName)) by {
      MemberScriptType(customs, s, c);
    }
    FlatMapIn(x => CppWriter.ColumnDecl(s, x), s.columns, f);
    FlatMapIn(x => PropertyLine(customs, cls, x), s.columns, RegisterProperty(cls, ScriptOfCpp(f.typeName), c.name));
  }

  lemma MemberScriptType(customs: seq<CustomType>, s: Sheet, c: Column)
    requires c.typeId !in {Float, Dynamic, TileLayer, Custom, List, Layer, TilePos}
    requires '*' !in c.name && '*' !in c.key
    ensures CppWriter.ColumnDecl(s, c) != [] && CppWriter.ColumnDecl(s, c)[0].Field?
    ensures CppWriter.ColumnDecl(s, c)[0].fieldName == c.name
    ensures ScriptType(customs, c) == Some(ScriptOfCpp(CppWriter.ColumnDecl(s, c)[0].typeName))
  {
    match c.typeId {
      case Ref =>
        ReplaceStarPointer(c.key);
      case Enum =>
        EnumMemberScriptType(c.name);
      case Flags =>
      case Integer =>
        assert "int"[..2] == "in";
      case Boolean =>
        assert "bool"[..2] == "bo";
      case Color =>
        assert "Color"[..2] == "Co";
      case UniqueIdentifier | File | Image | Text =>
        assert "String"[..2] == "St";
    }
  }

  /** The C++ enum type of a column is exposed as int. */
  lemma EnumMemberScriptType(name: string)
    requires '*' !in name
    ensures ScriptOfCpp("E_" + Upper(name)) == "int"
  {
    var t := "E_" + Upper(name);
    assert t[..2] == "E_";
    if name != [] {
      assert t[|t| - 1] == Upper(name)[|name| - 1];
      assert name[|name| - 1] != '*';
    }
  }

  /**
   * Float, Dynamic and TileLayer columns are registered with `offsetof` on a
   * member the C++ writer does not declare for them: a C++ member of that
   * name can only come from another column.
   */
  lemma PropertiesWithoutCppField(customs: seq<CustomType>, s: Sheet, c: Column)
    requires c in s.columns && c.typeId in {Float, Dynamic, TileLayer}
    ensures RegisterProperty(ClassName(s.name), ScriptType(customs, c).value, c.name) in SheetProps(customs, s)
    ensures forall f :: f in CppWriter.Decls(s, s.columns) && f.Field? && f.fieldName == c.name ==>
              exists d :: d in s.columns && d != c && (d.name == c.name || d.name + "Key" == c.name)
  {
    var cls := ClassName(s.name);
    FlatMapIn(x => PropertyLine(customs, cls, x), s.columns, RegisterProperty(cls, ScriptType(customs, c).value, c.name));
    forall f | f in CppWriter.Decls(s, s.columns) && f.Field? && f.fieldName == c.name
      ensures exists d :: d in s.columns && d != c && (d.name == c.name || d.name + "Key" == c.name)
    {
      FlatMapIn(x => CppWriter.ColumnDecl(s, x), s.columns, f);
      var d :| d in s.columns && f in CppWriter.ColumnDecl(s, d);
      CppMemberName(s, d, f);
    }
  }

  /** A C++ member is named after its column (a Ref's key string with "Key" appended); these three types declare none. */
  lemma CppMemberName(s: Sheet, d: Column, f: Line)
    requires f in CppWriter.ColumnDecl(s, d)
    ensures f.Field? && (f.fieldName == d.name || f.fieldName == d.name + "Key")
    ensures d.typeId !in {Float, Dynamic, TileLayer}
  {
  }

  /**
   * A Custom column is registered iff its type exists and the first
   * constructor's return type is not "void", and then with that type's '*'
   * turned into '@+'.
   */
  lemma CustomProperty(customs: seq<CustomType>, cls: string, c: Column)
    requires c.typeId == Custom && !MissingConstructor(customs, c)
    ensures (forall t :: t in customs ==> t.name != c.key) ==> PropertyLine(customs, cls, c) == []
    ensures PropertyLine(customs, cls, c) != [] <==>
              FindCustom(customs, c.key).Some? && FindCustom(customs, c.key).value.constructors[0].returnType != "void"
    ensures PropertyLine(customs, cls, c) != [] ==>
              var custom := FindCustom(customs, c.key).value;
              custom in customs && custom.name == c.key &&
              PropertyLine(customs, cls, c) == [RegisterProperty(cls, ReplaceStar(custom.constructors[0].returnType), c.name)] &&
              '*' !in PropertyLine(customs, cls, c)[0].typeName
  {
  }

  // ---------------------------------------------------------------------------
  // One more element of a fold

  lemma FactoriesStep(sheets: seq<Sheet>, i: nat)
    requires i <= |sheets|
    ensures Factories(sheets[..|sheets|]) == Factories(sheets)
    ensures i < |sheets| ==> Factories(sheets[..i + 1]) == Factories(sheets[..i]) + SheetFactory(sheets[i])
  {
    FlatMapWhole(SheetFactory, sheets);
    if i < |sheets| {
      FlatMapPrefix(SheetFactory, sheets, i);
    }
  }

  lemma ListGettersStep(cls: string, cols: seq<Column>, j: nat)
    requires j <= |cols|
    ensures ListGetters(cls, cols[..|cols|]) == ListGetters(cls, cols)
    ensures j < |cols| ==> ListGetters(cls, cols[..j + 1]) == ListGetters(cls, cols[..j]) + ListGetterLine(cls, cols[j])
  {
    assert cols[..|cols|] == cols;
    if j < |cols| {
      FlatMapPrefix(c => ListGetterLine(cls, c), cols, j);
    }
  }

  lemma EnumRegsStep(sheets: seq<Sheet>, i: nat)
    requires i <= |sheets|
    ensures EnumRegs(sheets[..|sheets|]) == EnumRegs(sheets)
    ensures i < |sheets| ==> EnumRegs(sheets[..i + 1]) == EnumRegs(sheets[..i]) + SheetEnumRegs(sheets[i])
  {
    FlatMapWhole(SheetEnumRegs, sheets);
    if i < |sheets| {
      FlatMapPrefix(SheetEnumRegs, sheets, i);
    }
  }

  lemma SheetEnumRegsStep(cols: seq<Column>, j: nat)
    requires j <= |cols|
    ensures FlatMap(ColumnEnumRegs, cols[..|cols|]) == FlatMap(ColumnEnumRegs, cols)
    ensures j < |cols| ==> FlatMap(ColumnEnumRegs, cols[..j + 1]) == FlatMap(ColumnEnumRegs, cols[..j]) + ColumnEnumRegs(cols[j])
  {
    FlatMapWhole(ColumnEnumRegs, cols);
    if j < |cols| {
      FlatMapPrefix(ColumnEnumRegs, cols, j);
    }
  }

  lemma TypeRegsStep(sheets: seq<Sheet>, i: nat)
    requires i <= |sheets|
    ensures TypeRegs(sheets[..|sheets|]) == TypeRegs(sheets)
    ensures i < |sheets| ==> TypeRegs(sheets[..i + 1]) == TypeRegs(sheets[..i]) + TypeReg(sheets[i])
  {
    FlatMapWhole(TypeReg, sheets);
    if i < |sheets| {
      FlatMapPrefix(TypeReg, sheets, i);
    }
  }

  lemma PropertyRegsStep(customs: seq<CustomType>, sheets: seq<Sheet>, i: nat)
    requires i <= |sheets|
    ensures PropertyRegs(customs, sheets[..|sheets|]) == PropertyRegs(customs, sheets)
    ensures i < |sheets| ==> PropertyRegs(customs, sheets[..i + 1]) == PropertyRegs(customs, sheets[..i]) + SheetProps(customs, sheets[i])
  {
    assert sheets[..|sheets|] == sheets;
    if i < |sheets| {
      FlatMapPrefix(s => SheetProps(customs, s), sheets, i);
    }
  }

  lemma SheetPropsStep(customs: seq<CustomType>, cls: string, cols: seq<Column>, j: nat)
    requires j <= |cols|
    ensures FlatMap(c => PropertyLine(customs, cls, c), cols[..|cols|]) == FlatMap(c => PropertyLine(customs, cls, c), cols)
    ensures j < |cols| ==> FlatMap(c => PropertyLine(customs, cls, c), cols[..j + 1]) ==
                           FlatMap(c => PropertyLine(customs, cls, c), cols[..j]) + PropertyLine(customs, cls, cols[j])
  {
    assert cols[..|cols|] == cols;
    if j < |cols| {
      FlatMapPrefix(c => PropertyLine(customs, cls, c), cols, j);
    }
  }

  // ---------------------------------------------------------------------------
  // The writer

  /**
   * WriteClassDefinitions: refuses (one diagnostic, no files, schema untouched)
   * unless "inherits" is "RefCounted"; otherwise sorts the schema's sheets in
   * place and builds both files, appending no diagnostic. The files are
   * written only when no exception was raised (the write is left to the caller).
   */
  method WriteClassDefinitions(database: CastleDB, sourceFileName: string, switches: map<string, string>, errors: ErrorList)
    returns (outcome: Outcome<BindingFiles>)
    requires database != errors as object
    modifies errors, database
    ensures !InheritsRefCounted(switches) ==>
              errors.items == old(errors.items) + [GateMessage] && outcome == WroteNothing &&
              database.sheets == old(database.sheets)
    ensures InheritsRefCounted(switches) ==>
              errors.items == old(errors.items) &&
              multiset(database.sheets) == multiset(old(database.sheets)) &&
              outcome == Result(old(database.sheets), database.sheets, database.customTypes, switches, sourceFileName)
    ensures database.customTypes == old(database.customTypes)
  {
    var sourceCode := [Banner(sourceFileName)] + Includes;
    var inherits := "";
    if "inherits" in switches {
      inherits := switches["inherits"];
    }
    if inherits != "RefCounted" {
      errors.Add(GateMessage);
      return WroteNothing;
    }
    var dbName := DbName(switches);
    var binIO, jsonOff := false, false;
    if "bin" in switches {
      binIO := switches["bin"] == "on" || switches["bin"] == "only";
      jsonOff := switches["bin"] == "only";
    }
    ghost var unsorted := database.sheets;
    var factories := WriteFactories(database.sheets);
    sourceCode := sourceCode + factories + [FactoryFunction(dbName)];
    var headerCode := [Banner(sourceFileName), Verbatim("#pragma once"), Verbatim("class asIScriptEngine;"),
                       Declare(RegisterFunction(dbName))];
    sourceCode := sourceCode + [BodyOpen(RegisterFunction(dbName))];
    var enums := WriteEnumRegistrations(database.sheets);
    sourceCode := sourceCode + enums;
    SortSheets(database);
    var types := WriteTypeRegistrations(database.sheets);
    sourceCode := sourceCode + types;
    var props := WritePropertyRegistrations(database.sheets, database.customTypes);
    if props.None? {
      return Threw(IndexOutOfRange);
    }
    sourceCode := sourceCode + props.value + [RegisterRefCounted(dbName), RegisterFactory(dbName)];
    ghost var front := sourceCode;
    if !jsonOff {
      sourceCode := sourceCode + [JsonLoad(dbName)];
    }
    if binIO {
      sourceCode := sourceCode + [BinaryLoad(dbName), SaveAsWritten(dbName)];
    }
    assert sourceCode == front + DbMethods(switches, dbName);
    sourceCode := sourceCode + [BodyClose];
    outcome := Wrote(BindingFiles(headerCode, sourceCode));
  }

  /** `Sheets.Sort(new DependencySort())`: the comparer is not part of this model, so any reordering. */
  method SortSheets(database: CastleDB)
    modifies database
    ensures multiset(database.sheets) == multiset(old(database.sheets))
    ensures database.customTypes == old(database.customTypes)
  {
    var sorted :| multiset(sorted) == multiset(database.sheets);
    database.sheets := sorted;
  }

  /** One factory function per sheet, each followed by its List getters. */
  method WriteFactories(sheets: seq<Sheet>) returns (lines: seq<Line>)
    ensures lines == Factories(sheets)
  {
    lines := [];
    for i := 0 to |sheets|
      invariant lines == Factories(sheets[..i])
    {
      var sheetName := ClassName(sheets[i].name);
      var getters := [];
      for j := 0 to |sheets[i].columns|
        invariant getters == ListGetters(sheetName, sheets[i].columns[..j])
      {
        var col := sheets[i].columns[j];
        assert ListGetters(sheetName, sheets[i].columns[..j + 1]) == getters + ListGetterLine(sheetName, col) by {
          ListGettersStep(sheetName, sheets[i].columns, j);
        }
        if col.typeId == List {
          getters := getters + [ListGetter(sheetName, col.name, col.key)];
        }
      }
      assert lines + ([FactoryFunction(sheetName)] + getters) == Factories(sheets[..i + 1]) by {
        ListGettersStep(sheetName, sheets[i].columns, |sheets[i].columns|);
        FactoriesStep(sheets, i);
      }
      lines := lines + ([FactoryFunction(sheetName)] + getters);
    }
    FactoriesStep(sheets, |sheets|);
  }

  /** The enum registrations, in schema order. */
  method WriteEnumRegistrations(sheets: seq<Sheet>) returns (lines: seq<Line>)
    ensures lines == EnumRegs(sheets)
  {
    lines := [];
    for i := 0 to |sheets|
      invariant lines == EnumRegs(sheets[..i])
    {
      var cols := sheets[i].columns;
      var sheetLines := [];
      for j := 0 to |cols|
        invariant sheetLines == FlatMap(ColumnEnumRegs, cols[..j])
      {
        var colLines := WriteColumnEnumRegistration(cols[j]);
        assert sheetLines + colLines == FlatMap(ColumnEnumRegs, cols[..j + 1]) by {
          SheetEnumRegsStep(cols, j);
        }
        sheetLines := sheetLines + colLines;
      }
      assert lines + sheetLines == EnumRegs(sheets[..i + 1]) by {
        SheetEnumRegsStep(cols, |cols|);
        EnumRegsStep(sheets, i);
      }
      lines := lines + sheetLines;
    }
    EnumRegsStep(sheets, |sheets|);
  }

  method WriteColumnEnumRegistration(col: Column) returns (lines: seq<Line>)
    ensures lines == ColumnEnumRegs(col)
  {
    lines := [];
    if col.typeId == Enum {
      var values := col.enumerations;
      var regs := [];
      for i := 0 to |values|
        invariant regs == EnumValueRegs(values[..i])
      {
        assert values[..i + 1][..i] == values[..i];
        regs := regs + [RegisterEnumIndexed(Upper(values[i]), i)];
      }
      assert values[..|values|] == values;
      lines := [RegisterEnum("E_" + Upper(col.name))] + regs;
    }
  }

  /** Each sheet's reference-type and factory registration, in sorted order. */
  method WriteTypeRegistrations(sheets: seq<Sheet>) returns (lines: seq<Line>)
    ensures lines == TypeRegs(sheets)
  {
    lines := [];
    for i := 0 to |sheets|
      invariant lines == TypeRegs(sheets[..i])
    {
      var sheetName := ClassName(sheets[i].name);
      TypeRegsStep(sheets, i);
      lines := lines + [RegisterRefCounted(sheetName), RegisterFactory(sheetName)];
    }
    TypeRegsStep(sheets, |sheets|);
  }

  /** The property and getter registrations, in sorted order; nothing where a custom type has no constructor. */
  method WritePropertyRegistrations(sheets: seq<Sheet>, customs: seq<CustomType>) returns (r: Option<seq<Line>>)
    ensures r.None? <==> exists s :: s in sheets && SheetThrows(customs, s)
    ensures r.Some? ==> r.value == PropertyRegs(customs, sheets)
  {
    var lines := [];
    for i := 0 to |sheets|
      invariant lines == PropertyRegs(customs, sheets[..i])
      invariant forall k :: 0 <= k < i ==> !SheetThrows(customs, sheets[k])
    {
      var sheetLines := WriteSheetProperties(sheets[i], customs);
      if sheetLines.None? {
        return None;
      }
      assert lines + sheetLines.value == PropertyRegs(customs, sheets[..i + 1]) by {
        PropertyRegsStep(customs, sheets, i);
      }
      lines := lines + sheetLines.value;
    }
    PropertyRegsStep(customs, sheets, |sheets|);
    r := Some(lines);
  }

  method WriteSheetProperties(sheet: Sheet, customs: seq<CustomType>) returns (r: Option<seq<Line>>)
    ensures r.None? <==> SheetThrows(customs, sheet)
    ensures r.Some? ==> r.value == SheetProps(customs, sheet)
  {
    var sheetName := ClassName(sheet.name);
    var lines := [];
    for j := 0 to |sheet.columns|
      invariant lines == FlatMap(c => PropertyLine(customs, sheetName, c), sheet.columns[..j])
      invariant forall k :: 0 <= k < j ==> !MissingConstructor(customs, sheet.columns[k])
    {
      var col := sheet.columns[j];
      var colLines := WriteColumnProperty(sheetName, col, customs);
      if colLines.None? {
        return None;
      }
      assert lines + colLines.value == FlatMap(c => PropertyLine(customs, sheetName, c), sheet.columns[..j + 1]) by {
        SheetPropsStep(customs, sheetName, sheet.columns, j);
      }
      lines := lines + colLines.value;
    }
    SheetPropsStep(customs, sheetName, sheet.columns, |sheet.columns|);
    r := Some(lines);
  }

  /** The switch over a column's type; nothing where `Constructors[0]` would throw. */
  method WriteColumnProperty(sheetName: string, col: Column, customs: seq<CustomType>) returns (r: Option<seq<Line>>)
    ensures r.None? <==> MissingConstructor(customs, col)
    ensures r.Some? ==> r.value == PropertyLine(customs, sheetName, col)
  {
    var lines := [];
    match col.typeId {
      case UniqueIdentifier => lines := [RegisterProperty(sheetName, "String", col.name)];
      case File => lines := [RegisterProperty(sheetName, "String", col.name)];
      case Image => lines := [RegisterProperty(sheetName, "String", col.name)];
      case Text => lines := [RegisterProperty(sheetName, "String", col.name)];
      case Integer => lines := [RegisterProperty(sheetName, "int", col.name)];
      case Enum => lines := [RegisterProperty(sheetName, "int", col.name)];
      case Flags => lines := [RegisterProperty(sheetName, "uint", col.name)];
      case Float => lines := [RegisterProperty(sheetName, "float", col.name)];
      case Boolean => lines := [RegisterProperty(sheetName, "bool", col.name)];
      case Color => lines := [RegisterProperty(sheetName, "Color", col.name)];
      case Ref => lines := [RegisterProperty(sheetName, col.key + "@+", col.name)];
      case List => lines := [RegisterListGetter(sheetName, col.key, col.name)];
      case Dynamic => lines := [RegisterProperty(sheetName, "JSONValue", col.name)];
      case TileLayer => lines := [RegisterProperty(sheetName, "CastleTileLayer@+", col.name)];
      case Custom =>
        var custom := FindCustom(customs, col.key);
        if custom.Some? {
          if custom.value.constructors == [] {
            return None;
          }
          var returnType := custom.value.constructors[0].returnType;
          if returnType != "void" {
            lines := [RegisterProperty(sheetName, ReplaceStar(returnType), col.name)];
          }
        }
      case Layer =>
      case TilePos =>
    }
    r := Some(lines);
  }
}
