/**
 * The in-memory schema the writers consume: sheets, their columns with a
 * closed type tag, enumerations, custom types and the database that owns them.
 * The loader that builds it is not part of this model; the core reads it only,
 * except for the in-place sort done by the AngelScript binding writer.
 */
module Schema {
  import opened Wrappers

  /** The closed column-type tag (CastleType). */
  datatype CastleType =
    | UniqueIdentifier | Boolean | Color | Custom | Dynamic | Enum | File | Flags | Float
    | Image | Integer | Layer | List | Ref | Text | TileLayer | TilePos

  /** The tag's name as printed in diagnostics (the enum's ToString). */
  const TypeNames: map<CastleType, string> := map[
    UniqueIdentifier := "UniqueIdentifier", Boolean := "Boolean", Color := "Color", Custom := "Custom",
    Dynamic := "Dynamic", Enum := "Enum", File := "File", Flags := "Flags", Float := "Float",
    Image := "Image", Integer := "Integer", Layer := "Layer", List := "List", Ref := "Ref",
    Text := "Text", TileLayer := "TileLayer", TilePos := "TilePos"]

  function TypeName(t: CastleType): string
  {
    TypeNamed(t);
    TypeNames[t]
  }

  /** Every tag has a printed name. */
  lemma TypeNamed(t: CastleType)
    ensures t in TypeNames
  {
    match t {
      case UniqueIdentifier => case Boolean => case Color => case Custom => case Dynamic =>
      case Enum => case File => case Flags => case Float => case Image => case Integer =>
      case Layer => case List => case Ref => case Text => case TileLayer => case TilePos =>
    }
  }

  /**
   * A column: its name, type tag, the Key naming the target sheet (Ref) or
   * custom type (Custom), and the ordered enumeration values (Enum, Flags).
   */
  datatype Column = Column(name: string, typeId: CastleType, key: string, enumerations: seq<string>)

  /**
   * A sheet. `keyName` is what the sheet's GetKeyName() answers: the name of
   * the field that holds a record's primary key.
   */
  datatype Sheet = Sheet(name: string, columns: seq<Column>, keyName: string)

  /** A custom type's constructor overload; only its return type is used. */
  datatype Constructor = Constructor(returnType: string)

  datatype CustomType = CustomType(name: string, constructors: seq<Constructor>)

  /** The database handed to the writers; its sheet list can be reordered in place. */
  class CastleDB {
    var sheets: seq<Sheet>
    var customTypes: seq<CustomType>

    constructor (sheets: seq<Sheet>, customTypes: seq<CustomType>)
      ensures this.sheets == sheets && this.customTypes == customTypes
    {
      this.sheets := sheets;
      this.customTypes := customTypes;
    }
  }

  /** Sheets whose name contains '@' are nested sub-record types of a List column. */
  predicate IsNested(name: string)
  {
    '@' in name
  }

  /** Whether any column of the sheet is a Ref column (the sheet's HasReferences()). */
  predicate HasReferences(sheet: Sheet)
  {
    exists c :: c in sheet.columns && c.typeId == Ref
  }

  /** The emitted class name of a sheet: every '@' replaced by '_'. */
  function ClassName(name: string): (r: string)
    ensures |r| == |name|
    ensures '@' !in r
    ensures !IsNested(name) ==> r == name
  {
    seq(|name|, i requires 0 <= i < |name| => if name[i] == '@' then '_' else name[i])
  }

  function UpperChar(c: char): char
  {
    if 'a' <= c <= 'z' then (c as int - 32) as char else c
  }

  /** Upper-casing of identifiers (String.ToUpper), on ASCII letters. */
  function Upper(s: string): (r: string)
    ensures |r| == |s|
    ensures forall i :: 0 <= i < |s| && !('a' <= s[i] <= 'z') ==> r[i] == s[i]
    ensures forall i :: 0 <= i < |s| && 'a' <= s[i] <= 'z' ==> r[i] as int == s[i] as int - 32 && 'A' <= r[i] <= 'Z'
    ensures forall i :: 0 <= i < |r| ==> !('a' <= r[i] <= 'z')
  {
    seq(|s|, i requires 0 <= i < |s| => UpperChar(s[i]))
  }

  /** The sheets that get a collection in the database class: those without '@', in schema order. */
  function TopLevel(sheets: seq<Sheet>): (r: seq<Sheet>)
    ensures |r| <= |sheets|
    ensures forall s :: s in r <==> s in sheets && !IsNested(s.name)
  {
    if sheets == [] then []
    else
      var last := sheets[|sheets| - 1];
      TopLevel(sheets[..|sheets| - 1]) + if IsNested(last.name) then [] else [last]
  }

  /** Filtering a concatenation filters each part and keeps them in order. */
  lemma {:induction false} TopLevelAppend(a: seq<Sheet>, b: seq<Sheet>)
    ensures TopLevel(a + b) == TopLevel(a) + TopLevel(b)
    decreases |b|
  {
    if b == [] {
      assert a + b == a;
    } else {
      var init := b[..|b| - 1];
      assert (a + b)[..|a + b| - 1] == a + init;
      assert (a + b)[|a + b| - 1] == b[|b| - 1];
      TopLevelAppend(a, init);
    }
  }

  /** A single sheet is kept exactly when it is not nested. */
  lemma TopLevelSingle(s: Sheet)
    ensures TopLevel([s]) == if IsNested(s.name) then [] else [s]
  {
    assert [s][..0] == [];
  }

  /** Multiplicity: every top-level sheet occurs as often as in the schema, a nested one never. */
  lemma {:induction false} TopLevelCount(sheets: seq<Sheet>, s: Sheet)
    ensures multiset(TopLevel(sheets))[s] == if IsNested(s.name) then 0 else multiset(sheets)[s]
  {
    if sheets != [] {
      var init, last := sheets[..|sheets| - 1], sheets[|sheets| - 1];
      assert sheets == init + [last];
      var kept := TopLevel([last]);
      assert TopLevel(sheets) == TopLevel(init) + kept by {
        TopLevelAppend(init, [last]);
      }
      assert multiset(kept)[s] == if IsNested(s.name) || last != s then 0 else 1 by {
        TopLevelSingle(last);
      }
      TopLevelCount(init, s);
    }
  }

  /**
   * `Sheets.FirstOrDefault(s => s.Name.Equals(name))`: the first sheet with
   * that name, or nothing (a null in the source).
   */
  function FindSheet(sheets: seq<Sheet>, name: string): (r: Option<Sheet>)
    ensures r.None? <==> forall s :: s in sheets ==> s.name != name
    ensures r.Some? ==> exists i :: 0 <= i < |sheets| && sheets[i] == r.value && r.value.name == name &&
                          forall j :: 0 <= j < i ==> sheets[j].name != name
  {
    if sheets == [] then None
    else if sheets[0].name == name then Some(sheets[0])
    else
      var r := FindSheet(sheets[1..], name);
      assert forall s :: s in sheets <==> s == sheets[0] || s in sheets[1..];
      if r.Some? then
        var i :| 0 <= i < |sheets[1..]| && sheets[1..][i] == r.value && r.value.name == name &&
                 forall j :: 0 <= j < i ==> sheets[1..][j].name != name;
        assert sheets[i + 1] == r.value;
        r
      else r
  }

  /** `CustomTypes.FirstOrDefault(c => c.Name.Equals(name))`. */
  function FindCustom(customs: seq<CustomType>, name: string): (r: Option<CustomType>)
    ensures r.None? <==> forall c :: c in customs ==> c.name != name
    ensures r.Some? ==> r.value in customs && r.value.name == name
    ensures r.Some? ==> exists i :: 0 <= i < |customs| && customs[i] == r.value &&
                          forall j :: 0 <= j < i ==> customs[j].name != name
  {
    if customs == [] then None
    else if customs[0].name == name then Some(customs[0])
    else
      var r := FindCustom(customs[1..], name);
      assert forall c :: c in customs <==> c == customs[0] || c in customs[1..];
      if r.Some? then
        var i :| 0 <= i < |customs[1..]| && customs[1..][i] == r.value &&
                 forall j :: 0 <= j < i ==> customs[1..][j].name != name;
        assert customs[i + 1] == r.value;
        r
      else r
  }
}
