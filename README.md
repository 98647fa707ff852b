# CastleDBGen writers, modelled in Dafny

CastleDBGen reads a CastleDB schema and generates loader source code for one of several backends. The schema is a list of sheets. Each sheet has columns, and each column has a name, a `CastleType` tag, a `Key` and a list of `Enumerations`. This project models the four writers that turn the in-memory schema, plus the command-line switches, into generated code and diagnostics:

- the C++ writer, which emits a header and a source file;
- the AngelScript writer, which emits one script file;
- the C# writer, which emits one source file;
- the AngelScript binding writer, which emits a C++ header and a source file that register the generated C++ classes with the script engine.

The generated text is modelled as a sequence of `Code.Line` items, one item per emitted template fragment. Each item carries the names and types it interpolates, and whitespace, CRLF and indentation are dropped. The shared `errors` list is the class `Code.ErrorList`, and every writer appends to it in place. Each writer is a method that loops over sheets and columns as the source does. It is proved equal to a specification function, such as `CppWriter.Source` or `AngelscriptWriter.Script`, and the lemmas state what the source promises about those functions.

Three kinds of exception that the source can raise are modelled as `Code.Outcome.Threw`:

- a `NullReferenceException` from `FirstOrDefault(...).GetKeyName()` when a Ref column names a sheet that does not exist;
- a `KeyNotFoundException` from `switches["ns"]` in the C# writer;
- an out-of-range index from `Constructors[0]` in the binding writer.

Module `Runtime` models what the emitted resolve loop and the if / else-if dispatch chain do when the generated code runs.

Files:

- `wrappers.dfy`: `Option`.
- `schema.dfy`: the schema.
- `code.dfy`: emitted items, `ErrorList`, diagnostics, flags, enums, the dispatch chain and the two-pass load, shared by all writers.
- `emit.dfy`: loops shared by the three class writers.
- `cpp_writer.dfy`, `angelscript_writer.dfy`, `csharp_writer.dfy`, `asbinding_writer.dfy`: one file per writer.
- `runtime.dfy`: the runtime behaviour described above.

## Model

| member | source | states |
|---|---|---|
| Schema.ClassName | CastleDBGen/CppWriter.cs:46 | replacing '@' by '_' keeps the length, leaves no '@', and leaves a name without '@' unchanged |
| Schema.TopLevel | CastleDBGen/CppWriter.cs:191-196 | the sheets that get a database list are exactly the schema's sheets without '@' |
| Schema.TopLevelAppend | CastleDBGen/CppWriter.cs:191-196 | the filter distributes over concatenation, so the kept sheets stay in schema order |
| Schema.TopLevelSingle | CastleDBGen/CppWriter.cs:191-196 | a single sheet is kept iff its name has no '@' |
| Schema.TopLevelCount | CastleDBGen/CppWriter.cs:191-196 | each top-level sheet occurs as often as in the schema, a nested one never |
| Schema.FindSheet | CastleDBGen/CppWriter.cs:180 | `FirstOrDefault` by name: nothing iff no sheet has the name, otherwise the first sheet with it |
| Schema.FindCustom | CastleDBGen/ASBindingWriter.cs:140 | `FirstOrDefault` over custom types: nothing iff no custom type has the name, otherwise the first one with that name |
| Schema.Upper | CastleDBGen/CppWriter.cs:57 | upper-casing keeps the length, maps each a-z to the A-Z letter 32 code points below, leaves every other character as it is, and leaves no a-z |
| Code.ErrorList.Add | CastleDBGen/CppWriter.cs:99 | appending a diagnostic adds exactly that message at the end of the shared list |
| Code.DiagnosticsSplit | CastleDBGen/CppWriter.cs:97-100 | one column adds exactly one "Sheet <column>, type <type> unsupported" message iff its type is unsupported, between the messages of the columns before and after it |
| Code.NoDiagnosticsWhenSupported | CastleDBGen/CppWriter.cs:83-148 | a sheet whose columns all have supported types reports nothing |
| Code.FlagValuesDistinctPowers | CastleDBGen/CppWriter.cs:62-71 | the flag constant for value i is 2^i while i < 31, so the constants are distinct, positive and increasing |
| Code.FlagValuesWrap | CastleDBGen/CppWriter.cs:68 | `1 << index` on a 32-bit int gives a negative constant at index 31 and repeats 1 at index 32 |
| Code.FlagConstsAt | CastleDBGen/AngelscriptWriter.cs:36-45 | a Flags column emits one constant per value, in order, named <COLUMN>_<VALUE> with value `1 << i` |
| Code.EnumBlockAt | CastleDBGen/CppWriter.cs:55-61 | an Enum column emits `enum E_<NAME>` with its upper-cased values in declaration order, then the closing brace |
| Code.EnumSectionOnlyEnums | CastleDBGen/CSharpWriter.cs:28-40 | the enum scan emits only enum and flag items, and no flag constant when flags are switched off (C#) |
| Code.ForwardDeclsAt | CastleDBGen/CppWriter.cs:44-48 | exactly one forward declaration per sheet, in schema order, with '@' replaced |
| Code.DispatchChainAt | CastleDBGen/CppWriter.cs:214-226 | one dispatch branch per top-level sheet, in order; the first is `if` and every later one `else if` |
| Code.ResolvePassesAt | CastleDBGen/CppWriter.cs:229-236 | one resolve pass per sheet with references, in schema order, and none for other sheets |
| Code.DatabaseLoadLines | CastleDBGen/CppWriter.cs:210-237 | the database Load consists only of its braces, the sheets loop, dispatch branches and resolve passes |
| Code.DatabaseLoadTwoPhase | CastleDBGen/CppWriter.cs:210-237 | every dispatch branch comes before every resolve pass: references are resolved after all sheets are loaded |
| Code.FirstDangling | CastleDBGen/AngelscriptWriter.cs:175-188 | the index of the first sheet whose resolve code would throw: all sheets before it are clean |
| Code.SheetsReached | CastleDBGen/AngelscriptWriter.cs:54-190 | how many sheets the class loop reaches before an exception; all of them when none dangles |
| Code.SheetsReachedStop | CastleDBGen/AngelscriptWriter.cs:54-190 | when the first dangling sheet is at index i, the loop reaches i + 1 sheets |
| Code.SheetsReachedAll | CastleDBGen/AngelscriptWriter.cs:54-190 | when no sheet dangles, the loop reaches every sheet |
| Emit.WriteEnumerations | CastleDBGen/CppWriter.cs:51-73 | the nested enum and flag scan produces exactly `EnumSection`, sheet by sheet and column by column |
| Emit.WriteColumnEnums | CastleDBGen/CppWriter.cs:55-71 | one column's enum block or flag constants, with the index counter as the shift count |
| Emit.WriteResolveReferences | CastleDBGen/CppWriter.cs:174-187 | the resolve method's scans for a sheet, one per Ref column in order; no result iff a Ref column names a missing sheet |
| Emit.WriteDatabaseLoad | CastleDBGen/CppWriter.cs:210-237 | the database Load, with the `first` flag choosing `if` or `else if`, equals `DatabaseLoadBody` |
| CppWriter.WriteClassDefinitions | CastleDBGen/CppWriter.cs:15-247 | appends one diagnostic per unsupported column over the whole schema; the files are `Header`/`Source`, or NullReference when a Ref key names no sheet |
| CppWriter.WriteForwardDeclarations | CastleDBGen/CppWriter.cs:44-48 | the forward-declaration section, proved against `ForwardDecls` |
| CppWriter.WriteClasses | CastleDBGen/CppWriter.cs:75-160 | class declarations and load definitions for every sheet, and every sheet's diagnostics in order |
| CppWriter.WriteClass | CastleDBGen/CppWriter.cs:77-159 | one sheet's declaration, load method and diagnostics |
| CppWriter.WriteColumn | CastleDBGen/CppWriter.cs:83-148 | the field, load line and diagnostic of one column, per type |
| CppWriter.WriteDefinitions | CastleDBGen/CppWriter.cs:162-188 | the destructors and resolve methods, or NullReference iff some Ref column names a missing sheet |
| CppWriter.WriteDestructor | CastleDBGen/CppWriter.cs:164-172 | a sheet's destructor body equals `Cleanups` |
| CppWriter.WriteDatabaseClass | CastleDBGen/CppWriter.cs:190-198 | the database class declaration with one list per top-level sheet |
| CppWriter.WriteDatabaseDestructor | CastleDBGen/CppWriter.cs:200-208 | the database destructor deletes and clears each top-level list |
| CppWriter.UnsupportedColumnSkipped | CastleDBGen/CppWriter.cs:97-100 | a Custom, Dynamic, Layer, TileLayer or TilePos column adds no field and no load line, adds exactly one diagnostic, and leaves the later columns' output unchanged |
| CppWriter.FloatColumnDropped | CastleDBGen/CppWriter.cs:83-148 | a Float column adds no field, no load line and no diagnostic |
| CppWriter.RefColumnMembers | CastleDBGen/CppWriter.cs:132-137 | a Ref column declares a `Key*` pointer and a `<name>Key` string; its load sets the pointer to 0x0 and reads only the key |
| CppWriter.SupportedColumnMember | CastleDBGen/CppWriter.cs:83-148 | every other supported column declares exactly one field and one load line of its own name, and reports nothing |
| CppWriter.CleanupsExactly | CastleDBGen/CppWriter.cs:164-172 | the destructor nulls each Ref pointer and deletes then clears each List; it emits nothing else |
| CppWriter.ListCleanupOrder | CastleDBGen/CppWriter.cs:167-170 | for a List column the elements are deleted before the list is cleared |
| CppWriter.DbListFieldsAt | CastleDBGen/CppWriter.cs:191-196 | the database class has one `Vector<N*> NList` per top-level sheet, in order |
| CppWriter.DbCleanupsAt | CastleDBGen/CppWriter.cs:201-207 | the database destructor deletes and then clears each top-level sheet's list, in order |
| CppWriter.ResolveScansExactly | CastleDBGen/CppWriter.cs:174-187 | a resolve scan is emitted exactly for each Ref column, searching the Key's list by that sheet's key field |
| CppWriter.ResultThrowsIffDangling | CastleDBGen/CppWriter.cs:180 | the writer throws iff some Ref column's Key names no sheet, and then with NullReference |
| AngelscriptWriter.WriteClassDefinitions | CastleDBGen/AngelscriptWriter.cs:15-245 | the diagnostics of the sheets reached before any exception, and the script `Script`, or NullReference when a Ref key names no sheet |
| AngelscriptWriter.WriteClasses | CastleDBGen/AngelscriptWriter.cs:54-190 | the classes of all sheets, or NullReference at the first dangling sheet, after reporting the diagnostics of the sheets reached |
| AngelscriptWriter.WriteClass | CastleDBGen/AngelscriptWriter.cs:56-189 | one class with its declarations, destructor, load and resolve methods; no result iff a Ref key names no sheet |
| AngelscriptWriter.WriteDecls | CastleDBGen/AngelscriptWriter.cs:59-110 | a sheet's declarations and diagnostics over all its columns |
| AngelscriptWriter.WriteDestructor | CastleDBGen/AngelscriptWriter.cs:113-121 | the destructor body equals `Cleanups` |
| AngelscriptWriter.WriteLoads | CastleDBGen/AngelscriptWriter.cs:125-172 | the load method body over all columns |
| AngelscriptWriter.WriteColumnDecl | CastleDBGen/AngelscriptWriter.cs:61-110 | one column's declaration and diagnostic, per type (Float declares nothing) |
| AngelscriptWriter.WriteColumnLoad | CastleDBGen/AngelscriptWriter.cs:127-171 | one column's load, with the enum `switch` built case by case |
| AngelscriptWriter.WriteDatabaseClass | CastleDBGen/AngelscriptWriter.cs:192-240 | the database class: arrays, destructor and two-pass Load |
| AngelscriptWriter.EnumCasesAt | CastleDBGen/AngelscriptWriter.cs:140-144 | the switch has `case i` assigning `E_<NAME>::<VALUE_i>` for every index i, in order |
| AngelscriptWriter.SwitchSelectIndexed | CastleDBGen/AngelscriptWriter.cs:140-144 | a switch over consecutively numbered cases selects the case at v's offset, or none out of range |
| AngelscriptWriter.EnumSwitchRoundTrip | CastleDBGen/AngelscriptWriter.cs:138-144 | loading integer v selects the v-th enumeration value; an out-of-range integer matches no case and leaves the field as it was |
| AngelscriptWriter.NamespaceAfterEnums | CastleDBGen/AngelscriptWriter.cs:49-52 | enum and flag declarations precede the namespace; it is opened only when `ns` is given, right after them, and closed as the last item iff `ns` is given |
| AngelscriptWriter.Placement | CastleDBGen/AngelscriptWriter.cs:241-242 | the namespace placement for any banner, enum section, classes and database class of the given shape |
| AngelscriptWriter.BodyInNamespace | CastleDBGen/AngelscriptWriter.cs:54-240 | classes and the database class contain no enum, flag or namespace item |
| AngelscriptWriter.UnsupportedColumnSkipped | CastleDBGen/AngelscriptWriter.cs:72-75 | Custom, Dynamic, Layer, TileLayer and TilePos add exactly one diagnostic and no declaration or load, and leave later columns unchanged |
| AngelscriptWriter.FloatColumnLoadedUndeclared | CastleDBGen/AngelscriptWriter.cs:61-110 | a Float column is loaded but declares nothing and reports nothing |
| AngelscriptWriter.RefColumnMembers | CastleDBGen/AngelscriptWriter.cs:97-100 | a Ref column declares a `Key@` handle and a private `<name>Key` string; Load assigns only the key |
| AngelscriptWriter.CleanupsExactly | CastleDBGen/AngelscriptWriter.cs:113-121 | the destructor clears each List and nulls each Ref handle, and emits nothing else |
| AngelscriptWriter.DbMembersAt | CastleDBGen/AngelscriptWriter.cs:194-209 | one `Array<N@> NList` and one `Clear()` per top-level sheet, in order |
| CSharpWriter.WriteClassDefinitions | CastleDBGen/CSharpWriter.cs:15-214 | without `ns` throws KeyNotFound before any diagnostic; otherwise the diagnostics of the sheets reached and the file, or NullReference |
| CSharpWriter.WriteClasses | CastleDBGen/CSharpWriter.cs:42-172 | the classes of all sheets, or NullReference at the first dangling sheet, after reporting the sheets reached |
| CSharpWriter.WriteClass | CastleDBGen/CSharpWriter.cs:44-171 | one class with its properties, load and resolve methods; no result iff a Ref key names no sheet |
| CSharpWriter.WriteDecls | CastleDBGen/CSharpWriter.cs:47-99 | a class's declarations and diagnostics over all its columns |
| CSharpWriter.WriteLoads | CastleDBGen/CSharpWriter.cs:105-150 | the load method body over all columns |
| CSharpWriter.WriteColumnDecl | CastleDBGen/CSharpWriter.cs:49-99 | one column's property and diagnostic, per type (Image unsupported, Float undeclared) |
| CSharpWriter.WriteColumnLoad | CastleDBGen/CSharpWriter.cs:107-149 | one column's load, per type (Image has none) |
| CSharpWriter.WriteDatabaseClass | CastleDBGen/CSharpWriter.cs:174-210 | the database class: lists initialised empty and the two-pass Load |
| CSharpWriter.MissingNamespaceThrows | CastleDBGen/CSharpWriter.cs:22 | the writer throws KeyNotFound iff `ns` is absent, having reported nothing |
| CSharpWriter.NamespaceWrapsAll | CastleDBGen/CSharpWriter.cs:25 | the namespace is always opened after the usings and closed as the last item; all enums lie inside it and no flag constant is emitted |
| CSharpWriter.Wrapping | CastleDBGen/CSharpWriter.cs:211 | the same placement for any banner, namespace, enums, classes and database class of the given shape |
| CSharpWriter.UnsupportedColumnSkipped | CastleDBGen/CSharpWriter.cs:60-63 | Custom, Dynamic, Image, Layer, TileLayer and TilePos add exactly one diagnostic and no property or load line |
| CSharpWriter.FloatColumnLoadedUndeclared | CastleDBGen/CSharpWriter.cs:130-132 | a Float column gets a load line but no property and no diagnostic |
| CSharpWriter.ListAndRefMembers | CastleDBGen/CSharpWriter.cs:83-89 | a List column is declared as an empty new list; a Ref column is declared `= null` with a private `<name>Key`, and Load assigns only the key |
| CSharpWriter.DbListFieldsAt | CastleDBGen/CSharpWriter.cs:174-179 | one `List<N> NList = new List<N>()` per top-level sheet, in order |
| ASBindingWriter.WriteClassDefinitions | CastleDBGen/ASBindingWriter.cs:11-167 | the `inherits` gate adds one diagnostic and writes nothing; otherwise the sheets are permuted in place, no diagnostic is added, and the files are `Header`/`Source` (database methods as registered, Save bound to native Load), or an exception for a custom type without a constructor |
| ASBindingWriter.SortSheets | CastleDBGen/ASBindingWriter.cs:86 | the in-place sort keeps the same sheets (a permutation) and touches nothing else |
| ASBindingWriter.WriteFactories | CastleDBGen/ASBindingWriter.cs:49-65 | one factory function per sheet, in schema order, each followed by a getter per List column |
| ASBindingWriter.WriteEnumRegistrations | CastleDBGen/ASBindingWriter.cs:73-84 | the enum registrations of all Enum columns, in schema order |
| ASBindingWriter.WriteColumnEnumRegistration | CastleDBGen/ASBindingWriter.cs:77-82 | one Enum column's registration, with the loop index as each value's integer |
| ASBindingWriter.WriteTypeRegistrations | CastleDBGen/ASBindingWriter.cs:88-93 | a reference-type and a factory registration per sheet, in sorted order |
| ASBindingWriter.WritePropertyRegistrations | CastleDBGen/ASBindingWriter.cs:96-150 | all property registrations in sorted order; no result iff some custom type used by a column has no constructor |
| ASBindingWriter.WriteSheetProperties | CastleDBGen/ASBindingWriter.cs:99-148 | one sheet's property registrations; no result iff one of its columns hits `Constructors[0]` on an empty list |
| ASBindingWriter.WriteColumnProperty | CastleDBGen/ASBindingWriter.cs:101-147 | one column's registration, per type; no result iff it is a Custom column whose type exists without constructors |
| ASBindingWriter.ReplaceStar | CastleDBGen/ASBindingWriter.cs:144 | `Replace("*", "@+")` leaves no '*', never shortens, and leaves a string without '*' unchanged |
| ASBindingWriter.ReplaceStarAppend | CastleDBGen/ASBindingWriter.cs:144 | the replacement of a concatenation is the concatenation of the replacements |
| ASBindingWriter.ReplaceStarChar | CastleDBGen/ASBindingWriter.cs:144 | one character: '*' becomes "@+", any other stays |
| ASBindingWriter.ReplaceStarPointer | CastleDBGen/ASBindingWriter.cs:144 | a C++ pointer type `T*` (no '*' in T) becomes the script handle `T@+` |
| ASBindingWriter.BinModes | CastleDBGen/ASBindingWriter.cs:155-161 | `bin` = "only" registers the binary Load and the Save as written (bound to native Load) alone, "on" JSON and that pair, anything else JSON alone; JSON iff not jsonOff, binary iff binIO |
| ASBindingWriter.OnlyDbMethodsRegisterMethods | CastleDBGen/ASBindingWriter.cs:153-161 | the database methods are all in the source file, and no other part of it registers a method |
| ASBindingWriter.SaveBindsLoad | CastleDBGen/ASBindingWriter.cs:160 | with `bin` on or only, the source file registers the script's `Save` bound to the native `Load` and never to the native `Save`; every script `Save` it registers is that one |
| ASBindingWriter.DbMethodsBindLikeNames | CastleDBGen/ASBindingWriter.cs:155-161 | in the corrected registration every database method binds a script method to the native method of the same name (and parameters, the JSON Load aside); it differs from the registration as written only in the Save |
| ASBindingWriter.EnumValueRegsAt | CastleDBGen/ASBindingWriter.cs:80-81 | value i is emitted as the two-argument `RegisterEnum(NAME, i)` (no enum type named), upper-cased, in order |
| ASBindingWriter.ColumnEnumRegsAt | CastleDBGen/ASBindingWriter.cs:77-82 | an Enum column emits `RegisterEnum("E_<NAME>")` first and then `RegisterEnum(VALUE, i)` for each value with its index; other columns emit nothing |
| ASBindingWriter.EnumOrdinalsExact | CastleDBGen/ASBindingWriter.cs:80-81 | `RegisterEnum(name, v)` is emitted iff v is a valid index and the name is the v-th value, upper-cased |
| ASBindingWriter.TypeRegsAt | CastleDBGen/ASBindingWriter.cs:88-93 | sheet k's reference-type registration is item 2k and its factory item 2k+1, with '@' replaced |
| ASBindingWriter.FactoriesAndRegistrationsAgree | CastleDBGen/ASBindingWriter.cs:49-54 | the sort only reorders: a factory function exists for a class iff its factory behaviour is registered |
| ASBindingWriter.ListGettersExactly | CastleDBGen/ASBindingWriter.cs:59-63 | each List column, and only a List column, gets one getter function and one `get_<name>` registration |
| ASBindingWriter.LayerAndTilePosSkipped | CastleDBGen/ASBindingWriter.cs:101-147 | a Layer or TilePos column registers nothing and leaves the other columns' registrations unchanged |
| ASBindingWriter.PropertiesNameColumns | CastleDBGen/ASBindingWriter.cs:101-147 | a property registration is emitted iff a non-List column with a script type exists, and it registers that column's name with that type on the sheet's class |
| ASBindingWriter.PropertiesMatchCppFields | CastleDBGen/ASBindingWriter.cs:103-129 | for a column the C++ writer declares a member for (CppWriter.cs:83-148), the member has the column's name and the property is registered with the script form of its C++ type (unsigned as uint, an enum as int, `T*` as `T@+`) |
| ASBindingWriter.MemberScriptType | CastleDBGen/ASBindingWriter.cs:103-129 | per column: the C++ member's first declaration is a field named after the column whose type translates to the registered script type |
| ASBindingWriter.EnumMemberScriptType | CastleDBGen/ASBindingWriter.cs:112-114 | the C++ enum type `E_<NAME>` is registered as int |
| ASBindingWriter.PropertiesWithoutCppField | CastleDBGen/ASBindingWriter.cs:118-137 | Float, Dynamic and TileLayer columns are registered with `offsetof` on their name although the C++ writer declares no member for them; a C++ member of that name can only come from another column |
| ASBindingWriter.CppMemberName | CastleDBGen/CppWriter.cs:83-148 | every C++ member is a field named after its column or, for a Ref, its key string; Float, Dynamic and TileLayer declare none |
| ASBindingWriter.CustomProperty | CastleDBGen/ASBindingWriter.cs:139-146 | a Custom column is registered iff its type exists and the first constructor's return type is not "void", then as that type with '*' turned into '@+' |
| Runtime.FirstMatch | CastleDBGen/CppWriter.cs:179-183 | the index of the first element whose key equals the wanted key, and nothing iff none does |
| Runtime.ResolveScan | CastleDBGen/CppWriter.cs:179-184 | the emitted loop with `break` binds the first match, and leaves the field as it was when nothing matches |
| Runtime.ResolveAfterLoad | CastleDBGen/CppWriter.cs:134-135 | after Load sets the pointer to 0x0, resolving binds iff some element has the key, and to the first such element |
| Runtime.ResolveIdempotent | CastleDBGen/AngelscriptWriter.cs:175-188 | resolving a second time binds what the first did |
| Runtime.FirstMatchAppend | CastleDBGen/CSharpWriter.cs:153-167 | a first match survives appending more elements; without one in the front, the match is the back's, shifted |
| Runtime.SecondPassSeesWholeList | CastleDBGen/CppWriter.cs:227-236 | resolving after all sheets are loaded finds elements loaded later and keeps those found earlier |
| Runtime.BranchTakenTopLevel | CastleDBGen/CppWriter.cs:215-219 | the chain runs a branch iff the input sheet's name is a top-level sheet's, never for a name with '@' |
| Runtime.DispatchAtRuntime | CastleDBGen/CppWriter.cs:219-225 | the branch that runs is the dispatch for that name, and every earlier branch tests another name |

## Left out

- File output (`System.IO.File.WriteAllText`, `Path.ChangeExtension`): the writers return the files' items, and the C++ header path is modelled as a string parameter.
- Whitespace, CRLF, blank separator lines and `GetTabString`/`GetTabstring`: output is a sequence of items. `BaseDBWriter` is not part of this model.
- `DependencySort`: its comparer is not part of this model, so the in-place sort at ASBindingWriter.cs:86 is modelled as an arbitrary permutation of the sheets, and no ordering is claimed.
- `CastleDB`, `CastleSheet`, `CastleColumn` and `CastleCustom` are not part of this model. `GetKeyName()` is modelled as a sheet field and `HasReferences()` as "has a Ref column".
- `String.ToUpper` is culture-sensitive Unicode casing; `Schema.Upper` only maps a-z to A-Z.
- The runtime behaviour of Urho3D, the AngelScript engine and Newtonsoft JSON, and the float and integer parsing in generated code, are foreign code or floating point. Load lines record only the conversion used.
- The `id` switch (ASBindingWriter.cs:36-38) is read but never used, so it is not modelled.
- The C# writer's Color load (CSharpWriter.cs:116) lacks a closing parenthesis in the emitted text; load lines record only the conversion used, so this is not represented.
- ASBindingWriter.EnumValueRegsAt: the enum values are emitted as the two-argument `RegisterEnum(VALUE, i)` (ASBindingWriter.cs:81), not as an AngelScript `RegisterEnumValue(type, name, value)`; the model keeps the emitted call (`Code.RegisterEnumIndexed`) and claims nothing about how the engine treats it.
- ASBindingWriter.PropertiesMatchCppFields: stated for column names and Ref keys without '*', so that a C++ pointer type reads unambiguously.
- The C++ classes the binding registers derive from `RefCounted`, which the C++ writer here does not emit, so `PropertiesWithoutCppField` is stated as a relation between the two writers and not claimed as a defect of either.
- The C# writer ends a Float load statement with a literal `r` where a carriage return was meant (CSharpWriter.cs:131). This is a text-layout defect, and the model drops text layout, so it is not represented.
- ASBindingWriter.WriteClassDefinitions: `Constructors[0]` on an empty list throws `ArgumentOutOfRangeException` in .NET; the model names it `IndexOutOfRange`.
- Runtime.ResolveScan: element identity and object aliasing are not modelled; a bound field is the index of the element in its list.

## Findings

| source | as written | input that shows it | evidently intended | confidence | as-written member | corrected member |
|---|---|---|---|---|---|---|
| CastleDBGen/ASBindingWriter.cs:160 | the script method `void Save(Serializer&)` is registered with `asMETHODPR(db, Load, (Serializer&), void)`, so it binds the native `Load` | `bin` = "on" or "only": the emitted Save registration names native `Load` with a `Serializer&` parameter, so a script call to `Save` is bound to a load and never to the native `Save` | bind the script `Save` to the native `Save(Serializer&)` | not executed | ASBindingWriter.SaveBindsLoad | ASBindingWriter.DbMethodsBindLikeNames |
