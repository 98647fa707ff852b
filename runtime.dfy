/**
 * What the generated loading code does when it runs: the resolve loop that
 * binds a Ref field to the first element of the target list whose key field
 * equals the stored key (then breaks), and the if / else-if chain that picks
 * the branch for a sheet read from the input. Lists are modelled by the key
 * field values of their elements, in list order; a bound field by the index
 * of the element it points at.
 */
module Runtime {
  import opened Wrappers
  import opened Schema
  import opened Code

  /** The index of the first key equal to `wanted`, if any. */
  function FirstMatch(keys: seq<string>, wanted: string): (r: Option<nat>)
    ensures r.Some? ==> r.value < |keys| && keys[r.value] == wanted
    ensures r.Some? ==> forall j :: 0 <= j < r.value ==> keys[j] != wanted
    ensures r.None? <==> wanted !in keys
  {
    if keys == [] then None
    else if keys[0] == wanted then Some(0)
    else
      assert keys == [keys[0]] + keys[1..];
      match FirstMatch(keys[1..], wanted)
      case None => None
      case Some(i) => Some(i + 1)
  }

  /** The field after one resolve loop: the first match if there is one, otherwise whatever it held before. */
  function Bind(keys: seq<string>, wanted: string, pointer: Option<nat>): Option<nat>
  {
    match FirstMatch(keys, wanted)
    case Some(i) => Some(i)
    case None => pointer
  }

  /** The emitted resolve loop for one Ref field, scanning in index order and stopping at the first match. */
  method ResolveScan(keys: seq<string>, wanted: string, pointer: Option<nat>) returns (bound: Option<nat>)
    ensures bound == Bind(keys, wanted, pointer)
  {
    bound := pointer;
    var i := 0;
    while i < |keys|
      invariant 0 <= i <= |keys|
      invariant forall j :: 0 <= j < i ==> keys[j] != wanted
      invariant bound == pointer
    {
      if keys[i] == wanted {
        bound := Some(i);
        break;
      }
      i := i + 1;
    }
  }

  /**
   * After Load the field is null (0x0 / unset); resolving then binds exactly
   * when some element carries the key, and to the first such element.
   */
  lemma ResolveAfterLoad(keys: seq<string>, wanted: string)
    ensures Bind(keys, wanted, None).None? <==> wanted !in keys
    ensures Bind(keys, wanted, None).Some? ==>
              var i := Bind(keys, wanted, None).value;
              i < |keys| && keys[i] == wanted && forall j :: 0 <= j < i ==> keys[j] != wanted
  {
  }

  /** Resolving twice binds what resolving once did. */
  lemma ResolveIdempotent(keys: seq<string>, wanted: string, pointer: Option<nat>)
    ensures Bind(keys, wanted, Bind(keys, wanted, pointer)) == Bind(keys, wanted, pointer)
  {
  }

  /** A first match survives appending more elements; without one in the front, the match (if any) is in the back. */
  lemma {:induction false} FirstMatchAppend(front: seq<string>, back: seq<string>, wanted: string)
    ensures FirstMatch(front, wanted).Some? ==> FirstMatch(front + back, wanted) == FirstMatch(front, wanted)
    ensures FirstMatch(front, wanted).None? ==>
              FirstMatch(front + back, wanted) ==
              match FirstMatch(back, wanted) case None => None case Some(i) => Some(|front| + i)
  {
    if front != [] {
      assert (front + back)[1..] == front[1..] + back;
      FirstMatchAppend(front[1..], back, wanted);
    } else {
      assert front + back == back;
    }
  }

  /**
   * Why references are resolved in a second pass, after every sheet's lines
   * are loaded: an element loaded later still becomes the target, and an
   * element found earlier stays the target.
   */
  lemma SecondPassSeesWholeList(loaded: seq<string>, later: seq<string>, wanted: string)
    ensures wanted !in loaded && wanted in later ==>
              Bind(loaded, wanted, None) == None && Bind(loaded + later, wanted, None).Some?
    ensures wanted in loaded ==> Bind(loaded + later, wanted, None) == Bind(loaded, wanted, None)
  {
    FirstMatchAppend(loaded, later, wanted);
  }

  function Names(sheets: seq<Sheet>): (r: seq<string>)
    ensures |r| == |sheets|
    ensures forall k :: 0 <= k < |sheets| ==> r[k] == sheets[k].name
  {
    seq(|sheets|, k requires 0 <= k < |sheets| => sheets[k].name)
  }

  /** The branch of the emitted if / else-if chain that runs for a sheet named `sheetName`. */
  function BranchTaken(sheets: seq<Sheet>, sheetName: string): Option<nat>
  {
    FirstMatch(Names(TopLevel(sheets)), sheetName)
  }

  /**
   * The chain runs a branch exactly for the names of top-level sheets (never
   * for a name with '@'), and the branch that runs is the first top-level
   * sheet of that name.
   */
  lemma BranchTakenTopLevel(sheets: seq<Sheet>, sheetName: string)
    ensures BranchTaken(sheets, sheetName).Some? <==> exists s :: s in sheets && !IsNested(s.name) && s.name == sheetName
    ensures IsNested(sheetName) ==> BranchTaken(sheets, sheetName).None?
    ensures BranchTaken(sheets, sheetName).Some? ==>
              var k := BranchTaken(sheets, sheetName).value;
              k < |TopLevel(sheets)| && TopLevel(sheets)[k].name == sheetName &&
              forall j :: 0 <= j < k ==> TopLevel(sheets)[j].name != sheetName
  {
    var top := TopLevel(sheets);
    var names := Names(top);
    if sheetName in names {
      var k :| 0 <= k < |top| && names[k] == sheetName;
      assert top[k] in sheets;
    }
    if exists s :: s in sheets && !IsNested(s.name) && s.name == sheetName {
      var s :| s in sheets && !IsNested(s.name) && s.name == sheetName;
      var k :| 0 <= k < |top| && top[k] == s;
      assert names[k] == sheetName;
    }
  }

  /**
   * The branch that runs is the emitted dispatch for that sheet name and
   * every branch before it tests another name, so at most one sheet's loader
   * runs per input sheet.
   */
  lemma DispatchAtRuntime(sheets: seq<Sheet>, sheetName: string)
    requires BranchTaken(sheets, sheetName).Some?
    ensures var k := BranchTaken(sheets, sheetName).value;
            k < |DispatchChain(sheets)| &&
            DispatchChain(sheets)[k] == Dispatch(if k == 0 then If else ElseIf, sheetName) &&
            forall j :: 0 <= j < k ==> DispatchChain(sheets)[j].Dispatch? && DispatchChain(sheets)[j].sheetName != sheetName
  {
    var k := BranchTaken(sheets, sheetName).value;
    var top, chain := TopLevel(sheets), DispatchChain(sheets);
    assert k < |top| && top[k].name == sheetName && forall j :: 0 <= j < k ==> top[j].name != sheetName by {
      BranchTakenTopLevel(sheets, sheetName);
    }
    DispatchChainAt(sheets);
    assert chain[k] == Dispatch(if k == 0 then If else ElseIf, top[k].name);
    forall j | 0 <= j < k
      ensures chain[j].Dispatch? && chain[j].sheetName != sheetName
    {
      assert chain[j] == Dispatch(if j == 0 then If else ElseIf, top[j].name);
    }
  }
}
