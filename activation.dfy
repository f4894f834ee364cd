/** Whether the cut gizmo may be opened on the selected object. An object that
    is itself a single solid dowel (a piece produced by a previous cut) cannot
    be cut again. */
module Activation {

  /** The two facts about a model volume that the test looks at. */
  datatype Volume = Volume(isCutConnector: bool, isModelPart: bool)

  /** Number of connector volumes. */
  function ConnectorVolumes(vs: seq<Volume>): nat
  {
    if vs == [] then 0
    else ConnectorVolumes(vs[..|vs| - 1]) + (if vs[|vs| - 1].isCutConnector then 1 else 0)
  }

  /** Number of connector volumes that are solid model parts. */
  function SolidConnectorVolumes(vs: seq<Volume>): nat
  {
    if vs == [] then 0
    else SolidConnectorVolumes(vs[..|vs| - 1])
         + (if vs[|vs| - 1].isCutConnector && vs[|vs| - 1].isModelPart then 1 else 0)
  }

  /** The object holds exactly one connector volume, and that one is solid. */
  predicate DowelObject(vs: seq<Volume>)
  {
    ConnectorVolumes(vs) == 1 && SolidConnectorVolumes(vs) == 1
  }

  /** Counts the connector volumes and the solid ones, stopping as soon as a
      second connector volume is seen. */
  method IsDowelObject(vs: seq<Volume>) returns (r: bool)
    ensures r == DowelObject(vs)
  {
    var solid := 0;
    var count := 0;
    var i := 0;
    while i < |vs|
      invariant 0 <= i <= |vs|
      invariant count == ConnectorVolumes(vs[..i]) && solid == SolidConnectorVolumes(vs[..i])
      invariant count <= 1
    {
      assert vs[..i + 1][..i] == vs[..i];
      if vs[i].isCutConnector {
        count := count + 1;
        if vs[i].isModelPart {
          solid := solid + 1;
        }
      }
      if count > 1 {
        ConnectorVolumesPrefix(vs, i + 1);
        break;
      }
      i := i + 1;
    }
    assert i == |vs| ==> vs[..i] == vs;
    r := count == 1 && solid == 1;
  }

  /** A prefix never holds more connector volumes than the whole. */
  lemma {:induction false} ConnectorVolumesPrefix(vs: seq<Volume>, i: nat)
    requires i <= |vs|
    ensures ConnectorVolumes(vs[..i]) <= ConnectorVolumes(vs)
    decreases |vs|
  {
    if i < |vs| {
      assert vs[..|vs| - 1][..i] == vs[..i];
      ConnectorVolumesPrefix(vs[..|vs| - 1], i);
    } else {
      assert vs[..i] == vs;
    }
  }

  /** A dowel object is one whose volumes include a single solid connector and
      no other connector volume. */
  lemma {:induction false} DowelObjectWitness(vs: seq<Volume>)
    ensures DowelObject(vs) <==>
            exists i :: 0 <= i < |vs| && vs[i].isCutConnector && vs[i].isModelPart
                        && forall j :: 0 <= j < |vs| && j != i ==> !vs[j].isCutConnector
  {
    if vs != [] {
      var n := |vs| - 1;
      var init := vs[..n];
      DowelObjectWitness(init);
      SolidAtMostConnectors(init);
      if vs[n].isCutConnector {
        if DowelObject(vs) {
          // the last volume is the only connector volume
          assert ConnectorVolumes(init) == 0;
          NoConnectorVolumes(init);
          assert forall j :: 0 <= j < |vs| && j != n ==> vs[j] == init[j];
        }
        if exists i :: 0 <= i < |vs| && vs[i].isCutConnector && vs[i].isModelPart
                       && forall j :: 0 <= j < |vs| && j != i ==> !vs[j].isCutConnector {
          var i :| 0 <= i < |vs| && vs[i].isCutConnector && vs[i].isModelPart
                   && forall j :: 0 <= j < |vs| && j != i ==> !vs[j].isCutConnector;
          assert i == n;
          forall j | 0 <= j < |init| ensures !init[j].isCutConnector {
            assert init[j] == vs[j];
          }
          NoConnectorVolumesBack(init);
        }
      } else {
        assert forall j :: 0 <= j < |init| ==> init[j] == vs[j];
        if exists i :: 0 <= i < |vs| && vs[i].isCutConnector && vs[i].isModelPart
                       && forall j :: 0 <= j < |vs| && j != i ==> !vs[j].isCutConnector {
          var i :| 0 <= i < |vs| && vs[i].isCutConnector && vs[i].isModelPart
                   && forall j :: 0 <= j < |vs| && j != i ==> !vs[j].isCutConnector;
          assert i < n;
          assert forall j :: 0 <= j < |init| && j != i ==> !init[j].isCutConnector;
        }
        if DowelObject(init) {
          var i :| 0 <= i < |init| && init[i].isCutConnector && init[i].isModelPart
                   && forall j :: 0 <= j < |init| && j != i ==> !init[j].isCutConnector;
          assert forall j :: 0 <= j < |vs| && j != i ==> !vs[j].isCutConnector;
        }
      }
    }
  }

  lemma {:induction false} SolidAtMostConnectors(vs: seq<Volume>)
    ensures SolidConnectorVolumes(vs) <= ConnectorVolumes(vs)
  {
    if vs != [] {
      SolidAtMostConnectors(vs[..|vs| - 1]);
    }
  }

  /** No connector volume is counted exactly when there is none. */
  lemma {:induction false} NoConnectorVolumes(vs: seq<Volume>)
    requires ConnectorVolumes(vs) == 0
    ensures forall j :: 0 <= j < |vs| ==> !vs[j].isCutConnector
  {
    if vs != [] {
      var init := vs[..|vs| - 1];
      NoConnectorVolumes(init);
      assert forall j :: 0 <= j < |init| ==> init[j] == vs[j];
    }
  }

  lemma {:induction false} NoConnectorVolumesBack(vs: seq<Volume>)
    requires forall j :: 0 <= j < |vs| ==> !vs[j].isCutConnector
    ensures ConnectorVolumes(vs) == 0 && SolidConnectorVolumes(vs) == 0
  {
    if vs != [] {
      var init := vs[..|vs| - 1];
      assert forall j :: 0 <= j < |init| ==> init[j] == vs[j];
      NoConnectorVolumesBack(init);
    }
  }

  /** on_is_activable: an object is selected (and it is not the wipe tower), the
      selection is a single full instance, the object is not a cut-off dowel,
      and layer editing is off. */
  method IsActivable(objectIdx: int, isWipeTower: bool, isCut: bool, volumes: seq<Volume>,
                     singleFullInstance: bool, layersEditing: bool) returns (r: bool)
    ensures r <==> objectIdx >= 0 && !isWipeTower && singleFullInstance && !layersEditing
                   && !(isCut && DowelObject(volumes))
  {
    if objectIdx < 0 || isWipeTower {
      return false;
    }
    var isDowel := false;
    if isCut {
      isDowel := IsDowelObject(volumes);
    }
    r := singleFullInstance && !isDowel && !layersEditing;
  }
}
