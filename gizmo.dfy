/** The connector-editing state of the cut gizmo: the connector list, the
    parallel selection mask with its counter, the current connector settings,
    and the mouse/keyboard events that change them.

    What the host decides (the hovered grabber or connector, where a mouse
    ray hits the cut plane, which connectors lie inside the selection
    rectangle, whether a drawn cut line is long enough) is passed in as
    parameters. */
module CutGizmo {
  import opened Connectors
  import opened SelectionMask
  import opened SettingsMerge

  datatype ConnectorMode = Auto | Manual

  /** The events the gizmo receives from the canvas. */
  datatype GizmoEvent =
    | LeftDown | LeftUp | RightDown | RightUp | Dragging | Moving
    | Delete | SelectAll | ShiftUp | AltUp
    | Other  // every event the cut gizmo does not react to

  /** State of the selection rectangle: not dragged, or dragged to select or to deselect. */
  datatype RectangleState = Off | Select | Deselect

  /** Hover ids below this belong to the plane grabbers; id ConnectorsGroupId + i is connector i. */
  const ConnectorsGroupId: int := 3

  /** A mouse release closer than this to the press counts as a click in place. */
  const ClickRadius: real := 5.0

  /** Squared distance between two mouse positions (the norm compared without a root). */
  function Dist2(a: Vec2, b: Vec2): real
  {
    (a.x - b.x) * (a.x - b.x) + (a.y - b.y) * (a.y - b.y)
  }

  class GizmoCut3D {
    /** The cut connectors of the edited object. */
    var connectors: seq<Connector>
    /** The selection mask, one flag per connector. */
    var selected: seq<bool>
    /** The selection counter; kept step by step and not forced to match the mask. */
    var selectedCount: int
    /** The current connector settings (depth ratio, size, tolerances, type, style, shape). */
    var settings: Settings

    var connectorsEditing: bool
    var keepUpper: bool
    var keepLower: bool
    var connectorMode: ConnectorMode
    var dragging: bool
    /** Whether some connector conflicts with another or leaves the cut contour;
        the geometric tests behind it are not modelled, so the caller sets it. */
    var hasInvalidConnector: bool
    /** The rotation of the cut plane, copied into each new connector. */
    var rotation: Transform
    /** Where the last left press that added nothing happened. */
    var ldownMousePosition: Vec2
    var rectangle: RectangleState
    var rectangleStart: Vec2
    var rectangleEnd: Vec2
    /** True while a cut line is being drawn (its start point is set). */
    var cutLineProcessing: bool

    /** The mask is parallel to the connector list. */
    predicate Valid()
      reads this
    {
      |selected| == |connectors|
    }

    /** Every gate of the connector-editing part of the event handler is open. */
    predicate EditingEnabled()
      reads this
    {
      !dragging && connectorMode == Manual && keepUpper && keepLower && connectorsEditing
    }

    /** The only connector-independent event path: drawing a cut line with Shift. */
    predicate CutLineEvent(action: GizmoEvent, shift: bool, hover: int)
      reads this
    {
      hover < 0 && shift && !connectorsEditing && (action == LeftDown || action == LeftUp || action == Moving)
    }

    /** The cut can be performed: no invalid connector, at least one part kept,
        not editing connectors, and the clipper reports a valid contour. */
    function CanPerformCut(validContour: bool): (r: bool)
      reads this
      ensures r ==> !connectorsEditing && !hasInvalidConnector && validContour
      ensures r ==> keepUpper || keepLower
      ensures !connectorsEditing && !hasInvalidConnector && validContour && (keepUpper || keepLower) ==> r
    {
      if hasInvalidConnector || (!keepUpper && !keepLower) || connectorsEditing then false
      else validContour
    }

    constructor (initial: Settings, keepUpper: bool, keepLower: bool, rotation: Transform)
      ensures Valid() && connectors == [] && selected == [] && selectedCount == 0
      ensures settings == initial.(ctype := Plug, style := Prizm, shape := Circle)
      ensures !connectorsEditing && connectorMode == Manual && !dragging && !hasInvalidConnector
      ensures this.keepUpper == keepUpper && this.keepLower == keepLower && this.rotation == rotation
      ensures rectangle == Off && !cutLineProcessing
    {
      connectors := [];
      selected := [];
      selectedCount := 0;
      settings := initial.(ctype := Plug, style := Prizm, shape := Circle);
      connectorsEditing := false;
      this.keepUpper := keepUpper;
      this.keepLower := keepLower;
      connectorMode := Manual;
      dragging := false;
      hasInvalidConnector := false;
      this.rotation := rotation;
      ldownMousePosition := Vec2(0.0, 0.0);
      rectangle := Off;
      rectangleStart := Vec2(0.0, 0.0);
      rectangleEnd := Vec2(0.0, 0.0);
      cutLineProcessing := false;
    }

    /** Replaces every negative numeric setting and every Undef attribute by its default. */
    method ValidateConnectorSettings()
      modifies this`settings
      ensures settings == Validated(old(settings))
      ensures SettingsDefined(settings)
    {
      var s := settings;
      if s.depthRatio < 0.0 { s := s.(depthRatio := DefaultDepthRatio); }
      if s.depthRatioTolerance < 0.0 { s := s.(depthRatioTolerance := DefaultDepthRatioTolerance); }
      if s.size < 0.0 { s := s.(size := DefaultSize); }
      if s.sizeTolerance < 0.0 { s := s.(sizeTolerance := DefaultSizeTolerance); }
      if s.ctype == ConnectorType.Undef { s := s.(ctype := Plug); }
      if s.style == ConnectorStyle.Undef { s := s.(style := Prizm); }
      if s.shape == ConnectorShape.Undef { s := s.(shape := Circle); }
      settings := s;
    }

    /** Clears every flag, zeroes the counter, then validates the settings. */
    method UnselectAllConnectors()
      modifies this`selected, this`selectedCount, this`settings
      ensures selected == AllFalse(|old(selected)|) && selectedCount == 0
      ensures settings == Validated(old(settings))
    {
      selected := AllFalse(|selected|);
      selectedCount := 0;
      ValidateConnectorSettings();
    }

    /** Sets every flag; the counter becomes the mask length. */
    method SelectAllConnectors()
      modifies this`selected, this`selectedCount
      ensures selected == AllTrue(|old(selected)|) && selectedCount == |selected|
      ensures selectedCount == CountTrue(selected)
    {
      selected := AllTrue(|selected|);
      selectedCount := |selected|;
      CountAllTrue(|selected|);
    }

    /** Sets flag idx to b and moves the counter by one, without checking the old flag. */
    method SelectConnector(idx: int, b: bool)
      requires 0 <= idx < |selected|
      modifies this`selected, this`selectedCount
      ensures selected == old(selected)[idx := b]
      ensures selectedCount == old(selectedCount) + (if b then 1 else -1)
      ensures old(selectedCount) == CountTrue(old(selected)) && old(selected[idx]) != b
              ==> selectedCount == CountTrue(selected)
    {
      CountTrueUpdate(selected, idx, b);
      selected := selected[idx := b];
      if b {
        selectedCount := selectedCount + 1;
      } else {
        selectedCount := selectedCount - 1;
      }
    }

    /** Empties the mask and zeroes the counter. */
    method ClearSelection()
      modifies this`selected, this`selectedCount
      ensures selected == [] && selectedCount == 0
    {
      selected := [];
      selectedCount := 0;
    }

    /** Removes every connector and clears the selection. */
    method ResetConnectors()
      modifies this`connectors, this`selected, this`selectedCount
      ensures Valid() && connectors == [] && selected == [] && selectedCount == 0
    {
      connectors := [];
      ClearSelection();
    }

    /** Brings a mask of the wrong length back to one clear flag per connector. */
    method SyncSelection()
      modifies this`selected, this`selectedCount
      ensures Valid()
      ensures old(Valid()) ==> selected == old(selected) && selectedCount == old(selectedCount)
      ensures !old(Valid()) ==> selected == AllFalse(|connectors|) && selectedCount == 0
    {
      if |connectors| != |selected| {
        ClearSelection();
        selected := AllFalse(|connectors|);
      }
    }

    method SetConnectorsEditing(editing: bool)
      modifies this`connectorsEditing
      ensures connectorsEditing == editing
    {
      connectorsEditing := editing;
    }

    /** Adds a connector where the mouse ray hits the cut plane (None: it misses).
        On success the settings are validated first, the new connector alone is
        selected and the counter is 1. */
    method AddConnector(hit: Option<Vec3>) returns (added: bool)
      requires Valid()
      modifies this`connectors, this`selected, this`selectedCount, this`settings
      ensures Valid()
      ensures added == (old(connectorsEditing) && hit.Some?)
      ensures !added ==> connectors == old(connectors) && selected == old(selected)
                         && selectedCount == old(selectedCount) && settings == old(settings)
      ensures added ==> settings == Validated(old(settings))
      ensures added ==> connectors == old(connectors) + [NewConnector(settings, hit.value, rotation)]
      ensures added ==> WellFormed(connectors[|connectors| - 1])
      ensures added ==> selected == AllFalse(|old(connectors)|) + [true] && selectedCount == 1
      ensures added ==> selectedCount == CountTrue(selected)
    {
      if !connectorsEditing {
        return false;
      }
      match hit
      case None =>
        added := false;
      case Some(pos) =>
        UnselectAllConnectors();
        connectors := connectors + [NewConnector(settings, pos, rotation)];
        selected := selected + [true];
        selectedCount := 1;
        NewConnectorFromValidated(old(settings), pos, rotation);
        CountAllFalseThenTrue(|old(connectors)|);
        added := true;
    }

    /** Removes the selected connectors, walking the list from the back, then
        removes the set flags; fails on an empty list. */
    method DeleteSelectedConnectors() returns (deleted: bool)
      requires Valid()
      modifies this`connectors, this`selected, this`selectedCount
      ensures Valid()
      ensures deleted == (old(connectors) != [])
      ensures !deleted ==> connectors == old(connectors) && selected == old(selected)
                           && selectedCount == old(selectedCount)
      ensures deleted ==> connectors == Kept(old(connectors), old(selected))
      ensures deleted ==> selected == AllFalse(|connectors|) && selectedCount == 0
    {
      if connectors == [] {
        return false;
      }
      ghost var cs := connectors;
      var i := |connectors|;
      while i > 0
        invariant 0 <= i <= |cs|
        invariant selected == old(selected) && |selected| == |cs|
        invariant connectors == cs[..i] + Kept(cs[i..], selected[i..])
        decreases i
      {
        i := i - 1;
        KeptBackwardStep(cs, selected, i, connectors);
        if selected[i] {
          connectors := connectors[..i] + connectors[i + 1..];
        }
      }
      assert cs[0..] == cs && selected[0..] == selected;
      RemoveSetAligned(cs, selected);
      selected := RemoveSet(selected);
      selectedCount := 0;
      deleted := true;
    }

    /** Click selection on the hovered connector: Alt clears its flag, Shift sets
        it, and a plain click makes it the only selected one. */
    method IsSelectionChanged(alt: bool, shift: bool, hover: int) returns (changed: bool)
      requires Valid() && hover < ConnectorsGroupId + |connectors|
      modifies this`selected, this`selectedCount, this`settings
      ensures Valid()
      ensures changed == (hover >= ConnectorsGroupId)
      ensures !changed ==> selected == old(selected) && selectedCount == old(selectedCount)
                           && settings == old(settings)
      ensures changed && alt ==> selected == old(selected)[hover - ConnectorsGroupId := false]
                                 && selectedCount == old(selectedCount) - 1 && settings == old(settings)
      ensures changed && !alt && shift ==> selected == old(selected)[hover - ConnectorsGroupId := true]
                                           && selectedCount == old(selectedCount) + 1 && settings == old(settings)
      ensures changed && !alt && !shift ==> selected == OneHot(|selected|, hover - ConnectorsGroupId)
                                            && selectedCount == 1 && selectedCount == CountTrue(selected)
                                            && settings == Validated(old(settings))
    {
      if hover >= ConnectorsGroupId {
        var h := hover - ConnectorsGroupId;
        if alt {
          SelectConnector(h, false);
        } else {
          if !shift {
            UnselectAllConnectors();
            CountAllFalse(|selected|);
          }
          SelectConnector(h, true);
          if !shift {
            assert selected == OneHot(|selected|, h);
          }
        }
        return true;
      }
      return false;
    }

    /** Applies the selection rectangle: every connector inside it is selected
        (or deselected), one counter step each; the rectangle stops dragging. */
    method ProcessSelectionRectangle(inside: seq<int>)
      requires Valid()
      requires forall k :: 0 <= k < |inside| ==> 0 <= inside[k] < |connectors|
      modifies this`selected, this`selectedCount, this`rectangle
      ensures Valid() && rectangle == Off
      ensures forall j :: 0 <= j < |selected| ==>
                selected[j] == if j in inside then old(rectangle) == Select else old(selected)[j]
      ensures selectedCount == old(selectedCount) + (if old(rectangle) == Select then |inside| else -|inside|)
    {
      var b := rectangle == Select;
      rectangle := Off;
      var k := 0;
      while k < |inside|
        invariant 0 <= k <= |inside|
        invariant |selected| == |connectors| && rectangle == Off
        invariant forall j :: 0 <= j < |selected| ==>
                    selected[j] == if j in inside[..k] then b else old(selected)[j]
        invariant selectedCount == old(selectedCount) + (if b then k else -k)
      {
        assert inside[..k + 1] == inside[..k] + [inside[k]];
        SelectConnector(inside[k], b);
        k := k + 1;
      }
      assert inside[..k] == inside;
    }

    /** Calls f on every selected connector and leaves the others alone. */
    method ApplySelectedConnectors(f: Connector -> Connector)
      requires Valid()
      modifies this`connectors
      ensures Valid()
      ensures connectors == ApplyAt(old(connectors), selected, f)
      ensures forall j :: 0 <= j < |connectors| && !selected[j] ==> connectors[j] == old(connectors)[j]
    {
      var idx := 0;
      while idx < |selected|
        invariant 0 <= idx <= |selected| && |connectors| == |selected|
        invariant forall j :: 0 <= j < idx ==>
                    connectors[j] == if selected[j] then f(old(connectors)[j]) else old(connectors)[j]
        invariant forall j :: idx <= j < |connectors| ==> connectors[j] == old(connectors)[j]
      {
        if selected[idx] {
          connectors := connectors[idx := f(connectors[idx])];
        }
        idx := idx + 1;
      }
    }

    /** The Plug/Dowel radio button: the new type goes to the selected connectors,
        and choosing Dowel also forces the Prizm style on them. */
    method ChooseType(t: ConnectorType)
      requires Valid()
      modifies this`settings, this`connectors
      ensures Valid()
      ensures settings == old(settings).(ctype := t, style := if t == Dowel then Prizm else old(settings).style)
      ensures forall j :: 0 <= j < |connectors| ==>
                connectors[j] == if !selected[j] then old(connectors)[j]
                                 else if t == Dowel then WithStyle(Prizm, WithType(t, old(connectors)[j]))
                                 else WithType(t, old(connectors)[j])
    {
      settings := settings.(ctype := t);
      ApplySelectedConnectors(c => WithType(t, c));
      if t == Dowel {
        settings := settings.(style := Prizm);
        ApplySelectedConnectors(c => WithStyle(Prizm, c));
      }
    }

    /** The Style combo (disabled for dowels): a different style goes to the selected connectors. */
    method ChooseStyle(s: ConnectorStyle)
      requires Valid()
      modifies this`settings, this`connectors
      ensures Valid()
      ensures old(settings).ctype == Dowel || s == old(settings).style ==>
                settings == old(settings) && connectors == old(connectors)
      ensures old(settings).ctype != Dowel && s != old(settings).style ==>
                settings == old(settings).(style := s)
                && connectors == ApplyAt(old(connectors), selected, c => WithStyle(s, c))
    {
      if settings.ctype != Dowel && s != settings.style {
        settings := settings.(style := s);
        ApplySelectedConnectors(c => WithStyle(s, c));
      }
    }

    /** The Shape combo: a different shape goes to the selected connectors. */
    method ChooseShape(s: ConnectorShape)
      requires Valid()
      modifies this`settings, this`connectors
      ensures Valid()
      ensures s == old(settings).shape ==> settings == old(settings) && connectors == old(connectors)
      ensures s != old(settings).shape ==>
                settings == old(settings).(shape := s)
                && connectors == ApplyAt(old(connectors), selected, c => WithShape(s, c))
    {
      if s != settings.shape {
        settings := settings.(shape := s);
        ApplySelectedConnectors(c => WithShape(s, c));
      }
    }

    /** The depth-ratio slider and its tolerance slider moved to (depth, tolerance).
        Both settings take the new values; when either moved by at least the
        comparison precision, the selected connectors are updated. */
    method EditDepthRatio(depth: real, tolerance: real) returns (changed: bool)
      requires Valid()
      modifies this`settings, this`connectors
      ensures Valid()
      ensures settings == old(settings).(depthRatio := depth, depthRatioTolerance := tolerance)
      ensures changed == (!Approx(old(settings).depthRatio, depth)
                          || !Approx(old(settings).depthRatioTolerance * 100.0, tolerance * 100.0))
      ensures !changed ==> connectors == old(connectors)
      ensures changed ==> connectors == ApplyAt(old(connectors), selected, c => WithDepth(depth, tolerance, c))
    {
      changed := !Approx(settings.depthRatio, depth)
                 || !Approx(settings.depthRatioTolerance * 100.0, tolerance * 100.0);
      settings := settings.(depthRatio := depth, depthRatioTolerance := tolerance);
      if changed {
        ApplySelectedConnectors(c => WithDepth(depth, tolerance, c));
      }
    }

    /** The size slider and its tolerance slider moved to (size, tolerance). */
    method EditSize(size: real, tolerance: real) returns (changed: bool)
      requires Valid()
      modifies this`settings, this`connectors
      ensures Valid()
      ensures settings == old(settings).(size := size, sizeTolerance := tolerance)
      ensures changed == (!Approx(old(settings).size, size)
                          || !Approx(old(settings).sizeTolerance * 100.0, tolerance * 100.0))
      ensures !changed ==> connectors == old(connectors)
      ensures changed ==> connectors == ApplyAt(old(connectors), selected, c => WithSize(size, tolerance, c))
    {
      changed := !Approx(settings.size, size)
                 || !Approx(settings.sizeTolerance * 100.0, tolerance * 100.0);
      settings := settings.(size := size, sizeTolerance := tolerance);
      if changed {
        ApplySelectedConnectors(c => WithSize(size, tolerance, c));
      }
    }

    /** "Confirm connectors": clear the selection and leave connector editing. */
    method ConfirmConnectors()
      modifies this`selected, this`selectedCount, this`settings, this`connectorsEditing
      ensures selected == AllFalse(|old(selected)|) && selectedCount == 0
      ensures settings == Validated(old(settings)) && !connectorsEditing
    {
      UnselectAllConnectors();
      SetConnectorsEditing(false);
    }

    /** "Cancel": drop all connectors and leave connector editing. */
    method CancelConnectors()
      modifies this`connectors, this`selected, this`selectedCount, this`connectorsEditing
      ensures Valid() && connectors == [] && selected == [] && selectedCount == 0 && !connectorsEditing
    {
      ResetConnectors();
      SetConnectorsEditing(false);
    }

    /** Fills the settings from the selected connectors when editing with a
        positive counter: each field is the first selected connector's value when
        every selected connector agrees with it, or undefined.
        With a counter of 1 the first selected connector alone decides. */
    method InitInputWindowData()
      requires Valid()
      modifies this`settings
      ensures connectorsEditing && selectedCount > 0 ==>
                settings == MergedSettings(connectors, selected, selectedCount)
      ensures !(connectorsEditing && selectedCount > 0) ==> settings == old(settings)
    {
      if connectorsEditing && selectedCount > 0 {
        var depth, depthTolerance, radius, radiusTolerance := UndefFloat, UndefFloat, UndefFloat, UndefFloat;
        var t, st, sh := ConnectorType.Undef, ConnectorStyle.Undef, ConnectorShape.Undef;
        var isInit := false;
        var idx := 0;
        while idx < |selected|
          invariant 0 <= idx <= |selected|
          invariant !isInit ==> Picked(connectors[..idx], selected[..idx]) == []
          invariant !isInit ==> depth == UndefFloat && depthTolerance == UndefFloat && radius == UndefFloat
                                && radiusTolerance == UndefFloat && t == ConnectorType.Undef
                                && st == ConnectorStyle.Undef && sh == ConnectorShape.Undef
          invariant isInit ==> selectedCount != 1 && Picked(connectors[..idx], selected[..idx]) != []
          invariant isInit ==> RunningMatches(Picked(connectors[..idx], selected[..idx]),
                                              depth, depthTolerance, radius, radiusTolerance, t, st, sh)
        {
          PickedSnoc(connectors, selected, idx);
          if selected[idx] {
            var c := connectors[idx];
            if !isInit {
              depth, depthTolerance, radius, radiusTolerance := c.height, c.heightTolerance, c.radius, c.radiusTolerance;
              t, st, sh := c.attribs.ctype, c.attribs.style, c.attribs.shape;
              if selectedCount == 1 {
                PickedFirst(connectors, selected, idx);
                break;
              }
              isInit := true;
              assert Picked(connectors[..idx + 1], selected[..idx + 1]) == [c];
              RunningSingle(c);
            } else {
              ghost var p := Picked(connectors[..idx], selected[..idx]);
              RunningStep(p, c, depth, depthTolerance, radius, radiusTolerance, t, st, sh);
              if !Approx(depth, c.height) { depth := UndefFloat; }
              if !Approx(depthTolerance, c.heightTolerance) { depthTolerance := UndefFloat; }
              if !Approx(radius, c.radius) { radius := UndefFloat; }
              if !Approx(radiusTolerance, c.radiusTolerance) { radiusTolerance := UndefFloat; }
              if t != c.attribs.ctype { t := ConnectorType.Undef; }
              if st != c.attribs.style { st := ConnectorStyle.Undef; }
              if sh != c.attribs.shape { sh := ConnectorShape.Undef; }
              assert Picked(connectors[..idx + 1], selected[..idx + 1]) == p + [c];
            }
          } else {
            assert Picked(connectors[..idx + 1], selected[..idx + 1]) == Picked(connectors[..idx], selected[..idx]);
          }
          idx := idx + 1;
        }
        assert connectors[..|selected|] == connectors && selected[..|selected|] == selected;
        settings := Settings(depth, depthTolerance, 2.0 * radius, radiusTolerance, t, st, sh);
      }
    }

    /** The cut-line gesture's start/discard state. A left press starts a line;
        while a line is drawn, a press or release ends it when it is long
        enough (the plane then takes the line's rotation), and every event
        of the gesture is consumed. */
    method ProcessCutLine(action: GizmoEvent, longEnough: bool, lineRotation: Transform) returns (handled: bool)
      modifies this`cutLineProcessing, this`rotation
      ensures handled == (action == LeftDown || old(cutLineProcessing))
      ensures !old(cutLineProcessing) ==> rotation == old(rotation)
                                          && cutLineProcessing == (action == LeftDown)
      ensures old(cutLineProcessing) && (action == LeftDown || action == LeftUp) && longEnough ==>
                !cutLineProcessing && rotation == lineRotation
      ensures old(cutLineProcessing) && !((action == LeftDown || action == LeftUp) && longEnough) ==>
                cutLineProcessing && rotation == old(rotation)
    {
      if action == LeftDown && !cutLineProcessing {
        cutLineProcessing := true;
        return true;
      }
      if cutLineProcessing {
        if action == LeftDown || action == LeftUp {
          if !longEnough {
            return true;
          }
          rotation := lineRotation;
          cutLineProcessing := false;
        }
        return true;
      }
      return false;
    }

    /** A left press while editing connectors. With Shift or Alt on empty space it
        starts a selection (Shift) or deselection (Alt) rectangle; without them on
        empty space it adds a connector, or records the press position when the
        ray misses the plane. On a grabber or a connector nothing happens. The
        press is always consumed. */
    method PressLeft(mouse: Vec2, shift: bool, alt: bool, hover: int, hit: Option<Vec3>) returns (handled: bool)
      requires Valid() && connectorsEditing
      modifies this`connectors, this`selected, this`selectedCount, this`settings, this`ldownMousePosition
      modifies this`rectangle, this`rectangleStart, this`rectangleEnd
      ensures Valid() && handled
      ensures (shift || alt || hover != -1) ==>
                connectors == old(connectors) && selected == old(selected) && selectedCount == old(selectedCount)
                && settings == old(settings) && ldownMousePosition == old(ldownMousePosition)
      ensures (shift || alt) && hover == -1 ==>
                rectangle == (if shift then Select else Deselect) && rectangleStart == mouse && rectangleEnd == mouse
      ensures !((shift || alt) && hover == -1) ==>
                rectangle == old(rectangle) && rectangleStart == old(rectangleStart) && rectangleEnd == old(rectangleEnd)
      ensures !shift && !alt && hover == -1 && hit.Some? ==>
                connectors == old(connectors) + [NewConnector(Validated(old(settings)), hit.value, rotation)]
                && selected == AllFalse(|old(connectors)|) + [true] && selectedCount == 1
                && settings == Validated(old(settings)) && ldownMousePosition == old(ldownMousePosition)
      ensures !shift && !alt && hover == -1 && hit.None? ==>
                connectors == old(connectors) && selected == old(selected) && selectedCount == old(selectedCount)
                && settings == old(settings) && ldownMousePosition == mouse
    {
      if shift || alt {
        if hover == -1 {
          rectangle := if shift then Select else Deselect;
          rectangleStart := mouse;
          rectangleEnd := mouse;
        }
      } else if hover == -1 {
        var added := AddConnector(hit);
        if !added {
          ldownMousePosition := mouse;
        }
      }
      return true;
    }

    /** A left release with no selection rectangle: a release closer than
        ClickRadius to the last press that added nothing first unselects every
        connector, then the hovered connector is clicked. */
    method ReleaseLeft(mouse: Vec2, alt: bool, shift: bool, hover: int) returns (handled: bool)
      requires Valid() && hover < ConnectorsGroupId + |connectors|
      modifies this`selected, this`selectedCount, this`settings
      ensures Valid()
      ensures var reset := Dist2(ldownMousePosition, mouse) < ClickRadius * ClickRadius;
              var sel0 := if reset then AllFalse(|old(selected)|) else old(selected);
              var count0 := if reset then 0 else old(selectedCount);
              var settings0 := if reset then Validated(old(settings)) else old(settings);
              var h := hover - ConnectorsGroupId;
              handled == (hover >= ConnectorsGroupId)
              && (hover < ConnectorsGroupId ==>
                    selected == sel0 && selectedCount == count0 && settings == settings0)
              && (hover >= ConnectorsGroupId && alt ==>
                    selected == sel0[h := false] && selectedCount == count0 - 1 && settings == settings0)
              && (hover >= ConnectorsGroupId && !alt && shift ==>
                    selected == sel0[h := true] && selectedCount == count0 + 1 && settings == settings0)
              && (hover >= ConnectorsGroupId && !alt && !shift ==>
                    selected == OneHot(|selected|, h) && selectedCount == 1
                    && settings == Validated(old(settings)))
    {
      if Dist2(ldownMousePosition, mouse) < ClickRadius * ClickRadius {
        UnselectAllConnectors();
        ValidatedIdempotent(old(settings));
      }
      handled := IsSelectionChanged(alt, shift, hover);
    }

    /** A right press on connector h deletes exactly that connector: it becomes
        the only selected one, then the selection is deleted. */
    method DeleteHovered(h: nat) returns (handled: bool)
      requires Valid() && h < |connectors|
      modifies this`connectors, this`selected, this`selectedCount, this`settings
      ensures Valid() && handled
      ensures connectors == old(connectors)[..h] + old(connectors)[h + 1..]
      ensures selected == AllFalse(|connectors|) && selectedCount == 0
      ensures settings == Validated(old(settings))
    {
      UnselectAllConnectors();
      SelectConnector(h, true);
      assert selected == OneHot(|connectors|, h);
      KeptOneHot(connectors, h);
      handled := DeleteSelectedConnectors();
    }

    /** The gizmo's mouse and keyboard event handler, connector part. */
    method HandleEvent(action: GizmoEvent, mouse: Vec2, shift: bool, alt: bool, hover: int,
                       hit: Option<Vec3>, inside: seq<int>, longEnough: bool, lineRotation: Transform)
      returns (handled: bool)
      requires Valid()
      requires hover < ConnectorsGroupId + |connectors|
      requires forall k :: 0 <= k < |inside| ==> 0 <= inside[k] < |connectors|
      modifies this
      ensures Valid()
      // the gizmo's modes and flags are never changed by an event
      ensures connectorsEditing == old(connectorsEditing) && keepUpper == old(keepUpper)
              && keepLower == old(keepLower) && connectorMode == old(connectorMode)
              && dragging == old(dragging) && hasInvalidConnector == old(hasInvalidConnector)
      // early exits
      ensures old(dragging) || old(connectorMode) == Auto ==> !handled && unchanged(this)
      ensures !old(dragging) && old(connectorMode) == Manual && old(CutLineEvent(action, shift, hover)) ==>
                handled == (action == LeftDown || old(cutLineProcessing))
                && connectors == old(connectors) && selected == old(selected)
                && selectedCount == old(selectedCount) && settings == old(settings)
      ensures !old(dragging) && old(connectorMode) == Manual && old(CutLineEvent(action, shift, hover)) ==>
                rectangle == old(rectangle) && rectangleStart == old(rectangleStart)
                && rectangleEnd == old(rectangleEnd) && ldownMousePosition == old(ldownMousePosition)
      ensures (!old(dragging) && old(connectorMode) == Manual && !old(CutLineEvent(action, shift, hover))
               && !old(EditingEnabled())) ==> !handled && unchanged(this)
      // only the cut-line gesture moves the plane or the cut line
      ensures !old(CutLineEvent(action, shift, hover)) ==>
                rotation == old(rotation) && cutLineProcessing == old(cutLineProcessing)
      // only an addition or a deletion changes the connector list
      ensures connectors != old(connectors) ==>
                old(EditingEnabled())
                && ((action == LeftDown && !shift && !alt && hover == -1 && hit.Some?)
                    || (action == RightDown && !shift && hover >= ConnectorsGroupId)
                    || action == Delete)
      // only a left press or a drag touches the selection rectangle, only a release ends it
      ensures old(EditingEnabled()) && action != LeftDown && action != Dragging ==>
                rectangleStart == old(rectangleStart) && rectangleEnd == old(rectangleEnd)
      ensures old(EditingEnabled()) && action != LeftDown && action != LeftUp && action != ShiftUp && action != AltUp ==>
                rectangle == old(rectangle)
      // a left press on empty space adds a connector, or records the press position
      ensures old(EditingEnabled()) && action == LeftDown && !shift && !alt && hover == -1 ==>
                handled && rectangle == old(rectangle)
                && rectangleStart == old(rectangleStart) && rectangleEnd == old(rectangleEnd)
                && (hit.Some? ==> connectors == old(connectors) + [NewConnector(Validated(old(settings)), hit.value, old(rotation))]
                                  && selected == AllFalse(|old(connectors)|) + [true] && selectedCount == 1
                                  && settings == Validated(old(settings))
                                  && ldownMousePosition == old(ldownMousePosition))
                && (hit.None? ==> connectors == old(connectors) && selected == old(selected)
                                  && selectedCount == old(selectedCount) && settings == old(settings)
                                  && ldownMousePosition == mouse)
      // a plain left press on a grabber or a connector is consumed and does nothing
      ensures old(EditingEnabled()) && action == LeftDown && !shift && !alt && hover != -1 ==>
                handled && unchanged(this)
      // a left press with Shift or Alt on empty space starts the selection rectangle
      ensures old(EditingEnabled()) && action == LeftDown && (shift || alt) ==>
                handled && connectors == old(connectors) && selected == old(selected)
                && selectedCount == old(selectedCount) && settings == old(settings)
                && ldownMousePosition == old(ldownMousePosition)
                && (hover == -1 ==> rectangle == (if shift then Select else Deselect)
                                    && rectangleStart == mouse && rectangleEnd == mouse)
                && (hover != -1 ==> unchanged(this))
      // a left release outside a rectangle: a release close to the last failed
      // press first unselects everything, then the hovered connector is clicked
      ensures old(EditingEnabled()) && action == LeftUp && old(rectangle) == Off ==>
                var reset := Dist2(old(ldownMousePosition), mouse) < ClickRadius * ClickRadius;
                var sel0 := if reset then AllFalse(|old(selected)|) else old(selected);
                var count0 := if reset then 0 else old(selectedCount);
                var settings0 := if reset then Validated(old(settings)) else old(settings);
                var h := hover - ConnectorsGroupId;
                handled == (hover >= ConnectorsGroupId)
                && connectors == old(connectors) && rectangle == Off
                && ldownMousePosition == old(ldownMousePosition)
                && (hover < ConnectorsGroupId ==>
                      selected == sel0 && selectedCount == count0 && settings == settings0)
                && (hover >= ConnectorsGroupId && alt ==>
                      selected == sel0[h := false] && selectedCount == count0 - 1 && settings == settings0)
                && (hover >= ConnectorsGroupId && !alt && shift ==>
                      selected == sel0[h := true] && selectedCount == count0 + 1 && settings == settings0)
                && (hover >= ConnectorsGroupId && !alt && !shift ==>
                      selected == OneHot(|selected|, h) && selectedCount == 1
                      && settings == Validated(old(settings)))
      // a release ends the selection rectangle
      ensures old(EditingEnabled()) && (action == LeftUp || action == ShiftUp || action == AltUp)
              && old(rectangle) != Off ==>
                handled && rectangle == Off
                && connectors == old(connectors) && settings == old(settings)
                && ldownMousePosition == old(ldownMousePosition)
                && (forall j :: 0 <= j < |selected| ==>
                      selected[j] == if j in inside then old(rectangle) == Select else old(selected)[j])
                && selectedCount == old(selectedCount) + (if old(rectangle) == Select then |inside| else -|inside|)
      // dragging moves the rectangle's far corner, if a rectangle is being dragged
      ensures old(EditingEnabled()) && action == Dragging ==>
                handled == (old(rectangle) != Off)
                && (handled ==> connectors == old(connectors) && selected == old(selected)
                                && selectedCount == old(selectedCount) && settings == old(settings)
                                && ldownMousePosition == old(ldownMousePosition)
                                && rectangle == old(rectangle) && rectangleStart == old(rectangleStart)
                                && rectangleEnd == mouse)
                && (!handled ==> unchanged(this))
      // a right press on a connector deletes exactly that connector
      ensures old(EditingEnabled()) && action == RightDown && !shift && hover >= ConnectorsGroupId ==>
                handled
                && connectors == old(connectors)[..hover - ConnectorsGroupId] + old(connectors)[hover - ConnectorsGroupId + 1..]
                && selected == AllFalse(|connectors|) && selectedCount == 0
                && settings == Validated(old(settings)) && ldownMousePosition == old(ldownMousePosition)
      ensures old(EditingEnabled()) && action == RightDown && !shift && hover < ConnectorsGroupId ==>
                !handled && unchanged(this)
      // Delete removes the selected connectors
      ensures old(EditingEnabled()) && action == Delete ==>
                handled == (old(connectors) != [])
                && connectors == Kept(old(connectors), old(selected))
                && settings == old(settings) && ldownMousePosition == old(ldownMousePosition)
                && (handled ==> selected == AllFalse(|connectors|) && selectedCount == 0)
                && (!handled ==> unchanged(this))
      // SelectAll selects every connector
      ensures old(EditingEnabled()) && action == SelectAll ==>
                handled && connectors == old(connectors) && settings == old(settings)
                && ldownMousePosition == old(ldownMousePosition)
                && selected == AllTrue(|connectors|) && selectedCount == |connectors|
                && selectedCount == CountTrue(selected)
      // events the connector editor ignores
      ensures old(EditingEnabled())
              && (action == RightUp || action == Moving || action == Other || (action == RightDown && shift)
                  || ((action == ShiftUp || action == AltUp) && old(rectangle) == Off)) ==>
                !handled && unchanged(this)
    {
      if dragging || connectorMode == Auto {
        return false;
      }
      if CutLineEvent(action, shift, hover) {
        handled := ProcessCutLine(action, longEnough, lineRotation);
        return;
      }
      if !keepUpper || !keepLower {
        return false;
      }
      if !connectorsEditing {
        return false;
      }

      if action == LeftDown {
        handled := PressLeft(mouse, shift, alt, hover, hit);
        return;
      }

      if action == LeftUp && rectangle == Off {
        handled := ReleaseLeft(mouse, alt, shift, hover);
        return;
      }

      if (action == LeftUp || action == ShiftUp || action == AltUp) && rectangle != Off {
        ProcessSelectionRectangle(inside);
        return true;
      }

      if action == Dragging {
        if rectangle != Off {
          rectangleEnd := mouse;
          return true;
        }
        return false;
      }

      if action == RightDown && !shift {
        if hover < ConnectorsGroupId {
          return false;
        }
        handled := DeleteHovered(hover - ConnectorsGroupId);
        return;
      }

      if action == Delete {
        handled := DeleteSelectedConnectors();
        if !handled {
          assert old(connectors) == [];
        }
        return;
      }

      if action == SelectAll {
        SelectAllConnectors();
        return true;
      }

      return false;
    }
  }

  /** The all-set mask counts every flag. */
  lemma {:induction false} CountAllTrue(n: nat)
    ensures CountTrue(AllTrue(n)) == n
  {
    if n > 0 {
      assert AllTrue(n)[1..] == AllTrue(n - 1);
      CountAllTrue(n - 1);
    }
  }

  /** The all-clear mask counts nothing. */
  lemma {:induction false} CountAllFalse(n: nat)
    ensures CountTrue(AllFalse(n)) == 0
  {
    if n > 0 {
      assert AllFalse(n)[1..] == AllFalse(n - 1);
      CountAllFalse(n - 1);
    }
  }

  /** The mask after adding a connector counts exactly one flag. */
  lemma {:induction false} CountAllFalseThenTrue(n: nat)
    ensures CountTrue(AllFalse(n) + [true]) == 1
  {
    if n > 0 {
      assert (AllFalse(n) + [true])[1..] == AllFalse(n - 1) + [true];
      CountAllFalseThenTrue(n - 1);
    }
  }

  /** The merge loop's accumulators hold the common values over the connectors
      picked so far (the radius, not yet the size). */
  ghost predicate RunningMatches(p: seq<Connector>, depth: real, depthTolerance: real, radius: real,
                                 radiusTolerance: real, t: ConnectorType, st: ConnectorStyle, sh: ConnectorShape)
  {
    depth == Common(p, Height, Approx, UndefFloat)
    && depthTolerance == Common(p, HeightTolerance, Approx, UndefFloat)
    && radius == Common(p, Radius, Approx, UndefFloat)
    && radiusTolerance == Common(p, RadiusTolerance, Approx, UndefFloat)
    && t == Common(p, TypeOf, Same, ConnectorType.Undef)
    && st == Common(p, StyleOf, Same, ConnectorStyle.Undef)
    && sh == Common(p, ShapeOf, Same, ConnectorShape.Undef)
  }

  /** The accumulators after the first selected connector hold its values. */
  lemma RunningSingle(c: Connector)
    ensures RunningMatches([c], c.height, c.heightTolerance, c.radius, c.radiusTolerance,
                           c.attribs.ctype, c.attribs.style, c.attribs.shape)
  {
  }

  /** One iteration of the merge loop keeps the accumulators matching. */
  lemma RunningStep(p: seq<Connector>, c: Connector, depth: real, depthTolerance: real, radius: real,
                    radiusTolerance: real, t: ConnectorType, st: ConnectorStyle, sh: ConnectorShape)
    requires p != []
    requires RunningMatches(p, depth, depthTolerance, radius, radiusTolerance, t, st, sh)
    ensures RunningMatches(p + [c],
                           if !Approx(depth, c.height) then UndefFloat else depth,
                           if !Approx(depthTolerance, c.heightTolerance) then UndefFloat else depthTolerance,
                           if !Approx(radius, c.radius) then UndefFloat else radius,
                           if !Approx(radiusTolerance, c.radiusTolerance) then UndefFloat else radiusTolerance,
                           if t != c.attribs.ctype then ConnectorType.Undef else t,
                           if st != c.attribs.style then ConnectorStyle.Undef else st,
                           if sh != c.attribs.shape then ConnectorShape.Undef else sh)
  {
    CommonSnoc(p, c, Height, Approx, UndefFloat);
    CommonSnoc(p, c, HeightTolerance, Approx, UndefFloat);
    CommonSnoc(p, c, Radius, Approx, UndefFloat);
    CommonSnoc(p, c, RadiusTolerance, Approx, UndefFloat);
    CommonSnoc(p, c, TypeOf, Same, ConnectorType.Undef);
    CommonSnoc(p, c, StyleOf, Same, ConnectorStyle.Undef);
    CommonSnoc(p, c, ShapeOf, Same, ConnectorShape.Undef);
  }
}
