/** What the connectors window shows when several connectors are selected:
    for each setting, the first selected connector's value when every selected
    connector agrees with it (numbers: differ by less than 1e-4), or an
    "undefined" marker when one of them does not. */
module SettingsMerge {
  import opened Connectors
  import opened SelectionMask

  /** Precision of the source's approximate float comparison. */
  const Epsilon: real := 0.0001

  /** Two floats are treated as equal when they differ by less than Epsilon. */
  predicate Approx(a: real, b: real)
  {
    -Epsilon < a - b < Epsilon
  }

  predicate Same<T(==)>(a: T, b: T)
  {
    a == b
  }

  function Height(c: Connector): real { c.height }
  function HeightTolerance(c: Connector): real { c.heightTolerance }
  function Radius(c: Connector): real { c.radius }
  function RadiusTolerance(c: Connector): real { c.radiusTolerance }
  function TypeOf(c: Connector): ConnectorType { c.attribs.ctype }
  function StyleOf(c: Connector): ConnectorStyle { c.attribs.style }
  function ShapeOf(c: Connector): ConnectorShape { c.attribs.shape }

  /** True when every later entry agrees with the first under `same`. */
  predicate AllAgree<T>(cs: seq<Connector>, f: Connector -> T, same: (T, T) -> bool)
    requires cs != []
  {
    forall k :: 1 <= k < |cs| ==> same(f(cs[0]), f(cs[k]))
  }

  /** The field f shared by all of cs (compared with `same`), or `undef`. */
  function Common<T>(cs: seq<Connector>, f: Connector -> T, same: (T, T) -> bool, undef: T): (r: T)
  {
    if cs == [] then undef
    else if AllAgree(cs, f, same) then f(cs[0])
    else undef
  }

  /** The settings shown when nothing is picked: every field undefined, and the
      size twice the undefined radius. */
  const UndefSettings: Settings :=
    Settings(UndefFloat, UndefFloat, 2.0 * UndefFloat, UndefFloat,
             ConnectorType.Undef, ConnectorStyle.Undef, ConnectorShape.Undef)

  /** The settings of init_input_window_data for the connectors cs and the mask
      sel with counter count: with count == 1 the first selected connector alone
      decides; otherwise each field is its common value over all selected ones. */
  function MergedSettings(cs: seq<Connector>, sel: seq<bool>, count: int): (r: Settings)
    requires |cs| == |sel|
  {
    var p := Picked(cs, sel);
    if p == [] then UndefSettings
    else if count == 1 then SettingsOf(p[0])
    else Settings(
      Common(p, Height, Approx, UndefFloat),
      Common(p, HeightTolerance, Approx, UndefFloat),
      2.0 * Common(p, Radius, Approx, UndefFloat),
      Common(p, RadiusTolerance, Approx, UndefFloat),
      Common(p, TypeOf, Same, ConnectorType.Undef),
      Common(p, StyleOf, Same, ConnectorStyle.Undef),
      Common(p, ShapeOf, Same, ConnectorShape.Undef))
  }

  /** One step of the merge loop: a running value is reset to `undef` as soon as
      the next connector disagrees with it, and then stays `undef`. */
  lemma CommonSnoc<T>(cs: seq<Connector>, x: Connector, f: Connector -> T, same: (T, T) -> bool, undef: T)
    requires cs != []
    ensures Common(cs + [x], f, same, undef)
         == (if !same(Common(cs, f, same, undef), f(x)) then undef else Common(cs, f, same, undef))
  {
    var ys := cs + [x];
    assert ys[0] == cs[0];
    if AllAgree(cs, f, same) {
      if same(f(cs[0]), f(x)) {
        forall k | 1 <= k < |ys| ensures same(f(ys[0]), f(ys[k])) {
          if k < |cs| { assert ys[k] == cs[k]; } else { assert ys[k] == x; }
        }
      } else {
        assert ys[|cs|] == x;
      }
    } else {
      var k :| 1 <= k < |cs| && !same(f(cs[0]), f(cs[k]));
      assert ys[k] == cs[k];
    }
  }

  /** With exactly one connector selected, the window shows that connector's
      values, the size being twice its radius, whatever the counter says. */
  lemma {:induction false} MergedOfOne(cs: seq<Connector>, h: nat, count: int)
    requires h < |cs|
    ensures MergedSettings(cs, OneHot(|cs|, h), count) == SettingsOf(cs[h])
  {
    PickedOneHot(cs, h);
  }

  /** When the selected connectors all carry the same values, the window shows
      those values. */
  lemma {:induction false} MergedOfEqual(cs: seq<Connector>, sel: seq<bool>, count: int, h: nat)
    requires |cs| == |sel| && h < |cs| && sel[h]
    requires forall i :: 0 <= i < |cs| && sel[i] ==> SettingsOf(cs[i]) == SettingsOf(cs[h])
    ensures MergedSettings(cs, sel, count) == SettingsOf(cs[h])
  {
    var p := Picked(cs, sel);
    PickedMembers(cs, sel);
    PickedNonEmpty(cs, sel, h);
    forall k | 0 <= k < |p| ensures SettingsOf(p[k]) == SettingsOf(cs[h]) {
      assert p[k] in p;
      var i :| 0 <= i < |cs| && sel[i] && cs[i] == p[k];
    }
  }

  /** Every picked entry comes from a flagged index. */
  lemma {:induction false} PickedMembers<T>(s: seq<T>, m: seq<bool>)
    requires |s| == |m|
    ensures forall x :: x in Picked(s, m) ==> exists i :: 0 <= i < |s| && m[i] && s[i] == x
  {
    if s != [] {
      PickedMembers(s[1..], m[1..]);
      forall x | x in Picked(s, m) ensures exists i :: 0 <= i < |s| && m[i] && s[i] == x {
        if m[0] && x == s[0] {
        } else {
          assert x in Picked(s[1..], m[1..]);
          var j :| 0 <= j < |s| - 1 && m[1..][j] && s[1..][j] == x;
          assert m[j + 1] && s[j + 1] == x;
        }
      }
    }
  }

  lemma {:induction false} PickedNonEmpty<T>(s: seq<T>, m: seq<bool>, h: nat)
    requires |s| == |m| && h < |s| && m[h]
    ensures Picked(s, m) != []
  {
    if h > 0 && !m[0] {
      PickedNonEmpty(s[1..], m[1..], h - 1);
    }
  }

  /** When every picked connector carries the value v of field f, the merge shows v. */
  lemma CommonOfUniform<T>(p: seq<Connector>, f: Connector -> T, same: (T, T) -> bool, undef: T, v: T)
    requires p != [] && same(v, v)
    requires forall k :: 0 <= k < |p| ==> f(p[k]) == v
    ensures Common(p, f, same, undef) == v
  {
  }

  /** After the depth-ratio slider writes a positive ratio and a non-negative
      tolerance into the selected connectors, the window shows exactly those values. */
  lemma {:induction false} DepthRoundTrip(cs: seq<Connector>, sel: seq<bool>, count: int, h: nat,
                                          depth: real, tolerance: real)
    requires |cs| == |sel| && h < |cs| && sel[h]
    requires depth > 0.0 && tolerance >= 0.0
    ensures MergedSettings(ApplyAt(cs, sel, c => WithDepth(depth, tolerance, c)), sel, count).depthRatio == depth
    ensures MergedSettings(ApplyAt(cs, sel, c => WithDepth(depth, tolerance, c)), sel, count).depthRatioTolerance == tolerance
  {
    var f := c => WithDepth(depth, tolerance, c);
    var p := Picked(ApplyAt(cs, sel, f), sel);
    PickedApplyAt(cs, sel, f);
    PickedNonEmpty(cs, sel, h);
    CommonOfUniform(p, Height, Approx, UndefFloat, depth);
    CommonOfUniform(p, HeightTolerance, Approx, UndefFloat, tolerance);
  }

  /** After the size slider writes a positive size and a non-negative tolerance
      into the selected connectors, the window shows exactly those values
      (the radius being half the size, and the size twice the radius). */
  lemma {:induction false} SizeRoundTrip(cs: seq<Connector>, sel: seq<bool>, count: int, h: nat,
                                         size: real, tolerance: real)
    requires |cs| == |sel| && h < |cs| && sel[h]
    requires size > 0.0 && tolerance >= 0.0
    ensures MergedSettings(ApplyAt(cs, sel, c => WithSize(size, tolerance, c)), sel, count).size == size
    ensures MergedSettings(ApplyAt(cs, sel, c => WithSize(size, tolerance, c)), sel, count).sizeTolerance == tolerance
  {
    var f := c => WithSize(size, tolerance, c);
    var p := Picked(ApplyAt(cs, sel, f), sel);
    PickedApplyAt(cs, sel, f);
    PickedNonEmpty(cs, sel, h);
    CommonOfUniform(p, Radius, Approx, UndefFloat, 0.5 * size);
    CommonOfUniform(p, RadiusTolerance, Approx, UndefFloat, tolerance);
  }

  /** Right after a connector is added it is the only selected one, so the
      window shows back the validated settings it was made from. */
  lemma {:induction false} AddedConnectorShown(cs: seq<Connector>, s: Settings, pos: Vec3, rotation: Transform)
    ensures MergedSettings(cs + [NewConnector(Validated(s), pos, rotation)], AllFalse(|cs|) + [true], 1)
            == Validated(s)
  {
    var c := NewConnector(Validated(s), pos, rotation);
    assert AllFalse(|cs|) + [true] == OneHot(|cs| + 1, |cs|);
    MergedOfOne(cs + [c], |cs|, 1);
    NewConnectorFromValidated(s, pos, rotation);
  }
}
