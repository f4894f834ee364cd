/** Cut connectors and the "current connector settings" of the cut gizmo.

    A connector is a peg placed on the cut plane. Its position and the
    rotation of the plane are carried along but never interpreted here;
    the numeric fields are the source's floats, modelled as reals. */
module Connectors {

  datatype Option<T> = None | Some(value: T)

  datatype ConnectorType = Plug | Dowel | Undef
  datatype ConnectorStyle = Prizm | Frustum | Undef
  datatype ConnectorShape = Triangle | Square | Hexagon | Circle | Undef

  datatype Attributes = Attributes(ctype: ConnectorType, style: ConnectorStyle, shape: ConnectorShape)

  datatype Vec2 = Vec2(x: real, y: real)
  datatype Vec3 = Vec3(x: real, y: real, z: real)

  /** The rotation of the cut plane (a 4x4 transform in the source), stored in each new connector. */
  datatype Transform = Transform(rows: seq<seq<real>>)

  datatype Connector = Connector(
    pos: Vec3,
    rotation: Transform,
    radius: real,
    height: real,
    radiusTolerance: real,
    heightTolerance: real,
    attribs: Attributes)

  /** The settings shown in the connectors window: depth ratio, size (a diameter),
      their tolerances, and the type, style and shape of new connectors. */
  datatype Settings = Settings(
    depthRatio: real,
    depthRatioTolerance: real,
    size: real,
    sizeTolerance: real,
    ctype: ConnectorType,
    style: ConnectorStyle,
    shape: ConnectorShape)

  /** Marker for "the selected connectors disagree on this value". */
  const UndefFloat: real := -999.0

  /** Defaults that validation puts in place of undefined settings. */
  const DefaultDepthRatio: real := 3.0
  const DefaultDepthRatioTolerance: real := 0.1
  const DefaultSize: real := 2.5
  const DefaultSizeTolerance: real := 0.0

  /** A setting is defined when no number is negative and no attribute is Undef. */
  predicate SettingsDefined(s: Settings)
  {
    s.depthRatio >= 0.0 && s.depthRatioTolerance >= 0.0 && s.size >= 0.0 && s.sizeTolerance >= 0.0
    && s.ctype != ConnectorType.Undef && s.style != ConnectorStyle.Undef && s.shape != ConnectorShape.Undef
  }

  /** validate_connector_settings: each negative number and each Undef attribute
      is replaced by its default; every other field is kept. */
  function Validated(s: Settings): (r: Settings)
    ensures SettingsDefined(r)
    ensures s.depthRatio >= 0.0 ==> r.depthRatio == s.depthRatio
    ensures s.depthRatio < 0.0 ==> r.depthRatio == DefaultDepthRatio
    ensures s.depthRatioTolerance >= 0.0 ==> r.depthRatioTolerance == s.depthRatioTolerance
    ensures s.depthRatioTolerance < 0.0 ==> r.depthRatioTolerance == DefaultDepthRatioTolerance
    ensures s.size >= 0.0 ==> r.size == s.size
    ensures s.size < 0.0 ==> r.size == DefaultSize
    ensures s.sizeTolerance >= 0.0 ==> r.sizeTolerance == s.sizeTolerance
    ensures s.sizeTolerance < 0.0 ==> r.sizeTolerance == DefaultSizeTolerance
    ensures r.ctype == if s.ctype == ConnectorType.Undef then Plug else s.ctype
    ensures r.style == if s.style == ConnectorStyle.Undef then Prizm else s.style
    ensures r.shape == if s.shape == ConnectorShape.Undef then Circle else s.shape
    ensures SettingsDefined(s) ==> r == s
  {
    Settings(
      if s.depthRatio < 0.0 then DefaultDepthRatio else s.depthRatio,
      if s.depthRatioTolerance < 0.0 then DefaultDepthRatioTolerance else s.depthRatioTolerance,
      if s.size < 0.0 then DefaultSize else s.size,
      if s.sizeTolerance < 0.0 then DefaultSizeTolerance else s.sizeTolerance,
      if s.ctype == ConnectorType.Undef then Plug else s.ctype,
      if s.style == ConnectorStyle.Undef then Prizm else s.style,
      if s.shape == ConnectorShape.Undef then Circle else s.shape)
  }

  /** Validation is idempotent. */
  lemma ValidatedIdempotent(s: Settings)
    ensures Validated(Validated(s)) == Validated(s)
  {
  }

  /** The connector that add_connector appends: half the size as radius, the depth
      ratio as height, the two tolerances, and the current attributes. */
  function NewConnector(s: Settings, pos: Vec3, rotation: Transform): Connector
  {
    Connector(pos, rotation, 0.5 * s.size, s.depthRatio, s.sizeTolerance, s.depthRatioTolerance,
              Attributes(s.ctype, s.style, s.shape))
  }

  /** A connector with no negative dimension and no undefined attribute. */
  predicate WellFormed(c: Connector)
  {
    c.radius >= 0.0 && c.height >= 0.0 && c.radiusTolerance >= 0.0 && c.heightTolerance >= 0.0
    && c.attribs.ctype != ConnectorType.Undef && c.attribs.style != ConnectorStyle.Undef
    && c.attribs.shape != ConnectorShape.Undef
  }

  /** A connector made from validated settings is well formed, and taking the
      settings back from it (size = 2 * radius) gives those settings again. */
  lemma NewConnectorFromValidated(s: Settings, pos: Vec3, rotation: Transform)
    ensures WellFormed(NewConnector(Validated(s), pos, rotation))
    ensures SettingsOf(NewConnector(Validated(s), pos, rotation)) == Validated(s)
  {
  }

  /** The settings the window shows for a single connector: size is twice the radius. */
  function SettingsOf(c: Connector): Settings
  {
    Settings(c.height, c.heightTolerance, 2.0 * c.radius, c.radiusTolerance,
             c.attribs.ctype, c.attribs.style, c.attribs.shape)
  }

  /** The connector that the depth-ratio slider writes: a positive ratio becomes the
      height and a non-negative tolerance the height tolerance; nothing else changes. */
  function WithDepth(depth: real, tolerance: real, c: Connector): (r: Connector)
    ensures r.height == (if depth > 0.0 then depth else c.height)
    ensures r.heightTolerance == (if tolerance >= 0.0 then tolerance else c.heightTolerance)
    ensures r.pos == c.pos && r.rotation == c.rotation && r.radius == c.radius
    ensures r.radiusTolerance == c.radiusTolerance && r.attribs == c.attribs
  {
    c.(height := if depth > 0.0 then depth else c.height,
       heightTolerance := if tolerance >= 0.0 then tolerance else c.heightTolerance)
  }

  /** The connector that the size slider writes: a positive size sets the radius to
      half of it and a non-negative tolerance the radius tolerance. */
  function WithSize(size: real, tolerance: real, c: Connector): (r: Connector)
    ensures size > 0.0 ==> r.radius * 2.0 == size
    ensures size <= 0.0 ==> r.radius == c.radius
    ensures r.radiusTolerance == (if tolerance >= 0.0 then tolerance else c.radiusTolerance)
    ensures r.pos == c.pos && r.rotation == c.rotation && r.height == c.height
    ensures r.heightTolerance == c.heightTolerance && r.attribs == c.attribs
  {
    c.(radius := if size > 0.0 then 0.5 * size else c.radius,
       radiusTolerance := if tolerance >= 0.0 then tolerance else c.radiusTolerance)
  }

  function WithType(t: ConnectorType, c: Connector): Connector
  {
    c.(attribs := c.attribs.(ctype := t))
  }

  function WithStyle(s: ConnectorStyle, c: Connector): Connector
  {
    c.(attribs := c.attribs.(style := s))
  }

  function WithShape(s: ConnectorShape, c: Connector): Connector
  {
    c.(attribs := c.attribs.(shape := s))
  }

  /** Number of points used to sample a connector's bottom contour for the
      outside-of-contour test. */
  function SectorCount(shape: ConnectorShape): (n: int)
    ensures shape == Triangle ==> n == 3
    ensures shape == Square ==> n == 4
    ensures shape == Hexagon ==> n == 6
    ensures shape == Circle ==> n == 60
    ensures shape == ConnectorShape.Undef ==> n == 1
    ensures n >= 3 <==> shape != ConnectorShape.Undef
  {
    match shape
    case Triangle => 3
    case Square => 4
    case Circle => 60
    case Hexagon => 6
    case Undef => 1
  }
}
