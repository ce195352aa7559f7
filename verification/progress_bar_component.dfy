/** UI::ProgressBarComponent: lays out a bar widget inside its owner according to the progress,
    the relative bar size, the direction and the bar type. Positions and sizes are relative to
    the owning widget; the widget lookup done on initialisation is not part of this model, so
    the bar widget is given (or absent) in the component's state. */
module ProgressBarComponent {
  import opened UIMath
  import opened Outcomes

  datatype BarType = Fill | Stretch
  datatype BarDirection = Horizontal | Vertical
  datatype AlignmentAnchor = MiddleLeft | BottomCentre | OtherAnchor

  /** A drawable whose UVs can be set. */
  datatype Drawable = Drawable(uvs: UVs)

  /** The bar widget's drawable component, which may be missing or hold no drawable. */
  datatype BarDrawable = NoDrawableComponent | DrawableComponent(drawable: Option<Drawable>)

  datatype BarWidget = BarWidget(
    parentalAnchor: AlignmentAnchor,
    originAnchor: AlignmentAnchor,
    relativePosition: Vector2,
    relativeSize: Vector2,
    drawable: BarDrawable)

  datatype Component = Component(
    relBarSize: Vector2,
    progress: real,
    barType: BarType,
    direction: BarDirection,
    barWidgetName: string,
    barWidget: Option<BarWidget>)

  /** The conditions the component asserts. */
  datatype ComponentError =
    | EmptyBarWidgetName
    | BarWidgetNameAlreadySet
    | ProgressOutOfRange
    | FillWithoutDrawable

  /** The relative bar size before any property sets it. */
  const DefaultRelBarSize: Vector2 := Vector2(1.0, 1.0)

  /** The UVs that show the whole texture. */
  const FullUVs: UVs := UVs(0.0, 0.0, 1.0, 1.0)

  predicate InUnitRange(p: real)
  {
    0.0 <= p <= 1.0
  }

  //---------------------------------------------------------------- layouts

  /** The UVs of the drawable after a layout: a fill bar shows the filled part of the texture,
      any other type the whole texture; with no drawable nothing is set, and a fill bar without
      a drawable component is an error. */
  function BarUVs(barType: BarType, drawable: BarDrawable, fillUVs: UVs): (r: Result<BarDrawable, ComponentError>)
    ensures r.Err? <==> barType == Fill && drawable.NoDrawableComponent?
    ensures r.Ok? && drawable.DrawableComponent? && drawable.drawable.Some? ==>
      r.value == DrawableComponent(Some(Drawable(if barType == Fill then fillUVs else FullUVs)))
    ensures r.Ok? && !(drawable.DrawableComponent? && drawable.drawable.Some?) ==> r.value == drawable
  {
    match drawable
    case NoDrawableComponent => if barType == Fill then Err(FillWithoutDrawable) else Ok(drawable)
    case DrawableComponent(None) => Ok(drawable)
    case DrawableComponent(Some(_)) =>
      Ok(DrawableComponent(Some(Drawable(if barType == Fill then fillUVs else FullUVs))))
  }

  /** The horizontal layout: anchored middle-left, placed so that the full-size bar would be
      centred, its width scaled by the progress; a fill bar shows the left `progress` of the
      texture. */
  function UpdateHorizontalBar(relBarSize: Vector2, progress: real, barType: BarType, w: BarWidget): (r: Result<BarWidget, ComponentError>)
    ensures r.Err? <==> barType == Fill && w.drawable.NoDrawableComponent?
    ensures r.Ok? ==> && r.value.parentalAnchor == MiddleLeft && r.value.originAnchor == MiddleLeft
                      && r.value.relativePosition.x + relBarSize.x + r.value.relativePosition.x == 1.0
                      && r.value.relativePosition.y == 0.0
                      && r.value.relativeSize == Vector2(relBarSize.x * progress, relBarSize.y)
    ensures r.Ok? && barType == Fill && w.drawable.DrawableComponent? && w.drawable.drawable.Some? ==>
      r.value.drawable == DrawableComponent(Some(Drawable(UVs(0.0, 0.0, progress, 1.0))))
    ensures r.Ok? && barType != Fill && w.drawable.DrawableComponent? && w.drawable.drawable.Some? ==>
      r.value.drawable == DrawableComponent(Some(Drawable(FullUVs)))
    ensures r.Ok? && !(w.drawable.DrawableComponent? && w.drawable.drawable.Some?) ==> r.value.drawable == w.drawable
  {
    var laid := w.(parentalAnchor := MiddleLeft, originAnchor := MiddleLeft,
                   relativePosition := Vector2(0.5 * (1.0 - relBarSize.x), 0.0),
                   relativeSize := Vector2(relBarSize.x * progress, relBarSize.y));
    match BarUVs(barType, w.drawable, UVs(0.0, 0.0, progress, 1.0))
    case Err(e) => Err(e)
    case Ok(drawable) => Ok(laid.(drawable := drawable))
  }

  /** The vertical layout: anchored bottom-centre, placed so that the full-size bar would be
      centred, its height scaled by the progress; a fill bar shows the bottom `progress` of the
      texture. */
  function UpdateVerticalBar(relBarSize: Vector2, progress: real, barType: BarType, w: BarWidget): (r: Result<BarWidget, ComponentError>)
    ensures r.Err? <==> barType == Fill && w.drawable.NoDrawableComponent?
    ensures r.Ok? ==> && r.value.parentalAnchor == BottomCentre && r.value.originAnchor == BottomCentre
                      && r.value.relativePosition.x == 0.0
                      && r.value.relativePosition.y + relBarSize.y + r.value.relativePosition.y == 1.0
                      && r.value.relativeSize == Vector2(relBarSize.x, relBarSize.y * progress)
    ensures r.Ok? && barType == Fill && w.drawable.DrawableComponent? && w.drawable.drawable.Some? ==>
      r.value.drawable == DrawableComponent(Some(Drawable(UVs(0.0, 1.0 - progress, 1.0, progress))))
    ensures r.Ok? && barType != Fill && w.drawable.DrawableComponent? && w.drawable.drawable.Some? ==>
      r.value.drawable == DrawableComponent(Some(Drawable(FullUVs)))
    ensures r.Ok? && !(w.drawable.DrawableComponent? && w.drawable.drawable.Some?) ==> r.value.drawable == w.drawable
  {
    var laid := w.(parentalAnchor := BottomCentre, originAnchor := BottomCentre,
                   relativePosition := Vector2(0.0, 0.5 * (1.0 - relBarSize.y)),
                   relativeSize := Vector2(relBarSize.x, relBarSize.y * progress));
    match BarUVs(barType, w.drawable, UVs(0.0, 1.0 - progress, 1.0, progress))
    case Err(e) => Err(e)
    case Ok(drawable) => Ok(laid.(drawable := drawable))
  }

  /** Re-lays out the bar widget if there is one, by direction; nothing else changes. */
  function UpdateBar(c: Component): (r: Result<Component, ComponentError>)
    ensures c.barWidget.None? ==> r == Ok(c)
    ensures r.Err? <==> c.barWidget.Some? && c.barType == Fill && c.barWidget.value.drawable.NoDrawableComponent?
    ensures r.Ok? ==> r.value.(barWidget := c.barWidget) == c && r.value.barWidget.Some? == c.barWidget.Some?
    ensures r.Ok? && c.barWidget.Some? ==>
      r.value.barWidget.value.parentalAnchor == (if c.direction == Horizontal then MiddleLeft else BottomCentre)
    ensures r.Ok? && c.barWidget.Some? && c.direction == Horizontal ==>
      UpdateHorizontalBar(c.relBarSize, c.progress, c.barType, c.barWidget.value) == Ok(r.value.barWidget.value)
    ensures r.Ok? && c.barWidget.Some? && c.direction == Vertical ==>
      UpdateVerticalBar(c.relBarSize, c.progress, c.barType, c.barWidget.value) == Ok(r.value.barWidget.value)
  {
    match c.barWidget
    case None => Ok(c)
    case Some(w) =>
      var laid := if c.direction == Horizontal then UpdateHorizontalBar(c.relBarSize, c.progress, c.barType, w)
                  else UpdateVerticalBar(c.relBarSize, c.progress, c.barType, w);
      match laid
      case Err(e) => Err(e)
      case Ok(w') => Ok(c.(barWidget := Some(w')))
  }

  /** `w` is the widget `before` laid out for the component's relative bar size, progress, bar
      type and direction. */
  predicate LaidOutFor(c: Component, before: BarWidget, w: BarWidget)
  {
    (if c.direction == Horizontal then UpdateHorizontalBar(c.relBarSize, c.progress, c.barType, before)
     else UpdateVerticalBar(c.relBarSize, c.progress, c.barType, before)) == Ok(w)
  }

  /** What a setter does once it has stored its property in `stored`: with no bar widget the
      component is `stored` itself; with one, the widget is re-laid out for the stored
      properties, and nothing else changes. */
  predicate Relaid(c: Component, stored: Component, r: Component)
  {
    && r.(barWidget := c.barWidget) == stored
    && (c.barWidget.None? ==> r == stored)
    && (c.barWidget.Some? ==> r.barWidget.Some? && LaidOutFor(stored, c.barWidget.value, r.barWidget.value))
  }

  //---------------------------------------------------------------- construction and setters

  /** Construction with the property values applied: the relative bar size defaults to 1 x 1;
      the bar widget name must be set and the progress must be in range. */
  function NewProgressBarComponent(relBarSize: Option<Vector2>, progress: real, barType: BarType,
                                   direction: BarDirection, barWidgetName: string): (r: Result<Component, ComponentError>)
    ensures r.Ok? <==> barWidgetName != [] && InUnitRange(progress)
    ensures r.Ok? ==> && r.value.barWidget.None? && r.value.barWidgetName == barWidgetName
                      && r.value.relBarSize == (if relBarSize.Some? then relBarSize.value else DefaultRelBarSize)
                      && r.value.progress == progress && r.value.barType == barType && r.value.direction == direction
  {
    if !InUnitRange(progress) then Err(ProgressOutOfRange)
    else if barWidgetName == [] then Err(EmptyBarWidgetName)
    else
      var size := match relBarSize case Some(s) => s case None => DefaultRelBarSize;
      Ok(Component(size, progress, barType, direction, barWidgetName, None))
  }

  /** Sets the progress, which must lie in [0, 1], and re-lays out the bar. */
  function SetProgress(c: Component, p: real): (r: Result<Component, ComponentError>)
    ensures !InUnitRange(p) ==> r == Err(ProgressOutOfRange)
    ensures InUnitRange(p) ==> r == UpdateBar(c.(progress := p))
    ensures r.Ok? ==> r.value.progress == p
    ensures r.Ok? ==> Relaid(c, c.(progress := p), r.value)
  {
    if !InUnitRange(p) then Err(ProgressOutOfRange) else UpdateBar(c.(progress := p))
  }

  /** Sets the bar widget name once: a component that already has one refuses a new one. */
  function SetBarWidgetName(c: Component, name: string): (r: Result<Component, ComponentError>)
    ensures c.barWidgetName != [] ==> r == Err(BarWidgetNameAlreadySet)
    ensures r.Err? <==> c.barWidgetName != [] || (c.barWidget.Some? && c.barType == Fill && c.barWidget.value.drawable.NoDrawableComponent?)
    ensures r.Ok? ==> c.barWidgetName == [] && Relaid(c, c.(barWidgetName := name), r.value)
  {
    if c.barWidgetName != [] then Err(BarWidgetNameAlreadySet) else UpdateBar(c.(barWidgetName := name))
  }

  /** Sets the relative bar size and re-lays out the bar. */
  function SetRelativeBarSize(c: Component, size: Vector2): (r: Result<Component, ComponentError>)
    ensures r.Err? <==> c.barWidget.Some? && c.barType == Fill && c.barWidget.value.drawable.NoDrawableComponent?
    ensures r.Ok? ==> Relaid(c, c.(relBarSize := size), r.value)
  {
    UpdateBar(c.(relBarSize := size))
  }

  /** Sets the bar type and re-lays out the bar. */
  function SetBarType(c: Component, barType: BarType): (r: Result<Component, ComponentError>)
    ensures r.Err? <==> c.barWidget.Some? && barType == Fill && c.barWidget.value.drawable.NoDrawableComponent?
    ensures r.Ok? ==> Relaid(c, c.(barType := barType), r.value)
  {
    UpdateBar(c.(barType := barType))
  }

  /** Sets the direction and re-lays out the bar. */
  function SetBarDirection(c: Component, direction: BarDirection): (r: Result<Component, ComponentError>)
    ensures r.Err? <==> c.barWidget.Some? && c.barType == Fill && c.barWidget.value.drawable.NoDrawableComponent?
    ensures r.Ok? ==> Relaid(c, c.(direction := direction), r.value)
    ensures r.Ok? && c.barWidget.Some? ==>
      && r.value.barWidget.Some?
      && r.value.barWidget.value.parentalAnchor == (if direction == Horizontal then MiddleLeft else BottomCentre)
  {
    UpdateBar(c.(direction := direction))
  }

  //---------------------------------------------------------------- properties

  /** A component built with a name can never have its bar widget renamed. */
  lemma BarWidgetNameSetOnce(relBarSize: Option<Vector2>, progress: real, barType: BarType,
                             direction: BarDirection, barWidgetName: string, other: string)
    requires NewProgressBarComponent(relBarSize, progress, barType, direction, barWidgetName).Ok?
    ensures SetBarWidgetName(NewProgressBarComponent(relBarSize, progress, barType, direction, barWidgetName).value, other)
      == Err(BarWidgetNameAlreadySet)
  {
  }

  /** Laying out twice is laying out once. */
  lemma UpdateBarIdempotent(c: Component)
    requires UpdateBar(c).Ok?
    ensures UpdateBar(UpdateBar(c).value) == UpdateBar(c)
  {
  }

  /** A fill bar's UVs cover exactly the drawn fraction of the bar: horizontally the UV width
      times the full width is the drawn width; vertically the UV height times the full height is
      the drawn height, and the UV rectangle ends at the texture's bottom edge, where the bar is
      anchored. */
  lemma FillUVsMatchDrawnPart(c: Component)
    requires c.barWidget.Some? && c.barType == Fill
    requires c.barWidget.value.drawable.DrawableComponent? && c.barWidget.value.drawable.drawable.Some?
    ensures UpdateBar(c).Ok?
    ensures var w := UpdateBar(c).value.barWidget.value;
      var uvs := w.drawable.drawable.value.uvs;
      if c.direction == Horizontal then
        uvs.s * c.relBarSize.x == w.relativeSize.x && uvs.u == 0.0 && uvs.t == 1.0
      else
        uvs.t * c.relBarSize.y == w.relativeSize.y && uvs.v + uvs.t == 1.0 && uvs.s == 1.0
  {
  }

  /** At full progress the bar has exactly the relative bar size and the gaps on either side of
      it, along its direction, are equal. */
  lemma FullBarIsCentred(c: Component)
    requires c.barWidget.Some? && UpdateBar(c.(progress := 1.0)).Ok?
    ensures var w := UpdateBar(c.(progress := 1.0)).value.barWidget.value;
      && w.relativeSize == c.relBarSize
      && (c.direction == Horizontal ==>
            w.relativePosition.x == 1.0 - (w.relativePosition.x + w.relativeSize.x))
      && (c.direction == Vertical ==>
            w.relativePosition.y == 1.0 - (w.relativePosition.y + w.relativeSize.y))
  {
  }
}
