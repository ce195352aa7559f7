/** GUI::StretchableImage: a nine-patch image. Its nine panels come from a texture atlas under
    names derived from one base ID, and its corner panels are shrunk when they do not fit the
    view, the edges and the centre taking what is left. */
module StretchableImage {
  import opened UIMath
  import opened Outcomes

  //---------------------------------------------------------------- panels from the atlas

  /** One atlas frame: its cropped size and its UVs. */
  datatype AtlasFrame = AtlasFrame(size: Vector2, uvs: UVs)

  /** The nine panels, named as the atlas names them. */
  datatype Panels = Panels(
    topLeft: AtlasFrame, topCentre: AtlasFrame, topRight: AtlasFrame,
    bottomLeft: AtlasFrame, bottomCentre: AtlasFrame, bottomRight: AtlasFrame,
    middleLeft: AtlasFrame, middleCentre: AtlasFrame, middleRight: AtlasFrame)

  /** The image's atlas-related state. The atlas, when there is one, is its frame lookup
      (cropped size and UVs by ID); the atlas itself is not part of this model. */
  datatype Image = Image(atlas: Option<string -> AtlasFrame>, baseTextureAtlasID: string, panels: Panels)

  datatype ImageError = NoTextureAtlas

  /** The suffixes appended to the base ID, in the order the panels are looked up. */
  const PanelSuffixes: seq<string> :=
    ["TopLeft", "TopCentre", "TopRight", "BottomLeft", "BottomCentre", "BottomRight",
     "MiddleLeft", "MiddleCentre", "MiddleRight"]

  /** The panels in PanelSuffixes order. */
  function PanelList(panels: Panels): (r: seq<AtlasFrame>)
    ensures |r| == |PanelSuffixes|
  {
    [panels.topLeft, panels.topCentre, panels.topRight,
     panels.bottomLeft, panels.bottomCentre, panels.bottomRight,
     panels.middleLeft, panels.middleCentre, panels.middleRight]
  }

  /** Sets the base ID and looks up every panel under base ID + its suffix. Without an atlas
      this is an error. */
  function SetBaseTextureAtlasID(image: Image, id: string): (r: Result<Image, ImageError>)
    ensures r.Ok? <==> image.atlas.Some?
    ensures r.Ok? ==> r.value.atlas == image.atlas && r.value.baseTextureAtlasID == id
    ensures r.Ok? ==> forall i :: 0 <= i < |PanelSuffixes| ==>
      PanelList(r.value.panels)[i] == image.atlas.value(id + PanelSuffixes[i])
  {
    match image.atlas
    case None => Err(NoTextureAtlas)
    case Some(lookup) =>
      Ok(Image(image.atlas, id, Panels(
        lookup(id + "TopLeft"), lookup(id + "TopCentre"), lookup(id + "TopRight"),
        lookup(id + "BottomLeft"), lookup(id + "BottomCentre"), lookup(id + "BottomRight"),
        lookup(id + "MiddleLeft"), lookup(id + "MiddleCentre"), lookup(id + "MiddleRight"))))
  }

  /** The nine IDs are pairwise different whatever the base ID, each starts with the base ID,
      and the base ID is recovered from any of them. */
  lemma PanelIdsDistinct(id: string, i: nat, j: nat)
    requires i < |PanelSuffixes| && j < |PanelSuffixes| && i != j
    ensures id + PanelSuffixes[i] != id + PanelSuffixes[j]
    ensures (id + PanelSuffixes[i])[..|id|] == id
  {
    assert (id + PanelSuffixes[i])[|id|..] == PanelSuffixes[i];
    assert (id + PanelSuffixes[j])[|id|..] == PanelSuffixes[j];
  }

  /** Setting the same ID again changes nothing: the panels depend on the atlas and the ID only. */
  lemma SetBaseTextureAtlasIDIdempotent(image: Image, id: string)
    requires image.atlas.Some?
    ensures SetBaseTextureAtlasID(image, id).Ok?
    ensures SetBaseTextureAtlasID(SetBaseTextureAtlasID(image, id).value, id) == SetBaseTextureAtlasID(image, id)
  {
  }

  //---------------------------------------------------------------- nine-patch sizing

  /** The four corner sizes the sizing starts from. */
  datatype Corners = Corners(topLeft: Vector2, topRight: Vector2, bottomLeft: Vector2, bottomRight: Vector2)

  /** The nine patch sizes. */
  datatype PatchSize = PatchSize(
    topLeft: Vector2, topCentre: Vector2, topRight: Vector2,
    leftCentre: Vector2, middleCentre: Vector2, rightCentre: Vector2,
    bottomLeft: Vector2, bottomCentre: Vector2, bottomRight: Vector2)

  function CornersOf(panels: Panels): Corners
  {
    Corners(panels.topLeft.size, panels.topRight.size, panels.bottomLeft.size, panels.bottomRight.size)
  }

  predicate NonNegative(v: Vector2)
  {
    v.x >= 0.0 && v.y >= 0.0
  }

  predicate NonNegativeCorners(c: Corners)
  {
    NonNegative(c.topLeft) && NonNegative(c.topRight) && NonNegative(c.bottomLeft) && NonNegative(c.bottomRight)
  }

  /** (x, y) is the pair (a, b) fitted to `span`: left alone when it fits, otherwise scaled
      down in proportion so that it fills the span exactly. */
  predicate Squished(a: real, b: real, span: real, x: real, y: real)
  {
    && 0.0 <= x <= a && 0.0 <= y <= b && x + y <= span
    && (a + b <= span ==> x == a && y == b)
    && (a + b > span ==> x + y == span)
    && x * b == y * a
  }

  /** Two lengths that share one span: when together they exceed it they are both scaled by
      span / total, so that they fill it exactly and keep their proportion. */
  function Squish(a: real, b: real, span: real): (r: (real, real))
    requires a >= 0.0 && b >= 0.0 && span >= 0.0
    ensures Squished(a, b, span, r.0, r.1)
  {
    if a + b > span then
      var scale := span / (a + b);
      var left, right := a * scale, b * scale;
      ScaleFacts(a, b, span, scale, left, right);
      (left, right)
    else (a, b)
  }

  lemma ScaleFacts(a: real, b: real, span: real, scale: real, left: real, right: real)
    requires a >= 0.0 && b >= 0.0 && span >= 0.0 && a + b > span && scale == span / (a + b)
    requires left == a * scale && right == b * scale
    ensures left + right == span
    ensures 0.0 <= left <= a && 0.0 <= right <= b
    ensures left * b == right * a
  {
    var total := a + b;
    assert scale * total == span;
    assert a * scale + b * scale == scale * total;
    assert 0.0 <= scale < 1.0 by {
      assert scale * total == span;
      if scale >= 1.0 {
        NonNegativeProduct(scale - 1.0, total);
      }
      if scale < 0.0 {
        NonNegativeProduct(0.0 - scale, total);
      }
    }
    assert a * scale <= a by {
      assert a - a * scale == a * (1.0 - scale);
    }
    assert b * scale <= b by {
      assert b - b * scale == b * (1.0 - scale);
    }
  }

  lemma NonNegativeProduct(x: real, y: real)
    requires x >= 0.0 && y >= 0.0
    ensures x * y >= 0.0
  {
  }

  /** CalculatePatchSize: the left and right columns' corner heights are squished to the view's
      height, the top and bottom rows' corner widths to its width; each edge takes the space
      between its corners and the matching corner's other dimension; the middle takes the rest. */
  function CalculatePatchSize(panel: Vector2, corners: Corners): (r: PatchSize)
    requires NonNegative(panel) && NonNegativeCorners(corners)
    ensures Squished(corners.topLeft.y, corners.bottomLeft.y, panel.y, r.topLeft.y, r.bottomLeft.y)
    ensures Squished(corners.topRight.y, corners.bottomRight.y, panel.y, r.topRight.y, r.bottomRight.y)
    ensures Squished(corners.topLeft.x, corners.topRight.x, panel.x, r.topLeft.x, r.topRight.x)
    ensures Squished(corners.bottomLeft.x, corners.bottomRight.x, panel.x, r.bottomLeft.x, r.bottomRight.x)
    ensures r.topCentre.y == r.topLeft.y && r.bottomCentre.y == r.bottomLeft.y
    ensures r.leftCentre.x == r.topLeft.x && r.rightCentre.x == r.topRight.x
    ensures NonNegative(r.topCentre) && NonNegative(r.bottomCentre) && NonNegative(r.leftCentre)
    ensures NonNegative(r.rightCentre) && NonNegative(r.middleCentre)
  {
    var left := Squish(corners.topLeft.y, corners.bottomLeft.y, panel.y);
    var right := Squish(corners.topRight.y, corners.bottomRight.y, panel.y);
    var top := Squish(corners.topLeft.x, corners.topRight.x, panel.x);
    var bottom := Squish(corners.bottomLeft.x, corners.bottomRight.x, panel.x);
    var topLeft := Vector2(top.0, left.0);
    var topRight := Vector2(top.1, right.0);
    var bottomLeft := Vector2(bottom.0, left.1);
    var bottomRight := Vector2(bottom.1, right.1);
    var topCentre := Vector2(panel.x - (topLeft.x + topRight.x), topLeft.y);
    var bottomCentre := Vector2(panel.x - (bottomLeft.x + bottomRight.x), bottomLeft.y);
    var leftCentre := Vector2(topLeft.x, panel.y - (topLeft.y + bottomLeft.y));
    var rightCentre := Vector2(topRight.x, panel.y - (topRight.y + bottomRight.y));
    var middleCentre := Vector2(panel.x - (leftCentre.x + rightCentre.x), panel.y - (topCentre.y + bottomCentre.y));
    PatchSize(topLeft, topCentre, topRight, leftCentre, middleCentre, rightCentre, bottomLeft, bottomCentre, bottomRight)
  }

  /** The nine patches tile the view: every row's widths and every column's heights add up
      to the view's size; each edge is as thick as the corner it starts from, so the top and
      bottom edges continue the top-left and bottom-left corners' rows and the left and right
      edges the top corners' columns; and the middle is as wide as the top edge and as tall as
      the left edge. */
  lemma NinePatchTilesPanel(panel: Vector2, corners: Corners)
    requires NonNegative(panel) && NonNegativeCorners(corners)
    ensures var r := CalculatePatchSize(panel, corners);
      && r.topLeft.x + r.topCentre.x + r.topRight.x == panel.x
      && r.leftCentre.x + r.middleCentre.x + r.rightCentre.x == panel.x
      && r.bottomLeft.x + r.bottomCentre.x + r.bottomRight.x == panel.x
      && r.topLeft.y + r.leftCentre.y + r.bottomLeft.y == panel.y
      && r.topCentre.y + r.middleCentre.y + r.bottomCentre.y == panel.y
      && r.topRight.y + r.rightCentre.y + r.bottomRight.y == panel.y
      && r.middleCentre.x == r.topCentre.x && r.middleCentre.y == r.leftCentre.y
      && r.topCentre.y == r.topLeft.y && r.bottomCentre.y == r.bottomLeft.y
      && r.leftCentre.x == r.topLeft.x && r.rightCentre.x == r.topRight.x
  {
  }

  /** Sizing is idempotent: the corners it produces already fit, so sizing again from them
      gives the same nine patches. */
  lemma CalculatePatchSizeIdempotent(panel: Vector2, corners: Corners)
    requires NonNegative(panel) && NonNegativeCorners(corners)
    ensures var r := CalculatePatchSize(panel, corners);
      CalculatePatchSize(panel, Corners(r.topLeft, r.topRight, r.bottomLeft, r.bottomRight)) == r
  {
  }
}
