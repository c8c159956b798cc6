/** The records shared by the stores and the components: the layer list entry,
    the property-panel values, the drawing tools and canvas points. */
module Types {
  import opened JsValues

  /** The tools of the canvas toolbar. */
  datatype DrawingTool = NoTool | SelectTool | RectangleTool | EllipseTool | LineTool | PenTool | TextTool
  {
    /** The tool's name as the application writes it ("none", "select", …). */
    function Name(): string {
      match this
      case NoTool => "none"
      case SelectTool => "select"
      case RectangleTool => "rectangle"
      case EllipseTool => "ellipse"
      case LineTool => "line"
      case PenTool => "pen"
      case TextTool => "text"
    }
  }

  datatype Point = Point(x: real, y: real)

  /** An entry of the layer list. `kind` is the type string the layer was
      created with; `parentId` is absent for top-level layers. Every layer the
      store holds has its `selected` flag set, so it is not optional here. */
  datatype Layer = Layer(
    id: string,
    name: string,
    kind: string,
    visible: bool,
    locked: bool,
    parentId: Option<string>,
    selected: bool)

  datatype Position = Position(x: Num, y: Num, rotation: Num)

  datatype Dimensions = Dimensions(width: Num, height: Num)

  datatype Shadow = Shadow(enabled: bool, offsetX: Num, offsetY: Num, blur: Num, spread: Num, color: string)

  datatype CornerRadius = CornerRadius(
    topLeft: Num,
    topRight: Num,
    bottomLeft: Num,
    bottomRight: Num,
    independent: bool)

  datatype Appearance = Appearance(
    fill: string,
    stroke: string,
    strokeWidth: Num,
    shadow: Shadow,
    cornerRadius: CornerRadius)

  /** The shadow every fresh appearance carries: disabled, offset (0, 4),
      blur 8, spread 0, black. */
  const DefaultShadow := Shadow(false, Fin(0.0), Fin(4.0), Fin(8.0), Fin(0.0), "#000000")

  /** Four square corners, edited together. */
  const DefaultCorners := CornerRadius(Fin(0.0), Fin(0.0), Fin(0.0), Fin(0.0), false)
}
