/** The badge variants and map colours shared by the dashboard helpers. */
module Palette {

  /** The `variant` of a badge. */
  datatype Variant = Default | Secondary | Outline | Destructive

  /** The map colours, with the hex codes the pages use. */
  datatype Color = Green | Blue | Yellow | Red
  {
    function Hex(): string
    {
      match this
      case Green => "#22c55e"
      case Blue => "#3b82f6"
      case Yellow => "#eab308"
      case Red => "#ef4444"
    }
  }
}
