/**
  The value types shared by the entities (src/game_object.rs) and the
  render commands the draw pass issues to the external render target.
*/
module GameObject {
  import opened Util

  /** Centre position and size of an entity; a plain copyable value. */
  datatype Bounds = Bounds(x: real, y: real, width: real, height: real)

  /** The three textures of the texture store, by logical name. */
  datatype Texture = StarsBackground | PlayerTexture | LaserTexture

  /** A borrowed texture handle and the rotation offset applied only at draw time. */
  datatype GameTexture = GameTexture(texture: Texture, rotationOffset: real)

  /** An SDL colour: three `u8` channels. */
  datatype Colour = Rgb(r: U8, g: U8, b: U8)

  /**
    One call on the render target. Only the two copies can be rejected by it;
    setting the draw colour, clearing and presenting cannot fail.
    The rotation of a copy is kept in radians (its conversion to degrees and
    the rectangle cast are not modelled).
  */
  datatype DrawCommand =
    | SetDrawColour(colour: Colour)
    | Clear
    | CopyWhole(texture: Texture)
    | CopyEx(texture: Texture, dst: Bounds, angle: real)
    | Present

  predicate Fallible(c: DrawCommand)
  {
    c.CopyWhole? || c.CopyEx?
  }

  /** The rotated copy an entity's `draw` issues: heading plus the texture's offset. */
  function SpriteCommand(b: Bounds, t: GameTexture, heading: real): DrawCommand
  {
    CopyEx(t.texture, b, heading + t.rotationOffset)
  }
}
