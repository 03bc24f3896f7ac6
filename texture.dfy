/**
 * Texture descriptors (class Texture) and the texture slot a model keeps
 * per material (class ModelTexture). Creating, deleting and binding a
 * texture belong to the renderer and are not part of this model.
 */
module Textures {
  datatype Format = Format24Bit | Format32Bit
  datatype Target = Texture2D
  datatype MinFilter =
    | MinNearest | MinLinear
    | NearestMipmapNearest | LinearMipmapNearest | NearestMipmapLinear | LinearMipmapLinear
  datatype MagFilter = MagNearest | MagLinear
  datatype WrapMode = Clamp | ClampToEdge | ClampToBorder | MirroredRepeat | Repeat

  class Texture {
    var format: Format
    var target: Target
    var wrapMode: WrapMode
    var minFilter: MinFilter
    var magFilter: MagFilter
    /** m_HashCode: never set by the constructor or by Clear. */
    var hashCode: nat
    var width: int
    var height: int

    /** The seven fields the constructor and Clear assign hold their default values. */
    ghost predicate HasDefaults()
      reads this
    {
      && format == Format24Bit && target == Texture2D && wrapMode == Repeat
      && minFilter == MinLinear && magFilter == MagLinear
      && width == 0 && height == 0
    }

    /** A new texture holds the defaults; its hash code is left unset. */
    constructor ()
      ensures HasDefaults()
    {
      format, target, wrapMode := Format24Bit, Texture2D, Repeat;
      minFilter, magFilter := MinLinear, MagLinear;
      width, height := 0, 0;
    }

    /**
     * Clear puts back the constructed state and keeps the hash code, so
     * clearing a texture that already holds its defaults changes nothing.
     */
    method Clear()
      modifies this
      ensures HasDefaults()
      ensures hashCode == old(hashCode)
      ensures old(HasDefaults()) ==> unchanged(this)
    {
      format := Format24Bit;
      target := Texture2D;
      wrapMode := Repeat;
      minFilter := MinLinear;
      magFilter := MagLinear;
      width := 0;
      height := 0;
    }
  }

  class ModelTexture {
    var name: string
    var texture: Texture?
    var enabled: bool

    /** A new slot is disabled, unnamed and holds no texture. */
    constructor ()
      ensures name == "" && texture == null && !enabled
    {
      name, texture, enabled := "", null, false;
    }

    /**
     * Clear empties the name, disables the slot and keeps the texture
     * pointer; a texture that is there is cleared as well.
     */
    method Clear()
      modifies this, texture
      ensures name == "" && !enabled && texture == old(texture)
      ensures texture != null ==> texture.HasDefaults() && texture.hashCode == old(texture.hashCode)
    {
      name := "";
      if texture != null {
        texture.Clear();
      }
      enabled := false;
    }

    /**
     * Select forwards to the texture's own Select; the result is the texture
     * it forwards to, null when the slot is disabled or holds no texture.
     */
    method Select() returns (selected: Texture?)
      ensures selected != null <==> enabled && texture != null
      ensures selected != null ==> selected == texture
    {
      if !enabled {
        return null;
      }
      selected := texture;
    }
  }
}
