// The asset lookup the simulation consults. Loading files is outside the
// model: what remains is "is there a texture of this name, and how big is it".
module Assets {

  /** The pixel size of a loaded texture, or its absence. */
  datatype TexSize = Missing | Present(w: nat, h: nat)
  {
    predicate Exists() { Present? }
    /** `getSize().x`, with a missing texture counted as zero. */
    function Width(): nat { if Present? then w else 0 }
    function Height(): nat { if Present? then h else 0 }
  }

  /** `ResourceManager::hasTexture` / `getTexture(..).getSize()` keyed by name. */
  type Textures = string -> TexSize

  predicate Has(tex: Textures, name: string)
  {
    tex(name).Present?
  }
}
