/**
  A GPU texture as the batcher sees it: an object with an identity and its
  pixel dimensions. Loading and binding are not part of this model.
*/
module Textures {

  /** Image dimensions; a decoded image is never empty. */
  type Dimension = n: int | n > 0 witness 1

  class Texture {
    /** The OpenGL texture name. */
    const handle: nat
    const width: Dimension
    const height: Dimension

    constructor (handle: nat, width: Dimension, height: Dimension)
      ensures this.handle == handle && this.width == width && this.height == height
    {
      this.handle := handle;
      this.width := width;
      this.height := height;
    }
  }
}
