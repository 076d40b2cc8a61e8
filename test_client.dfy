/**
 * The model consumer in the test client's main loop: once a frame has been
 * retrieved it reads the frame's ints one after the other, quads * (4 * 3 + 8)
 * of them: 4 corners of 3 coordinates and 8 texture coordinates per quad.
 */
module TestClient {
  import opened MeshLayout

  /**
   * The read loop, returning the ints it reads in order. They are exactly
   * the frame's first 20 * quads ints, the ints the Unity decoder reads, and
   * the meshes the Unity component builds from them are the ones it builds
   * from the whole array.
   */
  method ReadFrame(data: seq<int>, quads: nat) returns (coords: seq<int>)
    requires quads * (4 * 3 + 8) <= |data|
    ensures coords == data[..20 * quads]
    ensures FrameMeshes(coords, quads) == FrameMeshes(data, quads)
  {
    coords := [];
    for i := 0 to quads * (4 * 3 + 8)
      invariant coords == data[..i]
    {
      var coord := data[i];
      coords := coords + [coord];
    }
    FrameMeshesReadOnlyFrame(data, quads);
  }
}
