/** wgpu texture vocabulary shared by the render pass and the frame
    orchestrator. GPU objects are plain records: a texture is its descriptor
    (or the swapchain image the surface handed out), a view covers a whole
    texture, as `TextureViewDescriptor::default()` does. */
module Gpu {
  import opened Types

  /** The two formats the renderer names, and any other format a surface
      may prefer. */
  datatype TextureFormat = Bgra8UnormSrgb | Depth32Float | OtherFormat(id: nat)

  datatype TextureDimension = D1 | D2 | D3

  datatype TextureUsage = RenderAttachment | TextureBinding | StorageBinding | CopySrc | CopyDst

  datatype TextureDescriptor = TextureDescriptor(
    name: string,
    width: U32,
    height: U32,
    depthOrArrayLayers: nat,
    mipLevelCount: nat,
    sampleCount: nat,
    dimension: TextureDimension,
    format: TextureFormat,
    usage: set<TextureUsage>)

  /** A texture created from a descriptor, or the `id`-th image the surface gave out. */
  datatype Texture = Created(descriptor: TextureDescriptor) | SurfaceTexture(id: nat)

  datatype TextureView = WholeTexture(texture: Texture)
}
