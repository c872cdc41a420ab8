/** The OpenGL enumerators the modelled code switches on, with the values the GL headers give them. */
module GlEnums {

  /** GLenum and GLuint: 32-bit unsigned. */
  type uint32 = x: int | 0 <= x < 0x1_0000_0000
  type GLenum = uint32
  type GLuint = uint32

  /** GLint: 32-bit signed. */
  type GLint = x: int | -0x8000_0000 <= x < 0x8000_0000

  // Error flags reported by glGetError.
  const GL_NO_ERROR: GLenum := 0x0000
  const GL_INVALID_ENUM: GLenum := 0x0500
  const GL_INVALID_VALUE: GLenum := 0x0501
  const GL_INVALID_OPERATION: GLenum := 0x0502
  const GL_STACK_OVERFLOW: GLenum := 0x0503
  const GL_STACK_UNDERFLOW: GLenum := 0x0504
  const GL_OUT_OF_MEMORY: GLenum := 0x0505

  // Framebuffer completeness statuses.
  const GL_FRAMEBUFFER_UNDEFINED: GLenum := 0x8219
  const GL_FRAMEBUFFER_INCOMPLETE_ATTACHMENT: GLenum := 0x8CD6
  const GL_FRAMEBUFFER_INCOMPLETE_MISSING_ATTACHMENT: GLenum := 0x8CD7
  const GL_FRAMEBUFFER_INCOMPLETE_DRAW_BUFFER: GLenum := 0x8CDB
  const GL_FRAMEBUFFER_INCOMPLETE_READ_BUFFER: GLenum := 0x8CDC
  const GL_FRAMEBUFFER_UNSUPPORTED: GLenum := 0x8CDD
  const GL_FRAMEBUFFER_INCOMPLETE_MULTISAMPLE: GLenum := 0x8D56
  const GL_FRAMEBUFFER_INCOMPLETE_LAYER_TARGETS: GLenum := 0x8DA8

  // Shader object types.
  const GL_FRAGMENT_SHADER: GLenum := 0x8B30
  const GL_VERTEX_SHADER: GLenum := 0x8B31
  const GL_GEOMETRY_SHADER: GLenum := 0x8DD9
  const GL_TESS_EVALUATION_SHADER: GLenum := 0x8E87
  const GL_TESS_CONTROL_SHADER: GLenum := 0x8E88
  const GL_COMPUTE_SHADER: GLenum := 0x91B9

  // Texture targets.
  const GL_TEXTURE_2D: GLenum := 0x0DE1
  const GL_TEXTURE_CUBE_MAP: GLenum := 0x8513

  // Pixel data formats.
  const GL_RED: GLenum := 0x1903
  const GL_GREEN: GLenum := 0x1904
  const GL_BLUE: GLenum := 0x1905
  const GL_RG: GLenum := 0x8227
  const GL_RGB: GLenum := 0x1907
  const GL_BGR: GLenum := 0x80E0
  const GL_RGBA: GLenum := 0x1908
  const GL_BGRA: GLenum := 0x80E1
  const GL_RED_INTEGER: GLenum := 0x8D94
  const GL_GREEN_INTEGER: GLenum := 0x8D95
  const GL_BLUE_INTEGER: GLenum := 0x8D96
  const GL_RG_INTEGER: GLenum := 0x8228
  const GL_RGB_INTEGER: GLenum := 0x8D98
  const GL_BGR_INTEGER: GLenum := 0x8D9A
  const GL_RGBA_INTEGER: GLenum := 0x8D99
  const GL_BGRA_INTEGER: GLenum := 0x8D9B
  const GL_STENCIL_INDEX: GLenum := 0x1901
  const GL_DEPTH_COMPONENT: GLenum := 0x1902
  const GL_DEPTH_STENCIL: GLenum := 0x84F9

  // Pixel data types.
  const GL_UNSIGNED_BYTE: GLenum := 0x1401
  const GL_BYTE: GLenum := 0x1400
  const GL_UNSIGNED_SHORT: GLenum := 0x1403
  const GL_SHORT: GLenum := 0x1402
  const GL_UNSIGNED_INT: GLenum := 0x1405
  const GL_INT: GLenum := 0x1404
  const GL_FLOAT: GLenum := 0x1406
  const GL_UNSIGNED_BYTE_3_3_2: GLenum := 0x8032
  const GL_UNSIGNED_BYTE_2_3_3_REV: GLenum := 0x8362
  const GL_UNSIGNED_SHORT_5_6_5: GLenum := 0x8363
  const GL_UNSIGNED_SHORT_5_6_5_REV: GLenum := 0x8364
  const GL_UNSIGNED_SHORT_4_4_4_4: GLenum := 0x8033
  const GL_UNSIGNED_SHORT_4_4_4_4_REV: GLenum := 0x8365
  const GL_UNSIGNED_SHORT_5_5_5_1: GLenum := 0x8034
  const GL_UNSIGNED_SHORT_1_5_5_5_REV: GLenum := 0x8366
  const GL_UNSIGNED_INT_8_8_8_8: GLenum := 0x8035
  const GL_UNSIGNED_INT_8_8_8_8_REV: GLenum := 0x8367
  const GL_UNSIGNED_INT_10_10_10_2: GLenum := 0x8036
  const GL_UNSIGNED_INT_2_10_10_10_REV: GLenum := 0x8368
  const GL_HALF_FLOAT: GLenum := 0x140B
  const GL_UNSIGNED_INT_24_8: GLenum := 0x84FA
  const GL_UNSIGNED_INT_10F_11F_11F_REV: GLenum := 0x8C3B
  const GL_UNSIGNED_INT_5_9_9_9_REV: GLenum := 0x8C3E
  const GL_FLOAT_32_UNSIGNED_INT_24_8_REV: GLenum := 0x8DAD

  // Sized and compressed internal formats (the base internal formats share the pixel-format values above).
  const GL_R8: GLenum := 0x8229
  const GL_R8_SNORM: GLenum := 0x8F94
  const GL_R16: GLenum := 0x822A
  const GL_R16_SNORM: GLenum := 0x8F98
  const GL_RG8: GLenum := 0x822B
  const GL_RG8_SNORM: GLenum := 0x8F95
  const GL_RG16: GLenum := 0x822C
  const GL_RG16_SNORM: GLenum := 0x8F99
  const GL_R3_G3_B2: GLenum := 0x2A10
  const GL_RGB4: GLenum := 0x804F
  const GL_RGB5: GLenum := 0x8050
  const GL_RGB8: GLenum := 0x8051
  const GL_RGB8_SNORM: GLenum := 0x8F96
  const GL_RGB10: GLenum := 0x8052
  const GL_RGB12: GLenum := 0x8053
  const GL_RGB16: GLenum := 0x8054
  const GL_RGB565: GLenum := 0x8D62
  const GL_RGB16_SNORM: GLenum := 0x8F9A
  const GL_RGBA2: GLenum := 0x8055
  const GL_RGBA4: GLenum := 0x8056
  const GL_RGB5_A1: GLenum := 0x8057
  const GL_RGBA8: GLenum := 0x8058
  const GL_RGBA8_SNORM: GLenum := 0x8F97
  const GL_RGB10_A2: GLenum := 0x8059
  const GL_RGB10_A2UI: GLenum := 0x906F
  const GL_RGBA12: GLenum := 0x805A
  const GL_RGBA16: GLenum := 0x805B
  const GL_RGBA16_SNORM: GLenum := 0x8F9B
  const GL_SRGB8: GLenum := 0x8C41
  const GL_SRGB8_ALPHA8: GLenum := 0x8C43
  const GL_R16F: GLenum := 0x822D
  const GL_RG16F: GLenum := 0x822F
  const GL_RGB16F: GLenum := 0x881B
  const GL_RGBA16F: GLenum := 0x881A
  const GL_R32F: GLenum := 0x822E
  const GL_RG32F: GLenum := 0x8230
  const GL_RGB32F: GLenum := 0x8815
  const GL_RGBA32F: GLenum := 0x8814
  const GL_R11F_G11F_B10F: GLenum := 0x8C3A
  const GL_RGB9_E5: GLenum := 0x8C3D
  const GL_R8I: GLenum := 0x8231
  const GL_R8UI: GLenum := 0x8232
  const GL_R16I: GLenum := 0x8233
  const GL_R16UI: GLenum := 0x8234
  const GL_R32I: GLenum := 0x8235
  const GL_R32UI: GLenum := 0x8236
  const GL_RG8I: GLenum := 0x8237
  const GL_RG8UI: GLenum := 0x8238
  const GL_RG16I: GLenum := 0x8239
  const GL_RG16UI: GLenum := 0x823A
  const GL_RG32I: GLenum := 0x823B
  const GL_RG32UI: GLenum := 0x823C
  const GL_RGB8I: GLenum := 0x8D8F
  const GL_RGB8UI: GLenum := 0x8D7D
  const GL_RGB16I: GLenum := 0x8D89
  const GL_RGB16UI: GLenum := 0x8D77
  const GL_RGB32I: GLenum := 0x8D83
  const GL_RGB32UI: GLenum := 0x8D71
  const GL_RGBA8I: GLenum := 0x8D8E
  const GL_RGBA8UI: GLenum := 0x8D7C
  const GL_RGBA16I: GLenum := 0x8D88
  const GL_RGBA16UI: GLenum := 0x8D76
  const GL_RGBA32I: GLenum := 0x8D82
  const GL_RGBA32UI: GLenum := 0x8D70
  const GL_COMPRESSED_RED: GLenum := 0x8225
  const GL_COMPRESSED_RG: GLenum := 0x8226
  const GL_COMPRESSED_RGB: GLenum := 0x84ED
  const GL_COMPRESSED_RGBA: GLenum := 0x84EE
  const GL_COMPRESSED_SRGB: GLenum := 0x8C48
  const GL_COMPRESSED_SRGB_ALPHA: GLenum := 0x8C49
  const GL_COMPRESSED_RED_RGTC1: GLenum := 0x8DBB
  const GL_COMPRESSED_SIGNED_RED_RGTC1: GLenum := 0x8DBC
  const GL_COMPRESSED_RG_RGTC2: GLenum := 0x8DBD
  const GL_COMPRESSED_SIGNED_RG_RGTC2: GLenum := 0x8DBE
  const GL_COMPRESSED_RGBA_BPTC_UNORM: GLenum := 0x8E8C
  const GL_COMPRESSED_SRGB_ALPHA_BPTC_UNORM: GLenum := 0x8E8D
  const GL_COMPRESSED_RGB_BPTC_SIGNED_FLOAT: GLenum := 0x8E8E
  const GL_COMPRESSED_RGB_BPTC_UNSIGNED_FLOAT: GLenum := 0x8E8F
  const GL_COMPRESSED_R11_EAC: GLenum := 0x9270
  const GL_COMPRESSED_SIGNED_R11_EAC: GLenum := 0x9271
  const GL_COMPRESSED_RG11_EAC: GLenum := 0x9272
  const GL_COMPRESSED_SIGNED_RG11_EAC: GLenum := 0x9273
  const GL_COMPRESSED_RGB8_ETC2: GLenum := 0x9274
  const GL_COMPRESSED_SRGB8_ETC2: GLenum := 0x9275
  const GL_COMPRESSED_RGB8_PUNCHTHROUGH_ALPHA1_ETC2: GLenum := 0x9276
  const GL_COMPRESSED_SRGB8_PUNCHTHROUGH_ALPHA1_ETC2: GLenum := 0x9277
  const GL_COMPRESSED_RGBA8_ETC2_EAC: GLenum := 0x9278
  const GL_COMPRESSED_SRGB8_ALPHA8_ETC2_EAC: GLenum := 0x9279
}
