/**
 * The Texture helper of the Week 4 library (Texture.cpp): which pixel formats, pixel types and
 * internal formats the constructor accepts, the size arithmetic of the accessors and of
 * saveToFile, the regions update() uploads, and ownership of the GL texture handle.
 *
 * Reference tables from section 8.4.4 of the OpenGL 4.6 core specification (tables 8.2, 8.3)
 * and section 8.5 (tables 8.11, 8.12, 8.14) are written out independently of the switch
 * statements, and the switches are proved against them, including the table entries each
 * switch rejects. Table 8.13 (sized depth and stencil formats) is not written out. GL calls
 * become parameters: the handle glGenTextures returns. size_t is 64 bits wide and its
 * arithmetic wraps.
 */
module Textures {
  import opened GlEnums
  import opened GlErrors
  import opened Wrappers

  /** size_t: 64-bit unsigned. */
  const SizeModulus: int := 0x1_0000_0000_0000_0000
  type size_t = x: int | 0 <= x < 0x1_0000_0000_0000_0000

  /** Multiplication in size_t: the product modulo 2^64. */
  function SizeMul(a: size_t, b: size_t): size_t
  {
    (a * b) % SizeModulus
  }

  // ---------------------------------------------------------------------------
  // Reference tables (OpenGL 4.6, section 8.4.4 and section 8.5)

  /** Table 8.3: each pixel data format with the number of components it carries. */
  const FormatComponents: map<GLenum, nat> := map[
    GL_RED := 1, GL_GREEN := 1, GL_BLUE := 1, GL_GREEN_INTEGER := 1, GL_BLUE_INTEGER := 1, GL_RG := 2, GL_RGB := 3, GL_BGR := 3, GL_RGBA := 4, GL_BGRA := 4,
    GL_RED_INTEGER := 1, GL_RG_INTEGER := 2, GL_RGB_INTEGER := 3, GL_BGR_INTEGER := 3,
    GL_RGBA_INTEGER := 4, GL_BGRA_INTEGER := 4,
    GL_STENCIL_INDEX := 1, GL_DEPTH_COMPONENT := 1, GL_DEPTH_STENCIL := 2]

  /** How a pixel type lays its components out: one element per component, or packed together. */
  datatype Layout = PerComponent(bytes: nat) | Packed(bytes: nat, components: nat)

  /** The five types of table 8.2 that validType rejects. */
  const UnlistedTypes: set<GLenum> := {
    GL_HALF_FLOAT, GL_UNSIGNED_INT_24_8, GL_UNSIGNED_INT_10F_11F_11F_REV,
    GL_UNSIGNED_INT_5_9_9_9_REV, GL_FLOAT_32_UNSIGNED_INT_24_8_REV}

  /** Table 8.2 without UnlistedTypes. */
  const TypeLayouts: map<GLenum, Layout> := map[
    GL_UNSIGNED_BYTE := PerComponent(1), GL_BYTE := PerComponent(1),
    GL_UNSIGNED_SHORT := PerComponent(2), GL_SHORT := PerComponent(2),
    GL_UNSIGNED_INT := PerComponent(4), GL_INT := PerComponent(4), GL_FLOAT := PerComponent(4),
    GL_UNSIGNED_BYTE_3_3_2 := Packed(1, 3), GL_UNSIGNED_BYTE_2_3_3_REV := Packed(1, 3),
    GL_UNSIGNED_SHORT_5_6_5 := Packed(2, 3), GL_UNSIGNED_SHORT_5_6_5_REV := Packed(2, 3),
    GL_UNSIGNED_SHORT_4_4_4_4 := Packed(2, 4), GL_UNSIGNED_SHORT_4_4_4_4_REV := Packed(2, 4),
    GL_UNSIGNED_SHORT_5_5_5_1 := Packed(2, 4), GL_UNSIGNED_SHORT_1_5_5_5_REV := Packed(2, 4),
    GL_UNSIGNED_INT_8_8_8_8 := Packed(4, 4), GL_UNSIGNED_INT_8_8_8_8_REV := Packed(4, 4),
    GL_UNSIGNED_INT_10_10_10_2 := Packed(4, 4), GL_UNSIGNED_INT_2_10_10_10_REV := Packed(4, 4)]

  /** Table 8.11: the base internal formats. */
  const BaseInternalFormats: set<GLenum> :=
    {GL_DEPTH_COMPONENT, GL_DEPTH_STENCIL, GL_STENCIL_INDEX, GL_RED, GL_RG, GL_RGB, GL_RGBA}

  /** Sized and compressed internal formats whose base internal format is GL_RED (tables 8.12, 8.14). */
  const RedFormats: set<GLenum> := {
    GL_R8, GL_R8_SNORM, GL_R16, GL_R16_SNORM, GL_R16F, GL_R32F, GL_R8I, GL_R8UI, GL_R16I,
    GL_R16UI, GL_R32I, GL_R32UI, GL_COMPRESSED_RED, GL_COMPRESSED_RED_RGTC1,
    GL_COMPRESSED_SIGNED_RED_RGTC1, GL_COMPRESSED_R11_EAC, GL_COMPRESSED_SIGNED_R11_EAC}

  /** Sized and compressed internal formats whose base internal format is GL_RG (tables 8.12, 8.14). */
  const RgFormats: set<GLenum> := {
    GL_RG8, GL_RG8_SNORM, GL_RG16, GL_RG16_SNORM, GL_RG16F, GL_RG32F, GL_RG8I, GL_RG8UI,
    GL_RG16I, GL_RG16UI, GL_RG32I, GL_RG32UI, GL_COMPRESSED_RG, GL_COMPRESSED_RG_RGTC2,
    GL_COMPRESSED_SIGNED_RG_RGTC2, GL_COMPRESSED_RG11_EAC, GL_COMPRESSED_SIGNED_RG11_EAC}

  /** Sized and compressed internal formats whose base internal format is GL_RGB (tables 8.12, 8.14). */
  const RgbFormats: set<GLenum> := {
    GL_R3_G3_B2, GL_RGB4, GL_RGB5, GL_RGB565, GL_RGB8, GL_RGB8_SNORM, GL_RGB10, GL_RGB12, GL_RGB16,
    GL_RGB16_SNORM, GL_SRGB8, GL_RGB16F, GL_RGB32F, GL_R11F_G11F_B10F, GL_RGB9_E5, GL_RGB8I,
    GL_RGB8UI, GL_RGB16I, GL_RGB16UI, GL_RGB32I, GL_RGB32UI, GL_COMPRESSED_RGB, GL_COMPRESSED_SRGB,
    GL_COMPRESSED_RGB_BPTC_SIGNED_FLOAT, GL_COMPRESSED_RGB_BPTC_UNSIGNED_FLOAT,
    GL_COMPRESSED_RGB8_ETC2, GL_COMPRESSED_SRGB8_ETC2}

  /** Sized and compressed internal formats whose base internal format is GL_RGBA (tables 8.12, 8.14). */
  const RgbaFormats: set<GLenum> := {
    GL_RGBA2, GL_RGBA4, GL_RGB5_A1, GL_RGBA8, GL_RGBA8_SNORM, GL_RGB10_A2, GL_RGB10_A2UI,
    GL_RGBA12, GL_RGBA16, GL_RGBA16_SNORM, GL_SRGB8_ALPHA8, GL_RGBA16F, GL_RGBA32F, GL_RGBA8I,
    GL_RGBA8UI, GL_RGBA16I, GL_RGBA16UI, GL_RGBA32I, GL_RGBA32UI, GL_COMPRESSED_RGBA,
    GL_COMPRESSED_SRGB_ALPHA, GL_COMPRESSED_RGBA_BPTC_UNORM, GL_COMPRESSED_SRGB_ALPHA_BPTC_UNORM,
    GL_COMPRESSED_RGB8_PUNCHTHROUGH_ALPHA1_ETC2, GL_COMPRESSED_SRGB8_PUNCHTHROUGH_ALPHA1_ETC2,
    GL_COMPRESSED_RGBA8_ETC2_EAC, GL_COMPRESSED_SRGB8_ALPHA8_ETC2_EAC}

  /** Each internal format the tables list with its base internal format; a base format is its own. */
  const BaseFormatOf: map<GLenum, GLenum> :=
    (map f | f in BaseInternalFormats :: f) + (map f | f in RedFormats :: GL_RED) +
    (map f | f in RgFormats :: GL_RG) + (map f | f in RgbFormats :: GL_RGB) +
    (map f | f in RgbaFormats :: GL_RGBA)

  /**
   * Tabled formats that validInternalFormat leaves out although it lists their 16-bit siblings
   * (GL_RGB16_SNORM, GL_RGBA16).
   */
  const SlippedFormats: set<GLenum> := {GL_RGB16, GL_RGBA16_SNORM}

  /**
   * Tabled formats that validInternalFormat leaves out and that came to the core specification
   * after the others: GL_RGB565 (OpenGL 4.1), the ETC2/EAC formats (4.3) and GL_STENCIL_INDEX
   * as an internal format (4.4).
   */
  const LaterFormats: set<GLenum> := {
    GL_STENCIL_INDEX, GL_RGB565, GL_COMPRESSED_R11_EAC, GL_COMPRESSED_SIGNED_R11_EAC,
    GL_COMPRESSED_RG11_EAC, GL_COMPRESSED_SIGNED_RG11_EAC, GL_COMPRESSED_RGB8_ETC2,
    GL_COMPRESSED_SRGB8_ETC2, GL_COMPRESSED_RGB8_PUNCHTHROUGH_ALPHA1_ETC2,
    GL_COMPRESSED_SRGB8_PUNCHTHROUGH_ALPHA1_ETC2, GL_COMPRESSED_RGBA8_ETC2_EAC,
    GL_COMPRESSED_SRGB8_ALPHA8_ETC2_EAC}

  /** Every tabled format validInternalFormat does not list. */
  const UnlistedFormats: set<GLenum> := SlippedFormats + LaterFormats

  /** An internal format of the tables other than the ones validInternalFormat leaves out. */
  predicate AcceptedInternalFormat(format: GLenum)
  {
    format in BaseFormatOf && format !in UnlistedFormats
  }

  // ---------------------------------------------------------------------------
  // Validators

  /** The formats validFormat lists. */
  const PixelFormats: set<GLenum> := {
    GL_RED, GL_RG, GL_RGB, GL_BGR, GL_RGBA, GL_BGRA, GL_RED_INTEGER, GL_RG_INTEGER,
    GL_RGB_INTEGER, GL_BGR_INTEGER, GL_RGBA_INTEGER, GL_BGRA_INTEGER, GL_STENCIL_INDEX,
    GL_DEPTH_COMPONENT, GL_DEPTH_STENCIL}

  /** The types validType lists. */
  const PixelTypes: set<GLenum> := {
    GL_UNSIGNED_BYTE, GL_BYTE, GL_UNSIGNED_SHORT, GL_SHORT, GL_UNSIGNED_INT, GL_INT, GL_FLOAT,
    GL_UNSIGNED_BYTE_3_3_2, GL_UNSIGNED_BYTE_2_3_3_REV, GL_UNSIGNED_SHORT_5_6_5,
    GL_UNSIGNED_SHORT_5_6_5_REV, GL_UNSIGNED_SHORT_4_4_4_4, GL_UNSIGNED_SHORT_4_4_4_4_REV,
    GL_UNSIGNED_SHORT_5_5_5_1, GL_UNSIGNED_SHORT_1_5_5_5_REV, GL_UNSIGNED_INT_8_8_8_8,
    GL_UNSIGNED_INT_8_8_8_8_REV, GL_UNSIGNED_INT_10_10_10_2, GL_UNSIGNED_INT_2_10_10_10_REV}

  /** The fixed-point sized internal formats validInternalFormat lists. */
  const SizedNormalizedFormats: set<GLenum> := {
    GL_R8, GL_R8_SNORM, GL_R16, GL_R16_SNORM, GL_RG8, GL_RG8_SNORM, GL_RG16, GL_RG16_SNORM,
    GL_R3_G3_B2, GL_RGB4, GL_RGB5, GL_RGB8, GL_RGB8_SNORM, GL_RGB10, GL_RGB12, GL_RGB16_SNORM,
    GL_RGBA2, GL_RGBA4, GL_RGB5_A1, GL_RGBA8, GL_RGBA8_SNORM, GL_RGB10_A2, GL_RGB10_A2UI,
    GL_RGBA12, GL_RGBA16, GL_SRGB8, GL_SRGB8_ALPHA8}

  /** The floating-point sized internal formats validInternalFormat lists. */
  const SizedFloatFormats: set<GLenum> := {
    GL_R16F, GL_RG16F, GL_RGB16F, GL_RGBA16F, GL_R32F, GL_RG32F, GL_RGB32F, GL_RGBA32F,
    GL_R11F_G11F_B10F, GL_RGB9_E5}

  /** The integer sized internal formats validInternalFormat lists. */
  const SizedIntegerFormats: set<GLenum> := {
    GL_R8I, GL_R8UI, GL_R16I, GL_R16UI, GL_R32I, GL_R32UI, GL_RG8I, GL_RG8UI, GL_RG16I,
    GL_RG16UI, GL_RG32I, GL_RG32UI, GL_RGB8I, GL_RGB8UI, GL_RGB16I, GL_RGB16UI, GL_RGB32I,
    GL_RGB32UI, GL_RGBA8I, GL_RGBA8UI, GL_RGBA16I, GL_RGBA16UI, GL_RGBA32I, GL_RGBA32UI}

  /** The compressed internal formats validInternalFormat lists. */
  const CompressedFormats: set<GLenum> := {
    GL_COMPRESSED_RED, GL_COMPRESSED_RG, GL_COMPRESSED_RGB, GL_COMPRESSED_RGBA,
    GL_COMPRESSED_SRGB, GL_COMPRESSED_SRGB_ALPHA, GL_COMPRESSED_RED_RGTC1,
    GL_COMPRESSED_SIGNED_RED_RGTC1, GL_COMPRESSED_RG_RGTC2, GL_COMPRESSED_SIGNED_RG_RGTC2,
    GL_COMPRESSED_RGBA_BPTC_UNORM, GL_COMPRESSED_SRGB_ALPHA_BPTC_UNORM,
    GL_COMPRESSED_RGB_BPTC_SIGNED_FLOAT, GL_COMPRESSED_RGB_BPTC_UNSIGNED_FLOAT}

  /** The base internal formats validInternalFormat lists. */
  const ListedBaseFormats: set<GLenum> :=
    {GL_DEPTH_COMPONENT, GL_DEPTH_STENCIL, GL_RED, GL_RG, GL_RGB, GL_RGBA}

  /** The internal formats validInternalFormat lists: base, sized, then compressed. */
  const InternalFormats: set<GLenum> :=
    ListedBaseFormats + SizedNormalizedFormats + SizedFloatFormats + SizedIntegerFormats + CompressedFormats

  /** The sized and compressed formats of the tables, whatever their base. */
  const NonBaseFormats: set<GLenum> := RedFormats + RgFormats + RgbFormats + RgbaFormats

  /** Every listed fixed-point sized format has a base format in the tables. */
  lemma SizedNormalizedHaveBase(f: GLenum)
    requires f in SizedNormalizedFormats
    ensures f in NonBaseFormats
  {
  }

  /** Every listed floating-point sized format has a base format in the tables. */
  lemma SizedFloatHaveBase(f: GLenum)
    requires f in SizedFloatFormats
    ensures f in NonBaseFormats
  {
  }

  /** Every listed integer sized format has a base format in the tables. */
  lemma SizedIntegerHaveBase(f: GLenum)
    requires f in SizedIntegerFormats
    ensures f in NonBaseFormats
  {
  }

  /** Every listed compressed format has a base format in the tables. */
  lemma CompressedHaveBase(f: GLenum)
    requires f in CompressedFormats
    ensures f in NonBaseFormats
  {
  }

  /** Every format validInternalFormat lists has a base format in the tables. */
  lemma {:induction false} ListedFormatsAreTabled(f: GLenum)
    requires f in InternalFormats
    ensures f in BaseFormatOf
  {
    if f in SizedNormalizedFormats {
      SizedNormalizedHaveBase(f);
    } else if f in SizedFloatFormats {
      SizedFloatHaveBase(f);
    } else if f in SizedIntegerFormats {
      SizedIntegerHaveBase(f);
    } else if f in CompressedFormats {
      CompressedHaveBase(f);
    }
  }

  /** A map merged from one map per group has the union of the groups as its keys. */
  lemma MergedGroupKeys(base: set<GLenum>, red: set<GLenum>, rg: set<GLenum>, rgb: set<GLenum>,
                        rgba: set<GLenum>, f: GLenum)
    ensures f in (map x | x in base :: x) + (map x | x in red :: GL_RED) + (map x | x in rg :: GL_RG) +
                 (map x | x in rgb :: GL_RGB) + (map x | x in rgba :: GL_RGBA)
            <==> f in base || f in red || f in rg || f in rgb || f in rgba
  {
  }

  /** The tables give a base format exactly to the base formats and the four groups. */
  lemma TabledFormats(f: GLenum)
    ensures f in BaseFormatOf <==> f in BaseInternalFormats || f in NonBaseFormats
  {
    MergedGroupKeys(BaseInternalFormats, RedFormats, RgFormats, RgbFormats, RgbaFormats, f);
  }

  /** Every red sized or compressed format of the tables, except the unlisted ones, is listed by validInternalFormat. */
  lemma RedFormatsAreListed(f: GLenum)
    requires f in RedFormats && f !in UnlistedFormats
    ensures f in InternalFormats
  {
  }

  /** Every red-green sized or compressed format of the tables, except the unlisted ones, is listed by validInternalFormat. */
  lemma RgFormatsAreListed(f: GLenum)
    requires f in RgFormats && f !in UnlistedFormats
    ensures f in InternalFormats
  {
  }

  /** Every RGB sized or compressed format of the tables, except the unlisted ones, is listed by validInternalFormat. */
  lemma RgbFormatsAreListed(f: GLenum)
    requires f in RgbFormats && f !in UnlistedFormats
    ensures f in InternalFormats
  {
  }

  /** Every RGBA sized or compressed format of the tables, except the unlisted ones, is listed by validInternalFormat. */
  lemma RgbaFormatsAreListed(f: GLenum)
    requires f in RgbaFormats && f !in UnlistedFormats
    ensures f in InternalFormats
  {
  }

  /** Every format the tables give a base format, except the unlisted ones, is listed by validInternalFormat. */
  lemma {:induction false} TabledFormatsAreListed(f: GLenum)
    requires f in BaseFormatOf && f !in UnlistedFormats
    ensures f in InternalFormats
  {
    TabledFormats(f);
    if f in RedFormats {
      RedFormatsAreListed(f);
    } else if f in RgFormats {
      RgFormatsAreListed(f);
    } else if f in RgbFormats {
      RgbFormatsAreListed(f);
    } else if f in RgbaFormats {
      RgbaFormatsAreListed(f);
    }
  }

  /** The formats of table 8.3 that carry a lone green or blue channel; validFormat rejects them. */
  const LoneGreenBlueFormats: set<GLenum> := {GL_GREEN, GL_BLUE, GL_GREEN_INTEGER, GL_BLUE_INTEGER}

  /** A format of table 8.3 other than the lone green and blue ones. */
  predicate AcceptedFormat(format: GLenum)
  {
    format in FormatComponents && format !in LoneGreenBlueFormats
  }

  /** validFormat: accepts exactly the pixel formats of table 8.3 except the lone green and blue ones. */
  function ValidFormat(format: GLenum): (ok: bool)
    ensures ok <==> AcceptedFormat(format)
  {
    format in PixelFormats
  }

  /** Table 8.3 lists the lone green and blue formats, yet validFormat rejects each of them. */
  lemma LoneGreenBlueRejected(f: GLenum)
    requires f in LoneGreenBlueFormats
    ensures f in FormatComponents && FormatComponents[f] == 1 && !ValidFormat(f)
  {
  }

  /** validType: accepts exactly the pixel types of TypeLayouts. */
  function ValidType(type_: GLenum): (ok: bool)
    ensures ok <==> type_ in TypeLayouts
  {
    type_ in PixelTypes
  }

  /** validInternalFormat: membership in the source's list. */
  function ValidInternalFormat(format: GLenum): bool
  {
    format in InternalFormats
  }

  /**
   * validInternalFormat accepts exactly the internal formats the tables give a base format,
   * less the unlisted ones.
   */
  lemma {:induction false} ValidInternalFormatIff(format: GLenum)
    ensures ValidInternalFormat(format) <==> AcceptedInternalFormat(format)
  {
    if format in InternalFormats {
      ListedFormatsAreTabled(format);
      ListedFormatsAreNotUnlisted(format);
    } else if format in BaseFormatOf && format !in UnlistedFormats {
      TabledFormatsAreListed(format);
    }
  }

  /** The slipped formats are in none of validInternalFormat's groups. */
  lemma SlippedFormatsNotListed(f: GLenum)
    requires f in SlippedFormats
    ensures f !in SizedNormalizedFormats && f !in SizedFloatFormats
    ensures f !in SizedIntegerFormats && f !in CompressedFormats && f !in ListedBaseFormats
  {
  }

  /** The later formats are in none of validInternalFormat's groups. */
  lemma LaterFormatsNotListed(f: GLenum)
    requires f in LaterFormats
    ensures f !in SizedNormalizedFormats && f !in SizedFloatFormats
    ensures f !in SizedIntegerFormats && f !in CompressedFormats && f !in ListedBaseFormats
  {
  }

  /** No format validInternalFormat lists is among the unlisted ones. */
  lemma {:induction false} ListedFormatsAreNotUnlisted(f: GLenum)
    requires f in InternalFormats
    ensures f !in UnlistedFormats
  {
    if f in SlippedFormats {
      SlippedFormatsNotListed(f);
      assert false;
    } else if f in LaterFormats {
      LaterFormatsNotListed(f);
      assert false;
    }
  }

  /** Each unlisted format has a base format in the tables, yet validInternalFormat rejects it. */
  lemma {:induction false} UnlistedFormatsRejected(f: GLenum)
    requires f in UnlistedFormats
    ensures f in BaseFormatOf && !ValidInternalFormat(f)
  {
    TabledFormats(f);
    if f in InternalFormats {
      ListedFormatsAreNotUnlisted(f);
    }
  }

  /** The 16-bit normalized sized formats of table 8.12, signed and unsigned, for every base. */
  const SixteenBitNormalizedFormats: set<GLenum> := {
    GL_R16, GL_R16_SNORM, GL_RG16, GL_RG16_SNORM, GL_RGB16, GL_RGB16_SNORM, GL_RGBA16, GL_RGBA16_SNORM}

  /**
   * As written, validInternalFormat splits the 16-bit normalized family: it accepts
   * GL_RGB16_SNORM and GL_RGBA16 but rejects their siblings GL_RGB16 and GL_RGBA16_SNORM,
   * although the tables give those the bases GL_RGB and GL_RGBA.
   */
  lemma SixteenBitSiblingsRejected()
    ensures GL_RGB16 in RgbFormats && GL_RGBA16_SNORM in RgbaFormats
    ensures !ValidInternalFormat(GL_RGB16) && !ValidInternalFormat(GL_RGBA16_SNORM)
    ensures ValidInternalFormat(GL_RGB16_SNORM) && ValidInternalFormat(GL_RGBA16)
  {
    UnlistedFormatsRejected(GL_RGB16);
    UnlistedFormatsRejected(GL_RGBA16_SNORM);
  }

  /**
   * validInternalFormat as evidently intended: its list with GL_RGB16 and GL_RGBA16_SNORM
   * added. It accepts every tabled format except those added to the core later.
   */
  function ValidInternalFormatIntended(format: GLenum): (ok: bool)
    ensures ok <==> format in BaseFormatOf && format !in LaterFormats
  {
    IntendedListIsTabled(format);
    format in InternalFormats || format in SlippedFormats
  }

  /** The listed formats and the slipped ones are exactly the tabled formats other than the later ones. */
  lemma {:induction false} IntendedListIsTabled(format: GLenum)
    ensures format in InternalFormats || format in SlippedFormats <==>
            format in BaseFormatOf && format !in LaterFormats
  {
    ValidInternalFormatIff(format);
    if format in SlippedFormats {
      UnlistedFormatsRejected(format);
      SlippedAreNotLater(format);
    }
    AddingExcluded(InternalFormats, SlippedFormats, LaterFormats, BaseFormatOf.Keys, format);
  }

  /** No slipped format came to the core later. */
  lemma SlippedAreNotLater(f: GLenum)
    requires f in SlippedFormats
    ensures f !in LaterFormats
  {
  }

  /**
   * Adding back to a list `listed` some excluded elements `slipped` of `tabled`: a list that is
   * `tabled` without `slipped` and `later` becomes `tabled` without `later`.
   */
  lemma AddingExcluded(listed: set<GLenum>, slipped: set<GLenum>, later: set<GLenum>,
                       tabled: set<GLenum>, f: GLenum)
    requires f in listed <==> f in tabled && f !in slipped + later
    requires f in slipped ==> f in tabled && f !in later
    ensures f in listed || f in slipped <==> f in tabled && f !in later
  {
  }

  /** The intended list holds the whole 16-bit normalized family. */
  lemma {:induction false} SixteenBitFamilyAccepted(f: GLenum)
    requires f in SixteenBitNormalizedFormats
    ensures ValidInternalFormatIntended(f)
  {
    if f in SlippedFormats {
      assert ValidInternalFormatIntended(f);
    } else {
      assert f in SizedNormalizedFormats;
    }
  }

  /** GL_TEXTURE_CUBE_MAP is a texture target, not a pixel type: validType refuses it. */
  /** Table 8.2 is TypeLayouts and UnlistedTypes, which share no type; every unlisted type is rejected. */
  lemma UnlistedTypesRejected()
    ensures forall t :: t in UnlistedTypes ==> t !in TypeLayouts && !ValidType(t)
  {
  }

  lemma CubeMapIsNotAType()
    ensures !ValidType(GL_TEXTURE_CUBE_MAP)
    ensures GL_TEXTURE_CUBE_MAP !in TypeLayouts
  {
  }

  /** No red sized or compressed format is a pixel data format. */
  lemma RedFormatsAreNotPixelFormats(f: GLenum)
    requires f in RedFormats
    ensures f !in PixelFormats
  {
  }

  /** No red-green sized or compressed format is a pixel data format. */
  lemma RgFormatsAreNotPixelFormats(f: GLenum)
    requires f in RgFormats
    ensures f !in PixelFormats
  {
  }

  /** No RGB sized or compressed format is a pixel data format. */
  lemma RgbFormatsAreNotPixelFormats(f: GLenum)
    requires f in RgbFormats
    ensures f !in PixelFormats
  {
  }

  /** No RGBA sized or compressed format is a pixel data format. */
  lemma RgbaFormatsAreNotPixelFormats(f: GLenum)
    requires f in RgbaFormats
    ensures f !in PixelFormats
  {
  }

  /** A format both validators accept, as pixel format and as internal format, is a base format. */
  lemma {:induction false} FormatAndInternalFormat(f: GLenum)
    ensures ValidFormat(f) && ValidInternalFormat(f) <==> f in BaseInternalFormats && f != GL_STENCIL_INDEX
  {
    ValidInternalFormatIff(f);
    TabledFormats(f);
    if f in RedFormats {
      RedFormatsAreNotPixelFormats(f);
    } else if f in RgFormats {
      RgFormatsAreNotPixelFormats(f);
    } else if f in RgbFormats {
      RgbFormatsAreNotPixelFormats(f);
    } else if f in RgbaFormats {
      RgbaFormatsAreNotPixelFormats(f);
    }
  }

  // ---------------------------------------------------------------------------
  // Constructor checks

  /** init() calls throwOnGlError() six times; the first two come before glGenTextures. */
  const InitErrorChecks: nat := 6
  const ChecksBeforeGenTextures: nat := 2

  const InvalidFormatMessage: string := "Invalid format supplied to Texture constructor"
  const InvalidInternalFormatMessage: string := "Invalid internal format supplied to Texture constructor"
  const InvalidTypeMessage: string := "Invalid type supplied to Texture constructor"

  /**
   * The checks at the start of the constructor, in their order: the format, then the internal
   * format, then the type; the first one that fails throws.
   */
  function CheckTextureParams(format: GLenum, internalFormat: GLenum, type_: GLenum): (r: Outcome<string>)
    ensures r.Pass? <==>
              AcceptedFormat(format) && AcceptedInternalFormat(internalFormat) && type_ in TypeLayouts
    ensures !AcceptedFormat(format) ==> r == Fail(InvalidFormatMessage)
    ensures AcceptedFormat(format) && !AcceptedInternalFormat(internalFormat) ==>
              r == Fail(InvalidInternalFormatMessage)
    ensures AcceptedFormat(format) && AcceptedInternalFormat(internalFormat) && type_ !in TypeLayouts ==>
              r == Fail(InvalidTypeMessage)
  {
    ValidInternalFormatIff(internalFormat);
    if !ValidFormat(format) then Fail(InvalidFormatMessage)
    else if !ValidInternalFormat(internalFormat) then Fail(InvalidInternalFormatMessage)
    else if !ValidType(type_) then Fail(InvalidTypeMessage)
    else Pass
  }

  // ---------------------------------------------------------------------------
  // Channel, byte and texel arithmetic

  const NotImplementedMessage: string := "NOT IMPLEMENTED"

  /** numChannels: implemented for RGB and RGBA only, where it agrees with table 8.3. */
  function NumChannels(format: GLenum): (r: Result<size_t, string>)
    ensures r.Success? <==> format == GL_RGB || format == GL_RGBA
    ensures r.Success? ==> format in FormatComponents && r.value == FormatComponents[format]
    ensures r.Failure? ==> r.error == NotImplementedMessage
  {
    if format == GL_RGB then Success(3)
    else if format == GL_RGBA then Success(4)
    else Failure(NotImplementedMessage)
  }

  /** The constructor accepts GL_RED and GL_BGR, but numChannels throws for both. */
  lemma AcceptedFormatsWithoutChannels()
    ensures ValidFormat(GL_RED) && NumChannels(GL_RED).Failure?
    ensures ValidFormat(GL_BGR) && NumChannels(GL_BGR).Failure?
  {
  }

  /** bytesPerChannel: implemented for UNSIGNED_BYTE and FLOAT only, where it agrees with table 8.2. */
  function BytesPerChannel(type_: GLenum): (r: Result<size_t, string>)
    ensures r.Success? <==> type_ == GL_UNSIGNED_BYTE || type_ == GL_FLOAT
    ensures r.Success? ==> type_ in TypeLayouts && TypeLayouts[type_] == PerComponent(r.value)
    ensures r.Failure? ==> r.error == NotImplementedMessage
  {
    if type_ == GL_UNSIGNED_BYTE then Success(1)
    else if type_ == GL_FLOAT then Success(4)
    else Failure(NotImplementedMessage)
  }

  /**
   * bytesPerPixel: channels times bytes per channel; throws when either factor throws. Both
   * factors throw the same message, so the order C++ evaluates them in does not matter.
   */
  function BytesPerPixel(format: GLenum, type_: GLenum): (r: Result<size_t, string>)
    ensures r.Success? <==> NumChannels(format).Success? && BytesPerChannel(type_).Success?
    ensures r.Success? ==>
              r.value == FormatComponents[format] * TypeLayouts[type_].bytes &&
              r.value in {3, 4, 12, 16}
    ensures r.Failure? ==> r.error == NotImplementedMessage
  {
    var channels := NumChannels(format);
    var bytes := BytesPerChannel(type_);
    if channels.Failure? then Failure(channels.error)
    else if bytes.Failure? then Failure(bytes.error)
    else Success(SizeMul(channels.value, bytes.value))
  }

  /** nTexels: width times height in size_t. */
  function NTexels(width: size_t, height: size_t): (n: size_t)
    ensures (width * height - n) % SizeModulus == 0
  {
    SizeMul(width, height)
  }

  /** Products grow with their factors. */
  lemma MulMono(a: nat, b: nat, c: nat, d: nat)
    requires a <= c && b <= d
    ensures a * b <= c * d
  {
    assert a * b <= c * b;
    assert c * b <= c * d;
  }

  /** nTexels is the true texel count while both sides stay below 2^32, and wraps beyond. */
  lemma NTexelsCount(width: size_t, height: size_t)
    ensures width < 0x1_0000_0000 && height < 0x1_0000_0000 ==> NTexels(width, height) == width * height
    ensures NTexels(width, height) == (width * height) % SizeModulus
  {
    if width < 0x1_0000_0000 && height < 0x1_0000_0000 {
      MulMono(width, height, 0xFFFF_FFFF, 0xFFFF_FFFF);
    }
  }

  /** A 2^32 by 2^32 texture has, by nTexels, no texels at all. */
  lemma NTexelsWraps()
    ensures NTexels(0x1_0000_0000, 0x1_0000_0000) == 0
  {
  }

  // ---------------------------------------------------------------------------
  // Mip-level dimensions

  function Pow2(n: nat): (p: nat)
    ensures p >= 1
  {
    if n == 0 then 1 else 2 * Pow2(n - 1)
  }

  /**
   * `extent >> level` on size_t: the extent halved `level` times, rounding down. Shifting by 64
   * or more is undefined in C++.
   */
  function MipExtent(extent: size_t, level: nat): (r: size_t)
    requires level < 64
    ensures r <= extent
    ensures level > 0 && extent > 0 ==> r < extent
  {
    if level == 0 then extent else MipExtent(extent, level - 1) / 2
  }

  /** The shift is floor division by 2^level: the largest m with m * 2^level <= extent. */
  lemma {:induction false} MipExtentIsFloorDivision(extent: size_t, level: nat)
    requires level < 64
    ensures MipExtent(extent, level) * Pow2(level) <= extent
    ensures extent < (MipExtent(extent, level) + 1) * Pow2(level)
  {
    if level > 0 {
      MipExtentIsFloorDivision(extent, level - 1);
      HalvingStep(extent, MipExtent(extent, level - 1), Pow2(level - 1));
    }
  }

  /** If m is the floor of e / p, then m / 2 is the floor of e / (2 * p). */
  lemma HalvingStep(e: nat, m: nat, p: nat)
    requires m * p <= e < (m + 1) * p
    ensures (m / 2) * (2 * p) <= e < (m / 2 + 1) * (2 * p)
  {
    var h := m / 2;
    assert (m / 2) * (2 * p) == (2 * h) * p;
    assert (m / 2 + 1) * (2 * p) == (2 * h + 2) * p;
    MulMono(2 * h, p, m, p);
    MulMono(m + 1, p, 2 * h + 2, p);
  }

  /** No level uploads a region wider than the texture. */
  lemma {:induction false} MipExtentBounded(extent: size_t, level: nat)
    requires level < 64
    ensures MipExtent(extent, level) <= extent
  {
    if level > 0 {
      MipExtentBounded(extent, level - 1);
    }
  }

  /** A level at which the extent is smaller than 2^level uploads an empty region. */
  lemma {:induction false} MipExtentVanishes(extent: size_t, level: nat)
    requires level < 64 && extent < Pow2(level)
    ensures MipExtent(extent, level) == 0
  {
    MipExtentIsFloorDivision(extent, level);
    var m := MipExtent(extent, level);
    if m >= 1 {
      MulMono(1, Pow2(level), m, Pow2(level));
    }
  }

  // ---------------------------------------------------------------------------
  // saveToFile's image type and buffer size

  /** OpenCV depth codes and its CV_MAKETYPE: the channel count minus one, shifted by three bits. */
  const CV_8U: int := 0
  const CV_32F: int := 5
  function CvMakeType(depth: int, channels: nat): int
    requires channels >= 1
  {
    depth + (channels - 1) * 8
  }

  const CV_8UC1: int := 0
  const CV_8UC3: int := 16
  const CV_8UC4: int := 24
  const CV_32FC1: int := 5
  const CV_32FC3: int := 21
  const CV_32FC4: int := 29

  /** The OpenCV image type and the buffer size saveToFile reads the texture into. */
  datatype SaveLayout = SaveLayout(cvType: int, dataSize: size_t)

  /**
   * saveToFile's table: FLOAT or UNSIGNED_BYTE data in RGB, RED or RGBA gives an OpenCV type of
   * the matching depth and channel count, and a buffer of width*height*element size*channels
   * bytes (size_t arithmetic, left to right). Any other combination leaves the image type
   * uninitialised in the source; here it is None.
   */
  function SaveToFileLayout(format: GLenum, type_: GLenum, width: size_t, height: size_t): (r: Option<SaveLayout>)
    ensures r.Some? <==>
              (type_ == GL_FLOAT || type_ == GL_UNSIGNED_BYTE) &&
              (format == GL_RGB || format == GL_RED || format == GL_RGBA)
    ensures r.Some? ==>
              r.value.cvType ==
                CvMakeType(if type_ == GL_FLOAT then CV_32F else CV_8U, FormatComponents[format])
    ensures r.Some? ==>
              r.value.dataSize ==
                SizeMul(SizeMul(NTexels(width, height), TypeLayouts[type_].bytes), FormatComponents[format])
  {
    var texels := NTexels(width, height);
    if type_ == GL_FLOAT then
      if format == GL_RGB then Some(SaveLayout(CV_32FC3, SizeMul(SizeMul(texels, 4), 3)))
      else if format == GL_RED then Some(SaveLayout(CV_32FC1, SizeMul(SizeMul(texels, 4), 1)))
      else if format == GL_RGBA then Some(SaveLayout(CV_32FC4, SizeMul(SizeMul(texels, 4), 4)))
      else None
    else if type_ == GL_UNSIGNED_BYTE then
      if format == GL_RGB then Some(SaveLayout(CV_8UC3, SizeMul(SizeMul(texels, 1), 3)))
      else if format == GL_RED then Some(SaveLayout(CV_8UC1, SizeMul(SizeMul(texels, 1), 1)))
      else if format == GL_RGBA then Some(SaveLayout(CV_8UC4, SizeMul(SizeMul(texels, 1), 4)))
      else None
    else None
  }

  /**
   * For the RGB and RGBA cases both saveToFile and bytesPerPixel handle, the buffer is
   * nTexels * bytesPerPixel bytes, as long as that does not wrap.
   */
  lemma {:induction false} SaveToFileSizeIsTexelsTimesPixel(format: GLenum, type_: GLenum, width: size_t, height: size_t)
    requires SaveToFileLayout(format, type_, width, height).Some?
    requires BytesPerPixel(format, type_).Success?
    requires width < 0x4000_0000 && height < 0x4000_0000
    ensures SaveToFileLayout(format, type_, width, height).value.dataSize ==
              NTexels(width, height) * BytesPerPixel(format, type_).value
  {
    NTexelsCount(width, height);
    MulMono(width, height, 0x3FFF_FFFF, 0x3FFF_FFFF);
    ChainedSizeMul(NTexels(width, height), TypeLayouts[type_].bytes, FormatComponents[format]);
  }

  /**
   * Two size_t multiplications by an element size of 1 or 4 and a channel count of 3 or 4 do not
   * wrap for fewer than 2^60 texels.
   */
  lemma ChainedSizeMul(n: size_t, bytes: nat, channels: nat)
    requires n < 0x1000_0000_0000_0000
    requires (bytes == 1 || bytes == 4) && (channels == 3 || channels == 4)
    ensures SizeMul(SizeMul(n, bytes), channels) == n * (channels * bytes)
  {
    if bytes == 1 {
      assert SizeMul(n, 1) == n;
    } else {
      assert SizeMul(n, 4) == 4 * n;
    }
  }

  /** saveToFile handles single-channel RED textures, for which bytesPerPixel throws. */
  lemma SaveToFileHandlesRed(width: size_t, height: size_t)
    ensures SaveToFileLayout(GL_RED, GL_FLOAT, width, height).Some?
    ensures BytesPerPixel(GL_RED, GL_FLOAT).Failure?
  {
  }

  // ---------------------------------------------------------------------------
  // The texture object

  /** A GLint stored in a GLenum field: the value modulo 2^32. */
  function EnumOfInt(x: GLint): (e: GLenum)
    ensures 0 <= x ==> e == x
    ensures x < 0 ==> e == x + 0x1_0000_0000
  {
    x % 0x1_0000_0000
  }

  /**
   * A texture object: its size, target, formats and type, the border (declared GLenum, so a
   * GLint border is converted), and the texture handle it owns (0 after a move).
   */
  class Texture {
    var width: size_t
    var height: size_t
    var target: GLenum
    var internalFormat: GLenum
    var format: GLenum
    var type_: GLenum
    var border: GLenum
    var tex: GLuint

    /** The member initialisers followed by init(), whose glGenTextures returns `tex`. */
    constructor Init(target: GLenum, internalFormat: GLenum, width: size_t, height: size_t,
                     border: GLint, format: GLenum, type_: GLenum, tex: GLuint)
      ensures this.width == width && this.height == height && this.target == target
      ensures this.internalFormat == internalFormat && this.format == format && this.type_ == type_
      ensures this.border == EnumOfInt(border) && this.tex == tex
    {
      this.width := width;
      this.height := height;
      this.target := target;
      this.internalFormat := internalFormat;
      this.format := format;
      this.type_ := type_;
      this.border := EnumOfInt(border);
      this.tex := tex;
    }

    /**
     * The constructor: throws the message of the first failed check before any GL call. Then
     * init() runs its six throwOnGlError() calls, the i-th reading the flag `flags[i]`; in a
     * _DEBUG build the first raised flag throws. The first two come before glGenTextures; once it
     * has returned `generated`, a throw leaves that texture `leaked`, since no destructor runs
     * for an object whose constructor threw. Otherwise the texture owns `generated`.
     */
    static method Create(target: GLenum, internalFormat: GLenum, width: size_t, height: size_t,
                         border: GLint, format: GLenum, type_: GLenum,
                         debug: bool, file: string, flags: seq<GLenum>, generated: GLuint)
      returns (r: Result<Texture, string>, leaked: Option<GLuint>)
      requires |flags| == InitErrorChecks
      ensures CheckTextureParams(format, internalFormat, type_).Fail? ==>
                r == Failure(CheckTextureParams(format, internalFormat, type_).error) && leaked == None
      ensures CheckTextureParams(format, internalFormat, type_).Pass? ==>
                (r.Failure? <==> ThrowOnGlErrors(debug, file, flags).Fail?) &&
                (r.Failure? ==> r.error == ThrowOnGlErrors(debug, file, flags).error)
      ensures !debug ==> (r.Failure? <==> CheckTextureParams(format, internalFormat, type_).Fail?)
      ensures leaked.Some? <==>
                CheckTextureParams(format, internalFormat, type_).Pass? && debug &&
                FirstRaised(flags).Some? && FirstRaised(flags).value >= ChecksBeforeGenTextures
      ensures leaked.Some? ==> leaked.value == generated && r.Failure?
      ensures r.Success? ==>
                fresh(r.value) && r.value.width == width && r.value.height == height &&
                r.value.target == target && r.value.internalFormat == internalFormat &&
                r.value.format == format && r.value.type_ == type_ &&
                r.value.border == EnumOfInt(border) && r.value.tex == generated
    {
      leaked := None;
      var check := CheckTextureParams(format, internalFormat, type_);
      if check.Fail? {
        return Failure(check.error), None;
      }
      ThrowOnGlErrorsSplit(debug, file, flags, ChecksBeforeGenTextures);
      var before := ThrowOnGlErrors(debug, file, flags[..ChecksBeforeGenTextures]);
      if before.Fail? {
        assert FirstRaised(flags).value == FirstRaised(flags[..ChecksBeforeGenTextures]).value;
        return Failure(before.error), None;
      }
      // glGenTextures has returned `generated`.
      var after := ThrowOnGlErrors(debug, file, flags[ChecksBeforeGenTextures..]);
      if after.Fail? {
        return Failure(after.error), Some(generated);
      }
      var t := new Texture.Init(target, internalFormat, width, height, border, format, type_, generated);
      r := Success(t);
    }

    /** update(data): the region uploaded at level 0 is the whole texture. */
    method UpdateRegion() returns (level: nat, w: size_t, h: size_t)
      ensures level == 0 && w == width && h == height
    {
      level, w, h := 0, width, height;
    }

    /** update(data, mipmapLevel): the region uploaded at that level, both sides shifted right. */
    method UpdateMipRegion(mipmapLevel: nat) returns (w: size_t, h: size_t)
      requires mipmapLevel < 64
      ensures w == MipExtent(width, mipmapLevel) && h == MipExtent(height, mipmapLevel)
      ensures w <= width && h <= height
    {
      MipExtentBounded(width, mipmapLevel);
      MipExtentBounded(height, mipmapLevel);
      w := MipExtent(width, mipmapLevel);
      h := MipExtent(height, mipmapLevel);
    }

    /** The move constructor: copies every field and leaves `other` owning no handle. */
    constructor Moved(other: Texture)
      modifies other
      ensures width == old(other.width) && height == old(other.height) && target == old(other.target)
      ensures internalFormat == old(other.internalFormat) && format == old(other.format)
      ensures type_ == old(other.type_) && border == old(other.border) && tex == old(other.tex)
      ensures other.tex == 0
      ensures other.width == old(other.width) && other.height == old(other.height)
      ensures other.target == old(other.target) && other.internalFormat == old(other.internalFormat)
      ensures other.format == old(other.format) && other.type_ == old(other.type_)
      ensures other.border == old(other.border)
    {
      width, height, target := other.width, other.height, other.target;
      internalFormat, format, type_ := other.internalFormat, other.format, other.type_;
      border, tex := other.border, other.tex;
      new;
      other.tex := 0;
    }

    /**
     * The move assignment as written: every field is copied and `other.tex` zeroed. The
     * target's old handle is overwritten without being deleted, and a self-assignment
     * zeroes the handle.
     */
    method MoveAssignAsWritten(other: Texture)
      modifies this, other
      ensures width == old(other.width) && height == old(other.height) && target == old(other.target)
      ensures internalFormat == old(other.internalFormat) && format == old(other.format)
      ensures type_ == old(other.type_) && border == old(other.border)
      ensures other != this ==> tex == old(other.tex)
      ensures other.tex == 0
      ensures other != this ==>
                other.width == old(other.width) && other.height == old(other.height) &&
                other.target == old(other.target) && other.internalFormat == old(other.internalFormat) &&
                other.format == old(other.format) && other.type_ == old(other.type_) &&
                other.border == old(other.border)
    {
      width := other.width;
      height := other.height;
      target := other.target;
      internalFormat := other.internalFormat;
      format := other.format;
      type_ := other.type_;
      border := other.border;
      tex := other.tex;
      other.tex := 0;
    }

    /**
     * Move assignment as intended: the target releases its old handle, then takes every field
     * of `other`, which is left owning nothing. Self-assignment changes nothing.
     */
    method MoveAssign(other: Texture) returns (released: Option<GLuint>)
      modifies this, other
      ensures other == this ==> released == None && tex == old(tex)
      ensures other != this ==> released == (if old(tex) != 0 then Some(old(tex)) else None)
      ensures width == old(other.width) && height == old(other.height) && target == old(other.target)
      ensures internalFormat == old(other.internalFormat) && format == old(other.format)
      ensures type_ == old(other.type_) && border == old(other.border)
      ensures other != this ==> tex == old(other.tex) && other.tex == 0
      ensures other != this ==>
                other.width == old(other.width) && other.height == old(other.height) &&
                other.target == old(other.target) && other.internalFormat == old(other.internalFormat) &&
                other.format == old(other.format) && other.type_ == old(other.type_) &&
                other.border == old(other.border)
    {
      if other == this {
        released := None;
      } else {
        released := if tex != 0 then Some(tex) else None;
        width, height, target := other.width, other.height, other.target;
        internalFormat, format, type_ := other.internalFormat, other.format, other.type_;
        border, tex := other.border, other.tex;
        other.tex := 0;
      }
    }

    /** The destructor: deletes the handle only when it is not 0. */
    method Destroy() returns (deleted: Option<GLuint>)
      ensures deleted.Some? <==> tex != 0
      ensures deleted.Some? ==> deleted.value == tex
    {
      deleted := if tex != 0 then Some(tex) else None;
    }
  }

  // ---------------------------------------------------------------------------
  // Move assignment: the program as written against the intended behaviour

  /**
   * After `a = std::move(b)` as written, with `a` owning texture 7 and `b` texture 8, and both
   * destructors, only texture 8 was deleted: texture 7 is never deleted.
   */
  method LeakedTextureAfterMoveAssign() returns (deleted: multiset<GLuint>)
    ensures deleted == multiset{8}
  {
    var a := new Texture.Init(GL_TEXTURE_2D, GL_RGBA8, 4, 4, 0, GL_RGBA, GL_UNSIGNED_BYTE, 7);
    var b := new Texture.Init(GL_TEXTURE_2D, GL_RGBA8, 2, 2, 0, GL_RGBA, GL_UNSIGNED_BYTE, 8);
    a.MoveAssignAsWritten(b);
    var da := a.Destroy();
    var db := b.Destroy();
    deleted := Elements(da) + Elements(db);
  }

  /**
   * In a _DEBUG build, a format and internal format that pass the constructor's checks but that
   * glTexImage2D rejects (GL_RGBA8UI with GL_RGBA raises GL_INVALID_OPERATION, read by init()'s
   * third check) make the constructor throw after glGenTextures returned 9: texture 9 leaks.
   */
  method DebugInitErrorLeaksTexture() returns (r: Result<Texture, string>, leaked: Option<GLuint>)
    ensures r == Failure(ThrowOnGlErrorMacro(true, "Texture.cpp", GL_INVALID_OPERATION).error)
    ensures leaked == Some(9)
  {
    var flags := [GL_NO_ERROR, GL_NO_ERROR, GL_INVALID_OPERATION, GL_NO_ERROR, GL_NO_ERROR, GL_NO_ERROR];
    assert flags[0] == GL_NO_ERROR && flags[1] == GL_NO_ERROR && flags[2] != GL_NO_ERROR;
    assert FirstRaised(flags) == Some(2);
    assert ValidFormat(GL_RGBA) && ValidInternalFormat(GL_RGBA8UI) && ValidType(GL_UNSIGNED_BYTE);
    ValidInternalFormatIff(GL_RGBA8UI);
    assert CheckTextureParams(GL_RGBA, GL_RGBA8UI, GL_UNSIGNED_BYTE).Pass?;
    r, leaked := Texture.Create(GL_TEXTURE_2D, GL_RGBA8UI, 4, 4, 0, GL_RGBA, GL_UNSIGNED_BYTE,
                                true, "Texture.cpp", flags, 9);
  }

  /** With the intended move assignment both textures are deleted, each once. */
  method ReleasedTexturesAfterMoveAssign() returns (deleted: multiset<GLuint>)
    ensures deleted == multiset{7, 8}
  {
    var a := new Texture.Init(GL_TEXTURE_2D, GL_RGBA8, 4, 4, 0, GL_RGBA, GL_UNSIGNED_BYTE, 7);
    var b := new Texture.Init(GL_TEXTURE_2D, GL_RGBA8, 2, 2, 0, GL_RGBA, GL_UNSIGNED_BYTE, 8);
    var released := a.MoveAssign(b);
    var da := a.Destroy();
    var db := b.Destroy();
    deleted := Elements(released) + Elements(da) + Elements(db);
  }
}
