# Graphics-course helpers, modelled in Dafny

This project models the small pieces of integer, string and enumeration logic in the
course's OpenGL/SDL exercise code, and proves what that code promises:

- **Invaders** (`invaders.dfy`, from `Week1/SDLInvaders/sdl_invaders.cpp`): the 4 x 5 invader
  grid the game starts from, `updateInvaders` marching every invader one step across or
  down every 30th frame and flipping the global `invaderDir`, and the launcher's clamped
  left/right movement. The game state is a class `Game` (the invader vector as an array, the
  direction flag, the launcher, the frame counter). Its invariant `Valid` ties the state after
  any number of frames to a closed form of the march.
- **Shader programs** (`shader_program.dfy`, `shader_preprocess.dfy`, from
  `Week10/Config/glhelper/ShaderProgram.cpp`):
  - the GL error and framebuffer-status names;
  - the shader stage chosen by a file's extension;
  - the `#pragma include ` preprocessor, with the file system as a map from path to contents;
  - the uniform-location cache, with its "warned already" set;
  - the constructor's file-name list;
  - ownership of the GL program handle across moves and destruction (class `ShaderProgram`).
- **Textures** (`texture.dfy`, from `Week4/GI/glhelper/Texture.cpp`):
  - the format, type and internal-format validators and the constructor's check order;
  - `numChannels`, `bytesPerChannel`, `bytesPerPixel` and `nTexels` in `size_t` arithmetic;
  - the mip-level region of `update`;
  - the `saveToFile` image-type table;
  - ownership of the texture handle (class `Texture`).
- **GL errors** (`gl_errors.dfy`, from `Week4/GI/glhelper/Exception.cpp`/`.hpp`): naming an error
  flag, `throwOnGlError_`, and the `throwOnGlError()` macro.
- **Doxygen demo** (`doxygen_test.dfy`, from `Week1/UsingDoxygen/test.cpp`): the recursive
  `fibonacci` on 32-bit ints, the cuboid's index list and its eight corners.

Shared pieces:
- `gl_enums.dfy` holds the GL enumerators with their header values; `GLenum`/`GLuint` are
  32-bit unsigned and `GLint` is 32-bit signed.
- `strings.dfy` holds the standard-library searches and `std::to_string`.
- `wrappers.dfy` holds `Option`, `Result` (a value or a thrown message) and `Outcome`.

Calls into GL, SDL, OpenCV and the file system are parameters of the model. Each such value is
an input:
- the flag `glGetError` returns at each check, and whether the build defines `_DEBUG`;
- the location `glGetUniformLocation` returns;
- the handle `glGenTextures` returns;
- whether compiling and linking succeeded;
- the contents of each file;
- the keys held during a frame.

## Model

| member | source | states |
|---|---|---|
| GlErrors.GlErrToString | Week4/GI/glhelper/Exception.cpp:15-32 | each of the six error flags maps to its own name; every other value, GL_NO_ERROR included, maps to "UNKNOWN_GL_ERROR_ENUM", and that name is returned for nothing else; it never throws |
| GlErrors.GlErrToStringInjective | Week4/GI/glhelper/Exception.cpp:15-32 | two named flags never share a name |
| GlErrors.ThrowOnGlError | Week4/GI/glhelper/Exception.cpp:6-13 | throws exactly when the flag read is not GL_NO_ERROR, with message info + " " + the flag's name; otherwise returns normally |
| GlErrors.ThrowMessageIdentifiesError | Week4/GI/glhelper/Exception.cpp:6-13 | with the same info, equal outcomes for two named flags mean the same flag |
| GlErrors.ThrowOnGlErrorMacro | Week4/GI/glhelper/Exception.hpp:8-13 | outside a _DEBUG build the macro never throws; in one it throws exactly on a raised flag, with the "GL Error in file <file>: " prefix |
| GlErrors.FirstRaised | Week4/GI/glhelper/Texture.cpp:178-198 | the position of the first raised reading among successive glGetError readings, None exactly when none is raised |
| GlErrors.ThrowOnGlErrors | Week4/GI/glhelper/Texture.cpp:178-198 | successive throwOnGlError() calls: outside a _DEBUG build none throws; in one the run throws exactly when some reading is raised, with the message of the first raised one |
| GlErrors.ThrowOnGlErrorsSplit | Week4/GI/glhelper/Texture.cpp:178-198 | a run of checks split in two behaves as the first part, then the second part only if the first passed |
| Shaders.GlErrToString | Week10/Config/glhelper/ShaderProgram.cpp:32-49 | the ShaderProgram.cpp copy agrees with the Exception.cpp one on every input |
| Shaders.CheckForGlError | Week10/Config/glhelper/ShaderProgram.cpp:23-30 | returns normally whatever the flag, because its throw is disabled |
| Shaders.StageExtension | Week10/Config/glhelper/ShaderProgram.cpp:368-379 | each of the six stages has an extension that the table maps back to it |
| Shaders.StageExtensionUnique | Week10/Config/glhelper/ShaderProgram.cpp:368-379 | an extension that maps to a stage is that stage's only extension |
| Shaders.Extension | Week10/Config/glhelper/ShaderProgram.cpp:362-367 | None exactly when the name has no '.'; otherwise the text after the last '.', which holds no '.' |
| Shaders.ShaderTypeFromFilename | Week10/Config/glhelper/ShaderProgram.cpp:360-384 | succeeds exactly when there is a '.' and the text after the last one is one of the six extensions, giving that stage; otherwise throws the "did not have recognised extension" message |
| Shaders.ShaderTypeOfExtension | Week10/Config/glhelper/ShaderProgram.cpp:360-384 | any prefix followed by '.' and a stage's extension selects that stage |
| Shaders.ShaderTypeEndsWithExtension | Week10/Config/glhelper/ShaderProgram.cpp:360-384 | a name that selects a stage ends in '.' and that stage's extension |
| Shaders.ShaderTypeOfSuffix | Week10/Config/glhelper/ShaderProgram.cpp:360-384 | a name ending in '.' and a stage's extension selects that stage |
| Shaders.ShaderTypeFromFilenameIff | Week10/Config/glhelper/ShaderProgram.cpp:360-384 | both directions: a name selects a stage if and only if it ends in '.' and that stage's extension |
| Shaders.ShaderTypeExampleFrag | Week10/Config/glhelper/ShaderProgram.cpp:360-384 | "../shaders/TexturedMesh.frag" is a fragment shader; the '.' in the directories does not count |
| Shaders.ShaderTypeExampleUpperCase | Week10/Config/glhelper/ShaderProgram.cpp:368-383 | matching is case-sensitive: "Mesh.VERT" throws |
| Shaders.ShaderTypeExampleDoubleExtension | Week10/Config/glhelper/ShaderProgram.cpp:362-383 | only the last extension counts: "a.vert.glsl" throws |
| Shaders.Described | Week10/Config/glhelper/ShaderProgram.cpp:298-342 | a status's message starts with its name and ": " |
| Shaders.FramebufferErrorToString | Week10/Config/glhelper/ShaderProgram.cpp:294-350 | returns a string for exactly the eight statuses and 0; each status's string opens with its name; 0 gives the "checking framebuffer completeness" message; every other code throws "No such framebuffer error code" with the code in decimal |
| Strings.IntToString | Week10/Config/glhelper/ShaderProgram.cpp:348-349 | std::to_string: '-' exactly for negative values, followed by the canonical decimal digits whose value is the magnitude |
| Strings.IntToStringInjective | Week10/Config/glhelper/ShaderProgram.cpp:348-349 | distinct integers get distinct texts, so the thrown message names the code |
| Strings.NatToDecimal | Week10/Config/glhelper/ShaderProgram.cpp:348-349 | digits with no leading zero (except "0" itself) whose decimal value is n |
| Strings.DecimalRoundTrip | Week10/Config/glhelper/ShaderProgram.cpp:348-349 | writing the value of any canonical digit run gives that digit run back |
| Strings.NatToDecimalInjective | Week10/Config/glhelper/ShaderProgram.cpp:348-349 | two numbers with the same digits are equal |
| Strings.IndexOf | Week10/Config/glhelper/ShaderProgram.cpp:392 | std::getline's search for the delimiter: the first position holding the character, None exactly when it does not occur |
| Strings.LastIndexOf | Week10/Config/glhelper/ShaderProgram.cpp:362 | find_last_of with one character: the last position holding it, None exactly when it does not occur |
| Shaders.LookupUniform | Week10/Config/glhelper/ShaderProgram.cpp:133-154 | a cached name gives its cached location, changing nothing; otherwise the queried location is returned; it is cached only when it is not -1 and no GL error was raised; a failed lookup joins notfound_ and warns only if the name was not already there |
| Shaders.LookupTransparent | Week10/Config/glhelper/ShaderProgram.cpp:133-154 | with no GL errors, a cache that agrees with the program returns what the program reports and keeps agreeing |
| Shaders.RunLookups | Week10/Config/glhelper/ShaderProgram.cpp:133-154 | over a series of calls, one location per call; cached names keep their locations and notfound_ only grows |
| Shaders.WarnedAtMostOnce | Week10/Config/glhelper/ShaderProgram.cpp:140-147 | over any series of calls each name is warned about at most once, never when it was already in notfound_, and ends up in notfound_ |
| Shaders.FailedNeverCached | Week10/Config/glhelper/ShaderProgram.cpp:140-151 | a name whose every lookup fails is never cached |
| Shaders.ShaderProgram.UniformLoc | Week10/Config/glhelper/ShaderProgram.cpp:133-154 | the method's result, warning and new cache are LookupUniform's; the handle and file names are unchanged |
| Shaders.QuotedListAppend | Week10/Config/glhelper/ShaderProgram.cpp:64-67 | each further name adds ", " and the quoted name |
| Shaders.QuotedListRoundTrip | Week10/Config/glhelper/ShaderProgram.cpp:64-68 | when no name holds a '"', splitting the joined list gives the names back |
| Shaders.ShaderTypes | Week10/Config/glhelper/ShaderProgram.cpp:57-61 | the loop succeeds exactly when every file name has a recognised extension, giving each name's stage in order; otherwise it throws the extension message |
| Shaders.JoinFilenames | Week10/Config/glhelper/ShaderProgram.cpp:58-68 | the loop builds the quoted, ", "-separated list of all names |
| Shaders.ShaderProgram.Init | Week10/Config/glhelper/ShaderProgram.cpp:51-69 | the constructed object owns the linked program, with an empty cache and the joined names |
| Shaders.ShaderProgram.Create | Week10/Config/glhelper/ShaderProgram.cpp:51-69 | succeeds exactly when every extension is recognised and linking succeeds; an unrecognised extension throws before linking is consulted; on success the object owns the program, holds the joined names and has an empty cache |
| Shaders.ShaderProgram.Moved | Week10/Config/glhelper/ShaderProgram.cpp:71-75 | the new object takes the handle and the source's becomes 0; the cache and names are not moved |
| Shaders.ShaderProgram.MoveAssignAsWritten | Week10/Config/glhelper/ShaderProgram.cpp:77-82 | only the handle moves and the source's becomes 0; the target keeps its cache and names; the old handle is overwritten |
| Shaders.ShaderProgram.MoveAssign | Week10/Config/glhelper/ShaderProgram.cpp:77-82 | the corrected move: releases the target's old handle, then takes the source's handle, cache and names and empties the source; self-assignment changes nothing |
| Shaders.ShaderProgram.Destroy | Week10/Config/glhelper/ShaderProgram.cpp:84-89 | deletes the handle exactly when it is not 0 |
| Shaders.StaleLocationAfterMoveAssign | Week10/Config/glhelper/ShaderProgram.cpp:77-82 | after the move assignment as written, a query answers 3, from the old program's cache, where the new program reports 5 |
| Shaders.CurrentLocationAfterMoveAssign | Week10/Config/glhelper/ShaderProgram.cpp:77-82 | after the corrected move the same query answers 5 |
| Shaders.LeakedProgramAfterMoveAssign | Week10/Config/glhelper/ShaderProgram.cpp:77-89 | after the move assignment as written and both destructors, the deletions are exactly program 2 once; program 1 leaks |
| Shaders.ReleasedProgramsAfterMoveAssign | Week10/Config/glhelper/ShaderProgram.cpp:77-89 | after the corrected move the deletions are exactly programs 1 and 2, each once |
| ShaderPreprocess.Lines | Week10/Config/glhelper/ShaderProgram.cpp:389-392 | getline's lines hold no '\n', and there are none exactly when the text is empty |
| ShaderPreprocess.Unlines | Week10/Config/glhelper/ShaderProgram.cpp:400-403 | writing each line with "\n" gives an empty text exactly for no lines, and otherwise a text ending in '\n' |
| ShaderPreprocess.UnlinesAppend | Week10/Config/glhelper/ShaderProgram.cpp:400-403 | writing two runs of lines is writing their concatenation |
| ShaderPreprocess.LinesOfUnlines | Week10/Config/glhelper/ShaderProgram.cpp:389-403 | reading back written lines gives them back |
| ShaderPreprocess.UnlinesOfLines | Week10/Config/glhelper/ShaderProgram.cpp:389-403 | writing back the lines of a text that is empty or ends in '\n' gives the text back |
| ShaderPreprocess.LinesAddNewline | Week10/Config/glhelper/ShaderProgram.cpp:389-392 | a final '\n' added to a text without one does not change its lines |
| ShaderPreprocess.ParentPath | Week10/Config/glhelper/ShaderProgram.cpp:396-397 | "" for a path without '/'; when the last '/' is at index i, "/" if i is 0 and otherwise the prefix before it, so the result is unique |
| ShaderPreprocess.IncludePath | Week10/Config/glhelper/ShaderProgram.cpp:395-398 | the path is the directory, then '/', then the line after "#pragma include ", and its length is their sum |
| ShaderPreprocess.After | Week10/Config/glhelper/ShaderProgram.cpp:392-405 | lines already written go in front of a successful rest; a failure stays the failure |
| ShaderPreprocess.ExpandLines | Week10/Config/glhelper/ShaderProgram.cpp:392-405 | the recursion of preprocessSource: a finished expansion writes at least one line per input line |
| ShaderPreprocess.Output | Week10/Config/glhelper/ShaderProgram.cpp:386-408 | a finished expansion gives its lines, each followed by "\n"; a failed one throws its message |
| ShaderPreprocess.StepPlain | Week10/Config/glhelper/ShaderProgram.cpp:402-404 | a plain line is written followed by "\n" and the loop's account stays right |
| ShaderPreprocess.StepInclude | Week10/Config/glhelper/ShaderProgram.cpp:394-400 | an include line writes "\n", the preprocessed file and "\n", and the loop's account stays right |
| ShaderPreprocess.StepFails | Week10/Config/glhelper/ShaderProgram.cpp:398-399 | a missing or failing included file ends the whole call with that failure |
| ShaderPreprocess.PreprocessSource | Week10/Config/glhelper/ShaderProgram.cpp:386-408 | the method's loop returns exactly the text of the line-by-line expansion of the source, or throws the first missing file's message |
| ShaderPreprocess.FuelMonotone | Week10/Config/glhelper/ShaderProgram.cpp:393-400 | once the includes nest within the bound, a larger bound gives the same result |
| ShaderPreprocess.PlainLinesCopied | Week10/Config/glhelper/ShaderProgram.cpp:402-404 | lines with no include line are written unchanged, whatever the directory or files |
| ShaderPreprocess.PlainSourceUnchanged | Week10/Config/glhelper/ShaderProgram.cpp:386-408 | a source without include lines that is empty or ends in '\n' comes back unchanged; one without a final '\n' gains exactly one |
| ShaderPreprocess.ExpandedIsPlain | Week10/Config/glhelper/ShaderProgram.cpp:392-405 | every written line is free of include directives and of '\n' |
| ShaderPreprocess.PreprocessIdempotent | Week10/Config/glhelper/ShaderProgram.cpp:386-408 | preprocessing the output again changes nothing |
| ShaderPreprocess.SelfIncludeTooDeep | Week10/Config/glhelper/ShaderProgram.cpp:394-399 | a file that includes itself never finishes, however deep the bound |
| ShaderPreprocess.NestedIncludeUsesTopDirectory | Week10/Config/glhelper/ShaderProgram.cpp:396-399 | a nested include resolves against the top-level source's directory, and each include is wrapped in two newlines |
| Textures.ValidFormat | Week4/GI/glhelper/Texture.cpp:7-29 | true exactly for the fifteen formats of table 8.3 that do not carry a lone green or blue channel |
| Textures.LoneGreenBlueRejected | Week4/GI/glhelper/Texture.cpp:7-29 | GL_GREEN, GL_BLUE, GL_GREEN_INTEGER and GL_BLUE_INTEGER are one-component formats of table 8.3, yet validFormat rejects them |
| Textures.ValidType | Week4/GI/glhelper/Texture.cpp:31-57 | true exactly for its nineteen listed types, which are table 8.2 without GL_HALF_FLOAT, GL_UNSIGNED_INT_24_8 and the three float-packed types |
| Textures.UnlistedTypesRejected | Week4/GI/glhelper/Texture.cpp:31-57 | the five table 8.2 types the switch omits (GL_HALF_FLOAT, GL_UNSIGNED_INT_24_8 and the three float-packed types) are outside the nineteen and are rejected |
| Textures.ValidInternalFormatIff | Week4/GI/glhelper/Texture.cpp:59-151 | both directions: validInternalFormat accepts exactly the formats to which tables 8.11, 8.12 and 8.14 give a base internal format, except the fourteen unlisted ones (GL_STENCIL_INDEX, GL_RGB16, GL_RGB565, GL_RGBA16_SNORM and the ten ETC2/EAC formats) |
| Textures.ListedFormatsAreNotUnlisted | Week4/GI/glhelper/Texture.cpp:59-151 | no listed format is one of the fourteen unlisted ones |
| Textures.SlippedFormatsNotListed | Week4/GI/glhelper/Texture.cpp:59-151 | GL_RGB16 and GL_RGBA16_SNORM are in none of the switch's groups |
| Textures.LaterFormatsNotListed | Week4/GI/glhelper/Texture.cpp:59-151 | GL_STENCIL_INDEX, GL_RGB565 and the ETC2/EAC formats are in none of the switch's groups |
| Textures.UnlistedFormatsRejected | Week4/GI/glhelper/Texture.cpp:59-151 | each of the fourteen unlisted formats has a base in the tables and is rejected |
| Textures.ListedFormatsAreTabled | Week4/GI/glhelper/Texture.cpp:59-151 | every listed internal format has a base internal format |
| Textures.TabledFormatsAreListed | Week4/GI/glhelper/Texture.cpp:59-151 | every format with a base internal format in the tables, other than the fourteen unlisted ones, is listed |
| Textures.TabledFormats | Week4/GI/glhelper/Texture.cpp:59-151 | the formats with a base are the seven base formats of table 8.11 and the red, red-green, RGB and RGBA sized or compressed formats of tables 8.12 and 8.14 |
| Textures.SizedNormalizedHaveBase | Week4/GI/glhelper/Texture.cpp:70-96 | every sized normalized format the validator lists has a base |
| Textures.SizedFloatHaveBase | Week4/GI/glhelper/Texture.cpp:97-106 | every float format the validator lists has a base |
| Textures.SizedIntegerHaveBase | Week4/GI/glhelper/Texture.cpp:107-130 | every integer format the validator lists has a base |
| Textures.CompressedHaveBase | Week4/GI/glhelper/Texture.cpp:133-146 | every compressed format the validator lists has a base |
| Textures.RedFormatsAreListed | Week4/GI/glhelper/Texture.cpp:59-151 | every red sized or compressed format of tables 8.12 and 8.14, other than the unlisted ones, is listed |
| Textures.RgFormatsAreListed | Week4/GI/glhelper/Texture.cpp:59-151 | every red-green sized or compressed format of tables 8.12 and 8.14, other than the unlisted ones, is listed |
| Textures.RgbFormatsAreListed | Week4/GI/glhelper/Texture.cpp:59-151 | every RGB sized or compressed format of tables 8.12 and 8.14, other than the unlisted ones, is listed |
| Textures.RgbaFormatsAreListed | Week4/GI/glhelper/Texture.cpp:59-151 | every RGBA sized or compressed format of tables 8.12 and 8.14, other than the unlisted ones, is listed |
| Textures.CubeMapIsNotAType | Week4/GI/glhelper/Texture.cpp:31-57 | GL_TEXTURE_CUBE_MAP is rejected as a type |
| Textures.SixteenBitSiblingsRejected | Week4/GI/glhelper/Texture.cpp:59-151 | as written, GL_RGB16 and GL_RGBA16_SNORM are tabled (bases GL_RGB, GL_RGBA) and rejected, while their siblings GL_RGB16_SNORM and GL_RGBA16 are accepted |
| Textures.ValidInternalFormatIntended | Week4/GI/glhelper/Texture.cpp:59-151 | the list with GL_RGB16 and GL_RGBA16_SNORM added accepts exactly the tabled formats other than GL_STENCIL_INDEX, GL_RGB565 and the ETC2/EAC formats |
| Textures.SixteenBitFamilyAccepted | Week4/GI/glhelper/Texture.cpp:59-151 | the intended list accepts all eight 16-bit normalized formats, signed and unsigned, of every base |
| Textures.IntendedListIsTabled | Week4/GI/glhelper/Texture.cpp:59-151 | the switch's list plus GL_RGB16 and GL_RGBA16_SNORM is exactly the tabled formats other than the later ones |
| Textures.RedFormatsAreNotPixelFormats | Week4/GI/glhelper/Texture.cpp:7-29 | no red sized format passes validFormat |
| Textures.RgFormatsAreNotPixelFormats | Week4/GI/glhelper/Texture.cpp:7-29 | no red-green sized format passes validFormat |
| Textures.RgbFormatsAreNotPixelFormats | Week4/GI/glhelper/Texture.cpp:7-29 | no RGB sized format passes validFormat |
| Textures.RgbaFormatsAreNotPixelFormats | Week4/GI/glhelper/Texture.cpp:7-29 | no RGBA sized format passes validFormat |
| Textures.FormatAndInternalFormat | Week4/GI/glhelper/Texture.cpp:7-151 | both directions: a value passes both validFormat and validInternalFormat exactly when it is a base internal format other than GL_STENCIL_INDEX |
| Textures.CheckTextureParams | Week4/GI/glhelper/Texture.cpp:166-174 | passes exactly when all three are valid; otherwise throws the message of the first failed check, in the order format, internal format, type |
| Textures.Texture.Create | Week4/GI/glhelper/Texture.cpp:155-198 | a failed check throws its message before any handle exists; then, in a _DEBUG build, init()'s six throwOnGlError() calls throw the message of the first raised flag, and a throw from the third call on leaves the generated texture leaked; in any other build it throws exactly when a check fails; on success every field is stored (the border as a GLenum) and the generated handle is owned |
| Textures.DebugInitErrorLeaksTexture | Week4/GI/glhelper/Texture.cpp:155-198 | GL_RGBA8UI with GL_RGBA passes the checks; in a _DEBUG build the GL_INVALID_OPERATION read by init()'s third check throws, and texture 9 leaks |
| Textures.Texture.Init | Week4/GI/glhelper/Texture.cpp:155-165 | the member initialisers: every field as given, the border converted to GLenum |
| Textures.EnumOfInt | Week4/GI/glhelper/Texture.cpp:164 | a GLint stored in a GLenum: the same value when non-negative, plus 2^32 when negative |
| Textures.NumChannels | Week4/GI/glhelper/Texture.cpp:374-384 | 3 for RGB and 4 for RGBA, agreeing with the component counts; every other format throws "NOT IMPLEMENTED" |
| Textures.AcceptedFormatsWithoutChannels | Week4/GI/glhelper/Texture.cpp:7-29 | GL_RED and GL_BGR pass the constructor's check yet numChannels throws for both |
| Textures.BytesPerChannel | Week4/GI/glhelper/Texture.cpp:355-365 | 1 for UNSIGNED_BYTE and 4 for FLOAT, agreeing with the type sizes; every other type throws "NOT IMPLEMENTED" |
| Textures.BytesPerPixel | Week4/GI/glhelper/Texture.cpp:350-353 | succeeds exactly when both factors do, giving channels times bytes (3, 4, 12 or 16); otherwise throws "NOT IMPLEMENTED" |
| Textures.NTexels | Week4/GI/glhelper/Texture.cpp:342-345 | nTexels is width * height up to a multiple of 2^64 |
| Textures.NTexelsCount | Week4/GI/glhelper/Texture.cpp:342-345 | nTexels is width*height modulo 2^64, exact while both sides are below 2^32 |
| Textures.NTexelsWraps | Week4/GI/glhelper/Texture.cpp:342-345 | a 2^32 by 2^32 texture has 0 texels by nTexels |
| Textures.MipExtent | Week4/GI/glhelper/Texture.cpp:247 | the shifted extent is never larger than the extent, and strictly smaller for a nonzero extent at a level above 0 |
| Textures.MipExtentIsFloorDivision | Week4/GI/glhelper/Texture.cpp:247 | the shifted extent is the floor of extent / 2^level |
| Textures.MipExtentBounded | Week4/GI/glhelper/Texture.cpp:247 | no level is larger than the texture |
| Textures.MipExtentVanishes | Week4/GI/glhelper/Texture.cpp:247 | an extent below 2^level gives 0 |
| Textures.Texture.UpdateRegion | Week4/GI/glhelper/Texture.cpp:236-242 | update(data) uploads level 0 over the whole texture |
| Textures.Texture.UpdateMipRegion | Week4/GI/glhelper/Texture.cpp:244-249 | update(data, level) uploads width >> level by height >> level, never larger than the texture |
| Textures.SaveToFileLayout | Week4/GI/glhelper/Texture.cpp:289-315 | an image type exists exactly for FLOAT or UNSIGNED_BYTE data in RGB, RED or RGBA; it has the matching depth and channel count, and the buffer is w*h*element size*channels in size_t |
| Textures.SaveToFileSizeIsTexelsTimesPixel | Week4/GI/glhelper/Texture.cpp:289-315 | for RGB and RGBA below 2^30 per side the buffer is nTexels * bytesPerPixel |
| Textures.SaveToFileHandlesRed | Week4/GI/glhelper/Texture.cpp:297-299 | saveToFile handles RED textures, for which bytesPerPixel throws |
| Textures.Texture.Moved | Week4/GI/glhelper/Texture.cpp:207-219 | every field is copied and the source's handle becomes 0, its other fields unchanged |
| Textures.Texture.MoveAssignAsWritten | Week4/GI/glhelper/Texture.cpp:221-234 | every field is copied and the source's handle becomes 0; the target's old handle is overwritten; self-assignment zeroes the handle |
| Textures.Texture.MoveAssign | Week4/GI/glhelper/Texture.cpp:221-234 | the corrected move: releases the old handle first; self-assignment changes nothing |
| Textures.Texture.Destroy | Week4/GI/glhelper/Texture.cpp:200-205 | deletes the handle exactly when it is not 0 |
| Textures.LeakedTextureAfterMoveAssign | Week4/GI/glhelper/Texture.cpp:200-234 | after the move assignment as written and both destructors, the deletions are exactly texture 8 once; texture 7 leaks |
| Textures.ReleasedTexturesAfterMoveAssign | Week4/GI/glhelper/Texture.cpp:200-234 | after the corrected move the deletions are exactly textures 7 and 8, each once |
| Invaders.HorzStepsValue | Week1/SDLInvaders/sdl_invaders.cpp:27-45 | the integer division gives 22 horizontal steps, a 550-pixel sweep, launcherMaxX = 924 and launcherY = 668 |
| Invaders.ShiftedKeepsFormation | Week1/SDLInvaders/sdl_invaders.cpp:104-121 | moving all invaders by one delta keeps their number, sizes and pairwise offsets |
| Invaders.GridIndexBijective | Week1/SDLInvaders/sdl_invaders.cpp:146-155 | r*5 + c covers 0..19 exactly once over the 4 x 5 grid |
| Invaders.HomeOfGridIndex | Week1/SDLInvaders/sdl_invaders.cpp:146-155 | the invader at index r*5 + c is the one placed at row r, column c |
| Invaders.Game.Valid | Week1/SDLInvaders/sdl_invaders.cpp:36-39 | the game's invariant; it implies that the global invaderDir is 1 or -1 |
| Invaders.Game.Init | Week1/SDLInvaders/sdl_invaders.cpp:146-158 | the nested loops place invader r*5 + c at (50 + 70c, 50 + 70r), 50 x 50; the launcher starts at launcherMinX on its row; the state is valid at frame 0 |
| Invaders.Game.UpdateInvaders | Week1/SDLInvaders/sdl_invaders.cpp:104-121 | off step frames nothing changes; on a vertical step every y grows by 25 and the direction flips; on any other step every x moves by invaderDir*25 and the direction stays |
| Invaders.StepsAdvanceDown | Week1/SDLInvaders/sdl_invaders.cpp:107-113 | a vertical step of the closed form: same column offset, one row lower, direction reversed |
| Invaders.StepsAdvanceAcross | Week1/SDLInvaders/sdl_invaders.cpp:114-119 | a horizontal step of the closed form: one step further in the sweep's direction |
| Invaders.StepsAdvance | Week1/SDLInvaders/sdl_invaders.cpp:104-121 | the k-th step frame's update takes the closed form from k to k + 1 steps |
| Invaders.ClosedFormAdvances | Week1/SDLInvaders/sdl_invaders.cpp:104-121 | one frame's update takes the closed form from n to n + 1 frames |
| Invaders.MarchAfterIsClosedForm | Week1/SDLInvaders/sdl_invaders.cpp:104-121 | running updateInvaders on frames 0..n-1 gives the closed form |
| Invaders.MarchBounded | Week1/SDLInvaders/sdl_invaders.cpp:36-39 | invaderDir is always 1 or -1, the horizontal offset stays within [0, 550] and the vertical offset is never negative |
| Invaders.MarchMonotone | Week1/SDLInvaders/sdl_invaders.cpp:107-112 | y never decreases, and the direction flips exactly on vertical steps |
| Invaders.LauncherStep | Week1/SDLInvaders/sdl_invaders.cpp:185-192 | with no key held the launcher stays; with only left it does not move right unless clamped at launcherMinX; with only right it does not move left unless clamped at launcherMaxX |
| Invaders.LauncherStepStaysInRange | Week1/SDLInvaders/sdl_invaders.cpp:185-192 | from inside [launcherMinX, launcherMaxX] the launcher stays inside, moves at most 4 pixels, and moves exactly 4 when one key is held and the clamp does not bite |
| Invaders.Game.MoveLauncher | Week1/SDLInvaders/sdl_invaders.cpp:185-192 | the launcher moves as LauncherStep says and nothing else changes |
| Invaders.Game.Frame | Week1/SDLInvaders/sdl_invaders.cpp:184-228 | one pass of the main loop keeps the state valid and counts the frame |
| Invaders.Game.Play | Week1/SDLInvaders/sdl_invaders.cpp:171-229 | any number of frames keeps the state valid |
| Invaders.InvadersStayInBand | Week1/SDLInvaders/sdl_invaders.cpp:104-121 | in every reachable state each invader is between its grid column and 550 pixels to its right, and never above its grid row |
| DoxygenDemo.FibRecurrence | Week1/UsingDoxygen/test.cpp:51-54 | F(n) = F(n-1) + F(n-2) |
| DoxygenDemo.FibMonotone | Week1/UsingDoxygen/test.cpp:45-55 | F never decreases |
| DoxygenDemo.FibIntBoundary | Week1/UsingDoxygen/test.cpp:45-55 | up to F(46) every value is below 2^31, and from F(47) on none is |
| DoxygenDemo.FibFitsInt | Week1/UsingDoxygen/test.cpp:45-55 | both directions: F(n) fits in an int exactly when n <= 46 |
| DoxygenDemo.Fibonacci | Week1/UsingDoxygen/test.cpp:45-55 | x itself for every x <= 1, negatives included; the standard F(x), non-negative, for x >= 0 |
| DoxygenDemo.CuboidVerts | Week1/UsingDoxygen/test.cpp:3-16 | exactly 8 corners for any sizes |
| DoxygenDemo.CuboidVertsDistinct | Week1/UsingDoxygen/test.cpp:3-16 | with no zero side the 8 corners are distinct and centred on the origin in x |
| DoxygenDemo.CuboidIndicesInRange | Week1/UsingDoxygen/test.cpp:18-38 | 36 indices, each naming one of the 8 corners |
| DoxygenDemo.CuboidTrianglesNondegenerate | Week1/UsingDoxygen/test.cpp:18-38 | each of the 12 triangles names three distinct corners |
| DoxygenDemo.CuboidIndicesCoverCorners | Week1/UsingDoxygen/test.cpp:18-38 | every corner 0..7 is used |
| DoxygenDemo.CuboidIndicesMatchTransformations | Week1/LinearAlgebra/ex_00_transformations.cpp:72-90 | the demo's list equals the transformations exercise's cube element list |
| DoxygenDemo.TriangleCorners | Week1/UsingDoxygen/test.cpp:19-37 | triangle t of the flat list is the t-th triple |
| DoxygenDemo.FacesAreFlat | Week1/UsingDoxygen/test.cpp:3-16 | the corners of each face share one coordinate |
| DoxygenDemo.CuboidTrianglesOnFaces | Week1/UsingDoxygen/test.cpp:18-38 | triangles 2f and 2f + 1 both lie on face f, so each face is covered by two triangles |

Some functions have no contract of their own. They are the reference definitions that the rows above are stated against:

- DoxygenDemo.CuboidIndices models makeCuboidIndices (Week1/UsingDoxygen/test.cpp:18-38). Its meaning is carried by CuboidIndicesInRange, CuboidTrianglesNondegenerate, CuboidIndicesCoverCorners, CuboidIndicesMatchTransformations, TriangleCorners and CuboidTrianglesOnFaces.
- Shaders.QuotedList models the filename join in the constructor (Week10/Config/glhelper/ShaderProgram.cpp:64-67). QuotedListAppend, QuotedListRoundTrip and the JoinFilenames method carry its meaning.
- Invaders.StepAt, Invaders.Advance and Invaders.MarchAfter model updateInvaders frame by frame (Week1/SDLInvaders/sdl_invaders.cpp:104-121). StepAt picks idle, down or across from the frame index; Advance applies one frame; MarchAfter iterates from the start. Game.UpdateInvaders, Game.Valid, MarchAfterIsClosedForm, MarchBounded and MarchMonotone carry their meaning.
- ShaderPreprocess.IsIncludeLine models the "#pragma include " prefix test (Week10/Config/glhelper/ShaderProgram.cpp:393-394). ShaderPreprocess.Preprocessed models the whole of preprocessSource (Week10/Config/glhelper/ShaderProgram.cpp:386-408) as ExpandLines on the source's lines in the parent directory of its path. PreprocessSource, PreprocessIdempotent, PlainSourceUnchanged, ExpandedIsPlain and NestedIncludeUsesTopDirectory carry their meaning.

## Left out

- GL, SDL, OpenCV and file-system calls are not modelled; their results are parameters (see above). This covers shader compilation and linking (`makeShaderProgram`), the texture upload calls and sampler parameters in `init`, `cv::imwrite`, rendering, timing and events.
- Console output is not modelled: `uniformLoc`'s warning is a returned flag, and its text is left out.
- `getUniformLocation` calls `checkForGLError`, which reads and so clears the GL error flag. `uniformLoc` then reads `glGetError` again. The model takes that second reading as an input, so the clearing is not modelled.
- ShaderPreprocess.ParentPath: only '/' separators are modelled. A backslash, a doubled "//" and a trailing '/' follow std::filesystem rules that are not modelled. A bare file name gives "", so its includes resolve at "/" + name, as in the source.
- ShaderPreprocess.PreprocessSource: the source recurses without limit on cyclic includes. The model counts include depth with a ghost bound, and a too-deep expansion is excluded by a requires. SelfIncludeTooDeep shows such a cycle never finishes.
- Shaders.ShaderProgram.Create: reading `sources[0]` of an empty list is undefined behaviour in C++. It is excluded by a requires unless linking fails first. Transform-feedback varyings are not modelled.
- Textures.ValidInternalFormat: its meaning is stated by the lemma ValidInternalFormatIff rather than by its own ensures.
- Table 8.13's sized depth and stencil internal formats (GL_DEPTH_COMPONENT16 and the rest) are not written out. validInternalFormat lists none of them, and the model says nothing about them.
- Textures.MipExtent: a shift by 64 or more is undefined behaviour in C++ and is excluded by a requires.
- Textures.SaveToFileLayout: a combination the table does not handle leaves the image type uninitialised, which is undefined behaviour in C++. The model returns None for it.
- Textures.Texture.UpdateMipRegion: the conversion of the shifted `size_t` to `GLsizei` in the GL call is not modelled.
- Textures.BytesPerPixel: both factors throw the same message, so the unspecified order in which C++ evaluates them is not modelled.
- The Uint64 frame counter's wrap-around after 2^64 frames is not modelled. Neither is 32-bit overflow of an invader's y, which needs about 2.5 billion frames.
- Float vertex coordinates in `makeCuboidVerts` are reals, with no rounding. The winding order of the cuboid's triangles is not modelled.
- DoxygenDemo.Fibonacci: calls with x > 46 overflow a 32-bit int and are excluded by a requires.

## Findings

| source | as written | input that shows it | evidently intended | confidence | as-written member | corrected member |
|---|---|---|---|---|---|---|
| Week10/Config/glhelper/ShaderProgram.cpp:77-82 | move assignment moves only `program_` and keeps the target's `uniforms_`, `notfound_` and `filenames_` | `a` caches "mvp" at 3, then `a = std::move(b)` where `b`'s program reports 5: `a.uniformLoc("mvp")` answers 3 | the cache moves with the program | not executed | Shaders.StaleLocationAfterMoveAssign | Shaders.CurrentLocationAfterMoveAssign |
| Week10/Config/glhelper/ShaderProgram.cpp:77-89 | move assignment overwrites the target's `program_` without deleting it | `a` owns program 1 and `b` program 2; after `a = std::move(b)` and both destructors only program 2 is deleted | the old program is released first | not executed | Shaders.LeakedProgramAfterMoveAssign | Shaders.ReleasedProgramsAfterMoveAssign |
| Week4/GI/glhelper/Texture.cpp:200-234 | move assignment overwrites the target's `tex_` without deleting it | `a` owns texture 7 and `b` texture 8; after `a = std::move(b)` and both destructors only texture 8 is deleted | the old texture is released first | not executed | Textures.LeakedTextureAfterMoveAssign | Textures.ReleasedTexturesAfterMoveAssign |
| Week4/GI/glhelper/Texture.cpp:85-94 | validInternalFormat lists GL_RGB16_SNORM and GL_RGBA16 but not their siblings GL_RGB16 and GL_RGBA16_SNORM | `Texture(GL_TEXTURE_2D, GL_RGB16, …)` throws "Invalid internal format supplied to Texture constructor" although GL_RGB16 is a sized format with base GL_RGB | the whole 16-bit normalized family is listed | not executed | Textures.SixteenBitSiblingsRejected | Textures.ValidInternalFormatIntended |
