# CMRender galaxy demo: debug-output classification and point-field layout

CMRender is a single-file OpenGL demo. It expands points into blended
billboards to draw a spiral galaxy of 131072 particles. This model covers the
two parts of `CMRender/main.cpp` that are plain sequential logic:

- **Debug output** (`debug_output.dfy`, module `DebugOutput`). The three
  tables `getStringForSource`, `getStringForSeverity` and `getStringForType`
  turn GL_ARB_debug_output enumerants into labels. These enumerants became
  chapter 20, "Debug Output", of the OpenGL 4.6 core profile specification.
  The model also covers the decision `debugCallbackARB` takes for each message.
  Enumerants are 32-bit unsigned integers with the values of that
  specification. `GL_DEBUG_TYPE_ERROR_ARB` and `GL_DEBUG_TYPE_ERROR` are both
  0x824C. One call of the callback is a value `Outcome`: the report it writes
  to the error stream, if any, and whether it then raises.
- **Point-field fill** (`particle_field.dfy`, module `ParticleField`). The
  loop at lines 214-233 fills a `std::vector<GLfloat>` of `3 * particles`
  floats in place. It handles one particle per iteration and takes 14 values
  from `std::rand()` for each. The buffer is an `array<Coord>`, filled by the
  method `GenerateGalaxy` and its loop body `FillParticle`. `rand()` is the
  class `RandomStream`: a stream of draws plus a cursor. Float values are not
  computed. Each slot holds a `Coord` term instead, which records the
  operation that produced the value (`r*sin(alpha)`, `0`, a jitter product,
  `+=`) and the draws it used. That makes the slot layout, the draws each
  particle consumes and the write order exact. The function `Galaxy` is the
  specification the method is proved against.
- **Draw setup** (`point_draw.dfy`, module `PointDraw`). These are the
  consumers of the buffer: its upload (line 236), the attribute pointer with
  3 floats and a 12-byte stride (line 241), and `glDrawArrays(GL_POINTS, 0,
  particles)` (line 305). The model proves that these agree with the fill.

`wrappers.dfy` holds the `Option` type.

Points where the model departs from the code on purpose, or where the code
does something unexpected:

- `int arm = 3 * (std::rand() / float(RAND_MAX))` is computed in exact
  arithmetic as `(3 * d) / RAND_MAX`. This idealises IEEE rounding. With
  32-bit floats and a large `RAND_MAX`, nearby draws round to 1.0 as well, so
  in the real program arm 3 can occur for more draws than `RAND_MAX` alone.
  Rounding also moves the 1/3 and 2/3 boundaries: with `RAND_MAX` = 2^31 - 1
  and d = 715827882,
  `float(d)` is 715827904 and `3 * (d / float(RAND_MAX))` rounds to 1.0f, so
  the program gives arm 1 where the exact `(3 * d) / RAND_MAX` is 0.
- The arms are 2π/3 apart, as for three arms, but the index ranges over
  0..3. In exact arithmetic, arm 3 occurs exactly when the draw equals
  `RAND_MAX`. The model keeps all four values.
- The jitter amplitudes `4 - 0.2*alpha` and `2 - 0.1*alpha` use alpha after
  the arm rotation (line 221 runs before lines 227-232), so they depend on the
  arm. `Amplitude` therefore carries the whole `Alpha`, arm included.
- C++ leaves the order of the four `rand()` calls inside one jitter sum
  unspecified. The model records the four draws of each sum in stream order.
  The x, y and z sums are separate statements, so their order is fixed.
- `RAND_MAX` is chosen by the C library, so it is a parameter of the stream
  (`RandomStream.randMax`). The draws themselves are an arbitrary stream
  `nat -> int` with every value in `[0, RAND_MAX]`. The seed is not modelled.

## Model

| member | source | states |
|---|---|---|
| `DebugOutput.SourceLabel` | CMRender/main.cpp:353-371 | the label differs from "n/a" exactly when the source is one of the six `GL_DEBUG_SOURCE_*` values |
| `DebugOutput.SeverityLabel` | CMRender/main.cpp:374-386 | the label differs from "n/a" exactly when the severity is HIGH, MEDIUM or LOW, so NOTIFICATION gets "n/a" |
| `DebugOutput.TypeLabel` | CMRender/main.cpp:389-406 | the label differs from "n/a" exactly when the type is one of the six `GL_DEBUG_TYPE_*` values |
| `DebugOutput.SourceLabelTable` | CMRender/main.cpp:355-369 | API, WINDOW_SYSTEM, SHADER_COMPILER, THIRD_PARTY, APPLICATION and OTHER map to "API", "Window System", "Shader Compiler", "Third Party", "Application" and "Other"; every other value maps to "n/a" |
| `DebugOutput.SeverityLabelTable` | CMRender/main.cpp:376-384 | HIGH, MEDIUM and LOW map to "HIGH!", "Medium" and "Low"; NOTIFICATION and every other value map to "n/a" |
| `DebugOutput.TypeLabelTable` | CMRender/main.cpp:390-404 | the six types map to "Error", "Deprecated Behaviour", "Undefined Behaviour", "Portability Issue", "Performance Issue" and "Other"; every other value maps to "n/a" |
| `DebugOutput.SourceLabelInjective` | CMRender/main.cpp:353-371 | two listed sources with the same label are the same source |
| `DebugOutput.TypeLabelInjective` | CMRender/main.cpp:389-406 | two listed types with the same label are the same type |
| `DebugOutput.DebugCallback` | CMRender/main.cpp:409-423 | a report is written exactly when the severity is NOTIFICATION; the callback raises exactly when the severity is NOTIFICATION and the type is `GL_DEBUG_TYPE_ERROR_ARB`; it raises only after writing a report; a written report carries the type and source labels, the id, the message and the severity label "n/a" |
| `DebugOutput.HighSeverityErrorIsDropped` | CMRender/main.cpp:411 | a HIGH-severity ERROR message produces no report and no raise |
| `DebugOutput.ReportedSeverityIsNeverLabelled` | CMRender/main.cpp:411-418 | no written report shows "HIGH!", "Medium" or "Low" as its severity |
| `DebugOutput.RaiseFollowsErrorReport` | CMRender/main.cpp:413-422 | whenever the callback raises, the report it wrote is typed "Error" |
| `ParticleField.ArmIndex` | CMRender/main.cpp:218 | for a draw d in `[0, RAND_MAX]`, the arm index lies in 0..3 and is 3 exactly when d = `RAND_MAX` |
| `ParticleField.ParticleCoords` | CMRender/main.cpp:218-232 | one particle yields exactly three floats |
| `ParticleField.Galaxy` | CMRender/main.cpp:214-233 | n particles fill exactly 3n floats |
| `ParticleField.RandomStream.Rand` | CMRender/main.cpp:218 | one `rand()` call returns the draw at the cursor, which lies in `[0, RAND_MAX]`, and advances the cursor by one |
| `ParticleField.JitterDraws` | CMRender/main.cpp:227-228 | one jitter sum takes the next four draws of the stream |
| `ParticleField.FillParticle` | CMRender/main.cpp:217-232 | iteration i takes exactly 14 draws; it writes floats 3i, 3i+1 and 3i+2 with that particle's terms, the y float first set to 0 and then incremented; it changes no other float |
| `ParticleField.GenerateGalaxy` | CMRender/main.cpp:214-233 | the buffer has 3 * 131072 floats; after the loop it equals `Galaxy` for the stream from the starting cursor; the loop takes exactly 14 * 131072 draws |
| `ParticleField.FilledPrefixGrows` | CMRender/main.cpp:216-233 | one more iteration extends the filled prefix of the buffer by that particle's three floats |
| `ParticleField.GalaxyPrefix` | CMRender/main.cpp:216-233 | later iterations leave the floats of earlier particles unchanged |
| `ParticleField.GalaxyParticle` | CMRender/main.cpp:218-232 | particle i owns floats 3i..3i+2. Its arm comes from draw 14i and its radius from draw 14i+1. It adds jitter from draws 14i+2..14i+5 to x, 14i+6..14i+9 to y and 14i+10..14i+13 to z. Its y float is exactly 0 plus the y jitter term |
| `ParticleField.GalaxySlot` | CMRender/main.cpp:223-232 | float j of the buffer is component j % 3 of particle j / 3 |
| `ParticleField.GalaxyFullyWritten` | CMRender/main.cpp:215-233 | after the loop, every float is the result of a `+=` of its iteration; none keeps the buffer's initial zero |
| `ParticleField.GalaxyReadsOnlyItsDraws` | CMRender/main.cpp:216-233 | two streams that agree on the 14n draws from the start give the same n particles |
| `PointDraw.FetchVertex` | CMRender/main.cpp:241 | the fetch of vertex v succeeds exactly when its 12 bytes at offset 12v lie inside the upload, and it then yields three floats |
| `PointDraw.DrawFetchesEveryParticle` | CMRender/main.cpp:236-305 | with the upload of line 236, whose byte size `BufferBytes` is 4 bytes per float, and the layout of line 241, the byte size equals the offset plus 131072 vertices times the 12-byte stride; each of the `particles` vertices drawn fetches exactly that particle's three floats; the drawn vertices span the whole upload; the next vertex would lie outside it |

## Left out

- Window, context and extension setup with GLFW and GLEW, and the exit-code paths (lines 70-125): these are calls into foreign libraries.
- Shader compile and link checks (`check_shader_compile_status`, `check_program_link_status`, lines 34-61 and 146-192): thin wrappers over GL queries that write to stderr. The result of the link check at line 192 is ignored by the code.
- The floating-point arithmetic of the generator (`std::pow`, `std::sin`, `std::cos`, the jitter products, float rounding, lines 219-232): values are kept as `Coord` terms. The term `Plus(Zero, t)` of the y float equals `t` only under the float identity 0 + t = t, which is not modelled.
- ParticleField.ArmIndex: computed in exact rational arithmetic, not with IEEE single-precision rounding of `d / float(RAND_MAX)`.
- The internals and seeding of `std::rand`: the stream of draws is a parameter.
- The camera and projection matrices (`glm::perspective`, `glm::translate`, `glm::rotate`, lines 287-294): float math inside a library that is not part of this model.
- The render loop, ImGui widgets, the buffer upload call itself, blend state, swap and clean-up (lines 128-133, 236-249, 256-344): I/O and event-loop plumbing. Only the byte size of the upload and the attribute layout enter `PointDraw`.
- The text format written to `std::cerr` by the callback: the report is the tuple of its fields. The unused length and user-pointer arguments of the callback are not modelled.
- How the C++ exception of line 422 unwinds out of the driver's callback: the raise is a boolean of `Outcome`.
