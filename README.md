# WebGL shader portfolio: program registry and WebGL helpers

This project models the rendering core of a WebGL shader portfolio in Dafny:

- **`WebGLUtils`** (`webgl_utils.dfy`) holds the stateless helpers around a WebGL context:
  - context acquisition, trying WebGL 2, then `webgl`, then `experimental-webgl`;
  - shader compilation and program linking; a shader or program that fails is deleted again;
  - resizing the canvas to its display size;
  - buffer and texture creation, with the texture's destructuring defaults and its three upload paths;
  - the static full-screen quad.
- **`Manager`** (`shader_manager.dfy`) holds the `ShaderManager` class:
  - a `Map` from a logical name to a linked program, with per-program caches of attribute and uniform locations;
  - the name of the program in use;
  - the uniform upload switch;
  - deletion of one program or of all of them.
- **`Registry`** (`registry.dfy`) holds the pure specifications the manager's methods are proved against:
  - the key order of the `Map` after `set` and `delete`;
  - one cached location lookup, and any number of them in a row;
  - the `deleteProgram` calls of `deleteAllPrograms`.
- **`Uniforms`** (`uniforms.dfy`) holds the type-tag dispatch of `setUniform` and the arguments each entry point receives.
- **`Shaders`** (`shaders.dfy`) holds the catalog of three fragment-shader effects, with `getById` and `getFeatured`.
- **`Gl`** (`gl.dfy`) models the browser's WebGL context. It is the environment the core runs against:
  - a class with the object table the driver keeps (shaders, programs, buffers, textures by handle);
  - the next handle it hands out;
  - the sequence of calls made on it (`trace`).

  Whether a source compiles, whether two sources link, and which location a name gets are oracle
  functions fixed when the context is built. Every helper and manager method states the exact calls it
  makes, as an extension of `trace`, including the compile- and link-status queries and the info-log reads
  of the error paths. Every one that may change the object table also states the exact
  table afterwards; the others may only extend `trace`.

Enumerated constants (`ARRAY_BUFFER`, `LINEAR`, `TRIANGLE_STRIP`, ...) carry their values from the
WebGL 1.0 specification, section 5.14.

The JavaScript `Map` is a `map<string, ProgramInfo>` plus a `names: seq<string>` field that keeps its
insertion order. `Registry.Ordered` ties the two together. `deleteAllPrograms` iterates a `Map` while
deleting the current key, which visits the keys in insertion order; the model deletes the oldest name
until none is left.

## Model

| member | source | states |
|---|---|---|
| WebGLUtils.Compile | js/webgl-utils.js:15-20 | A fresh shader of the stage holds the source, compiled exactly as the oracle decides, and the status answered is that outcome. The calls are create, source, compile and the status query. |
| WebGLUtils.CreateShader | js/webgl-utils.js:14-27 | A shader is answered exactly when the source compiles for that stage. It is the next handle, stored compiled. On failure the object is deleted and the table is as before. The calls are create, source, compile, the status query, then on failure the info-log read and the delete. |
| WebGLUtils.AssembledLinks | js/webgl-utils.js:36-50 | Linking the program that holds the two attached shaders succeeds exactly when one is a compiled vertex shader, the other a compiled fragment shader, and their sources link. Either argument order works. |
| WebGLUtils.CreateProgram | js/webgl-utils.js:36-50 | A program is answered exactly when `LinkSucceeds` holds for the two shaders. It is the next handle and its link status is true. On success the table gains exactly that program, linked, holding the attached shaders. On failure it is deleted and the table is unchanged. The calls are create, attach, attach, link, the status query, then on failure the info-log read and the delete. |
| WebGLUtils.CreateContext | js/webgl-utils.js:58-83 | WebGL 2 (version 2) when granted. Otherwise `webgl`, then `experimental-webgl` (version 1), each only when every earlier probe answered null. A throwing probe gives null. |
| WebGLUtils.ResizeCanvasToDisplaySize | js/webgl-utils.js:90-103 | Answers true exactly when either dimension differs from the display size. Afterwards the canvas has the display size. When it answers false nothing changed. |
| WebGLUtils.CreateBuffer | js/webgl-utils.js:113-118 | A fresh handle is added to the table as a buffer. The calls are create, bind to the target, then load the data with the usage. |
| WebGLUtils.QuadGeometry | js/webgl-utils.js:206-226 | The quad has four vertices of two coordinates each. Each vertex is a distinct corner of [-1,1]². Each texture coordinate is (position + 1) / 2. |
| WebGLUtils.CreateFullScreenQuad | js/webgl-utils.js:204-255 | Two fresh static `ARRAY_BUFFER`s hold the positions and texture coordinates. Each layout is 2 floats, not normalized, stride and offset 0. Drawing is 4 vertices as a triangle strip. |
| WebGLUtils.ResolveTextureOptions | js/webgl-utils.js:127-139 | Each absent option takes its default: LINEAR filters, CLAMP_TO_EDGE wrapping, RGBA, UNSIGNED_BYTE, size 1×1. The internal format defaults to the resolved format. |
| WebGLUtils.TextureUploadCalls | js/webgl-utils.js:150-164 | Exactly one `texImage2D`, at level 0 on TEXTURE_2D, with the resolved internal format, format and pixel type. It comes from the image when there is one, otherwise from the data, otherwise it is empty; the two pixel forms carry the size and border 0. A mipmap is generated only on the image path and only for one of the four mipmap minification filters. |
| WebGLUtils.SetTextureParameters | js/webgl-utils.js:145-148 | Exactly the four `texParameteri` calls on TEXTURE_2D: minification and magnification filter, then S and T wrapping. |
| WebGLUtils.UploadTexture | js/webgl-utils.js:150-164 | Issues exactly the `TextureUploadCalls` of the resolved options. |
| WebGLUtils.CreateTexture | js/webgl-utils.js:126-167 | A fresh texture handle. The calls are create and bind, the four parameters in order, then the upload calls of the resolved options. |
| WebGLUtils.GetAttribLocation | js/webgl-utils.js:176-182 | Answers the driver's location unchanged (-1 included), with exactly one query. |
| WebGLUtils.GetUniformLocation | js/webgl-utils.js:191-197 | Answers the driver's location unchanged (null included), with exactly one query. |
| Uniforms.Dispatch | js/shader-manager.js:239-287 | A tag selects an entry point exactly when it is one of the 15 handled tags, and the entry point it selects carries that tag. |
| Uniforms.DispatchTagName | js/shader-manager.js:239-287 | Every entry point is reached by its own tag, so the dispatch and the tag naming are inverse. |
| Uniforms.UploadArgs | js/shader-manager.js:240-284 | The N-component `f`/`i` calls read exactly `value[0]` to `value[N-1]`. The matrix calls pass `false` and then the value. The other calls pass the value whole. |
| Uniforms.UploadThrowsExactly | js/shader-manager.js:243-263 | Reading the value throws exactly for the six vector tags applied to an `undefined` value at a non-null location. |
| Uniforms.UploadCalls | js/shader-manager.js:235-287 | At most one upload. There is one exactly when the location is non-null, the tag is handled and reading the value does not throw. It goes to that location, through the entry point the tag names, with that entry point's arguments. |
| Registry.Enrolled | js/shader-manager.js:74-80 | After `programs.set` the keys are the old keys plus the name. A new name goes last and an existing name keeps its place. Distinctness is kept. |
| Registry.Without | js/shader-manager.js:302 | After `programs.delete` every other key remains. Distinctness is kept. An absent name changes nothing. |
| Registry.WithoutAt | js/shader-manager.js:302 | Deleting the key at position i of a duplicate-free order leaves the keys before it and the keys after it, in their order. |
| Registry.WithoutFirst | js/shader-manager.js:312-316 | Deleting the oldest key of a duplicate-free order leaves exactly the rest, in order. |
| Registry.WithoutEnrolled | js/shader-manager.js:74-80 | Registering a name and then deleting it leaves the other keys in their earlier order. |
| Registry.AttribLookup | js/shader-manager.js:141-158 | An unknown program gives -1 with no query. A cache hit makes no query and changes nothing. A miss makes one query, caches the driver's answer (-1 included) and answers it. No other entry or key changes. |
| Registry.UniformLookup | js/shader-manager.js:166-183 | The same as `AttribLookup` for uniforms, with null for an unknown program. |
| Registry.CachedAttribLookups | js/shader-manager.js:141-158 | Repeating a cached attribute lookup any number of times answers the cached location each time, with no query and no change. |
| Registry.AttribQueriedAtMostOnce | js/shader-manager.js:141-158 | Any number of lookups of the same attribute make at most one driver query, and every answer equals the first. |
| Registry.UnknownProgramAttribLookups | js/shader-manager.js:142-147 | Lookups on an unregistered program always give -1 with no query. |
| Registry.CachedUniformLookups | js/shader-manager.js:166-183 | Repeating a cached uniform lookup answers the cached location each time, with no query and no change. |
| Registry.UniformQueriedAtMostOnce | js/shader-manager.js:166-183 | Any number of lookups of the same uniform make at most one driver query, and every answer equals the first. |
| Registry.UnknownProgramUniformLookups | js/shader-manager.js:167-172 | Lookups on an unregistered program always give null with no query. |
| Registry.UniformCachesIndependent | js/shader-manager.js:166-183 | The uniform caches of two different programs do not interfere. Looking up in one leaves the other's answer unchanged. |
| Registry.HandlesWithout | js/shader-manager.js:301-302 | The programs held by the table are those of the table without one name, plus that name's program. |
| Registry.DeletionCalls | js/shader-manager.js:312-316 | One `deleteProgram` call per key, the i-th for the program of the i-th key. |
| Registry.OrderedWithoutFirst | js/shader-manager.js:312-316 | Removing the oldest key keeps the order invariant of the remaining keys. |
| Registry.DeletionCallsFirst | js/shader-manager.js:312-316 | The deletion calls are the oldest key's call followed by the calls for the table without it. |
| Registry.DeletionCallsShift | js/shader-manager.js:312-316 | The calls for a non-empty order are the first key's call, then the calls for the other keys in any table that holds the same programs for them. |
| Registry.DeletionCallsAfter | js/shader-manager.js:312-316 | The same decomposition, appended to the calls already issued. |
| Manager.PointerCalls | js/shader-manager.js:193-221 | No calls for location -1. Otherwise the calls are bind the attribute's buffer, enable the location, then point it with the layout's size, component type, normalization, stride and offset. |
| Manager.CreateProgramCallsDeletes | js/shader-manager.js:55-83 | In the calls of `createProgram`, a shader is deleted again exactly when its stage fails to compile. |
| Manager.CreateProgramCallsLinks | js/shader-manager.js:55-83 | In the calls of `createProgram`, the program is linked exactly when both stages compiled, and deleted exactly when that link then fails. |
| Manager.CreateProgramObjectsKeeps | js/shader-manager.js:55-83 | After `createProgram` every object found before is untouched, so a program the name was bound to is not deleted. Each stage that compiled stays allocated, even when the other stage or the link fails. The program is added exactly when both stages compiled and linked. |
| Manager.CompileStages | js/shader-manager.js:59-60 | Two `createShader` calls, vertex stage first, on consecutive handles. Each shader is answered exactly when its stage compiles. The calls and the table are those of the two calls in a row. |
| Manager.BuildProgram | js/shader-manager.js:59-71 | A program is answered exactly when both stages compile and the pair links. It is the handle after the two shaders, and its link status is true. The calls are exactly `CreateProgramCalls` and the table exactly `CreateProgramObjects`. |
| Manager.LinkedCalls | js/shader-manager.js:59-67 | When both stages compile, the calls of `createProgram` are both compile sequences followed by the link calls, then the info-log read and the program's deletion if linking fails. |
| Manager.ShaderManager.constructor | js/shader-manager.js:11-28 | An empty registry and no current program. |
| Manager.ShaderManager.CreateProgram | js/shader-manager.js:55-83 | A program is answered exactly when both stages compile and the pair links. Only then is the name bound to a fresh entry with empty caches; an existing name keeps its place in the order. On failure nothing is registered. The calls are exactly `CreateProgramCalls` and the table exactly `CreateProgramObjects`. The current program and the registry invariant are kept. |
| Manager.ShaderManager.CreateFragmentShaderProgram | js/shader-manager.js:91-93 | The same as `CreateProgram`, with the default pass-through vertex shader: the same registry, calls and table. |
| Manager.ShaderManager.GetProgram | js/shader-manager.js:100-102 | The entry of that name exactly when it is registered. |
| Manager.ShaderManager.UseProgram | js/shader-manager.js:109-121 | Succeeds exactly when the name is registered. On success that program is made current and becomes the current program. On failure nothing changes. |
| Manager.ShaderManager.GetCurrentProgram | js/shader-manager.js:127-133 | The entry of the current name. Under the registry invariant it is null exactly when there is no current name or the name is empty (the test is JavaScript falsiness). |
| Manager.ShaderManager.GetAttribLocation | js/shader-manager.js:141-158 | The answer, the new table and the driver queries are those of `Registry.AttribLookup`. |
| Manager.ShaderManager.GetUniformLocation | js/shader-manager.js:166-183 | The answer, the new table and the driver queries are those of `Registry.UniformLookup`. |
| Manager.ShaderManager.PointAttribute | js/shader-manager.js:193-205 | Issues exactly the `PointerCalls` of one attribute. |
| Manager.ShaderManager.SetupQuadAttributes | js/shader-manager.js:190-222 | Looks up `a_position` and then `a_texCoord` through the cache. After each lookup come exactly that attribute's pointer calls, and none for a missing attribute. |
| Manager.ShaderManager.SetUniform | js/shader-manager.js:231-288 | A cached uniform lookup followed by exactly the `UploadCalls` of the tag and value. An unknown program, a null location or an unknown tag uploads nothing. It reports a throw exactly when a vector tag reads an `undefined` value; the location stays cached and nothing is uploaded. |
| Manager.ShaderManager.DeleteProgram | js/shader-manager.js:294-307 | An unregistered name changes nothing. Otherwise the program is deleted on the driver and only it leaves the object table. The name leaves the registry and the order, and the current program is cleared exactly when it was that name. |
| Manager.ShaderManager.DeleteOldest | js/shader-manager.js:312-316 | The oldest name leaves the registry and the rest keep their order. The current program is cleared exactly when it was that name. Only its program leaves the object table. The call is the first of the pending deletion calls, and the programs still to delete are the rest. |
| Manager.ShaderManager.DeleteAllPrograms | js/shader-manager.js:312-316 | One `deleteProgram` call per registered program, in registration order. Afterwards the registry is empty and there is no current program. The object table is the old one without the registered programs; shaders and other objects stay. |
| Shaders.Collection | js/shaders.js:8-277 | The three effect definitions in declared order, with their ids, names, descriptions, tags, uniforms with type tags and initial values, and controls. |
| Shaders.Find | js/shaders.js:280-282 | The first definition with the id. It is undefined exactly when no definition has that id. |
| Shaders.GetById | js/shaders.js:280-282 | A definition is found exactly for the three catalog ids, and it carries the id asked for. |
| Shaders.GetFeatured | js/shaders.js:285-287 | The first definition, `gradient-wave`, which `getById` finds again. |
| Shaders.FindDistinct | js/shaders.js:280-282 | In a collection without repeated ids, looking up an entry's id answers that entry. |
| Shaders.GetByIdFindsEveryEntry | js/shaders.js:8-282 | The catalog ids are distinct, and `getById` answers each entry for its own id. |
| Shaders.ControlsInRange | js/shaders.js:56-275 | Every control is a range with a positive step, no bound uniform, and a default between its minimum and maximum. |
| Shaders.DeclaredUniformsUpload | js/shaders.js:51-253 | Every declared uniform's tag is handled by `setUniform`, and its initial value fills every argument of that entry point with no undefined component. |
| Shaders.UndeclaredInGlsl | js/shaders.js:16-55 | The GLSL of each effect declares a subset of the uniforms listed for it. The only listed uniform that is not declared is `u_mouse` of the gradient wave. |

## Left out

- Console logging (`console.error`, `console.warn`) is not modelled; only the values answered and the context calls are. The info-log reads that feed the error messages are recorded as calls, but the text of a log is not modelled.
- `loadShaderSource` (an asynchronous `fetch` of a shader file) is not modelled: it is network I/O with no effect on the registry.
- The GLSL text of the shaders is not modelled. Each source is an opaque string; the default vertex shader keeps its exact text. Whether a source compiles or links is an oracle of the context (`compiles`, `links`), not a GLSL compiler.
- The catalog's fragment-shader text (the constants `Shaders.GradientWave`, `Shaders.FractalJulia` and `Shaders.NoiseFlow`) is replaced by a placeholder key (`gradient-wave.frag` and so on) that does not occur in the source. The uniforms that text declares are recorded in `declaredUniforms`.
- The driver's choice of attribute and uniform locations is an oracle (`attribLocation`, `uniformLocation`). A lost context and the driver's error state are not modelled.
- Manager.ShaderManager.GetProgram: answers the program record as a value. The source returns the record object itself, so a caller could mutate its caches; that aliasing is not captured.
- Registry.AttribLookup: the caches are JavaScript plain objects. An attribute named like an inherited property (`toString`, `__proto__`) is not modelled; every name is treated as an own key.
- Registry.UniformLookup: the uniform cache is a plain object as well. A uniform named like an inherited property (`constructor`, `toString`) would find the inherited value without asking the driver; the model treats every name as an own key and queries.
- Uniforms.UploadArgs: a JavaScript value is `undefined`, a boolean, a number or an array of numbers; `null`, whose indexing also throws, is not represented. The `TypeError` of indexing `undefined` is modelled by `Uniforms.Throws` and the `thrown` result of `SetUniform`, not as an exception. Indexing a string and Float32 rounding of uploaded numbers are not modelled; numbers are reals.
- WebGLUtils.CreateContext: the context options passed to `getContext` are not modelled, and neither is the `webglVersion` property being written onto the context object; the answer records the kind and the version instead.
- WebGLUtils.ResolveTextureOptions: only absent options are modelled. An explicit `null` for a filter, wrap mode, format or size is passed through by the source, and the model does not represent it.
- WebGLUtils.CreateTexture: an `image` or `data` option that is present but falsy (other than `null`) is not modelled.
- The quad's coordinates are stored as reals. Their Float32 encoding in the buffer is not modelled.
- The render loop, the viewport, clearing and drawing live in `main.js`, which is not part of this model.
- A shader that compiled in `ShaderManager.createProgram` stays allocated when the other stage fails or linking fails. The model reproduces this (`Manager.CreateProgramObjectsKeeps` states it) and does not treat it as a defect.
