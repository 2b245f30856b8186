/**
 * Helpers around a WebGL context: context acquisition with fallback, shader
 * compilation and program linking with clean-up on failure, canvas resizing,
 * buffer and texture creation, and the static full-screen quad.
 */
module WebGLUtils {
  import opened Gl

  /** The calls `createShader` issues up to and including the compile-status query. */
  function CompileCalls(shader: Handle, stage: Stage, source: string): seq<Event> {
    [ShaderCreated(stage, shader), SourceSet(shader, source), ShaderCompiled(shader), CompileStatusQueried(shader)]
  }

  /** The calls after a failed compile: the info log is read for the error message, then the shader is deleted. */
  function CompileFailureCalls(shader: Handle): seq<Event> {
    [ShaderInfoLogRead(shader), ShaderDeleted(shader)]
  }

  /**
   * The first four calls of `createShader`: a fresh shader object of `stage`
   * holding `source`, compiled, and its compile status as the oracle decides.
   */
  method Compile(gl: Context, source: string, stage: Stage) returns (shader: Handle, compiled: bool)
    requires gl.Valid()
    modifies gl
    ensures gl.Valid() && shader == old(gl.nextHandle) && gl.nextHandle == shader + 1
    ensures compiled == gl.compiles(stage, source)
    ensures gl.objects == old(gl.objects)[shader := Shader(stage, source, compiled)]
    ensures gl.trace == old(gl.trace) + CompileCalls(shader, stage, source)
  {
    shader := gl.CreateShader(stage);
    gl.ShaderSource(shader, source);
    gl.CompileShader(shader);
    compiled := gl.GetCompileStatus(shader);
  }

  /**
   * Creates a shader object of `stage`, compiles `source` into it and answers
   * the shader, or `None` after deleting the object when compilation fails.
   */
  method CreateShader(gl: Context, source: string, stage: Stage) returns (shader: Option<Handle>)
    requires gl.Valid()
    modifies gl
    ensures gl.Valid() && gl.nextHandle == old(gl.nextHandle) + 1
    ensures shader.Some? <==> gl.compiles(stage, source)
    ensures shader.Some? ==> shader.value == old(gl.nextHandle)
    ensures gl.objects == if shader.Some? then old(gl.objects)[old(gl.nextHandle) := Shader(stage, source, true)]
                          else old(gl.objects)
    ensures gl.trace == old(gl.trace) + CompileCalls(old(gl.nextHandle), stage, source)
                        + (if shader.Some? then [] else CompileFailureCalls(old(gl.nextHandle)))
  {
    var h, compiled := Compile(gl, source, stage);
    if !compiled {
      gl.GetShaderInfoLog(h);
      gl.DeleteShader(h);
      assert gl.objects == old(gl.objects);
      return None;
    }
    return Some(h);
  }

  /**
   * Linking a program from shaders `a` and `b` succeeds exactly when one is a
   * compiled vertex shader, the other a compiled fragment shader, and the
   * driver links their sources.
   */
  predicate LinkSucceeds(gl: Context, objects: map<Handle, GlObject>, a: Handle, b: Handle) {
    || (CompiledShader(objects, a, VertexShader) && CompiledShader(objects, b, FragmentShader) &&
        gl.links(objects[a].source, objects[b].source))
    || (CompiledShader(objects, a, FragmentShader) && CompiledShader(objects, b, VertexShader) &&
        gl.links(objects[b].source, objects[a].source))
  }

  /** The calls `createProgram` issues up to and including the link-status query. */
  function LinkCalls(program: Handle, vertexShader: Handle, fragmentShader: Handle): seq<Event> {
    [ProgramCreated(program), ShaderAttached(program, vertexShader), ShaderAttached(program, fragmentShader),
     ProgramLinked(program), LinkStatusQueried(program)]
  }

  /** The calls after a failed link: the info log is read for the error message, then the program is deleted. */
  function LinkFailureCalls(program: Handle): seq<Event> {
    [ProgramInfoLogRead(program), ProgramDeleted(program)]
  }

  /** A fresh program object after `attachShader` of `h`, where `h` names a shader of `objects`. */
  function AttachedTo(q: GlObject, objects: map<Handle, GlObject>, h: Handle): (r: GlObject)
    requires q.Program?
    ensures r.Program?
  {
    if h in objects && objects[h].Shader? then Attached(q, h, objects[h].stage) else q
  }

  /** The program object `createProgram` has built just before it links. */
  function Assembled(objects: map<Handle, GlObject>, vertexShader: Handle, fragmentShader: Handle): (q: GlObject)
    ensures q.Program? && !q.linked
  {
    AttachedTo(AttachedTo(Program(None, None, false), objects, vertexShader), objects, fragmentShader)
  }

  /**
   * Linking the assembled program succeeds exactly when one of the two
   * handles is a compiled vertex shader, the other a compiled fragment
   * shader, and the pair links.
   */
  lemma AssembledLinks(gl: Context, objects: map<Handle, GlObject>, p: Handle, a: Handle, b: Handle)
    requires p !in objects
    ensures var q := Assembled(objects, a, b);
            var after := objects[p := q];
            (&& q.vertex.Some? && q.fragment.Some?
             && CompiledShader(after, q.vertex.value, VertexShader)
             && CompiledShader(after, q.fragment.value, FragmentShader)
             && gl.links(after[q.vertex.value].source, after[q.fragment.value].source))
            <==> LinkSucceeds(gl, objects, a, b)
  {
  }

  /** The first half of `createProgram`: a fresh program with both shaders attached. */
  method Assemble(gl: Context, vertexShader: Handle, fragmentShader: Handle) returns (p: Handle)
    requires gl.Valid()
    modifies gl
    ensures gl.Valid() && p == old(gl.nextHandle) && gl.nextHandle == p + 1
    ensures gl.objects == old(gl.objects)[p := Assembled(old(gl.objects), vertexShader, fragmentShader)]
    ensures gl.trace == old(gl.trace) + [ProgramCreated(p), ShaderAttached(p, vertexShader), ShaderAttached(p, fragmentShader)]
  {
    p := gl.CreateProgram();
    gl.AttachShader(p, vertexShader);
    gl.AttachShader(p, fragmentShader);
  }

  /**
   * Creates a program, attaches both shaders, links it and answers the
   * program, or `None` after deleting the program when linking fails.
   */
  method CreateProgram(gl: Context, vertexShader: Handle, fragmentShader: Handle) returns (program: Option<Handle>)
    requires gl.Valid()
    modifies gl
    ensures gl.Valid() && gl.nextHandle == old(gl.nextHandle) + 1
    ensures program.Some? <==> LinkSucceeds(gl, old(gl.objects), vertexShader, fragmentShader)
    ensures program.Some? ==> program.value == old(gl.nextHandle) && gl.LinkStatus(program.value)
    ensures program.Some? ==>
              var q := Assembled(old(gl.objects), vertexShader, fragmentShader);
              gl.objects == old(gl.objects)[program.value := Program(q.vertex, q.fragment, true)]
    ensures program.None? ==> gl.objects == old(gl.objects)
    ensures gl.trace == old(gl.trace) + LinkCalls(old(gl.nextHandle), vertexShader, fragmentShader)
                        + (if program.Some? then [] else LinkFailureCalls(old(gl.nextHandle)))
  {
    AssembledLinks(gl, gl.objects, gl.nextHandle, vertexShader, fragmentShader);
    var p := Assemble(gl, vertexShader, fragmentShader);
    gl.LinkProgram(p);
    var linked := gl.GetLinkStatus(p);
    if !linked {
      gl.GetProgramInfoLog(p);
      gl.DeleteProgram(p);
      assert gl.objects == old(gl.objects);
      return None;
    }
    return Some(p);
  }

  /** The context identifiers `createContext` asks the canvas for. */
  datatype ContextKind = WebGL2 | WebGL | ExperimentalWebGL

  /** What `canvas.getContext(kind, options)` does: hands out a context, answers null, or throws. */
  datatype Probe = Granted | Refused | Throws

  /** The context obtained, tagged with the `webglVersion` the helper records on it. */
  datatype ContextInfo = ContextInfo(kind: ContextKind, webglVersion: nat)

  /**
   * Asks for a WebGL 2 context first, then for `webgl`, then for
   * `experimental-webgl`; a throwing probe ends the search with `None`
   * (the exception is caught).
   */
  function CreateContext(getContext: ContextKind -> Probe): (gl: Option<ContextInfo>)
    ensures gl == Some(ContextInfo(WebGL2, 2)) <==> getContext(WebGL2) == Granted
    ensures gl == Some(ContextInfo(WebGL, 1)) <==>
              getContext(WebGL2) == Refused && getContext(WebGL) == Granted
    ensures gl == Some(ContextInfo(ExperimentalWebGL, 1)) <==>
              getContext(WebGL2) == Refused && getContext(WebGL) == Refused && getContext(ExperimentalWebGL) == Granted
    ensures gl.Some? ==> gl.value in {ContextInfo(WebGL2, 2), ContextInfo(WebGL, 1), ContextInfo(ExperimentalWebGL, 1)}
  {
    match getContext(WebGL2)
    case Granted => Some(ContextInfo(WebGL2, 2))
    case Throws => None
    case Refused =>
      match getContext(WebGL)
      case Granted => Some(ContextInfo(WebGL, 1))
      case Throws => None
      case Refused =>
        match getContext(ExperimentalWebGL)
        case Granted => Some(ContextInfo(ExperimentalWebGL, 1))
        case _ => None
  }

  /** The size fields of a canvas element that `resizeCanvasToDisplaySize` reads and writes. */
  class Canvas {
    /** Size of the drawing buffer, in pixels. */
    var width: nat
    var height: nat
    /** Size the canvas is laid out at, in CSS pixels. */
    var clientWidth: nat
    var clientHeight: nat

    constructor (width: nat, height: nat, clientWidth: nat, clientHeight: nat)
      ensures this.width == width && this.height == height
      ensures this.clientWidth == clientWidth && this.clientHeight == clientHeight
    {
      this.width := width;
      this.height := height;
      this.clientWidth := clientWidth;
      this.clientHeight := clientHeight;
    }
  }

  /**
   * Makes the drawing buffer the size of the layout box; writes only on a
   * mismatch and says whether it wrote.
   */
  method ResizeCanvasToDisplaySize(canvas: Canvas) returns (resized: bool)
    modifies canvas`width, canvas`height
    ensures resized <==> old(canvas.width) != canvas.clientWidth || old(canvas.height) != canvas.clientHeight
    ensures canvas.width == canvas.clientWidth && canvas.height == canvas.clientHeight
    ensures !resized ==> unchanged(canvas)
  {
    var displayWidth := canvas.clientWidth;
    var displayHeight := canvas.clientHeight;
    resized := canvas.width != displayWidth || canvas.height != displayHeight;
    if resized {
      canvas.width := displayWidth;
      canvas.height := displayHeight;
    }
  }

  /** The calls `createBuffer` issues. */
  function BufferCalls(buffer: Handle, target: GLenum, data: seq<real>, usage: GLenum): seq<Event> {
    [BufferCreated(buffer), BufferBound(target, buffer), BufferDataLoaded(target, data, usage)]
  }

  /** Creates a buffer, binds it to `target` and loads `data` into it. */
  method CreateBuffer(gl: Context, target: GLenum, data: seq<real>, usage: GLenum) returns (buffer: Handle)
    requires gl.Valid()
    modifies gl
    ensures gl.Valid()
    ensures buffer == old(gl.nextHandle) && gl.nextHandle == buffer + 1 && buffer !in old(gl.objects)
    ensures gl.objects == old(gl.objects)[buffer := Buffer]
    ensures gl.trace == old(gl.trace) + BufferCalls(buffer, target, data, usage)
  {
    buffer := gl.CreateBuffer();
    gl.BindBuffer(target, buffer);
    gl.BufferData(target, data, usage);
  }

  /** How one vertex attribute is laid out in its buffer (the arguments of `vertexAttribPointer`). */
  datatype AttributeLayout = AttributeLayout(buffer: Handle, size: nat, componentType: GLenum, normalized: bool,
                                             stride: nat, offset: nat)

  /** The full-screen quad: two buffers and how to draw them. */
  datatype Quad = Quad(position: AttributeLayout, texCoord: AttributeLayout, vertexCount: nat, drawMode: GLenum)

  /** Clip-space corners of the quad, two coordinates per vertex, in triangle-strip order. */
  const QuadPositions: seq<real> := [-1.0, -1.0, 1.0, -1.0, -1.0, 1.0, 1.0, 1.0]
  /** Texture coordinates of the same four vertices. */
  const QuadTexCoords: seq<real> := [0.0, 0.0, 1.0, 0.0, 0.0, 1.0, 1.0, 1.0]

  /**
   * The quad's geometry: four vertices, each a distinct corner of [-1,1]²,
   * and each texture coordinate is (position + 1) / 2.
   */
  lemma QuadGeometry()
    ensures |QuadPositions| == 2 * 4 && |QuadTexCoords| == |QuadPositions|
    ensures forall i :: 0 <= i < |QuadPositions| ==> QuadPositions[i] == -1.0 || QuadPositions[i] == 1.0
    ensures forall j, k :: 0 <= j < k < 4 ==>
              (QuadPositions[2 * j], QuadPositions[2 * j + 1]) != (QuadPositions[2 * k], QuadPositions[2 * k + 1])
    ensures forall i :: 0 <= i < |QuadTexCoords| ==> QuadTexCoords[i] == (QuadPositions[i] + 1.0) / 2.0
  {
  }

  /** Builds the two static buffers of the full-screen quad and describes their layout. */
  method CreateFullScreenQuad(gl: Context) returns (quad: Quad)
    requires gl.Valid()
    modifies gl
    ensures gl.Valid()
    ensures quad.vertexCount == 4 && quad.drawMode == TRIANGLE_STRIP
    ensures quad.position == AttributeLayout(old(gl.nextHandle), 2, FLOAT, false, 0, 0)
    ensures quad.texCoord == AttributeLayout(old(gl.nextHandle) + 1, 2, FLOAT, false, 0, 0)
    ensures |QuadPositions| == quad.position.size * quad.vertexCount
    ensures |QuadTexCoords| == quad.texCoord.size * quad.vertexCount
    ensures gl.objects == old(gl.objects)[quad.position.buffer := Buffer][quad.texCoord.buffer := Buffer]
    ensures gl.trace == old(gl.trace) + BufferCalls(quad.position.buffer, ARRAY_BUFFER, QuadPositions, STATIC_DRAW)
                        + BufferCalls(quad.texCoord.buffer, ARRAY_BUFFER, QuadTexCoords, STATIC_DRAW)
  {
    var positionBuffer := CreateBuffer(gl, ARRAY_BUFFER, QuadPositions, STATIC_DRAW);
    var texCoordBuffer := CreateBuffer(gl, ARRAY_BUFFER, QuadTexCoords, STATIC_DRAW);
    quad := Quad(AttributeLayout(positionBuffer, 2, FLOAT, false, 0, 0),
                 AttributeLayout(texCoordBuffer, 2, FLOAT, false, 0, 0),
                 4, TRIANGLE_STRIP);
  }

  /**
   * The options object of `createTexture`; `None` is an absent (undefined)
   * property, and for `image` and `data` also an explicit `null`.
   */
  datatype TextureOptions = TextureOptions(
    minFilter: Option<GLenum>, magFilter: Option<GLenum>, wrapS: Option<GLenum>, wrapT: Option<GLenum>,
    format: Option<GLenum>, internalFormat: Option<GLenum>, pixelType: Option<GLenum>,
    image: Option<ImageRef>, width: Option<int>, height: Option<int>, data: Option<seq<int>>)

  /** The options once every absent property has taken its default. */
  datatype TextureParams = TextureParams(
    minFilter: GLenum, magFilter: GLenum, wrapS: GLenum, wrapT: GLenum,
    format: GLenum, internalFormat: GLenum, pixelType: GLenum,
    image: Option<ImageRef>, width: int, height: int, data: Option<seq<int>>)

  /**
   * The destructuring defaults of `createTexture`: linear filtering, clamped
   * wrapping, RGBA bytes, a 1×1 size, and an internal format that follows the
   * format when absent.
   */
  function ResolveTextureOptions(o: TextureOptions): (p: TextureParams)
    ensures p.minFilter == o.minFilter.GetOr(LINEAR) && p.magFilter == o.magFilter.GetOr(LINEAR)
    ensures p.wrapS == o.wrapS.GetOr(CLAMP_TO_EDGE) && p.wrapT == o.wrapT.GetOr(CLAMP_TO_EDGE)
    ensures p.format == o.format.GetOr(RGBA) && p.pixelType == o.pixelType.GetOr(UNSIGNED_BYTE)
    ensures o.internalFormat.None? ==> p.internalFormat == p.format
    ensures o.internalFormat.Some? ==> p.internalFormat == o.internalFormat.value
    ensures p.width == o.width.GetOr(1) && p.height == o.height.GetOr(1)
    ensures p.image == o.image && p.data == o.data
  {
    var format := o.format.GetOr(RGBA);
    TextureParams(o.minFilter.GetOr(LINEAR), o.magFilter.GetOr(LINEAR),
                  o.wrapS.GetOr(CLAMP_TO_EDGE), o.wrapT.GetOr(CLAMP_TO_EDGE),
                  format, o.internalFormat.GetOr(format), o.pixelType.GetOr(UNSIGNED_BYTE),
                  o.image, o.width.GetOr(1), o.height.GetOr(1), o.data)
  }

  /** The four minification filters that sample mipmap levels. */
  predicate IsMipmapFilter(f: GLenum) {
    f == LINEAR_MIPMAP_LINEAR || f == LINEAR_MIPMAP_NEAREST || f == NEAREST_MIPMAP_LINEAR || f == NEAREST_MIPMAP_NEAREST
  }

  /**
   * The upload calls of `createTexture`: exactly one `texImage2D`, from the
   * image if there is one, else from the pixel data if there is some, else
   * of an empty texture; then mipmaps, only on the image path and only for a
   * mipmap minification filter.
   */
  function TextureUploadCalls(p: TextureParams): (calls: seq<Event>)
    ensures 1 <= |calls| <= 2
    ensures calls[0].TexImageFromImage? <==> p.image.Some?
    ensures calls[0].TexImageFromImage? ==> calls[0].image == p.image.value
    ensures calls[0].TexImageFromPixels? <==> p.image.None?
    ensures calls[0].TexImageFromPixels? ==> calls[0].pixels == p.data &&
                                             calls[0].width == p.width && calls[0].height == p.height
    ensures calls[0].target == TEXTURE_2D && calls[0].level == 0 && calls[0].internalFormat == p.internalFormat
    ensures calls[0].format == p.format && calls[0].pixelType == p.pixelType
    ensures calls[0].TexImageFromPixels? ==> calls[0].border == 0
    ensures |calls| == 2 <==> p.image.Some? && IsMipmapFilter(p.minFilter)
    ensures |calls| == 2 ==> calls[1] == MipmapGenerated(TEXTURE_2D)
  {
    if p.image.Some? then
      [TexImageFromImage(TEXTURE_2D, 0, p.internalFormat, p.format, p.pixelType, p.image.value)] +
      (if IsMipmapFilter(p.minFilter) then [MipmapGenerated(TEXTURE_2D)] else [])
    else if p.data.Some? then
      [TexImageFromPixels(TEXTURE_2D, 0, p.internalFormat, p.width, p.height, 0, p.format, p.pixelType, p.data)]
    else
      [TexImageFromPixels(TEXTURE_2D, 0, p.internalFormat, p.width, p.height, 0, p.format, p.pixelType, None)]
  }

  /** The parameter calls of `createTexture`, in the order it makes them. */
  function TextureParameterCalls(p: TextureParams): seq<Event> {
    [TexParameterSet(TEXTURE_2D, TEXTURE_MIN_FILTER, p.minFilter),
     TexParameterSet(TEXTURE_2D, TEXTURE_MAG_FILTER, p.magFilter),
     TexParameterSet(TEXTURE_2D, TEXTURE_WRAP_S, p.wrapS),
     TexParameterSet(TEXTURE_2D, TEXTURE_WRAP_T, p.wrapT)]
  }

  /** Creates and binds a texture, sets its four parameters and uploads its contents. */
  method CreateTexture(gl: Context, options: TextureOptions) returns (texture: Handle)
    requires gl.Valid()
    modifies gl
    ensures gl.Valid()
    ensures texture == old(gl.nextHandle) && gl.objects == old(gl.objects)[texture := Texture]
    ensures var p := ResolveTextureOptions(options);
            gl.trace == old(gl.trace) + [TextureCreated(texture), TextureBound(TEXTURE_2D, texture)]
                        + TextureParameterCalls(p) + TextureUploadCalls(p)
  {
    var p := ResolveTextureOptions(options);
    texture := gl.CreateTexture();
    gl.BindTexture(TEXTURE_2D, texture);
    SetTextureParameters(gl, p);
    UploadTexture(gl, p);
  }

  /** The four `texParameteri` calls of `createTexture` on the bound texture. */
  method SetTextureParameters(gl: Context, p: TextureParams)
    modifies gl`trace
    ensures gl.trace == old(gl.trace) + TextureParameterCalls(p)
  {
    gl.TexParameteri(TEXTURE_2D, TEXTURE_MIN_FILTER, p.minFilter);
    gl.TexParameteri(TEXTURE_2D, TEXTURE_MAG_FILTER, p.magFilter);
    gl.TexParameteri(TEXTURE_2D, TEXTURE_WRAP_S, p.wrapS);
    gl.TexParameteri(TEXTURE_2D, TEXTURE_WRAP_T, p.wrapT);
  }

  /** The upload branch of `createTexture`: image, pixel data or an empty texture, and mipmaps on the image path. */
  method UploadTexture(gl: Context, p: TextureParams)
    modifies gl`trace
    ensures gl.trace == old(gl.trace) + TextureUploadCalls(p)
  {
    if p.image.Some? {
      gl.TexImage2DFromImage(TEXTURE_2D, 0, p.internalFormat, p.format, p.pixelType, p.image.value);
      if IsMipmapFilter(p.minFilter) {
        gl.GenerateMipmap(TEXTURE_2D);
      }
    } else if p.data.Some? {
      gl.TexImage2D(TEXTURE_2D, 0, p.internalFormat, p.width, p.height, 0, p.format, p.pixelType, p.data);
    } else {
      gl.TexImage2D(TEXTURE_2D, 0, p.internalFormat, p.width, p.height, 0, p.format, p.pixelType, None);
    }
  }

  /** Answers the driver's attribute location unchanged (-1 included). */
  method GetAttribLocation(gl: Context, program: Handle, name: string) returns (location: AttribIndex)
    modifies gl`trace
    ensures location == gl.attribLocation(program, name)
    ensures gl.trace == old(gl.trace) + [AttribLocationQueried(program, name)]
  {
    location := gl.GetAttribLocation(program, name);
  }

  /** Answers the driver's uniform location unchanged (`None`, standing for null, included). */
  method GetUniformLocation(gl: Context, program: Handle, name: string) returns (location: Option<Location>)
    modifies gl`trace
    ensures location == gl.uniformLocation(program, name)
    ensures gl.trace == old(gl.trace) + [UniformLocationQueried(program, name)]
  {
    location := gl.GetUniformLocation(program, name);
  }
}
