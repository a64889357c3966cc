/** Shader modules and programs: the resource path a shader is loaded
    from, the check that SPIR-V is a whole number of 32-bit words, the
    attribute-name table kept for vertex shaders, and the lookup
    `get_vertex_attr` does in it.  The reflection library and the
    resource loader are foreign; they enter as function parameters. */
module Shaders {
  import opened Common
  import opened Errors

  datatype ShaderKind = VertexKind | FragmentKind | ComputeKind

  // ---------------------------------------------------------------------
  // Resource paths
  // ---------------------------------------------------------------------

  const SHADER_DIR: string := "shaders/spirv/"

  function Suffix(kind: ShaderKind): char {
    match kind
    case VertexKind => 'v'
    case FragmentKind => 'f'
    case ComputeKind => 'c'
  }

  function KindOfSuffix(c: char): Option<ShaderKind> {
    if c == 'v' then Some(VertexKind)
    else if c == 'f' then Some(FragmentKind)
    else if c == 'c' then Some(ComputeKind)
    else None
  }

  /** `shaders/spirv/{name}.{v|f|c}s.spv`. */
  function ShaderPath(name: string, kind: ShaderKind): string {
    SHADER_DIR + name + "." + [Suffix(kind)] + "s.spv"
  }

  /** Splits a path of that shape back into its name and kind. */
  function ParseShaderPath(p: string): Option<(string, ShaderKind)> {
    var n := |SHADER_DIR|;
    if |p| >= n + 7 && p[..n] == SHADER_DIR && p[|p| - 7] == '.' && p[|p| - 5..] == "s.spv"
       && KindOfSuffix(p[|p| - 6]).Some?
    then Some((p[n..|p| - 7], KindOfSuffix(p[|p| - 6]).value))
    else None
  }

  lemma ShaderPathRoundTrip(name: string, kind: ShaderKind)
    ensures ParseShaderPath(ShaderPath(name, kind)) == Some((name, kind))
  {
    var p := ShaderPath(name, kind);
    var n := |SHADER_DIR|;
    assert p[..n] == SHADER_DIR;
    assert p[n..|p| - 7] == name;
    assert p[|p| - 6] == Suffix(kind);
    assert p[|p| - 5..] == "s.spv";
  }

  /** Different shaders are loaded from different files. */
  lemma ShaderPathInjective(a: string, ka: ShaderKind, b: string, kb: ShaderKind)
    ensures ShaderPath(a, ka) == ShaderPath(b, kb) ==> a == b && ka == kb
  {
    ShaderPathRoundTrip(a, ka);
    ShaderPathRoundTrip(b, kb);
  }

  // ---------------------------------------------------------------------
  // SPIR-V words
  // ---------------------------------------------------------------------

  const SPIRV_WORD_LEN: nat := 4

  /** The number of 32-bit words in a SPIR-V binary of `len` bytes, or the
      "not a whole number of 32-bit words" assertion failure. */
  function WordCount(len: nat): (r: Result<nat>)
    ensures r.Ok? <==> len % SPIRV_WORD_LEN == 0
    ensures r.Ok? ==> r.value * SPIRV_WORD_LEN == len
    ensures r.Err? ==> r.fault == MalformedSpirv
  {
    if len % SPIRV_WORD_LEN == 0 then Ok(len / SPIRV_WORD_LEN) else Err(MalformedSpirv)
  }

  // ---------------------------------------------------------------------
  // Attribute tables
  // ---------------------------------------------------------------------

  /** An input variable as the reflection library reports it. */
  datatype InterfaceVariable = InterfaceVariable(name: string, location: U32)

  /** What the reflection library reports about a module. */
  datatype Reflection = Reflection(isVertexStage: bool, inputs: seq<InterfaceVariable>)

  /** The shaders' convention: vertex attributes are named "a" + name. */
  predicate Declares(v: InterfaceVariable, attribute: string) {
    v.name == ['a'] + attribute
  }

  /** `inputs[i]` is the last input declaring `attribute`. */
  predicate LastDeclaration(inputs: seq<InterfaceVariable>, attribute: string, i: int) {
    && 0 <= i < |inputs|
    && Declares(inputs[i], attribute)
    && forall j :: i < j < |inputs| ==> !Declares(inputs[j], attribute)
  }

  /** The `filter_map` and `collect` into a `HashMap`: inputs whose name
      starts with 'a' are inserted in order under their name without the
      'a'; a later insertion under the same key wins. */
  function AttributeTable(inputs: seq<InterfaceVariable>): map<string, U32> {
    if inputs == [] then map[]
    else
      var table := AttributeTable(inputs[..|inputs| - 1]);
      var v := inputs[|inputs| - 1];
      if |v.name| > 0 && v.name[0] == 'a' then table[v.name[1..] := v.location] else table
  }

  lemma DeclaresIff(v: InterfaceVariable, attribute: string)
    ensures Declares(v, attribute) <==> |v.name| > 0 && v.name[0] == 'a' && v.name[1..] == attribute
  {
    if |v.name| > 0 && v.name[0] == 'a' && v.name[1..] == attribute {
      assert v.name == ['a'] + v.name[1..];
    }
  }

  /** The table holds an attribute exactly when some input declares it,
      and then it holds the location of the last such input; builtins and
      every other input not named "a..." leave no entry. */
  lemma {:induction false} AttributeTableSpec(inputs: seq<InterfaceVariable>, attribute: string)
    ensures attribute in AttributeTable(inputs)
        <==> exists i :: 0 <= i < |inputs| && Declares(inputs[i], attribute)
    ensures attribute in AttributeTable(inputs) ==>
        exists i :: LastDeclaration(inputs, attribute, i) && AttributeTable(inputs)[attribute] == inputs[i].location
  {
    if inputs != [] {
      var init := inputs[..|inputs| - 1];
      var v := inputs[|inputs| - 1];
      AttributeTableSpec(init, attribute);
      DeclaresIff(v, attribute);
      assert forall i :: 0 <= i < |init| ==> init[i] == inputs[i];
      if Declares(v, attribute) {
        assert LastDeclaration(inputs, attribute, |inputs| - 1);
      } else if attribute in AttributeTable(init) {
        var i :| LastDeclaration(init, attribute, i) && AttributeTable(init)[attribute] == init[i].location;
        assert LastDeclaration(inputs, attribute, i);
      } else {
        assert forall i :: 0 <= i < |inputs| ==> !Declares(inputs[i], attribute);
      }
    }
  }

  // ---------------------------------------------------------------------
  // Shaders and programs
  // ---------------------------------------------------------------------

  /** A created `wgpu::ShaderModule`: an opaque id and its word count. */
  datatype ShaderModule = ShaderModule(id: nat, words: nat)

  /** `WebGpuShader`. */
  datatype Shader = Shader(
    name: Option<string>,
    attributes: Option<map<string, U32>>,
    kind: ShaderKind,
    shaderModule: ShaderModule)

  /** `create_shader_from_source`.  `reflect` stands for the reflection
      library, `moduleId` for the module wgpu creates, and `debug` for
      `cfg!(debug_assertions)`. */
  function CreateShaderFromSource(
    name: string, source: seq<bv8>, kind: ShaderKind,
    reflect: seq<bv8> -> Option<Reflection>, moduleId: nat, debug: bool): (r: Result<Shader>)
    ensures r.Ok? <==> reflect(source).Some? && |source| % SPIRV_WORD_LEN == 0
    ensures reflect(source).None? ==> r == Err(ReflectionFailed)
    ensures reflect(source).Some? && |source| % SPIRV_WORD_LEN != 0 ==> r == Err(MalformedSpirv)
    ensures r.Ok? ==>
      && r.value.shaderModule == ShaderModule(moduleId, |source| / SPIRV_WORD_LEN)
      && r.value.kind == kind
      && r.value.name == (if debug then Some(name) else None)
      && (r.value.attributes.Some? <==> reflect(source).value.isVertexStage)
      && (r.value.attributes.Some? ==> r.value.attributes.value == AttributeTable(reflect(source).value.inputs))
  {
    match reflect(source)
    case None => Err(ReflectionFailed)
    case Some(reflection) =>
      var attributes := if reflection.isVertexStage then Some(AttributeTable(reflection.inputs)) else None;
      match WordCount(|source|)
      case Err(fault) => Err(fault)
      case Ok(words) =>
        Ok(Shader(if debug then Some(name) else None, attributes, kind, ShaderModule(moduleId, words)))
  }

  /** `create_shader`: loads the binary from its resource path, failing
      when the loader cannot read it. */
  function CreateShader(
    resources: string -> Option<seq<bv8>>, name: string, kind: ShaderKind,
    reflect: seq<bv8> -> Option<Reflection>, moduleId: nat, debug: bool): (r: Result<Shader>)
    ensures resources(ShaderPath(name, kind)).None? ==> r == Err(ResourceMissing(ShaderPath(name, kind)))
    ensures resources(ShaderPath(name, kind)).Some? ==>
      r == CreateShaderFromSource(name, resources(ShaderPath(name, kind)).value, kind, reflect, moduleId, debug)
  {
    var path := ShaderPath(name, kind);
    match resources(path)
    case None => Err(ResourceMissing(path))
    case Some(source) => CreateShaderFromSource(name, source, kind, reflect, moduleId, debug)
  }

  /** `WebGpuProgram`. */
  datatype Program = Program(name: Option<string>, vertexShader: Shader, fragmentShader: Shader)

  datatype ProgramKind = Raster(vertex: Shader, fragment: Shader) | ComputeProgram(shader: Shader)

  /** `create_program_from_shaders`: raster programs pair their shaders;
      compute programs are not implemented. */
  function CreateProgramFromShaders(name: string, shaders: ProgramKind, debug: bool): (r: Result<Program>)
    ensures r.Ok? <==> shaders.Raster?
    ensures shaders.ComputeProgram? ==> r == Err(Unimplemented)
    ensures r.Ok? ==> r.value.vertexShader == shaders.vertex && r.value.fragmentShader == shaders.fragment
    ensures r.Ok? ==> r.value.name == (if debug then Some(name) else None)
  {
    match shaders
    case Raster(vertex, fragment) => Ok(Program(if debug then Some(name) else None, vertex, fragment))
    case ComputeProgram(_) => Err(Unimplemented)
  }

  /** `WebGpuVertexAttr`. */
  datatype VertexAttr = VertexAttr(name: string, bindLocation: U32)

  /** `get_vertex_attr`: looks `name` up in the vertex shader's attribute
      table; a vertex shader without a table is a panic. */
  function GetVertexAttr(program: Program, name: string): (r: Result<Option<VertexAttr>>)
    ensures r.Ok? <==> program.vertexShader.attributes.Some?
    ensures r.Ok? ==> (r.value.Some? <==> name in program.vertexShader.attributes.value)
    ensures r.Ok? && r.value.Some? ==>
      r.value.value == VertexAttr(name, program.vertexShader.attributes.value[name])
  {
    match program.vertexShader.attributes
    case None => Err(NoAttributeTable)
    case Some(table) => Ok(if name in table then Some(VertexAttr(name, table[name])) else None)
  }

  /** End to end: for a program whose vertex shader was created from a
      vertex-stage module, `get_vertex_attr` finds a name exactly when some
      input is called "a" + name, at the location of the last such input. */
  lemma VertexAttrOfCreatedShader(
    program: Program, shaderName: string, source: seq<bv8>, kind: ShaderKind,
    reflect: seq<bv8> -> Option<Reflection>, moduleId: nat, debug: bool, name: string)
    requires CreateShaderFromSource(shaderName, source, kind, reflect, moduleId, debug) == Ok(program.vertexShader)
    requires reflect(source).value.isVertexStage
    ensures var inputs := reflect(source).value.inputs;
      && GetVertexAttr(program, name).Ok?
      && (GetVertexAttr(program, name).value.Some? <==> exists i :: 0 <= i < |inputs| && Declares(inputs[i], name))
      && (GetVertexAttr(program, name).value.Some? ==>
            exists i :: LastDeclaration(inputs, name, i)
                     && GetVertexAttr(program, name).value.value == VertexAttr(name, inputs[i].location))
  {
    AttributeTableSpec(reflect(source).value.inputs, name);
  }
}
