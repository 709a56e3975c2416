/**
 * Helpers around GPU buffers and shader modules: flattening a record of
 * uniform values into one float array, sizing and filling a buffer from a
 * typed array, and deciding whether a shader compiled.
 *
 * The GPU device is not modelled: a buffer is described by its byte size and
 * the floats written into its mapped range, and the compiler's messages are
 * an input.
 */
module GpuUtils {
  import opened Common

  /** One value of a uniform record: a number, or a `Float32Array`. */
  datatype UniformValue = Scalar(x: real) | Floats(xs: seq<real>)

  /** The floats a value contributes. */
  function Elements(v: UniformValue): seq<real> {
    match v
    case Scalar(x) => [x]
    case Floats(xs) => xs
  }

  /** `val instanceof Float32Array ? val.length : 1`. */
  function Width(v: UniformValue): (n: nat)
    ensures n == |Elements(v)|
  {
    match v
    case Scalar(_) => 1
    case Floats(xs) => |xs|
  }

  /** The `reduce` that sizes the uniform array, folding from the left. */
  function UniformLength(values: seq<UniformValue>): nat {
    if |values| == 0 then 0
    else UniformLength(values[..|values| - 1]) + Width(values[|values| - 1])
  }

  /** The uniform array as it should come out: the values' floats, in order, back to back. */
  function Flatten(values: seq<UniformValue>): seq<real> {
    if |values| == 0 then []
    else Flatten(values[..|values| - 1]) + Elements(values[|values| - 1])
  }

  /** Where entry `k` starts: the total width of the entries before it. */
  function Offset(values: seq<UniformValue>, k: nat): nat
    requires k <= |values|
  {
    UniformLength(values[..k])
  }

  /** The computed length is the length of the concatenation, so every slot is written once. */
  lemma {:induction false} FlattenLength(values: seq<UniformValue>)
    ensures |Flatten(values)| == UniformLength(values)
  {
    if |values| > 0 {
      FlattenLength(values[..|values| - 1]);
    }
  }

  /** The flattening of a prefix is a prefix of the flattening. */
  lemma {:induction false} FlattenPrefix(values: seq<UniformValue>, k: nat)
    requires k <= |values|
    ensures Flatten(values[..k]) <= Flatten(values)
  {
    if k < |values| {
      var init := values[..|values| - 1];
      assert values[..k] == init[..k];
      FlattenPrefix(init, k);
      assert Flatten(values) == Flatten(init) + Elements(values[|values| - 1]);
    } else {
      assert values[..k] == values;
    }
  }

  /** Entry `k`'s floats sit at `Offset(values, k)` onwards, in their own order. */
  lemma FlattenAt(values: seq<UniformValue>, k: nat, j: nat)
    requires k < |values| && j < Width(values[k])
    ensures Offset(values, k) + j < |Flatten(values)|
    ensures Flatten(values)[Offset(values, k) + j] == Elements(values[k])[j]
  {
    var pre := values[..k + 1];
    assert pre[..k] == values[..k];
    FlattenLength(values[..k]);
    FlattenPrefix(values, k + 1);
    assert Flatten(pre) == Flatten(values[..k]) + Elements(values[k]);
  }

  /** `TypedArray.prototype.set(xs, offset)`: copies `xs` into `a` from `offset` on. */
  method SetAt(a: array<real>, xs: seq<real>, offset: nat)
    requires offset + |xs| <= a.Length
    modifies a
    ensures a[..] == old(a[..offset]) + xs + old(a[offset + |xs|..])
  {
    var j := 0;
    while j < |xs|
      invariant 0 <= j <= |xs|
      invariant a[..] == old(a[..offset]) + xs[..j] + old(a[offset + j..])
    {
      a[offset + j] := xs[j];
      j := j + 1;
    }
  }

  /**
   * `createUniformBuffer`'s packing: sizes a float array with the `reduce`,
   * then writes each value at a running `offset`, in record order.
   */
  method PackUniforms(values: seq<UniformValue>) returns (uniformArray: array<real>)
    ensures uniformArray.Length == UniformLength(values)
    ensures uniformArray[..] == Flatten(values)
  {
    FlattenLength(values);
    uniformArray := new real[UniformLength(values)];
    var offset := 0;
    var i := 0;
    while i < |values|
      invariant 0 <= i <= |values|
      invariant offset == UniformLength(values[..i])
      invariant offset <= uniformArray.Length
      invariant uniformArray[..offset] == Flatten(values[..i])
    {
      ghost var done := values[..i + 1];
      assert done[..i] == values[..i];
      assert Flatten(done) == Flatten(values[..i]) + Elements(values[i]);
      assert UniformLength(done) == offset + Width(values[i]);
      FlattenLength(done);
      FlattenPrefix(values, i + 1);
      match values[i] {
        case Scalar(x) =>
          uniformArray[offset] := x;
          offset := offset + 1;
        case Floats(xs) =>
          SetAt(uniformArray, xs, offset);
          offset := offset + |xs|;
      }
      assert uniformArray[..offset] == Flatten(done);
      i := i + 1;
    }
    assert values[..i] == values;
  }

  /** The two typed arrays `createBuffer` accepts. */
  datatype TypedArray = Float32(xs: seq<real>) | Uint32(ns: seq<nat>) {
    predicate Valid() {
      Uint32? ==> forall i :: 0 <= i < |ns| ==> ns[i] < 0x1_0000_0000
    }
    function Length(): nat {
      if Float32? then |xs| else |ns|
    }
    /** Both element types are four bytes wide. */
    function ByteLength(): nat {
      4 * Length()
    }
    /** Element `i` as a number. */
    function At(i: nat): real
      requires i < Length()
    {
      if Float32? then xs[i] else ns[i] as real
    }
  }

  /** A buffer created mapped: its byte size and the floats of its mapped range. */
  datatype MappedBuffer = MappedBuffer(size: nat, floats: seq<real>)

  /**
   * `createBuffer`: a buffer of `data.byteLength` bytes whose mapped range,
   * viewed as 32-bit floats, receives the data element by element (a
   * `Uint32Array` is converted by value, not reinterpreted).
   */
  function CreateBuffer(data: TypedArray): (b: MappedBuffer)
    requires data.Valid()
    ensures b.size == data.ByteLength()
    ensures 4 * |b.floats| == b.size
    ensures forall i :: 0 <= i < |b.floats| ==> b.floats[i] == data.At(i)
  {
    MappedBuffer(data.ByteLength(), seq(data.Length(), i requires 0 <= i < data.Length() => data.At(i)))
  }

  /** `createUniformBuffer`: pack the record, then create the buffer from the packed floats. */
  function CreateUniformBuffer(values: seq<UniformValue>): (b: MappedBuffer)
    ensures b.size == 4 * UniformLength(values)
    ensures b.floats == Flatten(values)
  {
    FlattenLength(values);
    var b := CreateBuffer(Float32(Flatten(values)));
    assert b.floats == Flatten(values);
    b
  }

  /** The uniform buffer holds four bytes per scalar and per array element, laid out by `Offset`. */
  lemma UniformBufferLayout(values: seq<UniformValue>, k: nat, j: nat)
    requires k < |values| && j < Width(values[k])
    ensures CreateUniformBuffer(values).size == 4 * UniformLength(values)
    ensures Offset(values, k) + j < |CreateUniformBuffer(values).floats|
    ensures CreateUniformBuffer(values).floats[Offset(values, k) + j] == Elements(values[k])[j]
  {
    FlattenLength(values);
    FlattenAt(values, k, j);
  }

  /** An empty record packs into a zero-length array and a zero-byte buffer. */
  lemma EmptyRecord()
    ensures UniformLength([]) == 0 && Flatten([]) == []
    ensures CreateUniformBuffer([]).size == 0
  {
  }

  datatype MessageType = Error | Warning | Info

  datatype CompilationMessage = CompilationMessage(kind: MessageType, message: string)

  datatype ShaderStage = Vertex | Fragment | Compute {
    function Name(): string {
      match this
      case Vertex => "vertex"
      case Fragment => "fragment"
      case Compute => "compute"
    }
  }

  /** `messages.some(msg => msg.type === 'error')`. */
  function HasError(messages: seq<CompilationMessage>): (r: bool)
    ensures r <==> exists i :: 0 <= i < |messages| && messages[i].kind == Error
  {
    if |messages| == 0 then false
    else messages[0].kind == Error || HasError(messages[1..])
  }

  datatype ShaderModule = ShaderModule(title: string, code: string)

  /**
   * `createShaderModule`: the module labelled `<type> shader`, or the error
   * `<type> shader compilation failed` when the compiler reported an error.
   */
  function CreateShaderModule(code: string, stage: ShaderStage, messages: seq<CompilationMessage>)
    : (r: Result<ShaderModule, string>)
    ensures r.Failure? <==> exists i :: 0 <= i < |messages| && messages[i].kind == Error
    ensures r.Success? ==> r.value == ShaderModule(stage.Name() + " shader", code)
    ensures r.Failure? ==> r.error == stage.Name() + " shader compilation failed"
  {
    if HasError(messages) then Failure(stage.Name() + " shader compilation failed")
    else Success(ShaderModule(stage.Name() + " shader", code))
  }

  /** Warnings and infos alone never fail a compilation. */
  lemma WarningsPass(code: string, stage: ShaderStage, messages: seq<CompilationMessage>)
    requires forall i :: 0 <= i < |messages| ==> messages[i].kind != Error
    ensures CreateShaderModule(code, stage, messages).Success?
  {
  }
}
