/** The kernel payload codec: little-endian writer and reader, and why they undo each other. */
module Codec {
  import opened Common
  import opened Model

  // ---------------------------------------------------------------- words

  /** Two's complement: the bits a signed word is stored with. */
  function BitsOfI32(v: i32): (w: u32)
    ensures I32OfBits(w) == v
  {
    if v < 0 then v + 0x1_0000_0000 else v
  }

  function I32OfBits(w: u32): i32 {
    if w >= 0x8000_0000 then w - 0x1_0000_0000 else w
  }

  lemma I32Bits(w: u32)
    ensures BitsOfI32(I32OfBits(w)) == w
  {}

  function Le2(v: u16): (b: seq<u8>)
    ensures |b| == 2
  {
    [v % 256, v / 256]
  }

  function FromLe2(b: seq<u8>): (v: u16)
    requires |b| == 2
    ensures Le2(v) == b
    ensures forall w: u16 :: Le2(w) == b ==> w == v
  {
    var lo: int, hi: int := b[0], b[1];
    lo + 256 * hi
  }

  function Le4(v: u32): (b: seq<u8>)
    ensures |b| == 4
  {
    Le2(v % 0x1_0000) + Le2(v / 0x1_0000)
  }

  function FromLe4(b: seq<u8>): (v: u32)
    requires |b| == 4
    ensures Le4(v) == b
  {
    var lo: int, hi: int := FromLe2(b[..2]), FromLe2(b[2..]);
    assert (lo + 0x1_0000 * hi) % 0x1_0000 == lo && (lo + 0x1_0000 * hi) / 0x1_0000 == hi;
    lo + 0x1_0000 * hi
  }

  lemma Le4Bytes(v: u32)
    ensures Le4(v) == [v % 256, v / 256 % 256, v / 65536 % 256, v / 16777216]
  {
    var lo, hi: int := v % 0x1_0000, v / 0x1_0000;
    var b0, b1, b2, b3 := lo % 256, lo / 256, hi % 256, hi / 256;
    Digits(v, b0, b1, b2, b3);
  }

  lemma Digits(v: int, b0: int, b1: int, b2: int, b3: int)
    requires v == b0 + 256 * b1 + 65536 * b2 + 16777216 * b3
    requires 0 <= b0 < 256 && 0 <= b1 < 256 && 0 <= b2 < 256 && 0 <= b3 < 256
    ensures v % 256 == b0 && v / 256 % 256 == b1 && v / 65536 % 256 == b2 && v / 16777216 == b3
  {
    assert v / 256 == b1 + 256 * b2 + 65536 * b3;
    assert v / 65536 == b2 + 256 * b3;
  }

  lemma Le4Injective(v: u32, w: u32)
    requires Le4(v) == Le4(w)
    ensures v == w
  {
    assert Le4(v)[..2] == Le2(v % 0x1_0000) && Le4(v)[2..] == Le2(v / 0x1_0000);
    assert Le4(w)[..2] == Le2(w % 0x1_0000) && Le4(w)[2..] == Le2(w / 0x1_0000);
    assert FromLe2(Le4(v)[..2]) == v % 0x1_0000 && FromLe2(Le4(v)[2..]) == v / 0x1_0000;
  }

  // ---------------------------------------------------------------- tags

  function EncodeNoiseType(t: NoiseType): u32 {
    match t case OpenSimplex2 => 0 case OpenSimplex2S => 1 case Cellular => 2
    case Perlin => 3 case ValueCubic => 4 case ValueNoise => 5
  }

  function DecodeNoiseType(w: u32): (r: Result<NoiseType>)
    ensures r.Ok? ==> EncodeNoiseType(r.value) == w
    ensures forall t :: EncodeNoiseType(t) == w ==> r == Ok(t)
  {
    match w case 0 => Ok(OpenSimplex2) case 1 => Ok(OpenSimplex2S) case 2 => Ok(Cellular)
    case 3 => Ok(Perlin) case 4 => Ok(ValueCubic) case 5 => Ok(ValueNoise) case _ => Err(InvalidSpec)
  }

  function EncodeRotation(t: RotationType): u32 {
    match t case NoRotation => 0 case ImproveXYPlanes => 1 case ImproveXZPlanes => 2
  }

  function DecodeRotation(w: u32): (r: Result<RotationType>)
    ensures r.Ok? ==> EncodeRotation(r.value) == w
    ensures forall t :: EncodeRotation(t) == w ==> r == Ok(t)
  {
    match w case 0 => Ok(NoRotation) case 1 => Ok(ImproveXYPlanes) case 2 => Ok(ImproveXZPlanes)
    case _ => Err(InvalidSpec)
  }

  function EncodeFractal(t: FractalType): u32 {
    match t case NoFractal => 0 case FBm => 1 case Ridged => 2 case PingPong => 3
    case DomainWarpProgressive => 4 case DomainWarpIndependent => 5
  }

  function DecodeFractal(w: u32): (r: Result<FractalType>)
    ensures r.Ok? ==> EncodeFractal(r.value) == w
    ensures forall t :: EncodeFractal(t) == w ==> r == Ok(t)
  {
    match w case 0 => Ok(NoFractal) case 1 => Ok(FBm) case 2 => Ok(Ridged) case 3 => Ok(PingPong)
    case 4 => Ok(DomainWarpProgressive) case 5 => Ok(DomainWarpIndependent) case _ => Err(InvalidSpec)
  }

  function EncodeDistance(t: CellularDistance): u32 {
    match t case Euclidean => 0 case EuclideanSq => 1 case Manhattan => 2 case Hybrid => 3
  }

  function DecodeDistance(w: u32): (r: Result<CellularDistance>)
    ensures r.Ok? ==> EncodeDistance(r.value) == w
    ensures forall t :: EncodeDistance(t) == w ==> r == Ok(t)
  {
    match w case 0 => Ok(Euclidean) case 1 => Ok(EuclideanSq) case 2 => Ok(Manhattan) case 3 => Ok(Hybrid)
    case _ => Err(InvalidSpec)
  }

  function EncodeReturn(t: CellularReturn): u32 {
    match t case CellValue => 0 case Distance => 1 case Distance2 => 2 case Distance2Add => 3
    case Distance2Sub => 4 case Distance2Mul => 5 case Distance2Div => 6
  }

  function DecodeReturn(w: u32): (r: Result<CellularReturn>)
    ensures r.Ok? ==> EncodeReturn(r.value) == w
    ensures forall t :: EncodeReturn(t) == w ==> r == Ok(t)
  {
    match w case 0 => Ok(CellValue) case 1 => Ok(Distance) case 2 => Ok(Distance2) case 3 => Ok(Distance2Add)
    case 4 => Ok(Distance2Sub) case 5 => Ok(Distance2Mul) case 6 => Ok(Distance2Div) case _ => Err(InvalidSpec)
  }

  function EncodeWarpType(t: DomainWarpType): u32 {
    match t case WarpOpenSimplex2 => 0 case WarpOpenSimplex2Reduced => 1 case WarpBasicGrid => 2
  }

  function DecodeWarpType(w: u32): (r: Result<DomainWarpType>)
    ensures r.Ok? ==> EncodeWarpType(r.value) == w
    ensures forall t :: EncodeWarpType(t) == w ==> r == Ok(t)
  {
    match w case 0 => Ok(WarpOpenSimplex2) case 1 => Ok(WarpOpenSimplex2Reduced) case 2 => Ok(WarpBasicGrid)
    case _ => Err(InvalidSpec)
  }

  function EncodeOp(op: CombineOp): u32 {
    match op case Add => 0 case Sub => 1 case Mul => 2 case Min => 3 case Max => 4
    case Clamp => 5 case Remap => 6 case YGradient => 7
  }

  function DecodeOp(w: u32): (r: Result<CombineOp>)
    ensures r.Ok? ==> EncodeOp(r.value) == w
    ensures forall t :: EncodeOp(t) == w ==> r == Ok(t)
  {
    match w case 0 => Ok(Add) case 1 => Ok(Sub) case 2 => Ok(Mul) case 3 => Ok(Min) case 4 => Ok(Max)
    case 5 => Ok(Clamp) case 6 => Ok(Remap) case 7 => Ok(YGradient) case _ => Err(InvalidSpec)
  }

  // ---------------------------------------------------------------- format

  /** A payload is a run of u16 and u32 words. */
  datatype Word = W2(v2: u16) | W4(v4: u32) {
    function Bytes(): (b: seq<u8>)
      ensures |b| == Size()
    {
      match this case W2(v) => Le2(v) case W4(v) => Le4(v)
    }

    function Size(): nat {
      if W2? then 2 else 4
    }
  }

  function Serialize(words: seq<Word>): (b: seq<u8>)
    ensures |b| == Size(words)
  {
    if words == [] then [] else Serialize(words[..|words| - 1]) + words[|words| - 1].Bytes()
  }

  function Size(words: seq<Word>): nat {
    if words == [] then 0 else Size(words[..|words| - 1]) + words[|words| - 1].Size()
  }

  function Slots(slots: seq<u16>): (w: seq<Word>)
    ensures |w| == |slots| && forall i :: 0 <= i < |slots| ==> w[i] == W2(slots[i])
  {
    seq(|slots|, i requires 0 <= i < |slots| => W2(slots[i]))
  }

  function Floats(params: seq<f32>): (w: seq<Word>)
    ensures |w| == |params| && forall i :: 0 <= i < |params| ==> w[i] == W4(params[i])
  {
    seq(|params|, i requires 0 <= i < |params| => W4(params[i]))
  }

  function NoiseWords(n: Noise): (w: seq<Word>)
    ensures |w| == 15
  {
    [W4(BitsOfI32(n.seed)), W4(n.frequency), W4(EncodeNoiseType(n.noiseType)), W4(EncodeRotation(n.rotation)),
     W4(EncodeFractal(n.fractal)), W4(BitsOfI32(n.octaves)), W4(n.lacunarity), W4(n.gain),
     W4(n.weightedStrength), W4(n.pingPongStrength), W4(EncodeDistance(n.cellularDistance)),
     W4(EncodeReturn(n.cellularReturn)), W4(n.cellularJitter), W4(EncodeWarpType(n.domainWarp)), W4(n.domainWarpAmp)]
  }

  function KernelWords(k: Kernel): seq<Word>
    requires k.Shaped()
  {
    match k
    case GridInit(_) => []
    case WarpKernel(s, o, n) => Slots(s) + Slots(o) + NoiseWords(n)
    case SampleKernel(s, o, n) => Slots(s) + [W2(o)] + NoiseWords(n)
    case CombineKernel(op, ins, o, ps) => CombineWords(op, ins, o, ps)
  }

  function CombineWords(op: CombineOp, inputs: seq<u16>, out: u16, params: seq<f32>): seq<Word>
    requires |inputs| < U32_COUNT && |params| < U32_COUNT
  {
    [W4(EncodeOp(op)), W4(|inputs|)] + Slots(inputs) + [W2(out), W4(|params|)] + Floats(params)
  }

  function EncodePayload(k: Kernel): seq<u8>
    requires k.Shaped()
  {
    Serialize(KernelWords(k))
  }

  // ---------------------------------------------------------------- writer

  class PayloadWriter {
    var bytes: seq<u8>

    constructor ()
      ensures bytes == Serialize([])
    {
      bytes := [];
    }

    method Slot(value: u16)
      modifies this
      ensures bytes == old(bytes) + Le2(value)
    {
      bytes := bytes + [value % 256, value / 256];
    }

    method U32(value: u32)
      modifies this
      ensures bytes == old(bytes) + Le4(value)
    {
      Le4Bytes(value);
      bytes := bytes + [value % 256, value / 256 % 256, value / 65536 % 256, value / 16777216];
    }

    /** Append one word to a payload under construction. */
    method Put(word: Word, ghost done: seq<Word>)
      requires bytes == Serialize(done)
      modifies this
      ensures bytes == Serialize(done + [word])
    {
      SerializeSnoc(done, word);
      match word
      case W2(v) => Slot(v);
      case W4(v) => U32(v);
    }

    method PutAll(words: seq<Word>, ghost done: seq<Word>)
      requires bytes == Serialize(done)
      modifies this
      ensures bytes == Serialize(done + words)
    {
      assert done + words[..0] == done;
      for i := 0 to |words|
        invariant bytes == Serialize(done + words[..i])
      {
        Put(words[i], done + words[..i]);
        TakeSnoc(done, words, i);
      }
      assert words[..|words|] == words;
    }

    method EncodeWarp(source: seq<u16>, output: seq<u16>, noise: Noise)
      requires bytes == Serialize([])
      modifies this
      ensures bytes == Serialize(Slots(source) + Slots(output) + NoiseWords(noise))
    {
      PutAll(Slots(source), []);
      assert [] + Slots(source) == Slots(source);
      PutAll(Slots(output), Slots(source));
      PutAll(NoiseWords(noise), Slots(source) + Slots(output));
    }

    method EncodeSample(source: seq<u16>, out: u16, noise: Noise)
      requires bytes == Serialize([])
      modifies this
      ensures bytes == Serialize(Slots(source) + [W2(out)] + NoiseWords(noise))
    {
      PutAll(Slots(source), []);
      assert [] + Slots(source) == Slots(source);
      Put(W2(out), Slots(source));
      PutAll(NoiseWords(noise), Slots(source) + [W2(out)]);
    }

    method EncodeCombine(op: CombineOp, inputs: seq<u16>, out: u16, params: seq<f32>)
      requires |inputs| < U32_COUNT && |params| < U32_COUNT && bytes == Serialize([])
      modifies this
      ensures bytes == Serialize(CombineWords(op, inputs, out, params))
    {
      hide Serialize, EncodeOp;
      var opWord, inputCount, paramCount := W4(EncodeOp(op)), W4(|inputs|), W4(|params|);
      ghost var head := [opWord, inputCount] + Slots(inputs);
      Put(opWord, []);
      assert [] + [opWord] == [opWord];
      Put(inputCount, [opWord]);
      assert [opWord] + [inputCount] == [opWord, inputCount];
      PutAll(Slots(inputs), [opWord, inputCount]);
      Put(W2(out), head);
      Put(paramCount, head + [W2(out)]);
      PutAll(Floats(params), head + [W2(out)] + [paramCount]);
      assert head + [W2(out)] + [paramCount] == head + [W2(out), paramCount];
    }

    method Encode(k: Kernel)
      requires k.Shaped() && bytes == Serialize([])
      modifies this
      ensures bytes == EncodePayload(k)
    {
      match k
      case GridInit(_) =>
      case WarpKernel(source, output, noise) => EncodeWarp(source, output, noise);
      case SampleKernel(source, out, noise) => EncodeSample(source, out, noise);
      case CombineKernel(op, inputs, out, params) => EncodeCombine(op, inputs, out, params);
    }
  }

  // ---------------------------------------------------------------- reader

  datatype Parse<+T> = Parsed(value: T) | Truncated | UnknownTag(tag: u32) {
    predicate IsFailure() {
      !Parsed?
    }

    function PropagateFailure<U>(): Parse<U>
      requires !Parsed?
    {
      match this case Truncated => Truncated case UnknownTag(t) => UnknownTag(t)
    }

    function Extract(): T
      requires Parsed?
    {
      value
    }

    /** Both failures surface as the same error kind. */
    function ToResult(): Result<T> {
      match this case Parsed(v) => Ok(v) case _ => Err(InvalidSpec)
    }
  }

  function ParseU16(b: seq<u8>, off: nat): (r: Parse<u16>)
    ensures r.Parsed? ==> off + 2 <= |b| && b[off..off + 2] == Le2(r.value)
  {
    if off + 2 > |b| then Truncated else Parsed(FromLe2(b[off..off + 2]))
  }

  function ParseU32(b: seq<u8>, off: nat): (r: Parse<u32>)
    ensures r.Parsed? ==> off + 4 <= |b| && b[off..off + 4] == Le4(r.value)
  {
    if off + 4 > |b| then Truncated else Parsed(FromLe4(b[off..off + 4]))
  }

  function ParseTag<T>(b: seq<u8>, off: nat, decode: u32 -> Result<T>): (r: Parse<T>)
    ensures r.Parsed? ==> ParseU32(b, off).Parsed? && decode(ParseU32(b, off).value) == Ok(r.value)
    ensures ParseU32(b, off) == Truncated ==> r == Truncated
    ensures ParseU32(b, off).Parsed? && decode(ParseU32(b, off).value).Ok? ==>
      r == Parsed(decode(ParseU32(b, off).value).value)
  {
    var w :- ParseU32(b, off);
    match decode(w) case Ok(t) => Parsed(t) case Err(_) => UnknownTag(w)
  }

  function ParseSlots(b: seq<u8>, off: nat, n: nat): (r: Parse<seq<u16>>)
    ensures r.Parsed? ==> |r.value| == n
  {
    if n == 0 then Parsed([])
    else
      var init :- ParseSlots(b, off, n - 1);
      var last :- ParseU16(b, off + 2 * (n - 1));
      Parsed(init + [last])
  }

  function ParseFloats(b: seq<u8>, off: nat, n: nat): (r: Parse<seq<f32>>)
    ensures r.Parsed? ==> |r.value| == n
  {
    if n == 0 then Parsed([])
    else
      var init :- ParseFloats(b, off, n - 1);
      var last :- ParseU32(b, off + 4 * (n - 1));
      Parsed(init + [last])
  }

  function ParseNoise(b: seq<u8>, off: nat): Parse<Noise> {
    var seed :- ParseU32(b, off);
    var frequency :- ParseU32(b, off + 4);
    var noiseType :- ParseTag(b, off + 8, DecodeNoiseType);
    var rotation :- ParseTag(b, off + 12, DecodeRotation);
    var fractal :- ParseTag(b, off + 16, DecodeFractal);
    var octaves :- ParseU32(b, off + 20);
    var lacunarity :- ParseU32(b, off + 24);
    var gain :- ParseU32(b, off + 28);
    var weighted :- ParseU32(b, off + 32);
    var pingPong :- ParseU32(b, off + 36);
    var distance :- ParseTag(b, off + 40, DecodeDistance);
    var ret :- ParseTag(b, off + 44, DecodeReturn);
    var jitter :- ParseU32(b, off + 48);
    var warp :- ParseTag(b, off + 52, DecodeWarpType);
    var amp :- ParseU32(b, off + 56);
    Parsed(Noise(I32OfBits(seed), frequency, noiseType, rotation, fractal, I32OfBits(octaves), lacunarity, gain,
                 weighted, pingPong, distance, ret, jitter, warp, amp))
  }

  function ParseWarp(b: seq<u8>, n: nat): Parse<Kernel> {
    var source :- ParseSlots(b, 0, n);
    var output :- ParseSlots(b, 2 * n, n);
    var noise :- ParseNoise(b, 4 * n);
    Parsed(WarpKernel(source, output, noise))
  }

  function ParseSample(b: seq<u8>, n: nat): Parse<Kernel> {
    var source :- ParseSlots(b, 0, n);
    var out :- ParseU16(b, 2 * n);
    var noise :- ParseNoise(b, 2 * n + 2);
    Parsed(SampleKernel(source, out, noise))
  }

  function ParseCombine(b: seq<u8>): Parse<Kernel> {
    var op :- ParseTag(b, 0, DecodeOp);
    var inputCount :- ParseU32(b, 4);
    var inputs :- ParseSlots(b, 8, inputCount);
    var out :- ParseU16(b, 8 + 2 * inputCount);
    var paramCount :- ParseU32(b, 10 + 2 * inputCount);
    var params :- ParseFloats(b, 14 + 2 * inputCount, paramCount);
    Parsed(CombineKernel(op, inputs, out, params))
  }

  function ParseKernel(tag: KernelTag, b: seq<u8>): Parse<Kernel> {
    match tag
    case InitGrid2d => Parsed(GridInit(D2))
    case InitGrid3d => Parsed(GridInit(D3))
    case Warp2d => ParseWarp(b, 2)
    case Warp3d => ParseWarp(b, 3)
    case Sample2d => ParseSample(b, 2)
    case Sample3d => ParseSample(b, 3)
    case CombineTag => ParseCombine(b)
  }

  /** Reads advance the offset on success and leave it alone on failure. */
  class PayloadReader {
    const bytes: seq<u8>
    var offset: nat

    constructor (bytes: seq<u8>)
      ensures this.bytes == bytes && offset == 0
    {
      this.bytes := bytes;
      offset := 0;
    }

    method ReadExact(n: nat) returns (r: Parse<seq<u8>>)
      modifies this
      ensures r == if old(offset) + n > |bytes| then Truncated else Parsed(bytes[old(offset)..old(offset) + n])
      ensures offset == if r.Parsed? then old(offset) + n else old(offset)
    {
      var end := offset + n;
      if end > |bytes| {
        return Truncated;
      }
      r := Parsed(bytes[offset..end]);
      offset := end;
    }

    method U16() returns (r: Parse<u16>)
      modifies this
      ensures r == ParseU16(bytes, old(offset))
      ensures offset == if r.Parsed? then old(offset) + 2 else old(offset)
    {
      var b :- ReadExact(2);
      r := Parsed(FromLe2(b));
    }

    method U32() returns (r: Parse<u32>)
      modifies this
      ensures r == ParseU32(bytes, old(offset))
      ensures offset == if r.Parsed? then old(offset) + 4 else old(offset)
    {
      var b :- ReadExact(4);
      r := Parsed(FromLe4(b));
    }

    method Tag<T>(decode: u32 -> Result<T>) returns (r: Parse<T>)
      modifies this
      ensures r == ParseTag(bytes, old(offset), decode)
      ensures r.Parsed? ==> offset == old(offset) + 4
    {
      var w :- U32();
      match decode(w)
      case Ok(t) => r := Parsed(t);
      case Err(_) => r := UnknownTag(w);
    }

    method ReadSlots(n: nat) returns (r: Parse<seq<u16>>)
      modifies this
      ensures r == ParseSlots(bytes, old(offset), n)
      ensures r.Parsed? ==> offset == old(offset) + 2 * n
    {
      hide FromLe2, Le2;
      var coords: seq<u16> := [];
      for i := 0 to n
        invariant offset == old(offset) + 2 * i
        invariant ParseSlots(bytes, old(offset), i) == Parsed(coords)
      {
        var read := U16();
        if !read.Parsed? {
          assert read == Truncated;
          SlotsFail(bytes, old(offset), i + 1, n);
          return Truncated;
        }
        coords := coords + [read.value];
      }
      return Parsed(coords);
    }

    method ReadFloats(n: nat) returns (r: Parse<seq<f32>>)
      modifies this
      ensures r == ParseFloats(bytes, old(offset), n)
      ensures r.Parsed? ==> offset == old(offset) + 4 * n
    {
      hide FromLe4, Le4;
      var params: seq<f32> := [];
      for i := 0 to n
        invariant offset == old(offset) + 4 * i
        invariant ParseFloats(bytes, old(offset), i) == Parsed(params)
      {
        var read := U32();
        if !read.Parsed? {
          assert read == Truncated;
          FloatsFail(bytes, old(offset), i + 1, n);
          return Truncated;
        }
        params := params + [read.value];
      }
      return Parsed(params);
    }

    method ReadNoise() returns (r: Parse<Noise>)
      modifies this
      ensures r == ParseNoise(bytes, old(offset))
    {
      var seed :- U32();
      var frequency :- U32();
      var noiseType :- Tag(DecodeNoiseType);
      var rotation :- Tag(DecodeRotation);
      var fractal :- Tag(DecodeFractal);
      var octaves :- U32();
      var lacunarity :- U32();
      var gain :- U32();
      var weighted :- U32();
      var pingPong :- U32();
      var distance :- Tag(DecodeDistance);
      var ret :- Tag(DecodeReturn);
      var jitter :- U32();
      var warp :- Tag(DecodeWarpType);
      var amp :- U32();
      r := Parsed(Noise(I32OfBits(seed), frequency, noiseType, rotation, fractal, I32OfBits(octaves), lacunarity, gain,
                        weighted, pingPong, distance, ret, jitter, warp, amp));
    }

    method DecodeWarp(n: nat) returns (r: Parse<Kernel>)
      requires offset == 0
      modifies this
      ensures r == ParseWarp(bytes, n)
    {
      hide ParseNoise, ParseSlots, ParseU16;
      var source :- ReadSlots(n);
      var output :- ReadSlots(n);
      var noise :- ReadNoise();
      r := Parsed(WarpKernel(source, output, noise));
    }

    method DecodeSample(n: nat) returns (r: Parse<Kernel>)
      requires offset == 0
      modifies this
      ensures r == ParseSample(bytes, n)
    {
      hide ParseNoise, ParseSlots, ParseU16;
      var source :- ReadSlots(n);
      var out :- U16();
      var noise :- ReadNoise();
      r := Parsed(SampleKernel(source, out, noise));
    }

    method DecodeCombine() returns (r: Parse<Kernel>)
      requires offset == 0
      modifies this
      ensures r == ParseCombine(bytes)
    {
      hide ParseSlots, ParseU16, ParseU32, ParseTag, ParseFloats;
      var op :- Tag(DecodeOp);
      var inputCount :- U32();
      var inputs :- ReadSlots(inputCount);
      var out :- U16();
      var paramCount :- U32();
      var params :- ReadFloats(paramCount);
      r := Parsed(CombineKernel(op, inputs, out, params));
    }
  }

  lemma {:induction false} SlotsFail(b: seq<u8>, off: nat, i: nat, n: nat)
    requires i <= n && ParseSlots(b, off, i) == Truncated
    ensures ParseSlots(b, off, n) == Truncated
  {
    if i < n {
      SlotsFail(b, off, i, n - 1);
    }
  }

  lemma {:induction false} FloatsFail(b: seq<u8>, off: nat, i: nat, n: nat)
    requires i <= n && ParseFloats(b, off, i) == Truncated
    ensures ParseFloats(b, off, n) == Truncated
  {
    hide ParseU32;
    if i < n {
      FloatsFail(b, off, i, n - 1);
    }
  }

  // ---------------------------------------------------------------- serialization facts

  lemma TakeSnoc<T>(done: seq<T>, words: seq<T>, i: nat)
    requires i < |words|
    ensures (done + words[..i]) + [words[i]] == done + words[..i + 1]
  {}

  lemma SerializeSnoc(words: seq<Word>, w: Word)
    ensures Serialize(words + [w]) == Serialize(words) + w.Bytes()
    ensures Size(words + [w]) == Size(words) + w.Size()
  {
    assert (words + [w])[..|words|] == words;
  }

  lemma {:induction false} SerializeAppend(a: seq<Word>, b: seq<Word>)
    ensures Serialize(a + b) == Serialize(a) + Serialize(b)
    ensures Size(a + b) == Size(a) + Size(b)
    decreases |b|
  {
    hide Word.Bytes;
    if b == [] {
      assert a + b == a;
    } else {
      var init, last := b[..|b| - 1], b[|b| - 1];
      SerializeAppend(a, init);
      assert (a + b)[..|a + b| - 1] == a + init;
      assert (Serialize(a) + Serialize(init)) + last.Bytes() == Serialize(a) + (Serialize(init) + last.Bytes());
    }
  }

  // ---------------------------------------------------------------- round trip

  /** b, read from off, agrees with the serialized words for as long as both last. */
  ghost predicate Agrees(b: seq<u8>, off: nat, words: seq<Word>) {
    off <= |b| && (b[off..] <= Serialize(words) || Serialize(words) <= b[off..])
  }

  predicate Fits(b: seq<u8>, off: nat, words: seq<Word>) {
    off + Size(words) <= |b|
  }

  lemma AgreesSplit(b: seq<u8>, off: nat, u: seq<Word>, v: seq<Word>)
    requires Agrees(b, off, u + v)
    ensures Agrees(b, off, u)
    ensures Fits(b, off, u) ==> Agrees(b, off + Size(u), v)
    ensures Fits(b, off, u + v) <==> Fits(b, off, u) && Fits(b, off + Size(u), v)
  {
    hide Word.Bytes, Serialize, Size, Fits;
    SerializeAppend(u, v);
    FitsSplit(b, off, u, v);
    PrefixSplit(b[off..], Serialize(u), Serialize(v));
    if Fits(b, off, u) {
      FitsInside(b, off, u);
      assert b[off + Size(u)..] == b[off..][Size(u)..];
    }
  }

  lemma FitsSplit(b: seq<u8>, off: nat, u: seq<Word>, v: seq<Word>)
    requires Size(u + v) == Size(u) + Size(v)
    ensures Fits(b, off, u + v) <==> Fits(b, off, u) && Fits(b, off + Size(u), v)
  {
    hide Size;
  }

  lemma FitsInside(b: seq<u8>, off: nat, u: seq<Word>)
    requires Fits(b, off, u)
    ensures off + Size(u) <= |b|
  {}

  lemma PrefixSplit<T>(r: seq<T>, u: seq<T>, v: seq<T>)
    requires r <= u + v || u + v <= r
    ensures r <= u || u <= r
    ensures |u| <= |r| ==> r[|u|..] <= v || v <= r[|u|..]
  {
    var s := u + v;
    var n := if |r| < |s| then |r| else |s|;
    assert forall i :: 0 <= i < n ==> r[i] == s[i];
    assert forall i :: 0 <= i < n && i < |u| ==> r[i] == u[i];
    if |u| <= |r| {
      var t := r[|u|..];
      assert forall i :: 0 <= i < |t| && i < |v| ==> t[i] == r[|u| + i] == s[|u| + i] == v[i];
    }
  }

  lemma ReadWord2(b: seq<u8>, off: nat, v: u16)
    requires Agrees(b, off, [W2(v)])
    ensures ParseU16(b, off) == if Fits(b, off, [W2(v)]) then Parsed(v) else Truncated
  {
    SingleWord(W2(v));
    if off + 2 <= |b| {
      assert b[off..off + 2] == b[off..][..2];
    }
  }

  lemma ReadWord4(b: seq<u8>, off: nat, v: u32)
    requires Agrees(b, off, [W4(v)])
    ensures ParseU32(b, off) == if Fits(b, off, [W4(v)]) then Parsed(v) else Truncated
  {
    SingleWord(W4(v));
    if off + 4 <= |b| {
      assert b[off..off + 4] == b[off..][..4] == Le4(v);
      Le4Injective(v, FromLe4(b[off..off + 4]));
    }
  }

  lemma SingleWord(w: Word)
    ensures Serialize([w]) == w.Bytes() && Size([w]) == w.Size()
  {
    assert [w][..0] == [];
    assert Serialize([]) + w.Bytes() == w.Bytes();
  }

  lemma {:induction false} ReadSlotWords(b: seq<u8>, off: nat, slots: seq<u16>)
    requires off <= |b| && Agrees(b, off, Slots(slots))
    ensures Size(Slots(slots)) == 2 * |slots|
    ensures ParseSlots(b, off, |slots|) == if Fits(b, off, Slots(slots)) then Parsed(slots) else Truncated
    decreases |slots|
  {
    hide ParseU16, Agrees, Word.Bytes, Serialize;
    if slots != [] {
      var init, last := slots[..|slots| - 1], slots[|slots| - 1];
      assert Slots(slots) == Slots(init) + [W2(last)];
      AgreesSplit(b, off, Slots(init), [W2(last)]);
      ReadSlotWords(b, off, init);
      SingleWord(W2(last));
      SerializeAppend(Slots(init), [W2(last)]);
      if Fits(b, off, Slots(init)) {
        ReadWord2(b, off + Size(Slots(init)), last);
        assert init + [last] == slots;
      }
    }
  }

  lemma {:induction false} ReadFloatWords(b: seq<u8>, off: nat, params: seq<f32>)
    requires off <= |b| && Agrees(b, off, Floats(params))
    ensures Size(Floats(params)) == 4 * |params|
    ensures ParseFloats(b, off, |params|) == if Fits(b, off, Floats(params)) then Parsed(params) else Truncated
    decreases |params|
  {
    hide ParseU32, Agrees, Word.Bytes, Serialize;
    if params != [] {
      var init, last := params[..|params| - 1], params[|params| - 1];
      assert Floats(params) == Floats(init) + [W4(last)];
      AgreesSplit(b, off, Floats(init), [W4(last)]);
      ReadFloatWords(b, off, init);
      SingleWord(W4(last));
      SerializeAppend(Floats(init), [W4(last)]);
      if Fits(b, off, Floats(init)) {
        ReadWord4(b, off + Size(Floats(init)), last);
        assert init + [last] == params;
      }
    }
  }

  function FourAt(b: seq<u8>, off: nat, i: nat): Parse<u32> {
    ParseU32(b, off + 4 * i)
  }

  /** Words of width four sit four bytes apart. */
  lemma {:induction false} ReadFours(b: seq<u8>, off: nat, words: seq<Word>)
    requires off <= |b| && Agrees(b, off, words)
    requires forall i :: 0 <= i < |words| ==> words[i].W4?
    ensures Size(words) == 4 * |words|
    ensures forall i :: 0 <= i < |words| ==>
      FourAt(b, off, i) == if off + 4 * i + 4 <= |b| then Parsed(words[i].v4) else Truncated
    decreases |words|
  {
    hide ParseU32, Agrees, Word.Bytes, Serialize;
    if words != [] {
      var init, last := words[..|words| - 1], words[|words| - 1];
      assert words == init + [last];
      AgreesSplit(b, off, init, [last]);
      ReadFours(b, off, init);
      SingleWord(last);
      if Fits(b, off, init) {
        ReadWord4(b, off + Size(init), last.v4);
      } else {
        TooShort(b, off + 4 * |init|);
      }
    }
  }

  lemma TooShort(b: seq<u8>, off: nat)
    requires off + 4 > |b|
    ensures ParseU32(b, off) == Truncated
  {}

  lemma ReadNoiseWords(b: seq<u8>, off: nat, n: Noise)
    requires off <= |b| && Agrees(b, off, NoiseWords(n))
    ensures Size(NoiseWords(n)) == 60
    ensures ParseNoise(b, off) == if Fits(b, off, NoiseWords(n)) then Parsed(n) else Truncated
  {
    hide ParseU32, Agrees, Size, DecodeNoiseType, EncodeNoiseType, DecodeRotation, EncodeRotation, DecodeFractal,
      EncodeFractal, DecodeDistance, EncodeDistance, DecodeReturn, EncodeReturn, DecodeWarpType, EncodeWarpType,
      BitsOfI32, I32OfBits;
    var w := NoiseWords(n);
    ReadFours(b, off, w);
    assert FourAt(b, off, 0) == ParseU32(b, off);
    assert FourAt(b, off, 1) == ParseU32(b, off + 4);
    assert FourAt(b, off, 2) == ParseU32(b, off + 8);
    assert FourAt(b, off, 3) == ParseU32(b, off + 12);
    assert FourAt(b, off, 4) == ParseU32(b, off + 16);
    assert FourAt(b, off, 5) == ParseU32(b, off + 20);
    assert FourAt(b, off, 6) == ParseU32(b, off + 24);
    assert FourAt(b, off, 7) == ParseU32(b, off + 28);
    assert FourAt(b, off, 8) == ParseU32(b, off + 32);
    assert FourAt(b, off, 9) == ParseU32(b, off + 36);
    assert FourAt(b, off, 10) == ParseU32(b, off + 40);
    assert FourAt(b, off, 11) == ParseU32(b, off + 44);
    assert FourAt(b, off, 12) == ParseU32(b, off + 48);
    assert FourAt(b, off, 13) == ParseU32(b, off + 52);
    assert FourAt(b, off, 14) == ParseU32(b, off + 56);
  }

  lemma ReadWarp(b: seq<u8>, source: seq<u16>, output: seq<u16>, noise: Noise)
    requires |source| == |output|
    requires Agrees(b, 0, Slots(source) + Slots(output) + NoiseWords(noise))
    ensures ParseWarp(b, |source|) ==
      if Fits(b, 0, Slots(source) + Slots(output) + NoiseWords(noise))
      then Parsed(WarpKernel(source, output, noise)) else Truncated
  {
    hide Agrees, Serialize, ParseNoise, ParseSlots, NoiseWords, Size;
    var n := |source|;
    AgreesSplit(b, 0, Slots(source) + Slots(output), NoiseWords(noise));
    AgreesSplit(b, 0, Slots(source), Slots(output));
    SerializeAppend(Slots(source), Slots(output));
    ReadSlotWords(b, 0, source);
    if Fits(b, 0, Slots(source)) {
      ReadSlotWords(b, 2 * n, output);
      if Fits(b, 2 * n, Slots(output)) {
        ReadNoiseWords(b, 4 * n, noise);
      }
    }
  }

  lemma ReadSample(b: seq<u8>, source: seq<u16>, out: u16, noise: Noise)
    requires Agrees(b, 0, Slots(source) + [W2(out)] + NoiseWords(noise))
    ensures ParseSample(b, |source|) ==
      if Fits(b, 0, Slots(source) + [W2(out)] + NoiseWords(noise))
      then Parsed(SampleKernel(source, out, noise)) else Truncated
  {
    hide Agrees, Serialize, ParseNoise, ParseSlots, ParseU16, NoiseWords, Size;
    var n := |source|;
    AgreesSplit(b, 0, Slots(source) + [W2(out)], NoiseWords(noise));
    AgreesSplit(b, 0, Slots(source), [W2(out)]);
    SerializeAppend(Slots(source), [W2(out)]);
    SingleWord(W2(out));
    ReadSlotWords(b, 0, source);
    if Fits(b, 0, Slots(source)) {
      ReadWord2(b, 2 * n, out);
      if Fits(b, 2 * n, [W2(out)]) {
        ReadNoiseWords(b, 2 * n + 2, noise);
      }
    }
  }

  lemma ReadCombine(b: seq<u8>, op: CombineOp, inputs: seq<u16>, out: u16, params: seq<f32>)
    requires |inputs| < U32_COUNT && |params| < U32_COUNT
    requires Agrees(b, 0, CombineWords(op, inputs, out, params))
    ensures ParseCombine(b) ==
      if Fits(b, 0, CombineWords(op, inputs, out, params))
      then Parsed(CombineKernel(op, inputs, out, params)) else Truncated
  {
    hide Agrees, Serialize, ParseSlots, ParseU16, ParseU32, ParseFloats, EncodeOp, DecodeOp, Size;
    var w0, w1, w2, w3, w4, w5 :=
      [W4(EncodeOp(op))], [W4(|inputs|)], Slots(inputs), [W2(out)], [W4(|params|)], Floats(params);
    var words := CombineWords(op, inputs, out, params);
    var n := |inputs|;
    SingleWord(W4(EncodeOp(op)));
    SingleWord(W4(|inputs|));
    SingleWord(W2(out));
    SingleWord(W4(|params|));
    assert words == w0 + (w1 + (w2 + (w3 + (w4 + w5))));
    AgreesSplit(b, 0, w0, w1 + (w2 + (w3 + (w4 + w5))));
    ReadWord4(b, 0, EncodeOp(op));
    if Fits(b, 0, w0) {
      AgreesSplit(b, 4, w1, w2 + (w3 + (w4 + w5)));
      ReadWord4(b, 4, |inputs|);
      if Fits(b, 4, w1) {
        AgreesSplit(b, 8, w2, w3 + (w4 + w5));
        ReadSlotWords(b, 8, inputs);
        if Fits(b, 8, w2) {
          AgreesSplit(b, 8 + 2 * n, w3, w4 + w5);
          ReadWord2(b, 8 + 2 * n, out);
          if Fits(b, 8 + 2 * n, w3) {
            AgreesSplit(b, 10 + 2 * n, w4, w5);
            ReadWord4(b, 10 + 2 * n, |params|);
            if Fits(b, 10 + 2 * n, w4) {
              ReadFloatWords(b, 14 + 2 * n, params);
            }
          }
        }
      }
    }
  }

  /** Reading any extension or any truncation of an encoding. */
  lemma ReadKernel(b: seq<u8>, k: Kernel)
    requires k.Shaped() && Agrees(b, 0, KernelWords(k))
    ensures ParseKernel(TagOfKernel(k), b) == if Fits(b, 0, KernelWords(k)) then Parsed(k) else Truncated
  {
    hide ParseWarp, ParseSample, ParseCombine, Agrees, Serialize, Slots, NoiseWords, CombineWords;
    match k
    case GridInit(_) =>
    case WarpKernel(source, output, noise) => ReadWarp(b, source, output, noise);
    case SampleKernel(source, out, noise) => ReadSample(b, source, out, noise);
    case CombineKernel(op, inputs, out, params) => ReadCombine(b, op, inputs, out, params);
  }

  // ---------------------------------------------------------------- canonical form

  ghost predicate Holds(b: seq<u8>, off: nat, words: seq<Word>) {
    off + Size(words) <= |b| && b[off..off + Size(words)] == Serialize(words)
  }

  lemma HoldsJoin(b: seq<u8>, off: nat, u: seq<Word>, v: seq<Word>)
    requires Holds(b, off, u) && Holds(b, off + Size(u), v)
    ensures Holds(b, off, u + v)
  {
    hide Serialize, Size;
    SerializeAppend(u, v);
    var m, e := off + Size(u), off + Size(u) + Size(v);
    assert b[off..e] == b[off..m] + b[m..e];
  }

  lemma HoldsNothing(b: seq<u8>, off: nat)
    requires off <= |b|
    ensures Holds(b, off, []) && Size([]) == 0
  {}

  lemma HoldsWord(b: seq<u8>, off: nat, w: Word)
    requires off + w.Size() <= |b| && b[off..off + w.Size()] == w.Bytes()
    ensures Holds(b, off, [w])
  {
    SingleWord(w);
  }

  lemma {:induction false} HoldsSlots(b: seq<u8>, off: nat, n: nat)
    requires off <= |b| && ParseSlots(b, off, n).Parsed?
    ensures Holds(b, off, Slots(ParseSlots(b, off, n).value))
    ensures Size(Slots(ParseSlots(b, off, n).value)) == 2 * n
  {
    var slots := ParseSlots(b, off, n).value;
    if n > 0 {
      HoldsSlots(b, off, n - 1);
      var init := ParseSlots(b, off, n - 1).value;
      HoldsWord(b, off + 2 * (n - 1), W2(slots[n - 1]));
      HoldsJoin(b, off, Slots(init), [W2(slots[n - 1])]);
      SerializeSnoc(Slots(init), W2(slots[n - 1]));
      assert Slots(slots) == Slots(init) + [W2(slots[n - 1])];
    }
  }

  lemma {:induction false} HoldsFloats(b: seq<u8>, off: nat, n: nat)
    requires off <= |b| && ParseFloats(b, off, n).Parsed?
    ensures Holds(b, off, Floats(ParseFloats(b, off, n).value))
    ensures Size(Floats(ParseFloats(b, off, n).value)) == 4 * n
  {
    hide Le4, FromLe4, Le2;
    var params := ParseFloats(b, off, n).value;
    if n > 0 {
      HoldsFloats(b, off, n - 1);
      var init := ParseFloats(b, off, n - 1).value;
      HoldsWord(b, off + 4 * (n - 1), W4(params[n - 1]));
      HoldsJoin(b, off, Floats(init), [W4(params[n - 1])]);
      SerializeSnoc(Floats(init), W4(params[n - 1]));
      assert Floats(params) == Floats(init) + [W4(params[n - 1])];
    }
  }

  lemma {:induction false} HoldsFours(b: seq<u8>, off: nat, words: seq<Word>)
    requires off <= |b|
    requires forall i :: 0 <= i < |words| ==> words[i].W4? && FourAt(b, off, i) == Parsed(words[i].v4)
    ensures Holds(b, off, words) && Size(words) == 4 * |words|
    decreases |words|
  {
    hide Le4, FromLe4, Holds, Serialize, Size;
    if words == [] {
      HoldsNothing(b, off);
    } else {
      var init, last := words[..|words| - 1], words[|words| - 1];
      HoldsFours(b, off, init);
      assert FourAt(b, off, |init|) == Parsed(last.v4);
      HoldsWord(b, off + 4 * |init|, last);
      HoldsJoin(b, off, init, [last]);
      SerializeSnoc(init, last);
      assert words == init + [last];
    }
  }

  lemma HoldsNoise(b: seq<u8>, off: nat)
    requires ParseNoise(b, off).Parsed?
    ensures Holds(b, off, NoiseWords(ParseNoise(b, off).value)) && Size(NoiseWords(ParseNoise(b, off).value)) == 60
  {
    hide ParseU32, Holds, Size, DecodeNoiseType, EncodeNoiseType, DecodeRotation, EncodeRotation, DecodeFractal,
      EncodeFractal, DecodeDistance, EncodeDistance, DecodeReturn, EncodeReturn, DecodeWarpType, EncodeWarpType,
      BitsOfI32, I32OfBits;
    var w := NoiseWords(ParseNoise(b, off).value);
    I32Bits(ParseU32(b, off).value);
    I32Bits(ParseU32(b, off + 20).value);
    assert FourAt(b, off, 0) == ParseU32(b, off) == Parsed(w[0].v4);
    assert FourAt(b, off, 1) == ParseU32(b, off + 4) == Parsed(w[1].v4);
    assert FourAt(b, off, 2) == ParseU32(b, off + 8) == Parsed(w[2].v4);
    assert FourAt(b, off, 3) == ParseU32(b, off + 12) == Parsed(w[3].v4);
    assert FourAt(b, off, 4) == ParseU32(b, off + 16) == Parsed(w[4].v4);
    assert FourAt(b, off, 5) == ParseU32(b, off + 20) == Parsed(w[5].v4);
    assert FourAt(b, off, 6) == ParseU32(b, off + 24) == Parsed(w[6].v4);
    assert FourAt(b, off, 7) == ParseU32(b, off + 28) == Parsed(w[7].v4);
    assert FourAt(b, off, 8) == ParseU32(b, off + 32) == Parsed(w[8].v4);
    assert FourAt(b, off, 9) == ParseU32(b, off + 36) == Parsed(w[9].v4);
    assert FourAt(b, off, 10) == ParseU32(b, off + 40) == Parsed(w[10].v4);
    assert FourAt(b, off, 11) == ParseU32(b, off + 44) == Parsed(w[11].v4);
    assert FourAt(b, off, 12) == ParseU32(b, off + 48) == Parsed(w[12].v4);
    assert FourAt(b, off, 13) == ParseU32(b, off + 52) == Parsed(w[13].v4);
    assert FourAt(b, off, 14) == ParseU32(b, off + 56) == Parsed(w[14].v4);
    HoldsFours(b, off, w);
  }

  lemma HoldsWarp(b: seq<u8>, n: nat)
    requires ParseWarp(b, n).Parsed?
    ensures var k := ParseWarp(b, n).value;
      && k.WarpKernel? && |k.source| == |k.output| == n
      && Holds(b, 0, Slots(k.source) + Slots(k.output) + NoiseWords(k.noise))
  {
    hide ParseNoise, ParseSlots, Holds, Size, NoiseWords;
    var k := ParseWarp(b, n).value;
    HoldsSlots(b, 0, n);
    SlotsInside(b, 0, n);
    HoldsSlots(b, 2 * n, n);
    HoldsNoise(b, 4 * n);
    HoldsJoin(b, 0, Slots(k.source), Slots(k.output));
    SerializeAppend(Slots(k.source), Slots(k.output));
    HoldsJoin(b, 0, Slots(k.source) + Slots(k.output), NoiseWords(k.noise));
  }

  lemma HoldsSample(b: seq<u8>, n: nat)
    requires ParseSample(b, n).Parsed?
    ensures var k := ParseSample(b, n).value;
      && k.SampleKernel? && |k.source| == n
      && Holds(b, 0, Slots(k.source) + [W2(k.out)] + NoiseWords(k.noise))
  {
    hide ParseNoise, ParseSlots, ParseU16, Holds, Size, NoiseWords, Serialize, Slots;
    var k := ParseSample(b, n).value;
    HoldsSlots(b, 0, n);
    HoldsWord(b, 2 * n, W2(k.out));
    HoldsNoise(b, 2 * n + 2);
    SingleWord(W2(k.out));
    HoldsJoin(b, 0, Slots(k.source), [W2(k.out)]);
    SerializeAppend(Slots(k.source), [W2(k.out)]);
    HoldsJoin(b, 0, Slots(k.source) + [W2(k.out)], NoiseWords(k.noise));
  }

  lemma HoldsCombine(b: seq<u8>)
    requires ParseCombine(b).Parsed?
    ensures var k := ParseCombine(b).value;
      k.CombineKernel? && k.Shaped() && Holds(b, 0, CombineWords(k.op, k.inputs, k.out, k.params))
  {
    hide ParseSlots, ParseU16, ParseU32, ParseFloats, Holds, Size, EncodeOp, DecodeOp;
    var k := ParseCombine(b).value;
    var n := |k.inputs|;
    var w0, w1, w2, w3, w4, w5 :=
      [W4(EncodeOp(k.op))], [W4(n)], Slots(k.inputs), [W2(k.out)], [W4(|k.params|)], Floats(k.params);
    SingleWord(W4(EncodeOp(k.op)));
    SingleWord(W4(n));
    SingleWord(W2(k.out));
    SingleWord(W4(|k.params|));
    HoldsWord(b, 0, W4(EncodeOp(k.op)));
    HoldsWord(b, 4, W4(n));
    HoldsSlots(b, 8, n);
    HoldsWord(b, 8 + 2 * n, W2(k.out));
    HoldsWord(b, 10 + 2 * n, W4(|k.params|));
    HoldsFloats(b, 14 + 2 * n, |k.params|);
    HoldsThree(b, 0, w0, w1, w2);
    HoldsThree(b, 8 + 2 * n, w3, w4, w5);
    HoldsJoin(b, 0, w0 + (w1 + w2), w3 + (w4 + w5));
    assert CombineWords(k.op, k.inputs, k.out, k.params) == (w0 + (w1 + w2)) + (w3 + (w4 + w5));
  }

  lemma HoldsThree(b: seq<u8>, off: nat, u: seq<Word>, v: seq<Word>, w: seq<Word>)
    requires Holds(b, off, u) && Holds(b, off + Size(u), v) && Holds(b, off + Size(u) + Size(v), w)
    ensures Holds(b, off, u + (v + w)) && Size(u + (v + w)) == Size(u) + Size(v) + Size(w)
  {
    hide Holds, Size, Serialize;
    HoldsJoin(b, off + Size(u), v, w);
    HoldsJoin(b, off, u, v + w);
    SerializeAppend(v, w);
    SerializeAppend(u, v + w);
  }

  lemma {:induction false} SlotsInside(b: seq<u8>, off: nat, n: nat)
    requires off <= |b| && ParseSlots(b, off, n).Parsed?
    ensures off + 2 * n <= |b|
  {
    HoldsSlots(b, off, n);
  }

  // ---------------------------------------------------------------- main results

  /** Decoding succeeds on exactly the extensions of encodings, and yields the encoded payload. */
  lemma DecodeExact(tag: KernelTag, b: seq<u8>, k: Kernel)
    ensures ParseKernel(tag, b) == Parsed(k) <==> k.Shaped() && TagOfKernel(k) == tag && EncodePayload(k) <= b
  {
    hide ParseWarp, ParseSample, ParseCombine, Agrees, Holds, Serialize, Size;
    if k.Shaped() && TagOfKernel(k) == tag && EncodePayload(k) <= b {
      assert Agrees(b, 0, KernelWords(k)) by { AgreesWhole(b, KernelWords(k)); }
      ReadKernel(b, k);
    }
    if ParseKernel(tag, b) == Parsed(k) {
      match tag
      case InitGrid2d => EmptyWords(b);
      case InitGrid3d => EmptyWords(b);
      case Warp2d => HoldsWarp(b, 2); HoldsPrefix(b, KernelWords(k));
      case Warp3d => HoldsWarp(b, 3); HoldsPrefix(b, KernelWords(k));
      case Sample2d => HoldsSample(b, 2); HoldsPrefix(b, KernelWords(k));
      case Sample3d => HoldsSample(b, 3); HoldsPrefix(b, KernelWords(k));
      case CombineTag => HoldsCombine(b); HoldsPrefix(b, KernelWords(k));
    }
  }

  lemma EmptyWords(b: seq<u8>)
    ensures Serialize([]) <= b
  {}

  lemma AgreesWhole(b: seq<u8>, words: seq<Word>)
    requires Serialize(words) <= b || b <= Serialize(words)
    ensures Agrees(b, 0, words)
  {
    assert b[0..] == b;
  }

  lemma HoldsPrefix(b: seq<u8>, words: seq<Word>)
    requires Holds(b, 0, words)
    ensures Serialize(words) <= b
  {
    assert b[0..0 + Size(words)] == b[..Size(words)];
  }

  /** The round trip prepare relies on: a kernel survives encoding and decoding. */
  lemma RoundTrip(k: Kernel)
    requires k.Shaped()
    ensures ParseKernel(TagOfKernel(k), EncodePayload(k)) == Parsed(k)
  {
    DecodeExact(TagOfKernel(k), EncodePayload(k), k);
  }

  /** Every strict prefix of an encoding is rejected as truncated, whatever its tags. */
  lemma StrictPrefixTruncated(k: Kernel, b: seq<u8>)
    requires k.Shaped() && b < EncodePayload(k)
    ensures ParseKernel(TagOfKernel(k), b) == Truncated
  {
    hide ParseKernel, Agrees, Serialize, KernelWords, Size;
    AgreesWhole(b, KernelWords(k));
    ReadKernel(b, k);
  }

  /** The encoding is injective: two payloads of one kind never share bytes. */
  lemma EncodingInjective(k1: Kernel, k2: Kernel)
    requires k1.Shaped() && k2.Shaped() && TagOfKernel(k1) == TagOfKernel(k2)
    requires EncodePayload(k1) <= EncodePayload(k2)
    ensures k1 == k2
  {
    DecodeExact(TagOfKernel(k1), EncodePayload(k2), k1);
    RoundTrip(k2);
  }

  // ---------------------------------------------------------------- the stored form

  function ByteAt(b: seq<u8>, i: nat): int
    requires i < |b|
  {
    b[i]
  }

  /** Words are stored low byte first. */
  lemma WordAt(b: seq<u8>, off: nat)
    ensures off + 2 <= |b| ==> ParseU16(b, off) == Parsed(ByteAt(b, off) + 256 * ByteAt(b, off + 1))
    ensures off + 4 <= |b| ==>
      Stored(b, off, ByteAt(b, off) + 256 * ByteAt(b, off + 1) + 65536 * ByteAt(b, off + 2)
                     + 16777216 * ByteAt(b, off + 3))
  {
    if off + 4 <= |b| {
      assert b[off..off + 4][..2] == [b[off], b[off + 1]] && b[off..off + 4][2..] == [b[off + 2], b[off + 3]];
    }
  }

  /** The numbers operators and noise settings are stored as. */
  lemma TagNumbers()
    ensures EncodeOp(Add) == 0 && EncodeOp(Sub) == 1 && EncodeOp(Mul) == 2 && EncodeOp(Min) == 3
    ensures EncodeOp(Max) == 4 && EncodeOp(Clamp) == 5 && EncodeOp(Remap) == 6 && EncodeOp(YGradient) == 7
    ensures EncodeNoiseType(OpenSimplex2) == 0 && EncodeNoiseType(OpenSimplex2S) == 1 && EncodeNoiseType(Cellular) == 2
    ensures EncodeNoiseType(Perlin) == 3 && EncodeNoiseType(ValueCubic) == 4 && EncodeNoiseType(ValueNoise) == 5
    ensures EncodeRotation(NoRotation) == 0
    ensures EncodeRotation(ImproveXYPlanes) == 1 && EncodeRotation(ImproveXZPlanes) == 2
    ensures EncodeFractal(NoFractal) == 0 && EncodeFractal(FBm) == 1 && EncodeFractal(Ridged) == 2
    ensures EncodeFractal(PingPong) == 3
    ensures EncodeFractal(DomainWarpProgressive) == 4 && EncodeFractal(DomainWarpIndependent) == 5
    ensures EncodeDistance(Euclidean) == 0 && EncodeDistance(EuclideanSq) == 1
    ensures EncodeDistance(Manhattan) == 2 && EncodeDistance(Hybrid) == 3
    ensures EncodeReturn(CellValue) == 0 && EncodeReturn(Distance) == 1 && EncodeReturn(Distance2) == 2
    ensures EncodeReturn(Distance2Add) == 3 && EncodeReturn(Distance2Sub) == 4
    ensures EncodeReturn(Distance2Mul) == 5 && EncodeReturn(Distance2Div) == 6
    ensures EncodeWarpType(WarpOpenSimplex2) == 0 && EncodeWarpType(WarpOpenSimplex2Reduced) == 1
    ensures EncodeWarpType(WarpBasicGrid) == 2
  {}

  /** Word w stands at this offset. */
  ghost predicate Stored(b: seq<u8>, off: nat, w: int) {
    ParseU32(b, off).Parsed? && ParseU32(b, off).value == w
  }

  /** The order of a noise generator's fifteen settings, four bytes each. */
  lemma NoiseFields(b: seq<u8>, off: nat, n: Noise)
    requires ParseNoise(b, off) == Parsed(n)
    ensures Stored(b, off, if n.seed < 0 then n.seed + 0x1_0000_0000 else n.seed) && Stored(b, off + 4, n.frequency)
    ensures Stored(b, off + 8, EncodeNoiseType(n.noiseType)) && Stored(b, off + 12, EncodeRotation(n.rotation))
    ensures Stored(b, off + 16, EncodeFractal(n.fractal))
    ensures Stored(b, off + 20, if n.octaves < 0 then n.octaves + 0x1_0000_0000 else n.octaves)
    ensures Stored(b, off + 24, n.lacunarity) && Stored(b, off + 28, n.gain)
    ensures Stored(b, off + 32, n.weightedStrength) && Stored(b, off + 36, n.pingPongStrength)
    ensures Stored(b, off + 40, EncodeDistance(n.cellularDistance))
    ensures Stored(b, off + 44, EncodeReturn(n.cellularReturn)) && Stored(b, off + 48, n.cellularJitter)
    ensures Stored(b, off + 52, EncodeWarpType(n.domainWarp)) && Stored(b, off + 56, n.domainWarpAmp)
  {
    hide ParseU32, EncodeNoiseType, EncodeRotation, EncodeFractal, EncodeDistance, EncodeReturn, EncodeWarpType;
    hide DecodeNoiseType, DecodeRotation, DecodeFractal, DecodeDistance, DecodeReturn, DecodeWarpType;
    I32Bits(ParseU32(b, off).value);
    I32Bits(ParseU32(b, off + 20).value);
  }

  lemma {:induction false} SlotsStored(b: seq<u8>, off: nat, slots: seq<u16>, i: nat)
    requires ParseSlots(b, off, |slots|) == Parsed(slots) && i < |slots|
    ensures ParseU16(b, off + 2 * i) == Parsed(slots[i])
    decreases |slots|
  {
    hide ParseU16;
    if i < |slots| - 1 {
      var init := ParseSlots(b, off, |slots| - 1).value;
      assert init == slots[..|slots| - 1];
      SlotsStored(b, off, init, i);
    }
  }

  lemma {:induction false} FloatsStored(b: seq<u8>, off: nat, params: seq<f32>, i: nat)
    requires ParseFloats(b, off, |params|) == Parsed(params) && i < |params|
    ensures ParseU32(b, off + 4 * i) == Parsed(params[i])
    decreases |params|
  {
    hide ParseU32;
    if i < |params| - 1 {
      var init := ParseFloats(b, off, |params| - 1).value;
      assert init == params[..|params| - 1];
      FloatsStored(b, off, init, i);
    }
  }

  /** A warp: source slots, output slots, noise. */
  lemma WarpStored(source: seq<u16>, output: seq<u16>, noise: Noise, i: nat)
    requires 2 <= |source| <= 3 && |output| == |source| && i < |source|
    ensures var b := EncodePayload(WarpKernel(source, output, noise));
      && ParseU16(b, 2 * i) == Parsed(source[i]) && ParseU16(b, 2 * |source| + 2 * i) == Parsed(output[i])
      && ParseNoise(b, 4 * |source|) == Parsed(noise)
  {
    hide ParseSlots, ParseU16, ParseNoise, EncodePayload;
    RoundTrip(WarpKernel(source, output, noise));
    SlotsStored(EncodePayload(WarpKernel(source, output, noise)), 0, source, i);
    SlotsStored(EncodePayload(WarpKernel(source, output, noise)), 2 * |source|, output, i);
  }

  /** A sample: source slots, output slot, noise. */
  lemma SampleStored(source: seq<u16>, out: u16, noise: Noise, i: nat)
    requires 2 <= |source| <= 3 && i < |source|
    ensures var b := EncodePayload(SampleKernel(source, out, noise));
      && ParseU16(b, 2 * i) == Parsed(source[i]) && ParseU16(b, 2 * |source|) == Parsed(out)
      && ParseNoise(b, 2 * |source| + 2) == Parsed(noise)
  {
    hide ParseSlots, ParseU16, ParseNoise, EncodePayload;
    RoundTrip(SampleKernel(source, out, noise));
    SlotsStored(EncodePayload(SampleKernel(source, out, noise)), 0, source, i);
  }

  /** A combine: operator, input count, input slots, output slot, parameter count, parameters. */
  lemma CombineStored(op: CombineOp, inputs: seq<u16>, out: u16, params: seq<f32>)
    requires |inputs| < U32_COUNT && |params| < U32_COUNT
    ensures var b, n := EncodePayload(CombineKernel(op, inputs, out, params)), |inputs|;
      && Stored(b, 0, EncodeOp(op)) && Stored(b, 4, n)
      && (forall i :: 0 <= i < n ==> ParseU16(b, 8 + 2 * i) == Parsed(inputs[i]))
      && ParseU16(b, 8 + 2 * n) == Parsed(out) && Stored(b, 10 + 2 * n, |params|)
      && (forall i :: 0 <= i < |params| ==> ParseU32(b, 14 + 2 * n + 4 * i) == Parsed(params[i]))
  {
    hide ParseSlots, ParseFloats, ParseU16, ParseU32, EncodePayload, EncodeOp, DecodeOp;
    RoundTrip(CombineKernel(op, inputs, out, params));
    var b, n := EncodePayload(CombineKernel(op, inputs, out, params)), |inputs|;
    forall i | 0 <= i < n ensures ParseU16(b, 8 + 2 * i) == Parsed(inputs[i]) { SlotsStored(b, 8, inputs, i); }
    forall i | 0 <= i < |params| ensures ParseU32(b, 14 + 2 * n + 4 * i) == Parsed(params[i]) {
      FloatsStored(b, 14 + 2 * n, params, i);
    }
  }
}
