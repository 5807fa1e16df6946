/** Node, query and kernel types of the FastNoise planner, and its reserved buffer slots. */
module Model {
  import opened Common

  const SLOT_QUERY_META: u16 := 0
  const SLOT_QUERY_F32: u16 := 1
  const SLOT_QUERY_OFFSETS: u16 := 2
  const SLOT_BASE_X: u16 := 10
  const SLOT_BASE_Y: u16 := 11
  const SLOT_BASE_Z: u16 := 12
  const SLOT_DYNAMIC_START: u16 := 32

  datatype GraphDimension = D2 | D3 {
    /** Number of coordinates: the const generic N of the position types. */
    function Arity(): (n: nat) {
      if D2? then 2 else 3
    }
  }

  /** The buffers grid initialisation fills. */
  function BaseSlots(dims: nat): (r: seq<u16>)
    ensures |r| == if dims == 2 then 2 else 3
  {
    if dims == 2 then [SLOT_BASE_X, SLOT_BASE_Y] else [SLOT_BASE_X, SLOT_BASE_Y, SLOT_BASE_Z]
  }

  datatype NoiseType = OpenSimplex2 | OpenSimplex2S | Cellular | Perlin | ValueCubic | ValueNoise
  datatype RotationType = NoRotation | ImproveXYPlanes | ImproveXZPlanes
  datatype FractalType = NoFractal | FBm | Ridged | PingPong | DomainWarpProgressive | DomainWarpIndependent
  datatype CellularDistance = Euclidean | EuclideanSq | Manhattan | Hybrid
  datatype CellularReturn =
    CellValue | Distance | Distance2 | Distance2Add | Distance2Sub | Distance2Mul | Distance2Div
  datatype DomainWarpType = WarpOpenSimplex2 | WarpOpenSimplex2Reduced | WarpBasicGrid

  /** The settings a kernel payload carries about one noise generator. */
  datatype Noise = Noise(
    seed: i32,
    frequency: f32,
    noiseType: NoiseType,
    rotation: RotationType,
    fractal: FractalType,
    octaves: i32,
    lacunarity: f32,
    gain: f32,
    weightedStrength: f32,
    pingPongStrength: f32,
    cellularDistance: CellularDistance,
    cellularReturn: CellularReturn,
    cellularJitter: f32,
    domainWarp: DomainWarpType,
    domainWarpAmp: f32)

  datatype CombineOp = Add | Sub | Mul | Min | Max | Clamp | Remap | YGradient {
    predicate Binary() {
      Add? || Sub? || Mul? || Min? || Max?
    }
  }

  datatype PositionSource = Base | Node(id: string)

  /** Warp2D/Warp3D and Sample2D/Sample3D differ only in their dimension. */
  datatype NodeSpec =
    | Warp(id: string, dim: GraphDimension, source: PositionSource, noise: Noise)
    | Sample(id: string, dim: GraphDimension, source: PositionSource, noise: Noise)
    | Combine(id: string, inputs: seq<string>, op: CombineOp, params: seq<f32>)

  datatype OutputKind = Position(dim: GraphDimension) | Scalar

  function OutputOf(node: NodeSpec): OutputKind {
    match node
    case Warp(_, d, _, _) => Position(d)
    case _ => Scalar
  }

  /** How many buffer slots a node's result occupies. */
  function Width(node: NodeSpec): (w: nat)
    ensures 1 <= w <= 3
  {
    match OutputOf(node)
    case Position(d) => d.Arity()
    case Scalar => 1
  }

  /** Names a node reads, in the order its dependencies are collected. */
  function DependencyIds(node: NodeSpec): seq<string> {
    match node
    case Combine(_, inputs, _, _) => inputs
    case _ => if node.source.Base? then [] else [node.source.id]
  }

  datatype ChunkQuery =
    | Grid2D(width: nat, height: nat, origin: seq<f32>, step: seq<f32>)
    | Grid3D(width: nat, height: nat, depth: nat, origin: seq<f32>, step: seq<f32>)
  {
    /** Fixed-size arrays of the source: two or three coordinates. */
    predicate Valid() {
      |origin| == Dim().Arity() && |step| == Dim().Arity()
    }

    function Dim(): GraphDimension {
      if Grid2D? then D2 else D3
    }

    function Depth(): nat {
      if Grid2D? then 1 else depth
    }

    function Samples(): nat {
      width * height * Depth()
    }
  }

  /** Planner kernels as the CPU backend instantiates them. */
  datatype Kernel =
    | GridInit(dim: GraphDimension)
    | WarpKernel(source: seq<u16>, output: seq<u16>, noise: Noise)
    | SampleKernel(source: seq<u16>, out: u16, noise: Noise)
    | CombineKernel(op: CombineOp, inputs: seq<u16>, out: u16, params: seq<f32>)
  {
    /** Position arrays have two or three coordinates. */
    predicate Shaped() {
      match this
      case GridInit(_) => true
      case WarpKernel(s, o, _) => 2 <= |s| <= 3 && |o| == |s|
      case SampleKernel(s, _, _) => 2 <= |s| <= 3
      case CombineKernel(_, ins, _, ps) => |ins| < U32_COUNT && |ps| < U32_COUNT
    }
  }

  datatype KernelTag = InitGrid2d | InitGrid3d | Warp2d | Warp3d | Sample2d | Sample3d | CombineTag

  function KindOf(tag: KernelTag): u32 {
    match tag
    case InitGrid2d => 0xF001
    case InitGrid3d => 0xF002
    case Warp2d => 0xF100
    case Warp3d => 0xF101
    case Sample2d => 0xF200
    case Sample3d => 0xF201
    case CombineTag => 0xF300
  }

  /** The inverse of KindOf: exactly the registered kinds resolve. */
  function TagOf(kind: u32): (r: Option<KernelTag>)
    ensures r.Some? ==> KindOf(r.value) == kind
    ensures forall tag :: KindOf(tag) == kind ==> r == Some(tag)
  {
    if kind == 0xF001 then Some(InitGrid2d)
    else if kind == 0xF002 then Some(InitGrid3d)
    else if kind == 0xF100 then Some(Warp2d)
    else if kind == 0xF101 then Some(Warp3d)
    else if kind == 0xF200 then Some(Sample2d)
    else if kind == 0xF201 then Some(Sample3d)
    else if kind == 0xF300 then Some(CombineTag)
    else None
  }

  /** The registered kinds. */
  lemma RegisteredKinds(kind: u32)
    ensures TagOf(kind).Some? <==> kind in {0xF001, 0xF002, 0xF100, 0xF101, 0xF200, 0xF201, 0xF300}
    ensures TagOf(0xF001) == Some(InitGrid2d) && TagOf(0xF002) == Some(InitGrid3d)
    ensures TagOf(0xF100) == Some(Warp2d) && TagOf(0xF101) == Some(Warp3d)
    ensures TagOf(0xF200) == Some(Sample2d) && TagOf(0xF201) == Some(Sample3d) && TagOf(0xF300) == Some(CombineTag)
  {}

  function TagOfKernel(k: Kernel): KernelTag
    requires k.Shaped()
  {
    match k
    case GridInit(d) => if d.D2? then InitGrid2d else InitGrid3d
    case WarpKernel(s, _, _) => if |s| == 2 then Warp2d else Warp3d
    case SampleKernel(s, _, _) => if |s| == 2 then Sample2d else Sample3d
    case CombineKernel(_, _, _, _) => CombineTag
  }
}
