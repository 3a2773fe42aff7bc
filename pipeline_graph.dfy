/**
  The processing graph that the host hands to the vision coprocessor: typed
  nodes (sensors, video encoders, host-link endpoints) and directed links
  between their named ports. The device library's own behaviour behind each
  setter is not modelled; a setter only records its argument in the node.
 */
module PipelineGraph {
  import opened Wrappers

  /** Physical camera sockets of the board. */
  datatype BoardSocket = Left | Right | Rgb

  datatype MonoResolution = Mono720P | Mono400P | Mono800P | Mono480P

  datatype ColorResolution = Color720P | Color1080P | Color800P | Color4K | Color12MP | Color13MP

  /** Video encoder profiles (codecs). */
  datatype Profile = H264Baseline | H264High | H264Main | H265Main | Mjpeg

  datatype ImuSensor = AccelerometerRaw | GyroscopeRaw

  /** One enabled inertial sensor and its report rate in Hz. */
  datatype ImuReport = ImuReport(sensor: ImuSensor, rateHz: nat)

  /** Frame rate: only ever passed through, never computed with. */
  type Fps = real

  /** The frame rate and profile given to an encoder's default preset. */
  datatype Preset = Preset(fps: Fps, profile: Profile)

  datatype NodeKind = MonoCameraKind | ColorCameraKind | ImuKind | VideoEncoderKind | XLinkOutKind | XLinkInKind

  /** A node of the graph with the attributes the builder sets; `None` means "not set". */
  datatype Node =
    | MonoCamera(socket: Option<BoardSocket>, monoResolution: Option<MonoResolution>, fps: Option<Fps>)
    | ColorCamera(socket: Option<BoardSocket>, colorResolution: Option<ColorResolution>, fps: Option<Fps>,
                  interleaved: Option<bool>)
    | Imu(reports: seq<ImuReport>, batchReportThreshold: Option<nat>, maxBatchReports: Option<nat>)
    | VideoEncoder(preset: Option<Preset>, quality: Option<int>)
    | XLinkOut(streamName: Option<string>)
    | XLinkIn(streamName: Option<string>)
  {
    function Kind(): NodeKind {
      match this
      case MonoCamera(_, _, _) => MonoCameraKind
      case ColorCamera(_, _, _, _) => ColorCameraKind
      case Imu(_, _, _) => ImuKind
      case VideoEncoder(_, _) => VideoEncoderKind
      case XLinkOut(_) => XLinkOutKind
      case XLinkIn(_) => XLinkInKind
    }

    /** No attribute has been set: every optional field is `None` and no IMU report is enabled. */
    predicate NothingSet() {
      match this
      case MonoCamera(s, r, f) => s.None? && r.None? && f.None?
      case ColorCamera(s, r, f, i) => s.None? && r.None? && f.None? && i.None?
      case Imu(rs, t, m) => rs == [] && t.None? && m.None?
      case VideoEncoder(p, q) => p.None? && q.None?
      case XLinkOut(n) => n.None?
      case XLinkIn(n) => n.None?
    }

    // Setters. Each records its argument on the node kinds that have the
    // attribute and changes nothing else.

    /** `setBoardSocket` */
    function SetBoardSocket(s: BoardSocket): (n: Node)
      ensures n.Kind() == Kind()
      ensures MonoCamera? ==> n == MonoCamera(Some(s), monoResolution, fps)
      ensures ColorCamera? ==> n == ColorCamera(Some(s), colorResolution, fps, interleaved)
      ensures !MonoCamera? && !ColorCamera? ==> n == this
    {
      match this
      case MonoCamera(_, r, f) => MonoCamera(Some(s), r, f)
      case ColorCamera(_, r, f, i) => ColorCamera(Some(s), r, f, i)
      case _ => this
    }

    /** `setResolution` on a mono camera */
    function SetMonoResolution(r: MonoResolution): (n: Node)
      ensures n.Kind() == Kind()
      ensures MonoCamera? ==> n == MonoCamera(socket, Some(r), fps)
      ensures !MonoCamera? ==> n == this
    {
      match this
      case MonoCamera(s, _, f) => MonoCamera(s, Some(r), f)
      case _ => this
    }

    /** `setResolution` on a colour camera */
    function SetColorResolution(r: ColorResolution): (n: Node)
      ensures n.Kind() == Kind()
      ensures ColorCamera? ==> n == ColorCamera(socket, Some(r), fps, interleaved)
      ensures !ColorCamera? ==> n == this
    {
      match this
      case ColorCamera(s, _, f, i) => ColorCamera(s, Some(r), f, i)
      case _ => this
    }

    /** `setFps` */
    function SetFps(f: Fps): (n: Node)
      ensures n.Kind() == Kind()
      ensures MonoCamera? ==> n == MonoCamera(socket, monoResolution, Some(f))
      ensures ColorCamera? ==> n == ColorCamera(socket, colorResolution, Some(f), interleaved)
      ensures !MonoCamera? && !ColorCamera? ==> n == this
    {
      match this
      case MonoCamera(s, r, _) => MonoCamera(s, r, Some(f))
      case ColorCamera(s, r, _, i) => ColorCamera(s, r, Some(f), i)
      case _ => this
    }

    /** `setInterleaved` */
    function SetInterleaved(b: bool): (n: Node)
      ensures n.Kind() == Kind()
      ensures ColorCamera? ==> n == ColorCamera(socket, colorResolution, fps, Some(b))
      ensures !ColorCamera? ==> n == this
    {
      match this
      case ColorCamera(s, r, f, _) => ColorCamera(s, r, f, Some(b))
      case _ => this
    }

    /** `enableIMUSensor`: adds one report to those already enabled. */
    function EnableImuSensor(report: ImuReport): (n: Node)
      ensures n.Kind() == Kind()
      ensures Imu? ==> n == Imu(reports + [report], batchReportThreshold, maxBatchReports)
      ensures !Imu? ==> n == this
    {
      match this
      case Imu(rs, t, m) => Imu(rs + [report], t, m)
      case _ => this
    }

    /** `setBatchReportThreshold` */
    function SetBatchReportThreshold(t: nat): (n: Node)
      ensures n.Kind() == Kind()
      ensures Imu? ==> n == Imu(reports, Some(t), maxBatchReports)
      ensures !Imu? ==> n == this
    {
      match this
      case Imu(rs, _, m) => Imu(rs, Some(t), m)
      case _ => this
    }

    /** `setMaxBatchReports` */
    function SetMaxBatchReports(m: nat): (n: Node)
      ensures n.Kind() == Kind()
      ensures Imu? ==> n == Imu(reports, batchReportThreshold, Some(m))
      ensures !Imu? ==> n == this
    {
      match this
      case Imu(rs, t, _) => Imu(rs, t, Some(m))
      case _ => this
    }

    /** `setDefaultProfilePreset(fps, profile)` */
    function SetDefaultProfilePreset(f: Fps, p: Profile): (n: Node)
      ensures n.Kind() == Kind()
      ensures VideoEncoder? ==> n == VideoEncoder(Some(Preset(f, p)), quality)
      ensures !VideoEncoder? ==> n == this
    {
      match this
      case VideoEncoder(_, q) => VideoEncoder(Some(Preset(f, p)), q)
      case _ => this
    }

    /** `setQuality` */
    function SetQuality(q: int): (n: Node)
      ensures n.Kind() == Kind()
      ensures VideoEncoder? ==> n == VideoEncoder(preset, Some(q))
      ensures !VideoEncoder? ==> n == this
    {
      match this
      case VideoEncoder(p, _) => VideoEncoder(p, Some(q))
      case _ => this
    }

    /** `setStreamName` */
    function SetStreamName(name: string): (n: Node)
      ensures n.Kind() == Kind()
      ensures XLinkOut? ==> n == XLinkOut(Some(name))
      ensures XLinkIn? ==> n == XLinkIn(Some(name))
      ensures !XLinkOut? && !XLinkIn? ==> n == this
    {
      match this
      case XLinkOut(_) => XLinkOut(Some(name))
      case XLinkIn(_) => XLinkIn(Some(name))
      case _ => this
    }
  }

  /** The node `create<kind>()` adds: nothing set yet. */
  function NewNode(kind: NodeKind): (n: Node)
    ensures n.Kind() == kind
    ensures n.NothingSet()
  {
    match kind
    case MonoCameraKind => MonoCamera(None, None, None)
    case ColorCameraKind => ColorCamera(None, None, None, None)
    case ImuKind => Imu([], None, None)
    case VideoEncoderKind => VideoEncoder(None, None)
    case XLinkOutKind => XLinkOut(None)
    case XLinkInKind => XLinkIn(None)
  }

  /** Output ports: `out` (mono camera, IMU, host input), `video` (colour camera), `bitstream` (encoder). */
  datatype Output = Out | Video | Bitstream

  /** Input ports: `input` (encoder, host output), `inputConfig` and `inputControl` (cameras). */
  datatype Input = FrameInput | InputConfig | InputControl

  predicate HasOutput(n: Node, o: Output) {
    match o
    case Out => n.MonoCamera? || n.Imu? || n.XLinkIn?
    case Video => n.ColorCamera?
    case Bitstream => n.VideoEncoder?
  }

  predicate HasInput(n: Node, i: Input) {
    match i
    case FrameInput => n.VideoEncoder? || n.XLinkOut?
    case InputConfig => n.ColorCamera?
    case InputControl => n.ColorCamera? || n.MonoCamera?
  }

  /** A data link from an output port of node `from` to an input port of node `to`. */
  datatype Link = Link(from: nat, output: Output, to: nat, input: Input)

  datatype Graph = Graph(nodes: seq<Node>, links: seq<Link>)

  /** A link joins two nodes of the graph through ports those nodes have. */
  predicate LinkFits(nodes: seq<Node>, l: Link) {
    l.from < |nodes| && l.to < |nodes| && HasOutput(nodes[l.from], l.output) && HasInput(nodes[l.to], l.input)
  }

  predicate WellFormed(g: Graph) {
    forall l :: l in g.links ==> LinkFits(g.nodes, l)
  }

  lemma SameKindSamePorts(a: Node, b: Node)
    requires a.Kind() == b.Kind()
    ensures forall o :: HasOutput(a, o) == HasOutput(b, o)
    ensures forall i :: HasInput(a, i) == HasInput(b, i)
  {
  }

  /** The pipeline object the builder grows one `create`, setter or `link` at a time. */
  class Pipeline {
    var nodes: seq<Node>
    var links: seq<Link>

    predicate Valid()
      reads this
    {
      WellFormed(Graph(nodes, links))
    }

    /** The descriptor built so far. */
    function Snapshot(): (g: Graph)
      reads this
      ensures g.nodes == nodes && g.links == links
    {
      Graph(nodes, links)
    }

    constructor ()
      ensures Valid() && nodes == [] && links == []
    {
      nodes, links := [], [];
    }

    /** `create<kind>()`: adds a fresh node; its id is its position in creation order. */
    method Create(kind: NodeKind) returns (id: nat)
      requires Valid()
      modifies this
      ensures Valid()
      ensures id == old(|nodes|) && nodes == old(nodes) + [NewNode(kind)] && links == old(links)
    {
      id := |nodes|;
      nodes := nodes + [NewNode(kind)];
      assert forall l :: l in links && LinkFits(old(nodes), l) ==> LinkFits(nodes, l);
    }

    /** A setter on node `id`: replaces its attributes, never its kind. */
    method Configure(id: nat, n: Node)
      requires Valid() && id < |nodes| && n.Kind() == nodes[id].Kind()
      modifies this
      ensures Valid()
      ensures nodes == old(nodes)[id := n] && links == old(links)
    {
      SameKindSamePorts(nodes[id], n);
      nodes := nodes[id := n];
      assert forall l :: l in links && LinkFits(old(nodes), l) ==> LinkFits(nodes, l);
    }

    /** `output.link(input)`: adds a link between ports the two nodes have. */
    method AddLink(l: Link)
      requires Valid() && LinkFits(nodes, l)
      modifies this
      ensures Valid()
      ensures links == old(links) + [l] && nodes == old(nodes)
    {
      links := links + [l];
    }
  }
}
