/**
  Construction of the device graph from the node's string options: the stereo
  resolution table (strict), the colour resolution and codec tables (with a
  default), the rule that rectification needs disparity, and the fixed wiring
  sensor -> encoder -> host output, plus the host config/control inputs of the
  colour camera.
 */
module PipelineBuilder {
  import opened Wrappers
  import opened PipelineGraph

  datatype PipelineError = InvalidMonoResolution(requested: string)

  /** What a successful build returns: the graph and the stereo pair's frame size. */
  datatype Built = Built(graph: Graph, stereoWidth: int, stereoHeight: int)

  // ---------------------------------------------------------------------------
  // String tables

  const StereoNames: set<string> := {"720p", "400p", "800p", "480p"}

  const ColorNames: set<string> := {"720p", "1080p", "800p", "4K", "12MP", "13MP"}

  const CodecNames: set<string> := {"H264_BASELINE", "H264_HIGH", "H264_MAIN", "H265_MAIN", "MJPEG"}

  /** The option string naming each mono sensor resolution. */
  function MonoName(m: MonoResolution): string {
    match m
    case Mono720P => "720p"
    case Mono400P => "400p"
    case Mono800P => "800p"
    case Mono480P => "480p"
  }

  function ColorName(c: ColorResolution): string {
    match c
    case Color720P => "720p"
    case Color1080P => "1080p"
    case Color800P => "800p"
    case Color4K => "4K"
    case Color12MP => "12MP"
    case Color13MP => "13MP"
  }

  function ProfileName(p: Profile): string {
    match p
    case H264Baseline => "H264_BASELINE"
    case H264High => "H264_HIGH"
    case H264Main => "H264_MAIN"
    case H265Main => "H265_MAIN"
    case Mjpeg => "MJPEG"
  }

  /** The stereo chain: an unknown string is an error, never a default. */
  function StereoResolution(s: string): (r: Result<MonoResolution, PipelineError>)
    ensures r.Ok? <==> s in StereoNames
    ensures r.Ok? ==> MonoName(r.value) == s
    ensures r.Err? ==> r.error == InvalidMonoResolution(s)
  {
    if s == "720p" then Ok(Mono720P)
    else if s == "400p" then Ok(Mono400P)
    else if s == "800p" then Ok(Mono800P)
    else if s == "480p" then Ok(Mono480P)
    else Err(InvalidMonoResolution(s))
  }

  /**
    Width and height of a stereo frame at each mono resolution. The option
    name is the height followed by "p"; the 480- and 400-line sensors are 640
    wide, the 720- and 800-line ones 1280.
   */
  function StereoSize(m: MonoResolution): (r: (int, int))
    ensures r.1 > 0 && MonoName(m) == Decimal(r.1) + "p"
    ensures r.0 == if r.1 <= 480 then 640 else 1280
  {
    match m
    case Mono720P => (1280, 720)
    case Mono400P => (640, 400)
    case Mono800P => (1280, 800)
    case Mono480P => (640, 480)
  }

  /** The colour chain: an unknown string falls back to 1080p. */
  function ColorResolutionOf(s: string): (r: ColorResolution)
    ensures s in ColorNames ==> ColorName(r) == s
    ensures s !in ColorNames ==> r == Color1080P
  {
    if s == "720p" then Color720P
    else if s == "1080p" then Color1080P
    else if s == "800p" then Color800P
    else if s == "4K" then Color4K
    else if s == "12MP" then Color12MP
    else if s == "13MP" then Color13MP
    else Color1080P
  }

  /** The codec chain: an unknown string falls back to MJPEG. */
  function CodecProfile(s: string): (r: Profile)
    ensures s in CodecNames ==> ProfileName(r) == s
    ensures s !in CodecNames ==> r == Mjpeg
  {
    if s == "H264_BASELINE" then H264Baseline
    else if s == "H264_HIGH" then H264High
    else if s == "H264_MAIN" then H264Main
    else if s == "H265_MAIN" then H265Main
    else if s == "MJPEG" then Mjpeg
    else Mjpeg
  }

  lemma StereoRoundTrip(m: MonoResolution)
    ensures MonoName(m) in StereoNames && StereoResolution(MonoName(m)) == Ok(m)
  {
  }

  lemma ColorRoundTrip(c: ColorResolution)
    ensures ColorName(c) in ColorNames && ColorResolutionOf(ColorName(c)) == c
  {
  }

  lemma CodecRoundTrip(p: Profile)
    ensures ProfileName(p) in CodecNames && CodecProfile(ProfileName(p)) == p
  {
  }

  /** The decimal numeral of a natural number. */
  function Decimal(n: nat): string {
    if n < 10 then [Digit(n)] else Decimal(n / 10) + [Digit(n % 10)]
  }

  function Digit(d: nat): char
    requires d < 10
  {
    "0123456789"[d]
  }

  // ---------------------------------------------------------------------------
  // Flags

  /** Rectification is only kept when disparity is on. */
  function EffectiveRectify(disparity: bool, rectify: bool): (r: bool)
    ensures !disparity ==> !r
    ensures disparity ==> r == rectify
  {
    disparity && rectify
  }

  /** The topic a mono stream is republished on: `<side>/compressed`, with `_rect` when rectified. */
  function CompressedTopic(side: string, disparity: bool, rectify: bool): (t: string)
    ensures t == side + "/compressed" || t == side + "/compressed_rect"
  {
    if disparity && rectify then side + "/compressed_rect" else side + "/compressed"
  }

  /** The republished topic is the rectified one exactly when the builder keeps rectification. */
  lemma TopicFollowsRectify(side: string, disparity: bool, rectify: bool)
    ensures CompressedTopic(side, disparity, rectify) == side + "/compressed_rect" <==> EffectiveRectify(disparity, rectify)
    ensures !disparity ==> CompressedTopic(side, disparity, rectify) == side + "/compressed"
  {
    if !(disparity && rectify) {
      var t := CompressedTopic(side, disparity, rectify);
      assert |t| != |side + "/compressed_rect"|;
    }
  }

  // ---------------------------------------------------------------------------
  // The graph

  // Node ids, in creation order.
  const MonoLeftId: nat := 0
  const MonoRightId: nat := 1
  const ColorCamId: nat := 2
  const ImuId: nat := 3
  const EncLeftId: nat := 4
  const EncRightId: nat := 5
  const EncRgbId: nat := 6
  const XoutLeftId: nat := 7
  const XoutRightId: nat := 8
  const XoutRgbId: nat := 9
  const XoutImuId: nat := 10
  const ConfigInId: nat := 11
  const ControlInId: nat := 12

  /** The IMU reports the builder enables: raw accelerometer at 500 Hz, raw gyroscope at 400 Hz. */
  const ImuReports: seq<ImuReport> := [ImuReport(AccelerometerRaw, 500), ImuReport(GyroscopeRaw, 400)]

  /** The links of the finished graph, in the order the builder adds them. */
  const ExpectedLinks: seq<Link> :=
    [ Link(ConfigInId, Out, ColorCamId, InputConfig),
      Link(ControlInId, Out, ColorCamId, InputControl),
      Link(MonoLeftId, Out, EncLeftId, FrameInput),
      Link(MonoRightId, Out, EncRightId, FrameInput),
      Link(EncLeftId, Bitstream, XoutLeftId, FrameInput),
      Link(EncRightId, Bitstream, XoutRightId, FrameInput),
      Link(ColorCamId, Video, EncRgbId, FrameInput),
      Link(EncRgbId, Bitstream, XoutRgbId, FrameInput),
      Link(ImuId, Out, XoutImuId, FrameInput) ]

  /** The finished graph for the given selections. */
  function ExpectedGraph(mono: MonoResolution, color: ColorResolution, profile: Profile, fps: Fps, quality: int): (g: Graph)
    ensures |g.nodes| == 13 && |g.links| == 9
    ensures IsSensor(g.nodes[MonoLeftId], LeftMono) && IsSensor(g.nodes[MonoRightId], RightMono)
    ensures IsSensor(g.nodes[ColorCamId], ColorSensor) && IsSensor(g.nodes[ImuId], InertialSensor)
    ensures g.nodes[MonoLeftId].monoResolution == g.nodes[MonoRightId].monoResolution == Some(mono)
    ensures g.nodes[ColorCamId].colorResolution == Some(color)
    ensures g.nodes[MonoLeftId].fps == g.nodes[MonoRightId].fps == g.nodes[ColorCamId].fps == Some(fps)
  {
    var encoder := VideoEncoder(Some(Preset(fps, profile)), Some(quality));
    var nodes :=
      [ MonoCamera(Some(Left), Some(mono), Some(fps)),
        MonoCamera(Some(Right), Some(mono), Some(fps)),
        ColorCamera(Some(Rgb), Some(color), Some(fps), Some(false)),
        Imu(ImuReports, Some(5), Some(20)),
        encoder, encoder, encoder,
        XLinkOut(Some("left")), XLinkOut(Some("right")), XLinkOut(Some("rgb")), XLinkOut(Some("imu")),
        XLinkIn(Some("config")), XLinkIn(Some("control")) ];
    Graph(nodes, ExpectedLinks)
  }

  /** The four sensor roles of a session. */
  datatype Role = LeftMono | RightMono | ColorSensor | InertialSensor

  predicate IsSensor(n: Node, role: Role) {
    match role
    case LeftMono => n.MonoCamera? && n.socket == Some(Left)
    case RightMono => n.MonoCamera? && n.socket == Some(Right)
    case ColorSensor => n.ColorCamera? && n.socket == Some(Rgb)
    case InertialSensor => n.Imu?
  }

  ghost predicate ExactlyOneSensor(g: Graph, role: Role) {
    exists i :: 0 <= i < |g.nodes| && IsSensor(g.nodes[i], role) &&
      forall j :: 0 <= j < |g.nodes| && IsSensor(g.nodes[j], role) ==> j == i
  }

  /** `l` is a link of `links` and the only one leaving node `n`. */
  predicate SoleLinkFrom(links: seq<Link>, n: nat, l: Link) {
    l in links && l.from == n && forall k :: k in links && k.from == n ==> k == l
  }

  /** `l` is a link of `links` and the only one entering node `n`. */
  predicate SoleLinkInto(links: seq<Link>, n: nat, l: Link) {
    l in links && l.to == n && forall k :: k in links && k.to == n ==> k == l
  }

  /**
    Node `cfg` is the host input "config", node `ctl` the host input "control";
    each feeds only the colour camera `cam`, at its config and its control input
    respectively; and no other node feeds a config or control input of any camera.
   */
  predicate HostInputsVia(g: Graph, cfg: nat, ctl: nat, cam: nat) {
    cfg < |g.nodes| && ctl < |g.nodes| && cam < |g.nodes| &&
    g.nodes[cfg] == XLinkIn(Some("config")) && g.nodes[ctl] == XLinkIn(Some("control")) &&
    IsSensor(g.nodes[cam], ColorSensor) &&
    SoleLinkFrom(g.links, cfg, Link(cfg, Out, cam, InputConfig)) &&
    SoleLinkFrom(g.links, ctl, Link(ctl, Out, cam, InputControl)) &&
    forall l :: l in g.links && l.input != FrameInput ==> l.from == cfg || l.from == ctl
  }

  /** The host's "config" and "control" inputs reach the colour camera only. */
  ghost predicate HostInputsOnlyToColor(g: Graph) {
    exists cfg: nat, ctl: nat, cam: nat :: HostInputsVia(g, cfg, ctl, cam)
  }

  /**
    Node `c`, the sensor in `role`, feeds from its port `port` only the encoder
    `e`, which nothing else feeds; `e` feeds only the host output `o` named
    `name`, which nothing else feeds.
   */
  predicate StreamVia(g: Graph, role: Role, port: Output, name: string, c: nat, e: nat, o: nat) {
    c < |g.nodes| && e < |g.nodes| && o < |g.nodes| &&
    IsSensor(g.nodes[c], role) && g.nodes[e].VideoEncoder? && g.nodes[o] == XLinkOut(Some(name)) &&
    SoleLinkFrom(g.links, c, Link(c, port, e, FrameInput)) && SoleLinkInto(g.links, e, Link(c, port, e, FrameInput)) &&
    SoleLinkFrom(g.links, e, Link(e, Bitstream, o, FrameInput)) && SoleLinkInto(g.links, o, Link(e, Bitstream, o, FrameInput))
  }

  /** The sensor in `role` reaches the host output `name` through exactly one encoder of its own. */
  ghost predicate EncodedStream(g: Graph, role: Role, port: Output, name: string) {
    exists c: nat, e: nat, o: nat :: StreamVia(g, role, port, name, c, e, o)
  }

  /** Node `i`, the IMU, feeds only the host output `o` named "imu", which nothing else feeds. */
  predicate ImuVia(g: Graph, i: nat, o: nat) {
    i < |g.nodes| && o < |g.nodes| &&
    IsSensor(g.nodes[i], InertialSensor) && g.nodes[o] == XLinkOut(Some("imu")) &&
    SoleLinkFrom(g.links, i, Link(i, Out, o, FrameInput)) && SoleLinkInto(g.links, o, Link(i, Out, o, FrameInput))
  }

  /** The IMU feeds the host output "imu" directly, with no encoder between. */
  ghost predicate DirectImuStream(g: Graph) {
    exists i: nat, o: nat :: ImuVia(g, i, o)
  }

  /** All encoders share one preset (frame rate and profile) and one quality. */
  predicate EncodersShare(g: Graph, fps: Fps, profile: Profile, quality: int) {
    forall n :: n in g.nodes && n.VideoEncoder? ==> n == VideoEncoder(Some(Preset(fps, profile)), Some(quality))
  }

  /** The fixed topology of the graph. */
  ghost predicate Wired(g: Graph) {
    WellFormed(g) &&
    ExactlyOneSensor(g, LeftMono) && ExactlyOneSensor(g, RightMono) &&
    ExactlyOneSensor(g, ColorSensor) && ExactlyOneSensor(g, InertialSensor) &&
    HostInputsOnlyToColor(g) &&
    EncodedStream(g, LeftMono, Out, "left") &&
    EncodedStream(g, RightMono, Out, "right") &&
    EncodedStream(g, ColorSensor, Video, "rgb") &&
    DirectImuStream(g)
  }

  lemma ExpectedGraphWellFormed(mono: MonoResolution, color: ColorResolution, profile: Profile, fps: Fps, quality: int)
    ensures WellFormed(ExpectedGraph(mono, color, profile, fps, quality))
  {
    var nodes := ExpectedGraph(mono, color, profile, fps, quality).nodes;
    forall k | 0 <= k < |ExpectedLinks|
      ensures LinkFits(nodes, ExpectedLinks[k])
    {
      assert k in {0, 1, 2, 3, 4, 5, 6, 7, 8};
    }
  }

  lemma ExpectedGraphSensor(mono: MonoResolution, color: ColorResolution, profile: Profile, fps: Fps, quality: int, role: Role)
    ensures ExactlyOneSensor(ExpectedGraph(mono, color, profile, fps, quality), role)
  {
    var g := ExpectedGraph(mono, color, profile, fps, quality);
    var i := match role
      case LeftMono => MonoLeftId
      case RightMono => MonoRightId
      case ColorSensor => ColorCamId
      case InertialSensor => ImuId;
    assert IsSensor(g.nodes[i], role);
    forall j | 0 <= j < |g.nodes| && IsSensor(g.nodes[j], role)
      ensures j == i
    {
      assert j in {0, 1, 2, 3, 4, 5, 6, 7, 8, 9, 10, 11, 12};
    }
  }

  /** The host inputs' links: one each, and no other link reaches a config or control input. */
  lemma ExpectedHostLinks()
    ensures SoleLinkFrom(ExpectedLinks, ConfigInId, ExpectedLinks[0])
    ensures SoleLinkFrom(ExpectedLinks, ControlInId, ExpectedLinks[1])
    ensures forall l :: l in ExpectedLinks && l.input != FrameInput ==> l.from == ConfigInId || l.from == ControlInId
  {
  }

  /** The mono cameras' links: camera -> encoder -> host output, each link the only one at both ends. */
  lemma ExpectedMonoLinks()
    ensures SoleLinkFrom(ExpectedLinks, MonoLeftId, ExpectedLinks[2]) && SoleLinkInto(ExpectedLinks, EncLeftId, ExpectedLinks[2])
    ensures SoleLinkFrom(ExpectedLinks, MonoRightId, ExpectedLinks[3]) && SoleLinkInto(ExpectedLinks, EncRightId, ExpectedLinks[3])
    ensures SoleLinkFrom(ExpectedLinks, EncLeftId, ExpectedLinks[4]) && SoleLinkInto(ExpectedLinks, XoutLeftId, ExpectedLinks[4])
    ensures SoleLinkFrom(ExpectedLinks, EncRightId, ExpectedLinks[5]) && SoleLinkInto(ExpectedLinks, XoutRightId, ExpectedLinks[5])
  {
  }

  /** The colour camera's and the IMU's links, each the only one at both ends. */
  lemma ExpectedRgbImuLinks()
    ensures SoleLinkFrom(ExpectedLinks, ColorCamId, ExpectedLinks[6]) && SoleLinkInto(ExpectedLinks, EncRgbId, ExpectedLinks[6])
    ensures SoleLinkFrom(ExpectedLinks, EncRgbId, ExpectedLinks[7]) && SoleLinkInto(ExpectedLinks, XoutRgbId, ExpectedLinks[7])
    ensures SoleLinkFrom(ExpectedLinks, ImuId, ExpectedLinks[8]) && SoleLinkInto(ExpectedLinks, XoutImuId, ExpectedLinks[8])
  {
  }

  lemma ExpectedGraphHostInputs(mono: MonoResolution, color: ColorResolution, profile: Profile, fps: Fps, quality: int)
    ensures HostInputsOnlyToColor(ExpectedGraph(mono, color, profile, fps, quality))
  {
    ExpectedHostLinks();
    assert HostInputsVia(ExpectedGraph(mono, color, profile, fps, quality), ConfigInId, ControlInId, ColorCamId);
  }

  lemma ExpectedGraphLeft(mono: MonoResolution, color: ColorResolution, profile: Profile, fps: Fps, quality: int)
    ensures EncodedStream(ExpectedGraph(mono, color, profile, fps, quality), LeftMono, Out, "left")
  {
    ExpectedMonoLinks();
    assert StreamVia(ExpectedGraph(mono, color, profile, fps, quality), LeftMono, Out, "left", MonoLeftId, EncLeftId, XoutLeftId);
  }

  lemma ExpectedGraphRight(mono: MonoResolution, color: ColorResolution, profile: Profile, fps: Fps, quality: int)
    ensures EncodedStream(ExpectedGraph(mono, color, profile, fps, quality), RightMono, Out, "right")
  {
    ExpectedMonoLinks();
    assert StreamVia(ExpectedGraph(mono, color, profile, fps, quality), RightMono, Out, "right", MonoRightId, EncRightId, XoutRightId);
  }

  lemma ExpectedGraphRgb(mono: MonoResolution, color: ColorResolution, profile: Profile, fps: Fps, quality: int)
    ensures EncodedStream(ExpectedGraph(mono, color, profile, fps, quality), ColorSensor, Video, "rgb")
  {
    ExpectedRgbImuLinks();
    assert StreamVia(ExpectedGraph(mono, color, profile, fps, quality), ColorSensor, Video, "rgb", ColorCamId, EncRgbId, XoutRgbId);
  }

  lemma ExpectedGraphImu(mono: MonoResolution, color: ColorResolution, profile: Profile, fps: Fps, quality: int)
    ensures DirectImuStream(ExpectedGraph(mono, color, profile, fps, quality))
  {
    ExpectedRgbImuLinks();
    assert ImuVia(ExpectedGraph(mono, color, profile, fps, quality), ImuId, XoutImuId);
  }

  /** All three encoders of the expected graph get the caller's frame rate, the chosen profile and the caller's quality. */
  lemma ExpectedGraphEncoders(mono: MonoResolution, color: ColorResolution, profile: Profile, fps: Fps, quality: int)
    ensures EncodersShare(ExpectedGraph(mono, color, profile, fps, quality), fps, profile, quality)
  {
  }

  /** The expected graph has the fixed topology. */
  lemma ExpectedGraphWired(mono: MonoResolution, color: ColorResolution, profile: Profile, fps: Fps, quality: int)
    ensures Wired(ExpectedGraph(mono, color, profile, fps, quality))
  {
    ExpectedGraphSensor(mono, color, profile, fps, quality, LeftMono);
    ExpectedGraphSensor(mono, color, profile, fps, quality, RightMono);
    ExpectedGraphSensor(mono, color, profile, fps, quality, ColorSensor);
    ExpectedGraphSensor(mono, color, profile, fps, quality, InertialSensor);
    ExpectedGraphWellFormed(mono, color, profile, fps, quality);
    ExpectedGraphHostInputs(mono, color, profile, fps, quality);
    ExpectedGraphLeft(mono, color, profile, fps, quality);
    ExpectedGraphRight(mono, color, profile, fps, quality);
    ExpectedGraphRgb(mono, color, profile, fps, quality);
    ExpectedGraphImu(mono, color, profile, fps, quality);
  }

  // ---------------------------------------------------------------------------
  // The builder

  /** The nodes right after creation: kinds in creation order, nothing set. */
  const BlankNodes: seq<Node> :=
    [ NewNode(MonoCameraKind), NewNode(MonoCameraKind), NewNode(ColorCameraKind), NewNode(ImuKind),
      NewNode(VideoEncoderKind), NewNode(VideoEncoderKind), NewNode(VideoEncoderKind),
      NewNode(XLinkOutKind), NewNode(XLinkOutKind), NewNode(XLinkOutKind), NewNode(XLinkOutKind),
      NewNode(XLinkInKind), NewNode(XLinkInKind) ]

  /** Each node id holds a node of the kind created under it. */
  predicate Layout(nodes: seq<Node>) {
    |nodes| == 13 &&
    nodes[MonoLeftId].MonoCamera? && nodes[MonoRightId].MonoCamera? && nodes[ColorCamId].ColorCamera? &&
    nodes[ImuId].Imu? &&
    nodes[EncLeftId].VideoEncoder? && nodes[EncRightId].VideoEncoder? && nodes[EncRgbId].VideoEncoder? &&
    nodes[XoutLeftId].XLinkOut? && nodes[XoutRightId].XLinkOut? && nodes[XoutRgbId].XLinkOut? &&
    nodes[XoutImuId].XLinkOut? && nodes[ConfigInId].XLinkIn? && nodes[ControlInId].XLinkIn?
  }

  lemma BlankLayout()
    ensures Layout(BlankNodes)
  {
  }

  /** Sensors, encoders, host outputs, host inputs, in that order. */
  method CreateNodes(pipeline: Pipeline)
    requires pipeline.Valid() && pipeline.nodes == []
    modifies pipeline
    ensures pipeline.Valid() && pipeline.nodes == BlankNodes && pipeline.links == old(pipeline.links)
  {
    var monoLeft := pipeline.Create(MonoCameraKind);
    var monoRight := pipeline.Create(MonoCameraKind);
    var colorCam := pipeline.Create(ColorCameraKind);
    var imu := pipeline.Create(ImuKind);
    var encLeft := pipeline.Create(VideoEncoderKind);
    var encRight := pipeline.Create(VideoEncoderKind);
    var encRgb := pipeline.Create(VideoEncoderKind);
    var xoutLeft := pipeline.Create(XLinkOutKind);
    var xoutRight := pipeline.Create(XLinkOutKind);
    var xoutRgb := pipeline.Create(XLinkOutKind);
    var xoutImu := pipeline.Create(XLinkOutKind);
    var configIn := pipeline.Create(XLinkInKind);
    var controlIn := pipeline.Create(XLinkInKind);
    assert controlIn == ControlInId;
  }

  /** Resolution, board socket and frame rate of both mono cameras. */
  method ConfigureMonoCameras(pipeline: Pipeline, monoResolution: MonoResolution, fps: Fps)
    requires pipeline.Valid() && Layout(pipeline.nodes)
    modifies pipeline
    ensures pipeline.Valid() && Layout(pipeline.nodes) && pipeline.links == old(pipeline.links)
    ensures pipeline.nodes == old(pipeline.nodes)
      [MonoLeftId := MonoCamera(Some(Left), Some(monoResolution), Some(fps))]
      [MonoRightId := MonoCamera(Some(Right), Some(monoResolution), Some(fps))]
  {
    pipeline.Configure(MonoLeftId, pipeline.nodes[MonoLeftId].SetMonoResolution(monoResolution));
    pipeline.Configure(MonoLeftId, pipeline.nodes[MonoLeftId].SetBoardSocket(Left));
    pipeline.Configure(MonoLeftId, pipeline.nodes[MonoLeftId].SetFps(fps));
    pipeline.Configure(MonoRightId, pipeline.nodes[MonoRightId].SetMonoResolution(monoResolution));
    pipeline.Configure(MonoRightId, pipeline.nodes[MonoRightId].SetBoardSocket(Right));
    pipeline.Configure(MonoRightId, pipeline.nodes[MonoRightId].SetFps(fps));
  }

  /** Board socket, resolution, frame rate and planar (not interleaved) output of the colour camera. */
  method ConfigureColorCamera(pipeline: Pipeline, colorResolution: ColorResolution, fps: Fps)
    requires pipeline.Valid() && Layout(pipeline.nodes)
    modifies pipeline
    ensures pipeline.Valid() && Layout(pipeline.nodes) && pipeline.links == old(pipeline.links)
    ensures pipeline.nodes == old(pipeline.nodes)
      [ColorCamId := ColorCamera(Some(Rgb), Some(colorResolution), Some(fps), Some(false))]
  {
    pipeline.Configure(ColorCamId, pipeline.nodes[ColorCamId].SetBoardSocket(Rgb));
    pipeline.Configure(ColorCamId, pipeline.nodes[ColorCamId].SetColorResolution(colorResolution));
    pipeline.Configure(ColorCamId, pipeline.nodes[ColorCamId].SetFps(fps));
    pipeline.Configure(ColorCamId, pipeline.nodes[ColorCamId].SetInterleaved(false));
  }

  /** The two enabled IMU reports and the batching limits. */
  method ConfigureImu(pipeline: Pipeline)
    requires pipeline.Valid() && Layout(pipeline.nodes)
    modifies pipeline
    ensures pipeline.Valid() && Layout(pipeline.nodes) && pipeline.links == old(pipeline.links)
    ensures pipeline.nodes == old(pipeline.nodes)
      [ImuId := Imu(old(pipeline.nodes[ImuId].reports) + ImuReports, Some(5), Some(20))]
  {
    var reports := pipeline.nodes[ImuId].reports;
    pipeline.Configure(ImuId, pipeline.nodes[ImuId].EnableImuSensor(ImuReport(AccelerometerRaw, 500)));
    pipeline.Configure(ImuId, pipeline.nodes[ImuId].EnableImuSensor(ImuReport(GyroscopeRaw, 400)));
    pipeline.Configure(ImuId, pipeline.nodes[ImuId].SetBatchReportThreshold(5));
    pipeline.Configure(ImuId, pipeline.nodes[ImuId].SetMaxBatchReports(20));
    assert reports + [ImuReport(AccelerometerRaw, 500)] + [ImuReport(GyroscopeRaw, 400)] == reports + ImuReports;
  }

  /** The same preset and quality on all three encoders (RGB first, as the source sets them). */
  method ConfigureEncoders(pipeline: Pipeline, profile: Profile, fps: Fps, quality: int)
    requires pipeline.Valid() && Layout(pipeline.nodes)
    modifies pipeline
    ensures pipeline.Valid() && Layout(pipeline.nodes) && pipeline.links == old(pipeline.links)
    ensures var encoder := VideoEncoder(Some(Preset(fps, profile)), Some(quality));
      pipeline.nodes == old(pipeline.nodes)[EncLeftId := encoder][EncRightId := encoder][EncRgbId := encoder]
  {
    pipeline.Configure(EncRgbId, pipeline.nodes[EncRgbId].SetDefaultProfilePreset(fps, profile));
    pipeline.Configure(EncLeftId, pipeline.nodes[EncLeftId].SetDefaultProfilePreset(fps, profile));
    pipeline.Configure(EncRightId, pipeline.nodes[EncRightId].SetDefaultProfilePreset(fps, profile));
    pipeline.Configure(EncRgbId, pipeline.nodes[EncRgbId].SetQuality(quality));
    pipeline.Configure(EncLeftId, pipeline.nodes[EncLeftId].SetQuality(quality));
    pipeline.Configure(EncRightId, pipeline.nodes[EncRightId].SetQuality(quality));
  }

  /** The host inputs "config" and "control", linked to the colour camera's config and control inputs. */
  method LinkHostInputs(pipeline: Pipeline)
    requires pipeline.Valid() && Layout(pipeline.nodes)
    modifies pipeline
    ensures pipeline.Valid() && Layout(pipeline.nodes)
    ensures pipeline.nodes == old(pipeline.nodes)
      [ConfigInId := XLinkIn(Some("config"))][ControlInId := XLinkIn(Some("control"))]
    ensures pipeline.links == old(pipeline.links) +
      [Link(ConfigInId, Out, ColorCamId, InputConfig), Link(ControlInId, Out, ColorCamId, InputControl)]
  {
    pipeline.Configure(ConfigInId, pipeline.nodes[ConfigInId].SetStreamName("config"));
    pipeline.AddLink(Link(ConfigInId, Out, ColorCamId, InputConfig));
    pipeline.Configure(ControlInId, pipeline.nodes[ControlInId].SetStreamName("control"));
    pipeline.AddLink(Link(ControlInId, Out, ColorCamId, InputControl));
  }

  /** Camera -> encoder -> host output for each video stream, and IMU -> host output. */
  method LinkStreams(pipeline: Pipeline)
    requires pipeline.Valid() && Layout(pipeline.nodes)
    modifies pipeline
    ensures pipeline.Valid() && pipeline.nodes == old(pipeline.nodes)
    ensures pipeline.links == old(pipeline.links) +
      [ Link(MonoLeftId, Out, EncLeftId, FrameInput), Link(MonoRightId, Out, EncRightId, FrameInput),
        Link(EncLeftId, Bitstream, XoutLeftId, FrameInput), Link(EncRightId, Bitstream, XoutRightId, FrameInput),
        Link(ColorCamId, Video, EncRgbId, FrameInput), Link(EncRgbId, Bitstream, XoutRgbId, FrameInput),
        Link(ImuId, Out, XoutImuId, FrameInput) ]
  {
    pipeline.AddLink(Link(MonoLeftId, Out, EncLeftId, FrameInput));
    pipeline.AddLink(Link(MonoRightId, Out, EncRightId, FrameInput));
    pipeline.AddLink(Link(EncLeftId, Bitstream, XoutLeftId, FrameInput));
    pipeline.AddLink(Link(EncRightId, Bitstream, XoutRightId, FrameInput));
    pipeline.AddLink(Link(ColorCamId, Video, EncRgbId, FrameInput));
    pipeline.AddLink(Link(EncRgbId, Bitstream, XoutRgbId, FrameInput));
    pipeline.AddLink(Link(ImuId, Out, XoutImuId, FrameInput));
  }

  /** Stream names of the host outputs. */
  method NameOutputs(pipeline: Pipeline)
    requires pipeline.Valid() && Layout(pipeline.nodes)
    modifies pipeline
    ensures pipeline.Valid() && pipeline.links == old(pipeline.links)
    ensures pipeline.nodes == old(pipeline.nodes)
      [XoutLeftId := XLinkOut(Some("left"))][XoutRightId := XLinkOut(Some("right"))]
      [XoutRgbId := XLinkOut(Some("rgb"))][XoutImuId := XLinkOut(Some("imu"))]
  {
    pipeline.Configure(XoutLeftId, pipeline.nodes[XoutLeftId].SetStreamName("left"));
    pipeline.Configure(XoutRightId, pipeline.nodes[XoutRightId].SetStreamName("right"));
    pipeline.Configure(XoutRgbId, pipeline.nodes[XoutRgbId].SetStreamName("rgb"));
    pipeline.Configure(XoutImuId, pipeline.nodes[XoutImuId].SetStreamName("imu"));
  }

  /** The phases' updates, applied to the blank nodes, give the expected nodes. */
  lemma AssembledNodes(mono: MonoResolution, color: ColorResolution, profile: Profile, fps: Fps, quality: int)
    ensures var encoder := VideoEncoder(Some(Preset(fps, profile)), Some(quality));
      BlankNodes
        [MonoLeftId := MonoCamera(Some(Left), Some(mono), Some(fps))]
        [MonoRightId := MonoCamera(Some(Right), Some(mono), Some(fps))]
        [ColorCamId := ColorCamera(Some(Rgb), Some(color), Some(fps), Some(false))]
        [ImuId := Imu(BlankNodes[ImuId].reports + ImuReports, Some(5), Some(20))]
        [EncLeftId := encoder][EncRightId := encoder][EncRgbId := encoder]
        [ConfigInId := XLinkIn(Some("config"))][ControlInId := XLinkIn(Some("control"))]
        [XoutLeftId := XLinkOut(Some("left"))][XoutRightId := XLinkOut(Some("right"))]
        [XoutRgbId := XLinkOut(Some("rgb"))][XoutImuId := XLinkOut(Some("imu"))]
      == ExpectedGraph(mono, color, profile, fps, quality).nodes
  {
    assert BlankNodes[ImuId].reports + ImuReports == ImuReports;
  }

  /** The links of the two linking phases, in order, are the expected links. */
  lemma AssembledLinks()
    ensures [] + [ ExpectedLinks[0], ExpectedLinks[1] ]
      + [ ExpectedLinks[2], ExpectedLinks[3], ExpectedLinks[4], ExpectedLinks[5], ExpectedLinks[6], ExpectedLinks[7],
          ExpectedLinks[8] ]
      == ExpectedLinks
  {
  }

  /**
    Builds the graph for the given options. An unknown stereo resolution
    aborts the build after the nodes exist and before anything is configured;
    the nodes are discarded with the pipeline.
   */
  method CreatePipeline(rgbResolution: string, stereoResolution: string, codec: string, fps: Fps, quality: int,
                        disparity: bool, rectify: bool)
    returns (r: Result<Built, PipelineError>)
    ensures r.Err? <==> stereoResolution !in StereoNames
    ensures r.Err? ==> r.error == InvalidMonoResolution(stereoResolution)
    ensures r.Ok? ==>
      var mono := StereoResolution(stereoResolution).value;
      r.value.graph == ExpectedGraph(mono, ColorResolutionOf(rgbResolution), CodecProfile(codec), fps, quality) &&
      (r.value.stereoWidth, r.value.stereoHeight) == StereoSize(mono)
    ensures r.Ok? ==> Wired(r.value.graph) && EncodersShare(r.value.graph, fps, CodecProfile(codec), quality)
  {
    var pipeline := new Pipeline();
    // Rectification feeds only the depth stage, which this graph does not have.
    var keepRectify := EffectiveRectify(disparity, rectify);

    CreateNodes(pipeline);
    BlankLayout();

    var mono := StereoResolution(stereoResolution);
    if mono.Err? {
      return Err(mono.error);
    }
    var monoResolution := mono.value;
    var (stereoWidth, stereoHeight) := StereoSize(monoResolution);
    ConfigureMonoCameras(pipeline, monoResolution, fps);

    var colorResolution := ColorResolutionOf(rgbResolution);
    ConfigureColorCamera(pipeline, colorResolution, fps);
    ConfigureImu(pipeline);

    var encoderProfile := CodecProfile(codec);
    ConfigureEncoders(pipeline, encoderProfile, fps, quality);

    LinkHostInputs(pipeline);
    LinkStreams(pipeline);
    NameOutputs(pipeline);

    var graph := pipeline.Snapshot();
    AssembledNodes(monoResolution, colorResolution, encoderProfile, fps, quality);
    AssembledLinks();
    assert graph == ExpectedGraph(monoResolution, colorResolution, encoderProfile, fps, quality);
    ExpectedGraphWired(monoResolution, colorResolution, encoderProfile, fps, quality);
    ExpectedGraphEncoders(monoResolution, colorResolution, encoderProfile, fps, quality);
    r := Ok(Built(graph, stereoWidth, stereoHeight));
  }

  // ---------------------------------------------------------------------------
  // Scenarios

  /** The stereo table, entry by entry. */
  lemma StereoTable()
    ensures StereoResolution("720p").Ok? && StereoSize(StereoResolution("720p").value) == (1280, 720)
    ensures StereoResolution("400p").Ok? && StereoSize(StereoResolution("400p").value) == (640, 400)
    ensures StereoResolution("800p").Ok? && StereoSize(StereoResolution("800p").value) == (1280, 800)
    ensures StereoResolution("480p").Ok? && StereoSize(StereoResolution("480p").value) == (640, 480)
  {
  }

  /** Scenario: 400p stereo, 1080p colour, MJPEG, 30 fps, quality 90, no disparity. */
  method ScenarioValid() returns (r: Result<Built, PipelineError>)
    ensures r == Ok(Built(ExpectedGraph(Mono400P, Color1080P, Mjpeg, 30.0, 90), 640, 400))
  {
    r := CreatePipeline("1080p", "400p", "MJPEG", 30.0, 90, false, true);
  }

  /** Scenario: an unknown stereo resolution yields no graph. */
  method ScenarioBogusStereo() returns (r: Result<Built, PipelineError>)
    ensures r == Err(InvalidMonoResolution("bogus"))
  {
    r := CreatePipeline("1080p", "bogus", "MJPEG", 30.0, 90, false, false);
  }
}
