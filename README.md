# oak_driver raw stereo publisher — graph builder and camera control

This project models the core of the ROS node `raw_stereo_publisher` for OAK
cameras. The core has two parts.

- **Pipeline construction** (`createPipeline`) builds the dataflow graph the
  host uploads to the camera. It creates 13 nodes:
  - two mono cameras, one colour camera and an IMU;
  - three video encoders;
  - four host outputs (`left`, `right`, `rgb`, `imu`);
  - two host inputs (`config`, `control`).

  It also does the following:
  - It maps the stereo resolution option strictly: an unknown string aborts the build.
  - It maps the colour resolution option, falling back to 1080p.
  - It maps the codec option, falling back to MJPEG.
  - It drops rectification when disparity is off.
  - It configures each node and wires the fixed topology.
  - It returns the graph together with the stereo frame width and height.
- **Reconfiguration** (`reconfigureCallback`) turns a requested camera state
  into one camera control message. The message is an ordered sequence of
  setter calls chosen by the focus, exposure and white-balance rules. It is
  sent on the control queue only when that queue exists.

Modules:

- `Wrappers`: `Option` and `Result`.
- `PipelineGraph`: node kinds and their setters, ports, links, and the
  `Pipeline` class. The class is the graph grown one `create`, setter or
  `link` call at a time, and its methods keep it well formed.
- `PipelineBuilder`:
  - the option string tables;
  - `CreatePipeline`, a method that drives a `Pipeline` in the source's order of calls;
  - the reference graph `ExpectedGraph`;
  - the shape predicates (`Wired`, `EncodersShare`) with their lemmas.
- `ControlTranslator`:
  - the directive datatype and the three rule functions, whose concatenation
    is the reference message `Directives`;
  - the classes `CameraControl` and `ControlQueue`;
  - the methods `BuildControl` and `ReconfigureCallback`;
  - the counting lemmas that state each rule.

Node ids are positions in creation order, 0 to 12, as the source creates the
nodes at lines 35-57.

The model follows the code in these details:

- **Auto exposure** is four separate setter calls (enable, lock,
  compensation, anti-banding), not one combined directive.
- **White balance** takes the auto branch when the mode is `> 0`. A
  negative mode takes the manual branch.
- **White-balance lock**: under auto white balance, the lock setter is given
  the mode value itself as its argument. The model keeps that integer
  unchanged (`ControlTranslator.WhiteBalanceArbitration`).
- **Unknown stereo resolution**: the failure comes after all 13 nodes have
  been created and before any of them is configured. The partly built graph
  is discarded, and the model returns `Err` at that point.

## Model

| member | source | states |
|---|---|---|
| PipelineBuilder.StereoResolution | src/raw_stereo_publisher.cpp:64-83 | succeeds exactly for the four stereo names; the resolution found is the one that name denotes; any other string is the error `InvalidMonoResolution(s)`, never a default |
| PipelineBuilder.StereoTable | src/raw_stereo_publisher.cpp:64-79 | 720p gives 1280x720, 400p gives 640x400, 800p gives 1280x800, 480p gives 640x480 |
| PipelineBuilder.StereoRoundTrip | src/raw_stereo_publisher.cpp:64-79 | every mono resolution's option name is accepted and maps back to that resolution |
| PipelineBuilder.StereoSize | src/raw_stereo_publisher.cpp:66-79 | the frame size returned for each stereo resolution: its height is the number in the option name ("<height>p"), and its width is 640 for heights up to 480 and 1280 above |
| PipelineBuilder.ColorResolutionOf | src/raw_stereo_publisher.cpp:111-127 | a known colour name maps to the resolution of that name; any other string falls back to 1080p |
| PipelineBuilder.ColorRoundTrip | src/raw_stereo_publisher.cpp:111-122 | every colour resolution's name is known and maps back to it |
| PipelineBuilder.CodecProfile | src/raw_stereo_publisher.cpp:148-163 | a known codec name maps to the profile of that name; any other string falls back to MJPEG |
| PipelineBuilder.CodecRoundTrip | src/raw_stereo_publisher.cpp:149-158 | every encoder profile's name is known and maps back to it |
| PipelineBuilder.EffectiveRectify | src/raw_stereo_publisher.cpp:31-32 | rectification is off whenever disparity is off, and is the requested value otherwise |
| PipelineBuilder.TopicFollowsRectify | src/raw_stereo_publisher.cpp:371-376 | a mono stream is republished on the `_rect` topic exactly when rectification survives the disparity rule |
| PipelineBuilder.CompressedTopic | src/raw_stereo_publisher.cpp:371-376 | a mono stream is republished on `<side>/compressed` or on `<side>/compressed_rect`, and on no other topic |
| PipelineGraph.NewNode | src/raw_stereo_publisher.cpp:35-57 | `create<kind>()` gives a node of that kind with no attribute set and no IMU report enabled |
| PipelineGraph.Node.SetBoardSocket | src/raw_stereo_publisher.cpp:87 | on a mono or colour camera, records the socket and keeps every other attribute; any other node is unchanged |
| PipelineGraph.Node.SetMonoResolution | src/raw_stereo_publisher.cpp:86 | on a mono camera, records the resolution and keeps socket and frame rate; any other node is unchanged |
| PipelineGraph.Node.SetColorResolution | src/raw_stereo_publisher.cpp:130 | on the colour camera, records the resolution and keeps its other attributes; any other node is unchanged |
| PipelineGraph.Node.SetFps | src/raw_stereo_publisher.cpp:88-91 | on a mono or colour camera, records the frame rate and keeps every other attribute; any other node is unchanged |
| PipelineGraph.Node.SetInterleaved | src/raw_stereo_publisher.cpp:132 | on the colour camera, records the interleaving flag and keeps its other attributes; any other node is unchanged |
| PipelineGraph.Node.EnableImuSensor | src/raw_stereo_publisher.cpp:139-140 | on the IMU, appends the report after those already enabled and keeps the batch limits; any other node is unchanged |
| PipelineGraph.Node.SetBatchReportThreshold | src/raw_stereo_publisher.cpp:141 | on the IMU, records the threshold and keeps the reports and the batch maximum; any other node is unchanged |
| PipelineGraph.Node.SetMaxBatchReports | src/raw_stereo_publisher.cpp:142 | on the IMU, records the batch maximum and keeps the reports and the threshold; any other node is unchanged |
| PipelineGraph.Node.SetDefaultProfilePreset | src/raw_stereo_publisher.cpp:165-167 | on an encoder, records the preset (frame rate and profile) and keeps its quality; any other node is unchanged |
| PipelineGraph.Node.SetQuality | src/raw_stereo_publisher.cpp:171-173 | on an encoder, records the quality and keeps its preset; any other node is unchanged |
| PipelineGraph.Node.SetStreamName | src/raw_stereo_publisher.cpp:181-224 | on a host output or host input, records the stream name; any other node is unchanged |
| PipelineGraph.Pipeline.constructor | src/raw_stereo_publisher.cpp:29 | a new pipeline has no nodes and no links |
| PipelineGraph.Pipeline.Create | src/raw_stereo_publisher.cpp:35-57 | appends one blank node of the kind asked for, returns its position as its id, keeps the links and keeps the graph well formed |
| PipelineGraph.Pipeline.Configure | src/raw_stereo_publisher.cpp:86-91 | replaces one node by one of the same kind and changes nothing else; the graph stays well formed |
| PipelineGraph.Pipeline.AddLink | src/raw_stereo_publisher.cpp:182-218 | appends a link only between ports the two nodes have; the nodes are unchanged and the graph stays well formed |
| PipelineBuilder.CreateNodes | src/raw_stereo_publisher.cpp:35-57 | the pipeline holds 13 blank nodes, in creation order: mono left, mono right, colour camera, IMU, three encoders, four host outputs, two host inputs |
| PipelineBuilder.ConfigureMonoCameras | src/raw_stereo_publisher.cpp:86-91 | both mono cameras get the chosen resolution, their own socket (left, right) and the caller's frame rate; no other node changes |
| PipelineBuilder.ConfigureColorCamera | src/raw_stereo_publisher.cpp:129-132 | the colour camera gets the RGB socket, the chosen resolution, the frame rate and planar (non-interleaved) output; no other node changes |
| PipelineBuilder.ConfigureImu | src/raw_stereo_publisher.cpp:139-142 | the IMU reports raw acceleration at 500 Hz and raw rotation at 400 Hz, with batch threshold 5 and at most 20 reports per batch |
| PipelineBuilder.ConfigureEncoders | src/raw_stereo_publisher.cpp:165-173 | all three encoders get the caller's frame rate, the chosen profile and the caller's quality |
| PipelineBuilder.LinkHostInputs | src/raw_stereo_publisher.cpp:181-185 | names the host inputs `config` and `control` and links them to the colour camera's config and control inputs |
| PipelineBuilder.LinkStreams | src/raw_stereo_publisher.cpp:196-218 | adds the seven data links in source order: each mono camera to its encoder, each encoder to its host output, colour video to its encoder and on to its output, IMU to its output |
| PipelineBuilder.NameOutputs | src/raw_stereo_publisher.cpp:221-224 | names the host outputs `left`, `right`, `rgb` and `imu` |
| PipelineBuilder.CreatePipeline | src/raw_stereo_publisher.cpp:28-231 | fails exactly when the stereo name is unknown, with that name in the error; otherwise returns the reference graph for the decoded options, in the fixed topology and with shared encoder settings, together with the width and height of the chosen stereo resolution |
| PipelineBuilder.ExpectedGraph | src/raw_stereo_publisher.cpp:35-224 | the reference graph has 13 nodes and 9 links; its nodes 0 to 3 are the left and right mono cameras, the RGB colour camera and the IMU; both mono cameras carry the chosen stereo resolution, the colour camera the chosen colour resolution, and all three cameras the caller's frame rate |
| PipelineBuilder.ExpectedGraphWellFormed | src/raw_stereo_publisher.cpp:182-218 | every link of the built graph joins existing nodes through ports they have |
| PipelineBuilder.ExpectedGraphSensor | src/raw_stereo_publisher.cpp:35-38 | exactly one node each is the left mono camera, the right mono camera, the RGB colour camera and the IMU |
| PipelineBuilder.ExpectedGraphHostInputs | src/raw_stereo_publisher.cpp:181-186 | the `config` and `control` host inputs each reach only the colour camera, at its config and control input; nothing else reaches a camera's config or control input |
| PipelineBuilder.ExpectedGraphLeft | src/raw_stereo_publisher.cpp:196-221 | the left camera reaches host output `left` through one encoder of its own, each link the only one at both of its ends |
| PipelineBuilder.ExpectedGraphRight | src/raw_stereo_publisher.cpp:197-222 | the right camera reaches host output `right` through one encoder of its own |
| PipelineBuilder.ExpectedGraphRgb | src/raw_stereo_publisher.cpp:213-223 | the colour camera's video output reaches host output `rgb` through one encoder of its own |
| PipelineBuilder.ExpectedGraphImu | src/raw_stereo_publisher.cpp:218-224 | the IMU reaches host output `imu` directly, with no encoder |
| PipelineBuilder.ExpectedGraphEncoders | src/raw_stereo_publisher.cpp:165-173 | every encoder of the graph carries the same frame rate, profile and quality |
| PipelineBuilder.ExpectedGraphWired | src/raw_stereo_publisher.cpp:181-224 | the built graph has the whole fixed topology: well formed, one node per sensor role, host inputs only to the colour camera, three encoded streams and a direct IMU stream |
| PipelineBuilder.ScenarioValid | src/raw_stereo_publisher.cpp:28-231 | options 1080p, 400p, MJPEG, 30 fps, quality 90 give the reference graph and a 640x400 stereo frame |
| PipelineBuilder.ScenarioBogusStereo | src/raw_stereo_publisher.cpp:80-83 | an unknown stereo option yields the error and no graph |
| ControlTranslator.FocusDirectives | src/raw_stereo_publisher.cpp:237-248 | the focus part opens with the mode; a second directive follows exactly when the mode is 0 or a one-shot mode, and it is manual focus for mode 0 and the trigger otherwise |
| ControlTranslator.ExposureDirectives | src/raw_stereo_publisher.cpp:251-263 | the exposure part has four directives starting with the auto-exposure enable when the exposure time is 0, and otherwise the single manual exposure with time and sensitivity; manual exposure appears in it exactly when the time is non-zero |
| ControlTranslator.WhiteBalanceDirectives | src/raw_stereo_publisher.cpp:265-275 | the white-balance part is the mode followed by one directive, which is the lock exactly when the mode is positive, with the mode value as its argument |
| ControlTranslator.Directives | src/raw_stereo_publisher.cpp:237-275 | the message is the focus part, then the exposure part, then two white-balance directives; it opens with the focus mode, and its second-to-last directive is the white-balance mode |
| ControlTranslator.RuleCount | src/raw_stereo_publisher.cpp:237-275 | the rule table allows each setter at most once per message, and always calls the focus-mode and white-balance-mode setters |
| ControlTranslator.CameraControl.Set | src/raw_stereo_publisher.cpp:237-275 | each setter call appends its directive to the message and keeps the earlier ones |
| ControlTranslator.ControlQueue.Send | src/raw_stereo_publisher.cpp:279 | sending appends the message, whole, after those sent before |
| ControlTranslator.BuildControl | src/raw_stereo_publisher.cpp:235-275 | the message built by the sequence of setter calls is exactly the reference message of the three rules |
| ControlTranslator.ReconfigureCallback | src/raw_stereo_publisher.cpp:234-281 | with a control queue, exactly one message, the reference message, is appended to what it has sent; with none, nothing is modified |
| ControlTranslator.SetterCounts | src/raw_stereo_publisher.cpp:237-275 | each setter appears in the message exactly as many times as the rules say, given the requested state |
| ControlTranslator.FocusArbitration | src/raw_stereo_publisher.cpp:237-248 | the focus mode comes first and is set once; manual focus appears exactly when auto focus is off; the trigger appears exactly for the non-zero one-shot modes (below 3, or 5); never both, and neither for modes 3 and 4 |
| ControlTranslator.ExposureArbitration | src/raw_stereo_publisher.cpp:251-263 | exactly one of auto and manual exposure, decided by whether the exposure time is zero; auto exposure carries the requested lock, compensation and anti-banding, and manual exposure carries none of them |
| ControlTranslator.WhiteBalanceArbitration | src/raw_stereo_publisher.cpp:265-275 | the white-balance mode is set once; then exactly one of the lock (positive mode) or the manual temperature (otherwise); the lock's argument is the mode value itself, hence never zero |
| ControlTranslator.DirectiveOrder | src/raw_stereo_publisher.cpp:237-275 | the message holds 4 to 8 directives; it opens with the focus mode, which appears nowhere else; under auto exposure, right after the focus part come the enable, then the lock, compensation and anti-banding; it ends with the white-balance mode followed by the lock or the manual temperature |
| ControlTranslator.ScenarioManualFocusAutoExposure | src/raw_stereo_publisher.cpp:237-275 | focus off at 120, auto exposure (lock on, compensation 2, anti-banding 1) and manual white balance at 4500 K give the eight directives in source order |

## Left out

- The ROS node's `main` is left out: parameter reading, device bring-up, the
  image and IMU publishers, and registering the reconfiguration server. Its
  topic naming rule is the only part kept (`CompressedTopic`).
- Logging (`ROS_INFO`, `ROS_ERROR`) is left out; it has no effect on the graph or the message.
- What the camera library does inside a setter, a link, a message or the device is left out. A setter only records its argument.
- The stereo-depth stage and the disparity output are commented out in the source. They are not modelled, so the effective rectify flag reaches no node.
- An invalid stereo option throws a C++ exception in the source. Here it is an `Err` result.
- PipelineBuilder.StereoResolution: the error's `requested` field stands for the option string the source writes to its error log just before it throws. The exception's own message is fixed and does not contain the string.
- PipelineBuilder.CreatePipeline: the default arguments of the source (frame rate 30, quality 90, disparity and rectify on) are not modelled. Every argument is explicit, as at the source's only call.
- The frame rate is a C++ `float`. It is modelled as a `real` that is only
  passed on. No float rounding and no cast of the rate to an integer is
  modelled.
- The casts of request fields to the library's enum and narrow integer types are left out. Requests are modelled as unbounded integers.
- `ControlTranslator.ReconfigureCallback`: the `level` argument is unused in the source and is ignored.
- `ControlTranslator.ReconfigureCallback`: that nothing is sent without a queue follows from the frame (the method may modify only that queue), not from a separate `ensures`.
- Serialisation of callbacks, and sharing of the global queue with other threads, are left out.
- The unused locals `rgbWidth` and `rgbHeight` are not modelled.
- The global `configQueue` is never used by the core and is not modelled.
