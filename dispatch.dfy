/** The mode dispatch of the autoencoder application as functions: what each
    setup step leaves behind, given the operating mode and the configuration.
    The class in module Application is proved to do exactly this; the lemmas
    here state what the dispatch promises. */
module Dispatch {
  import opened Descriptors

  // ---------------------------------------------------------------------
  // Inference type (_infer_type)

  /** The value the dataset loader stores in `_infer_type`: None when
      training, otherwise the looked-up inference type. */
  function InferType(isTraining: bool, task: Option<TaskParam>): (r: Result<Option<string>>)
    ensures isTraining ==> r == Ok(None)
    ensures !isTraining && r.Ok? ==>
      task.Some? && r.value == Some(task.value.inferenceType) && task.value.inferenceType in SUPPORTED_INFERENCE
    ensures !isTraining && task.None? ==> r == Err(MissingAttribute("inference_type"))
    ensures !isTraining && task.Some? ==>
      (r.Err? <==> task.value.inferenceType !in SUPPORTED_INFERENCE)
  {
    if isTraining then Ok(None)
    else if task.None? then Err(MissingAttribute("inference_type"))
    else
      match LookUpOperations(task.value.inferenceType, SUPPORTED_INFERENCE)
      case Ok(t) => Ok(Some(t))
      case Err(e) => Err(e)
  }

  predicate IsEncoding(inferType: Option<string>)
  {
    inferType == Some("encode") || inferType == Some("encode-decode")
  }

  // ---------------------------------------------------------------------
  // Reader channel choice

  /** The reader slot after the channel choice, before the reader is
      initialised; `prior` survives only when no branch applies. */
  function SelectReader(isTraining: bool, inferType: Option<string>, prior: ReaderSlot): (r: ReaderSlot)
    ensures IsEncoding(inferType) ==> r == Built(ReaderDesc(["image"], None, []))
    ensures inferType == Some("sample") ==> r == EmptyTuple
    ensures inferType == Some("linear_interpolation") ==> r == Built(ReaderDesc(["feature"], None, []))
    ensures inferType.None? ==> r == (if isTraining then Built(ReaderDesc(["image"], None, [])) else prior)
    ensures r != prior && r.Built? ==>
      && r.desc.init.None? && r.desc.layers == []
      && |r.desc.channels| == 1 && r.desc.channels[0] in SUPPORTED_INPUT
  {
    var afterTraining := if isTraining then Built(ReaderDesc(["image"], None, [])) else prior;
    if IsEncoding(inferType) then Built(ReaderDesc(["image"], None, []))
    else if inferType == Some("sample") then EmptyTuple
    else if inferType == Some("linear_interpolation") then Built(ReaderDesc(["feature"], None, []))
    else afterTraining
  }

  // ---------------------------------------------------------------------
  // Augmentation chain

  /** Position of a layer kind in the fixed chain order. */
  function Rank(l: Layer): nat
  {
    match l
    case RandomFlip(_) => 0
    case RandomSpatialScaling(_, _) => 1
    case RandomRotation(_, _) => 2
  }

  predicate FlipEnabled(p: ActionParam)
  {
    p.randomFlippingAxes != IntAxes(-1)
  }

  /** The augmentation layers added to the reader: built only when
      training, in the order flip, scaling, rotation. A non-empty range with
      fewer than two entries fails when its second entry is read. */
  function AugmentationChain(isTraining: bool, p: ActionParam): (r: Result<seq<Layer>>)
    ensures !isTraining ==> r == Ok([])
    ensures r.Err? <==>
      isTraining && (0 < |p.scalingPercentage| < 2 || 0 < |p.rotationAngle| < 2)
    ensures r.Err? ==>
      r.error == if 0 < |p.scalingPercentage| < 2 then IndexOutOfRange("scaling_percentage")
                 else IndexOutOfRange("rotation_angle")
    // the fixed order, with no kind twice
    ensures r.Ok? ==> forall i, j :: 0 <= i < j < |r.value| ==> Rank(r.value[i]) < Rank(r.value[j])
    // each layer is present exactly when its parameter enables it
    ensures r.Ok? ==>
      (RandomFlip(p.randomFlippingAxes) in r.value <==> isTraining && FlipEnabled(p))
    ensures r.Ok? && |p.scalingPercentage| >= 2 ==>
      (RandomSpatialScaling(p.scalingPercentage[0], p.scalingPercentage[1]) in r.value <==> isTraining)
    ensures r.Ok? && |p.rotationAngle| >= 2 ==>
      (RandomRotation(p.rotationAngle[0], p.rotationAngle[1]) in r.value <==> isTraining)
    // and nothing else is in the chain
    ensures r.Ok? ==> forall l :: l in r.value ==>
      (l.RandomFlip? && l == RandomFlip(p.randomFlippingAxes) && FlipEnabled(p)) ||
      (l.RandomSpatialScaling? && |p.scalingPercentage| >= 2 &&
       l == RandomSpatialScaling(p.scalingPercentage[0], p.scalingPercentage[1])) ||
      (l.RandomRotation? && |p.rotationAngle| >= 2 &&
       l == RandomRotation(p.rotationAngle[0], p.rotationAngle[1]))
    ensures r.Ok? ==>
      (r.value == [] <==> !isTraining || (!FlipEnabled(p) && p.scalingPercentage == [] && p.rotationAngle == []))
  {
    if !isTraining then Ok([])
    else if 0 < |p.scalingPercentage| < 2 then Err(IndexOutOfRange("scaling_percentage"))
    else if 0 < |p.rotationAngle| < 2 then Err(IndexOutOfRange("rotation_angle"))
    else
      var flip := if FlipEnabled(p) then [RandomFlip(p.randomFlippingAxes)] else [];
      var scaling := if |p.scalingPercentage| > 0
                     then [RandomSpatialScaling(p.scalingPercentage[0], p.scalingPercentage[1])] else [];
      var rotation := if |p.rotationAngle| > 0
                      then [RandomRotation(p.rotationAngle[0], p.rotationAngle[1])] else [];
      Ok(flip + scaling + rotation)
  }

  // ---------------------------------------------------------------------
  // Dataset loader

  /** What initialise_dataset_loader leaves in `_infer_type` and `reader`,
      and the exception it raises, if any. */
  datatype LoadOutcome = LoadOutcome(inferType: Option<string>, reader: ReaderSlot, err: Option<Error>)

  function Load(isTraining: bool, action: ActionParam, data: Option<DataParam>, task: Option<TaskParam>,
                priorInferType: Option<string>, priorReader: ReaderSlot): (o: LoadOutcome)
    // Outside training only the mode lookup can fail, and then nothing is assigned.
    ensures o.err.Some? && !isTraining ==>
      && o.inferType == priorInferType && o.reader == priorReader
      && (o.err.value.UnsupportedOperation? || o.err.value.MissingAttribute?)
    // In training only a one-element range can fail, after the image reader
    // has been built and initialised but before any layer is added.
    ensures o.err.Some? && isTraining ==>
      && o.err.value.IndexOutOfRange? && o.inferType.None?
      && o.reader == Built(ReaderDesc(["image"], Some(ReaderInit(data, task)), []))
  {
    match InferType(isTraining, task)
    case Err(e) => LoadOutcome(priorInferType, priorReader, Some(e))
    case Ok(t) =>
      var slot := SelectReader(isTraining, t, priorReader);
      if !Truthy(slot) then LoadOutcome(t, slot, None)
      else
        var initialised := slot.desc.(init := Some(ReaderInit(data, task)));
        match AugmentationChain(isTraining, action)
        case Err(e) => LoadOutcome(t, Built(initialised), Some(e))
        case Ok(layers) => LoadOutcome(t, Built(initialised.(layers := initialised.layers + layers)), None)
  }

  /** The reader a successful load leaves, per mode: training, `encode` and
      `encode-decode` read the image channel, `linear_interpolation` the
      feature channel, and `sample` keeps the empty sentinel, with no reader
      initialised and no preprocessing added. */
  lemma LoadChannels(isTraining: bool, action: ActionParam, data: Option<DataParam>, task: Option<TaskParam>,
                     priorInferType: Option<string>, priorReader: ReaderSlot)
    requires Load(isTraining, action, data, task, priorInferType, priorReader).err.None?
    ensures var o := Load(isTraining, action, data, task, priorInferType, priorReader);
      && (isTraining || IsEncoding(o.inferType) ==> o.reader.Built? && o.reader.desc.channels == ["image"])
      && (o.inferType == Some("linear_interpolation") ==> o.reader.Built? && o.reader.desc.channels == ["feature"])
      && (o.inferType == Some("sample") <==> o.reader == EmptyTuple)
      && (o.reader.Built? ==> o.reader.desc.init == Some(ReaderInit(data, task)))
      && (o.reader.Built? ==> o.reader.desc.layers == AugmentationChain(isTraining, action).value)
      && (o.reader.Built? ==> forall c :: c in o.reader.desc.channels ==> c in SUPPORTED_INPUT)
  {
  }

  /** A load either fails or leaves the application in a known mode: None
      exactly when training, otherwise a supported inference type equal to the
      task's; and what it leaves does not depend on the state before the
      call. */
  lemma LoadSettlesMode(isTraining: bool, action: ActionParam, data: Option<DataParam>, task: Option<TaskParam>,
                        priorInferType: Option<string>, priorReader: ReaderSlot)
    ensures var o := Load(isTraining, action, data, task, priorInferType, priorReader);
      o.err.None? ==>
        && (o.inferType.None? <==> isTraining)
        && (o.inferType.Some? ==> task.Some? && o.inferType.value == task.value.inferenceType
                                  && o.inferType.value in SUPPORTED_INFERENCE)
        && o == Load(isTraining, action, data, task, None, NoneValue)
  {
  }

  /** Setup fails fast: an unsupported inference type is rejected by the
      loader, and only then is UnsupportedOperation raised. */
  lemma LoadRejectsUnsupported(isTraining: bool, action: ActionParam, data: Option<DataParam>, task: TaskParam,
                               priorInferType: Option<string>, priorReader: ReaderSlot)
    ensures var o := Load(isTraining, action, data, Some(task), priorInferType, priorReader);
      o.err == Some(UnsupportedOperation(task.inferenceType)) <==>
        !isTraining && task.inferenceType !in SUPPORTED_INFERENCE
  {
  }

  // ---------------------------------------------------------------------
  // Samplers

  /** The sampler list initialise_sampler builds. */
  function Samplers(isTraining: bool, inferType: Option<string>, reader: ReaderSlot, data: Option<DataParam>,
                    batchSize: int, task: Option<TaskParam>): (r: seq<SamplerDesc>)
    requires !isTraining && inferType == Some("linear_interpolation") ==> task.Some?
    ensures |r| <= 1
    ensures r == [] <==>
      !isTraining && !IsEncoding(inferType) && inferType != Some("linear_interpolation")
    ensures r != [] ==> r[0].reader == reader && r[0].data == data && r[0].batchSize == batchSize
    ensures r != [] && r[0].ResizeSampler? ==>
      r[0].windowsPerImage == 1 && (r[0].shuffleBuffer <==> isTraining)
    ensures r != [] ==>
      (r[0].LinearInterpolateSampler? <==> !isTraining && inferType == Some("linear_interpolation"))
    ensures r != [] && r[0].LinearInterpolateSampler? ==> r[0].nInterpolations == task.value.nInterpolations
  {
    if isTraining then [ResizeSampler(reader, data, batchSize, 1, true)]
    else if IsEncoding(inferType) then [ResizeSampler(reader, data, batchSize, 1, false)]
    else if inferType == Some("linear_interpolation") then
      [LinearInterpolateSampler(reader, data, batchSize, task.value.nInterpolations)]
    else []
  }

  // ---------------------------------------------------------------------
  // Regulariser choice

  function LowerChar(c: char): char
  {
    if 'A' <= c <= 'Z' then (c as int - 'A' as int + 'a' as int) as char else c
  }

  /** str.lower, restricted to ASCII letters. */
  function Lower(s: string): (r: string)
    ensures |r| == |s|
    ensures forall i :: 0 <= i < |s| ==> r[i] == LowerChar(s[i])
  {
    if s == [] then [] else [LowerChar(s[0])] + Lower(s[1..])
  }

  lemma LowerIdempotent(s: string)
    ensures Lower(Lower(s)) == Lower(s)
  {
    var once := Lower(s);
    forall i | 0 <= i < |s| ensures Lower(once)[i] == once[i] {
      assert LowerChar(LowerChar(s[i])) == LowerChar(s[i]);
    }
  }

  /** The weight and bias regulariser the network is built with: L2 or L1
      by the lower-cased reg_type, and only for a positive decay. */
  function ChooseRegulariser(regType: string, decay: real): (r: Option<Regulariser>)
    ensures r.Some? ==> decay > 0.0 && r.value.scale == decay
    ensures r == Some(L2Regulariser(decay)) <==> Lower(regType) == "l2" && decay > 0.0
    ensures r == Some(L1Regulariser(decay)) <==> Lower(regType) == "l1" && decay > 0.0
    ensures r.None? <==> decay <= 0.0 || (Lower(regType) != "l1" && Lower(regType) != "l2")
  {
    var t := Lower(regType);
    if t == "l2" && decay > 0.0 then Some(L2Regulariser(decay))
    else if t == "l1" && decay > 0.0 then Some(L1Regulariser(decay))
    else None
  }

  /** The choice does not depend on letter case: a type string already in
      lower case chooses as the original does. */
  lemma RegulariserIgnoresCase(regType: string, decay: real)
    ensures ChooseRegulariser(Lower(regType), decay) == ChooseRegulariser(regType, decay)
  {
    LowerIdempotent(regType);
  }

  // ---------------------------------------------------------------------
  // Training loss

  /** [reduce_mean(x) for x in items] */
  function MeansOf(items: seq<Tensor>): (r: seq<Tensor>)
    ensures |r| == |items|
    ensures forall i :: 0 <= i < |items| ==> r[i] == ReduceMean(items[i])
  {
    if items == [] then [] else [ReduceMean(items[0])] + MeansOf(items[1..])
  }

  /** The loss handed to the optimiser: the data loss, plus the mean of the
      per-item means of the regularisation losses when decay is positive and
      there is at least one. */
  function TotalLoss(dataLoss: Tensor, decay: real, regLosses: seq<Tensor>): (loss: Tensor)
    ensures loss == dataLoss <==> decay <= 0.0 || regLosses == []
    ensures loss != dataLoss ==> loss == Add(dataLoss, ReduceMeanOf(MeansOf(regLosses)))
  {
    if decay > 0.0 && regLosses != [] then
      var withRegularisation := Add(dataLoss, ReduceMeanOf(MeansOf(regLosses)));
      assert dataLoss < withRegularisation;
      withRegularisation
    else dataLoss
  }

  // ---------------------------------------------------------------------
  // connect_data_and_network

  /** What connect_data_and_network does: the optimiser it creates, the
      bindings it declares (in order), the loss it hands to the optimiser,
      the output decoder it builds, and the exception it raises. */
  datatype ConnectOutcome = ConnectOutcome(
    optimiser: Option<Optimiser>,
    declared: seq<Binding>,
    trainLoss: Option<Tensor>,
    decoder: Option<Aggregator>,
    err: Option<Error>)

  /** What connect_data_and_network needs from the earlier steps: a sampler
      wherever it pops a batch, and the task parameters where it reads them. */
  predicate ConnectReady(isTraining: bool, inferType: Option<string>, sampler: seq<SamplerDesc>,
                         task: Option<TaskParam>)
  {
    && (isTraining || IsEncoding(inferType) || inferType == Some("linear_interpolation") ==> |sampler| >= 1)
    && (!isTraining && inferType == Some("sample") ==> task.Some?)
  }

  function ConsoleBinding(name: string, value: Tensor): Binding
  {
    Binding(name, value, true, Console, None)
  }

  /** The shape of the dummy image used to discover the latent shape:
      (batch_size,) + spatial_window_size + (1,). */
  function DummyImageSize(netParam: NetParam, action: ActionParam): seq<int>
  {
    [netParam.batchSize] + action.spatialWindowSize + [1]
  }

  /** The static shape of the last output of the dummy forward pass. */
  function LatentShape(net: NetDesc, netParam: NetParam, action: ActionParam): Shape
  {
    StaticShapeOf(Item(NetCall(net, Zeros(DummyImageSize(netParam, action)), false), -1))
  }

  function Connect(isTraining: bool, netParam: NetParam, action: ActionParam, task: Option<TaskParam>,
                   inferType: Option<string>, reader: ReaderSlot, sampler: seq<SamplerDesc>,
                   net: NetDesc, regLosses: seq<Tensor>): (c: ConnectOutcome)
    requires ConnectReady(isTraining, inferType, sampler, task)
    ensures c.optimiser.Some? <==> isTraining
    ensures c.trainLoss.Some? <==> isTraining
    ensures c.decoder.Some? <==> !isTraining && c.err.None?
    ensures c.err.Some? ==> c.err == Some(NotImplemented) && c.declared == []
    ensures c.err.None? <==> c.declared != []
  {
    if isTraining then
      var image := CastFloat32(Popped(sampler[0], "image"));
      var dataLoss := DataLoss(action.lossType, NetCall(net, image, true));
      ConnectOutcome(
        Some(Adam(action.lr)),
        [ConsoleBinding("variational_lower_bound", dataLoss),
         Binding("variational_lower_bound", dataLoss, true, TfSummaries, Some("scalar"))],
        Some(TotalLoss(dataLoss, netParam.decay, regLosses)),
        None, None)
    else if IsEncoding(inferType) then
      var netOutput := NetCall(net, CastFloat32(Popped(sampler[0], "image")), false);
      var location := ConsoleBinding("location", Popped(sampler[0], "image_location"));
      var artifact := if inferType == Some("encode-decode")
                      then ConsoleBinding("generated_image", Item(netOutput, 2))
                      else ConsoleBinding("embedded", Item(netOutput, 7));
      ConnectOutcome(None, [location, artifact], None,
                     Some(WindowAsImageAggregator(reader, action.saveSegDir)), None)
    else if inferType == Some("sample") then
      var noise := RandomNormal(LatentShape(net, netParam, action), 0.0, task.value.noiseStddev);
      var decoded := DecoderMeans(net, SharedDecoder(net, noise, false), false);
      ConnectOutcome(None, [ConsoleBinding("generated_image", decoded)], None,
                     Some(WindowAsImageAggregator(NoneValue, action.saveSegDir)), None)
    else if inferType == Some("linear_interpolation") then
      var realCode := Reshape(Popped(sampler[0], "feature"), LatentShape(net, netParam, action));
      var decoded := DecoderMeans(net, SharedDecoder(net, realCode, false), false);
      ConnectOutcome(None,
                     [ConsoleBinding("generated_image", decoded),
                      ConsoleBinding("location", Popped(sampler[0], "feature_location"))],
                     None, Some(WindowAsImageAggregator(reader, action.saveSegDir)), None)
    else
      ConnectOutcome(None, [], None, None, Some(NotImplemented))
  }

  function Names(bs: seq<Binding>): (names: seq<string>)
    ensures |names| == |bs|
    ensures forall i :: 0 <= i < |bs| ==> names[i] == bs[i].name
  {
    if bs == [] then [] else [bs[0].name] + Names(bs[1..])
  }

  /** Training declares the variational lower bound twice, once to the
      console and once as a scalar summary, and both times it is the data
      loss; the optimiser gets the data loss plus, when decay is positive
      and regularisation losses exist, the mean of their means. No output
      decoder is built. */
  lemma TrainingConnect(netParam: NetParam, action: ActionParam, task: Option<TaskParam>, inferType: Option<string>,
                        reader: ReaderSlot, sampler: seq<SamplerDesc>, net: NetDesc, regLosses: seq<Tensor>)
    requires ConnectReady(true, inferType, sampler, task)
    ensures var c := Connect(true, netParam, action, task, inferType, reader, sampler, net, regLosses);
      var dataLoss := DataLoss(action.lossType, NetCall(net, CastFloat32(Popped(sampler[0], "image")), true));
      && c.err.None? && c.decoder.None? && c.optimiser == Some(Adam(action.lr))
      && Names(c.declared) == ["variational_lower_bound", "variational_lower_bound"]
      && (forall b :: b in c.declared ==> b.value == dataLoss && b.averageOverDevices)
      && c.declared[0].collection == Console && c.declared[0].summaryType.None?
      && c.declared[1].collection == TfSummaries && c.declared[1].summaryType == Some("scalar")
      && c.trainLoss == Some(TotalLoss(dataLoss, netParam.decay, regLosses))
      && (c.trainLoss.value == dataLoss <==> netParam.decay <= 0.0 || regLosses == [])
  {
  }

  /** The output table of the inference modes: which names are declared, in
      which order; all of them averaged and sent to the console, no
      optimiser and no training loss. */
  lemma InferenceBindings(netParam: NetParam, action: ActionParam, task: Option<TaskParam>, inferType: Option<string>,
                          reader: ReaderSlot, sampler: seq<SamplerDesc>, net: NetDesc, regLosses: seq<Tensor>)
    requires ConnectReady(false, inferType, sampler, task)
    requires inferType.Some? && inferType.value in SUPPORTED_INFERENCE
    ensures var c := Connect(false, netParam, action, task, inferType, reader, sampler, net, regLosses);
      && c.err.None? && c.optimiser.None? && c.trainLoss.None?
      && (forall b :: b in c.declared ==> b.averageOverDevices && b.collection == Console && b.summaryType.None?)
      && (inferType == Some("encode") ==> Names(c.declared) == ["location", "embedded"])
      && (inferType == Some("encode-decode") ==> Names(c.declared) == ["location", "generated_image"])
      && (inferType == Some("sample") ==> Names(c.declared) == ["generated_image"])
      && (inferType == Some("linear_interpolation") ==> Names(c.declared) == ["generated_image", "location"])
  {
  }

  /** `encode` and `encode-decode` read different positions of one and the
      same network output tuple: the embedding at 7, the reconstruction at 2. */
  lemma EncodingPicksPosition(netParam: NetParam, action: ActionParam, task: Option<TaskParam>,
                              reader: ReaderSlot, sampler: seq<SamplerDesc>, net: NetDesc, regLosses: seq<Tensor>)
    requires |sampler| >= 1
    ensures var e := Connect(false, netParam, action, task, Some("encode"), reader, sampler, net, regLosses);
      var d := Connect(false, netParam, action, task, Some("encode-decode"), reader, sampler, net, regLosses);
      && e.declared[1].value.Item? && d.declared[1].value.Item?
      && e.declared[1].value.tuple == d.declared[1].value.tuple
      && e.declared[1].value.tuple == NetCall(net, CastFloat32(Popped(sampler[0], "image")), false)
      && e.declared[1].value.index == 7 && d.declared[1].value.index == 2
      && e.declared[0] == d.declared[0]
  {
  }

  /** `sample` first runs the network on a zero dummy batch of shape
      (batch,) + window + (1,) and draws its noise with exactly the static
      shape of that pass's last output; the noise is then decoded with
      shared_decoder and decoder_means. No sampler is read. */
  lemma SampleNoiseShape(netParam: NetParam, action: ActionParam, task: TaskParam,
                         reader: ReaderSlot, sampler: seq<SamplerDesc>, net: NetDesc, regLosses: seq<Tensor>)
    ensures var s := Connect(false, netParam, action, Some(task), Some("sample"), reader, sampler, net, regLosses);
      var shape := StaticShapeOf(Item(NetCall(net, Zeros([netParam.batchSize] + action.spatialWindowSize + [1]),
                                              false), -1));
      && s.declared[0].value == DecoderMeans(net, SharedDecoder(net, RandomNormal(shape, 0.0, task.noiseStddev),
                                                                false), false)
  {
  }

  /** `linear_interpolation` reshapes the feature batch to the static shape
      of the last output of the same zero dummy pass, then decodes it with
      shared_decoder and decoder_means. */
  lemma InterpolationReshape(netParam: NetParam, action: ActionParam, task: Option<TaskParam>,
                             reader: ReaderSlot, sampler: seq<SamplerDesc>, net: NetDesc, regLosses: seq<Tensor>)
    requires |sampler| >= 1
    ensures var i := Connect(false, netParam, action, task, Some("linear_interpolation"), reader, sampler, net,
                             regLosses);
      var shape := StaticShapeOf(Item(NetCall(net, Zeros([netParam.batchSize] + action.spatialWindowSize + [1]),
                                              false), -1));
      && i.declared[0].value == DecoderMeans(net, SharedDecoder(net, Reshape(Popped(sampler[0], "feature"), shape),
                                                                false), false)
  {
  }

  /** The output decoder is built with the reader in `encode`,
      `encode-decode` and `linear_interpolation`, without one (None) in
      `sample`, never when training; and only an inference type outside the
      four branches raises NotImplementedError. */
  lemma DecoderChoice(isTraining: bool, netParam: NetParam, action: ActionParam, task: Option<TaskParam>,
                      inferType: Option<string>, reader: ReaderSlot, sampler: seq<SamplerDesc>, net: NetDesc,
                      regLosses: seq<Tensor>)
    requires ConnectReady(isTraining, inferType, sampler, task)
    ensures var c := Connect(isTraining, netParam, action, task, inferType, reader, sampler, net, regLosses);
      && (isTraining ==> c.decoder.None?)
      && (!isTraining && (IsEncoding(inferType) || inferType == Some("linear_interpolation")) ==>
            c.decoder == Some(WindowAsImageAggregator(reader, action.saveSegDir)))
      && (!isTraining && inferType == Some("sample") ==>
            c.decoder == Some(WindowAsImageAggregator(NoneValue, action.saveSegDir)))
      && (c.err == Some(NotImplemented) <==>
            !isTraining && (inferType.None? || inferType.value !in SUPPORTED_INFERENCE))
      && (c.err.None? <==> c.declared != [])
  {
  }

  // ---------------------------------------------------------------------
  // Channels read by the graph

  /** The data_dict keys a tensor reads from a popped batch. */
  function PoppedKeys(t: Tensor): set<string>
  {
    match t
    case Popped(_, key) => {key}
    case CastFloat32(x) => PoppedKeys(x)
    case NetCall(_, x, _) => PoppedKeys(x)
    case Item(x, _) => PoppedKeys(x)
    case Zeros(_) => {}
    case RandomNormal(s, _, _) => ShapeKeys(s)
    case Reshape(x, s) => PoppedKeys(x) + ShapeKeys(s)
    case SharedDecoder(_, x, _) => PoppedKeys(x)
    case DecoderMeans(_, x, _) => PoppedKeys(x)
    case DataLoss(_, x) => PoppedKeys(x)
    case RegularisationLoss(_) => {}
    case ReduceMean(x) => PoppedKeys(x)
    case ReduceMeanOf(items) => ListKeys(items)
    case Add(a, b) => PoppedKeys(a) + PoppedKeys(b)
  }

  function ShapeKeys(s: Shape): set<string>
  {
    match s
    case Dims(_) => {}
    case StaticShapeOf(x) => PoppedKeys(x)
  }

  function ListKeys(items: seq<Tensor>): set<string>
  {
    if items == [] then {} else PoppedKeys(items[0]) + ListKeys(items[1..])
  }

  function BindingKeys(bs: seq<Binding>): set<string>
  {
    if bs == [] then {} else PoppedKeys(bs[0].value) + BindingKeys(bs[1..])
  }

  /** The data channels the graph reads: every key it pops, less the
      location companions. */
  function ChannelsRead(keys: set<string>): set<string>
  {
    keys - {"image_location", "feature_location"}
  }

  /** The channels a reader slot provides; none for None and (). */
  function Provided(slot: ReaderSlot): set<string>
  {
    if slot.Built? then set c | c in slot.desc.channels else {}
  }

  /** The reader slot each mode is set up with: the image channel for
      training and the encoding modes, the feature channel for interpolation,
      the empty sentinel for `sample`. */
  predicate ReaderFits(isTraining: bool, inferType: Option<string>, reader: ReaderSlot)
  {
    && (isTraining <==> inferType.None?)
    && (inferType.Some? ==> inferType.value in SUPPORTED_INFERENCE)
    && (isTraining || IsEncoding(inferType) ==> reader.Built? && reader.desc.channels == ["image"])
    && (inferType == Some("linear_interpolation") ==> reader.Built? && reader.desc.channels == ["feature"])
    && (inferType == Some("sample") ==> reader == EmptyTuple)
  }

  /** A successful load leaves a reader that fits its mode. */
  lemma LoadFits(isTraining: bool, action: ActionParam, data: Option<DataParam>, task: Option<TaskParam>,
                 priorInferType: Option<string>, priorReader: ReaderSlot)
    requires Load(isTraining, action, data, task, priorInferType, priorReader).err.None?
    ensures var o := Load(isTraining, action, data, task, priorInferType, priorReader);
      ReaderFits(isTraining, o.inferType, o.reader)
  {
    LoadSettlesMode(isTraining, action, data, task, priorInferType, priorReader);
    LoadChannels(isTraining, action, data, task, priorInferType, priorReader);
  }

  /** The data channels the graph reads are exactly the channels the reader
      was built over: `image` for training and the encoding modes, `feature`
      for interpolation, none for `sample`; the inference modes that read a
      batch also read that channel's location. */
  lemma ChannelsMatchReads(isTraining: bool, netParam: NetParam, action: ActionParam, task: Option<TaskParam>,
                           inferType: Option<string>, reader: ReaderSlot, sampler: seq<SamplerDesc>,
                           net: NetDesc, regLosses: seq<Tensor>)
    requires ReaderFits(isTraining, inferType, reader)
    requires ConnectReady(isTraining, inferType, sampler, task)
    ensures var keys := BindingKeys(Connect(isTraining, netParam, action, task, inferType, reader, sampler, net,
                                            regLosses).declared);
      && ChannelsRead(keys) == Provided(reader)
      && (forall ch :: ch in Provided(reader) && !isTraining ==> ch + "_location" in keys)
  {
    ConnectKeys(isTraining, netParam, action, task, inferType, reader, sampler, net, regLosses);
    ChannelsOfKeys(isTraining, inferType, reader,
                   BindingKeys(Connect(isTraining, netParam, action, task, inferType, reader, sampler, net,
                                       regLosses).declared));
  }

  /** The set reasoning behind ChannelsMatchReads, for any key set that has
      the per-mode shape ConnectKeys gives. */
  lemma ChannelsOfKeys(isTraining: bool, inferType: Option<string>, reader: ReaderSlot, keys: set<string>)
    requires ReaderFits(isTraining, inferType, reader)
    requires isTraining ==> keys == {"image"}
    requires !isTraining && IsEncoding(inferType) ==> keys == {"image", "image_location"}
    requires !isTraining && inferType == Some("sample") ==> keys == {}
    requires !isTraining && inferType == Some("linear_interpolation") ==> keys == {"feature", "feature_location"}
    ensures ChannelsRead(keys) == Provided(reader)
    ensures forall ch :: ch in Provided(reader) && !isTraining ==> ch + "_location" in keys
  {
    if isTraining || IsEncoding(inferType) {
      assert Provided(reader) == {"image"};
      assert ChannelsRead(keys) == {"image"};
      assert "image" + "_location" == "image_location";
    } else if inferType == Some("linear_interpolation") {
      assert Provided(reader) == {"feature"};
      assert ChannelsRead(keys) == {"feature"};
      assert "feature" + "_location" == "feature_location";
    } else {
      assert Provided(reader) == {};
    }
  }

  /** The keys each mode's declared outputs pop from the batch. */
  lemma ConnectKeys(isTraining: bool, netParam: NetParam, action: ActionParam, task: Option<TaskParam>,
                    inferType: Option<string>, reader: ReaderSlot, sampler: seq<SamplerDesc>, net: NetDesc,
                    regLosses: seq<Tensor>)
    requires ConnectReady(isTraining, inferType, sampler, task)
    ensures var keys := BindingKeys(Connect(isTraining, netParam, action, task, inferType, reader, sampler, net,
                                            regLosses).declared);
      && (isTraining ==> keys == {"image"})
      && (!isTraining && IsEncoding(inferType) ==> keys == {"image", "image_location"})
      && (!isTraining && inferType == Some("sample") ==> keys == {})
      && (!isTraining && inferType == Some("linear_interpolation") ==> keys == {"feature", "feature_location"})
  {
    var c := Connect(isTraining, netParam, action, task, inferType, reader, sampler, net, regLosses);
    if isTraining {
      var image := CastFloat32(Popped(sampler[0], "image"));
      assert PoppedKeys(image) == {"image"};
      assert PoppedKeys(NetCall(net, image, true)) == {"image"};
      BindingKeysOfPair(c.declared);
    } else if IsEncoding(inferType) {
      var image := CastFloat32(Popped(sampler[0], "image"));
      assert PoppedKeys(image) == {"image"};
      assert PoppedKeys(NetCall(net, image, false)) == {"image"};
      BindingKeysOfPair(c.declared);
    } else if inferType == Some("sample") {
      var latent := LatentShape(net, netParam, action);
      assert PoppedKeys(NetCall(net, Zeros(DummyImageSize(netParam, action)), false)) == {};
      assert ShapeKeys(latent) == {};
      var noise := RandomNormal(latent, 0.0, task.value.noiseStddev);
      assert PoppedKeys(SharedDecoder(net, noise, false)) == {};
      assert BindingKeys(c.declared[1..]) == {};
    } else if inferType == Some("linear_interpolation") {
      var latent := LatentShape(net, netParam, action);
      assert PoppedKeys(NetCall(net, Zeros(DummyImageSize(netParam, action)), false)) == {};
      assert ShapeKeys(latent) == {};
      var code := Reshape(Popped(sampler[0], "feature"), latent);
      assert PoppedKeys(code) == {"feature"};
      assert PoppedKeys(SharedDecoder(net, code, false)) == {"feature"};
      BindingKeysOfPair(c.declared);
    }
  }

  lemma BindingKeysOfPair(bs: seq<Binding>)
    requires |bs| == 2
    ensures BindingKeys(bs) == PoppedKeys(bs[0].value) + PoppedKeys(bs[1].value)
  {
    assert BindingKeys(bs[1..]) == PoppedKeys(bs[1].value) + BindingKeys(bs[2..]);
  }

  /** The names declared to the console collection. Lifecycle assumes that
      the engine, which is not part of this model, evaluates this collection
      and hands it to interpret_output keyed by name. */
  function ConsoleNames(bs: seq<Binding>): set<string>
  {
    set b | b in bs && b.collection == Console :: b.name
  }

  lemma ConnectConsoleNames(isTraining: bool, netParam: NetParam, action: ActionParam, task: Option<TaskParam>,
                            inferType: Option<string>, reader: ReaderSlot, sampler: seq<SamplerDesc>,
                            net: NetDesc, regLosses: seq<Tensor>)
    requires ConnectReady(isTraining, inferType, sampler, task)
    ensures var names := ConsoleNames(Connect(isTraining, netParam, action, task, inferType, reader, sampler, net,
                                              regLosses).declared);
      && (isTraining ==> names == {"variational_lower_bound"})
      && (!isTraining && inferType == Some("encode") ==> names == {"location", "embedded"})
      && (!isTraining && inferType == Some("encode-decode") ==> names == {"location", "generated_image"})
      && (!isTraining && inferType == Some("sample") ==> names == {"generated_image"})
      && (!isTraining && inferType == Some("linear_interpolation") ==> names == {"generated_image", "location"})
  {
    var c := Connect(isTraining, netParam, action, task, inferType, reader, sampler, net, regLosses);
    if isTraining {
      assert c.declared[0] in c.declared;
    } else if IsEncoding(inferType) || inferType == Some("linear_interpolation") {
      assert c.declared[0] in c.declared && c.declared[1] in c.declared;
    } else if inferType == Some("sample") {
      assert c.declared[0] in c.declared;
    }
  }

  /** With a supported inference type, or when training with well-formed
      ranges, the dataset loader succeeds. */
  lemma LoadSucceeds(isTraining: bool, action: ActionParam, data: Option<DataParam>, task: Option<TaskParam>,
                     priorInferType: Option<string>, priorReader: ReaderSlot)
    requires isTraining || (task.Some? && task.value.inferenceType in SUPPORTED_INFERENCE)
    requires isTraining ==> |action.scalingPercentage| != 1 && |action.rotationAngle| != 1
    ensures Load(isTraining, action, data, task, priorInferType, priorReader).err.None?
  {
  }

  // ---------------------------------------------------------------------
  // Location columns

  function Min(a: nat, b: nat): nat
  {
    if a < b then a else b
  }

  /** location[:, :k]: the first k columns of every row (all of a shorter
      row, as slicing clamps). */
  function SliceColumns(location: NdArray, k: nat): (r: NdArray)
    ensures |r| == |location|
    ensures forall i :: 0 <= i < |r| ==> |r[i]| == Min(k, |location[i]|)
    ensures forall i, j :: 0 <= i < |r| && 0 <= j < |r[i]| ==>
      j < k && j < |location[i]| && r[i][j] == location[i][j]
  {
    seq(|location|, i requires 0 <= i < |location| => location[i][..Min(k, |location[i]|)])
  }
}
