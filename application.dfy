/** AutoencoderApplication: the object the engine drives through its setup
    steps (dataset loader, sampler, network, graph wiring) and then asks to
    interpret each evaluated batch. Each setup method is proved to leave the
    state that the matching function of module Dispatch describes. */
module Application {
  import opened Descriptors
  import opened Dispatch

  /** The outputs collector handed to connect_data_and_network: it records
      its add_to_collection calls in order. */
  class OutputsCollector {
    var variables: seq<Binding>

    constructor ()
      ensures variables == []
    {
      variables := [];
    }

    method AddToCollection(b: Binding)
      modifies this
      ensures variables == old(variables) + [b]
    {
      variables := variables + [b];
    }
  }

  class AutoencoderApplication {
    const isTraining: bool
    const netParam: NetParam
    const actionParam: ActionParam

    var dataParam: Option<DataParam>
    var autoencoderParam: Option<TaskParam>
    var inferType: Option<string>        // _infer_type
    var reader: ReaderSlot
    var sampler: seq<SamplerDesc>
    var net: Option<NetDesc>
    var optimiser: Option<Optimiser>
    var outputDecoder: Option<Aggregator>

    // which setup steps have completed since the last dataset load
    ghost var loaded: bool
    ghost var samplerReady: bool

    /** After a successful load the mode is settled and the reader fits it;
        after initialise_sampler the sampler list is the one the mode calls
        for. */
    ghost predicate Valid()
      reads this
    {
      && (loaded ==>
            && ReaderFits(isTraining, inferType, reader)
            && (!isTraining ==> autoencoderParam.Some? && inferType == Some(autoencoderParam.value.inferenceType)))
      && (samplerReady ==>
            && loaded
            && sampler == Samplers(isTraining, inferType, reader, dataParam, netParam.batchSize, autoencoderParam))
    }

    constructor (netParam: NetParam, actionParam: ActionParam, isTraining: bool)
      ensures Valid()
      ensures this.isTraining == isTraining && this.netParam == netParam && this.actionParam == actionParam
      ensures dataParam.None? && autoencoderParam.None? && inferType.None? && reader == NoneValue
      ensures sampler == [] && net.None? && optimiser.None? && outputDecoder.None?
      ensures !loaded && !samplerReady
    {
      this.isTraining := isTraining;
      this.netParam := netParam;
      this.actionParam := actionParam;
      dataParam, autoencoderParam := None, None;
      inferType, reader, sampler := None, NoneValue, [];
      net, optimiser, outputDecoder := None, None, None;
      loaded, samplerReady := false, false;
    }

    /** initialise_dataset_loader: settles the inference type, builds the
        reader over the mode's channel, initialises it and adds the
        augmentation chain. */
    method InitialiseDatasetLoader(dp: Option<DataParam>, tp: Option<TaskParam>) returns (err: Option<Error>)
      requires Valid()
      modifies this
      ensures Valid()
      ensures dataParam == dp && autoencoderParam == tp
      ensures var o := Load(isTraining, actionParam, dp, tp, old(inferType), old(reader));
        inferType == o.inferType && reader == o.reader && err == o.err
      ensures loaded == err.None? && !samplerReady
      ensures sampler == old(sampler) && net == old(net)
      ensures optimiser == old(optimiser) && outputDecoder == old(outputDecoder)
    {
      ghost var o := Load(isTraining, actionParam, dp, tp, inferType, reader);
      err := None;
      dataParam := dp;
      autoencoderParam := tp;
      loaded, samplerReady := false, false;

      var mode := InferTypeOf(tp);
      if mode.Err? {
        assert o == LoadOutcome(old(inferType), old(reader), Some(mode.error));
        return Some(mode.error);
      }
      inferType := mode.value;
      ChooseReader();
      err := InitialiseReader(dp, tp, old(inferType), old(reader));
      if err.None? {
        LoadFits(isTraining, actionParam, dp, tp, old(inferType), old(reader));
        loaded := true;
      }
    }

    /** The tail of initialise_dataset_loader: a truthy reader is
        initialised with (data_param, task_param) and then receives the
        augmentation chain; None and () are left alone. */
    method InitialiseReader(dp: Option<DataParam>, tp: Option<TaskParam>,
                            ghost priorInferType: Option<string>, ghost priorReader: ReaderSlot)
      returns (err: Option<Error>)
      requires InferType(isTraining, tp) == Ok(inferType)
      requires reader == SelectReader(isTraining, inferType, priorReader)
      modifies this`reader
      ensures var o := Load(isTraining, actionParam, dp, tp, priorInferType, priorReader);
        reader == o.reader && err == o.err
    {
      err := None;
      if Truthy(reader) {
        reader := Built(reader.desc.(init := Some(ReaderInit(dp, tp))));
        var layers := AugmentationLayers();
        if layers.Err? {
          return Some(layers.error);
        }
        reader := Built(reader.desc.(layers := reader.desc.layers + layers.value));
      }
    }

    /** The imperative form of the lookup branch of
        initialise_dataset_loader, specified by `InferType`: None when
        training, otherwise the looked-up inference type of task_param. */
    method InferTypeOf(tp: Option<TaskParam>) returns (r: Result<Option<string>>)
      ensures r == InferType(isTraining, tp)
    {
      if isTraining {
        return Ok(None);
      }
      if tp.None? {
        return Err(MissingAttribute("inference_type"));
      }
      var looked := LookUpOperations(tp.value.inferenceType, SUPPORTED_INFERENCE);
      if looked.Err? {
        return Err(looked.error);
      }
      return Ok(Some(looked.value));
    }

    /** The reader choice of initialise_dataset_loader: the image channel
        when training, then overridden by the inference type's channel; the
        empty tuple for `sample`. */
    method ChooseReader()
      modifies this`reader
      ensures reader == SelectReader(isTraining, inferType, old(reader))
    {
      if isTraining {
        reader := Built(ReaderDesc(["image"], None, []));
      }
      if inferType == Some("encode") || inferType == Some("encode-decode") {
        reader := Built(ReaderDesc(["image"], None, []));
      } else if inferType == Some("sample") {
        reader := EmptyTuple;
      } else if inferType == Some("linear_interpolation") {
        reader := Built(ReaderDesc(["feature"], None, []));
      }
    }

    /** The augmentation layers of initialise_dataset_loader, appended in
        the order flip, scaling, rotation, and only when training. */
    method AugmentationLayers() returns (r: Result<seq<Layer>>)
      ensures r == AugmentationChain(isTraining, actionParam)
    {
      var layers: seq<Layer> := [];
      if isTraining {
        if actionParam.randomFlippingAxes != IntAxes(-1) {
          layers := layers + [RandomFlip(actionParam.randomFlippingAxes)];
        }
        ghost var flip := layers;
        var scaling := actionParam.scalingPercentage;
        if |scaling| > 0 {
          if |scaling| < 2 {
            return Err(IndexOutOfRange("scaling_percentage"));
          }
          layers := layers + [RandomSpatialScaling(scaling[0], scaling[1])];
        }
        var rotation := actionParam.rotationAngle;
        if |rotation| > 0 {
          if |rotation| < 2 {
            return Err(IndexOutOfRange("rotation_angle"));
          }
          layers := layers + [RandomRotation(rotation[0], rotation[1])];
        }
        assert layers == flip + (if |scaling| > 0 then [RandomSpatialScaling(scaling[0], scaling[1])] else [])
                              + (if |rotation| > 0 then [RandomRotation(rotation[0], rotation[1])] else []);
        assert flip == (if FlipEnabled(actionParam) then [RandomFlip(actionParam.randomFlippingAxes)] else []);
        assert AugmentationChain(isTraining, actionParam) == Ok(layers);
      }
      return Ok(layers);
    }

    /** initialise_sampler: at most one sampler, chosen by the mode. */
    method InitialiseSampler()
      requires Valid() && loaded
      modifies this`sampler, this`samplerReady
      ensures Valid() && samplerReady
      ensures sampler == Samplers(isTraining, inferType, reader, dataParam, netParam.batchSize, autoencoderParam)
    {
      sampler := [];
      samplerReady := true;
      if isTraining {
        sampler := sampler + [ResizeSampler(reader, dataParam, netParam.batchSize, 1, true)];
        return;
      }
      if inferType == Some("encode") || inferType == Some("encode-decode") {
        sampler := sampler + [ResizeSampler(reader, dataParam, netParam.batchSize, 1, false)];
        return;
      }
      if inferType == Some("linear_interpolation") {
        sampler := sampler + [LinearInterpolateSampler(reader, dataParam, netParam.batchSize,
                                                       autoencoderParam.value.nInterpolations)];
        return;
      }
    }

    /** initialise_network: the network is built with the chosen weight
        and bias regularisers. */
    method InitialiseNetwork()
      requires Valid()
      modifies this`net
      ensures Valid()
      ensures net == Some(NetDesc(netParam.name, ChooseRegulariser(netParam.regType, netParam.decay),
                                  ChooseRegulariser(netParam.regType, netParam.decay)))
    {
      var regulariser := ChooseRegulariser(netParam.regType, netParam.decay);
      net := Some(NetDesc(netParam.name, regulariser, regulariser));
    }

    /** connect_data_and_network: wires the mode's graph, declares its
        outputs to `outputs` and builds the output decoder; returns the loss
        handed to the optimiser when training. */
    method ConnectDataAndNetwork(outputs: OutputsCollector, regLosses: seq<Tensor>)
      returns (trainLoss: Option<Tensor>, err: Option<Error>)
      requires Valid() && samplerReady && net.Some?
      modifies this`optimiser, this`outputDecoder, outputs
      ensures Valid()
      ensures ConnectReady(isTraining, inferType, sampler, autoencoderParam)
      ensures err.None?  // the NotImplementedError fallback is unreachable once the loader succeeded
      ensures var c := Connect(isTraining, netParam, actionParam, autoencoderParam, inferType, reader, sampler,
                               net.value, regLosses);
        && outputs.variables == old(outputs.variables) + c.declared
        && optimiser == (if c.optimiser.Some? then c.optimiser else old(optimiser))
        && outputDecoder == (if c.decoder.Some? then c.decoder else old(outputDecoder))
        && trainLoss == c.trainLoss
        && err == c.err
    {
      trainLoss, err := None, None;
      if isTraining {
        trainLoss := ConnectTraining(outputs, regLosses);
      } else if inferType == Some("encode") || inferType == Some("encode-decode") {
        ConnectEncoding(outputs, regLosses);
      } else if inferType == Some("sample") {
        ConnectSample(outputs, regLosses);
      } else if inferType == Some("linear_interpolation") {
        ConnectInterpolation(outputs, regLosses);
      } else {
        err := Some(NotImplemented);
      }
    }

    /** The training branch: Adam with the configured rate, the data loss
        plus the regularisation term as the loss to minimise, and the data
        loss declared to the console and as a scalar summary. */
    method ConnectTraining(outputs: OutputsCollector, regLosses: seq<Tensor>) returns (trainLoss: Option<Tensor>)
      requires isTraining && |sampler| >= 1 && net.Some?
      modifies this`optimiser, outputs
      ensures var c := Connect(isTraining, netParam, actionParam, autoencoderParam, inferType, reader, sampler, net.value, regLosses);
        && outputs.variables == old(outputs.variables) + c.declared
        && optimiser == c.optimiser && trainLoss == c.trainLoss
    {
      optimiser := Some(Adam(actionParam.lr));
      var dataDict := sampler[0];
      var image := CastFloat32(Popped(dataDict, "image"));
      var netOutput := NetCall(net.value, image, true);
      var dataLoss := DataLoss(actionParam.lossType, netOutput);
      var loss := dataLoss;
      if netParam.decay > 0.0 {
        if regLosses != [] {
          var regLoss := ReduceMeanOf(MeansOf(regLosses));
          loss := Add(loss, regLoss);
        }
      }
      trainLoss := Some(loss);
      outputs.AddToCollection(Binding("variational_lower_bound", dataLoss, true, Console, None));
      outputs.AddToCollection(Binding("variational_lower_bound", dataLoss, true, TfSummaries, Some("scalar")));
    }

    /** The `encode` and `encode-decode` branch: one forward pass over the
        image batch, the location and the chosen output declared, and an
        aggregator over the reader. `regLosses` only names the `Connect`
        outcome; this branch does not read it. */
    method ConnectEncoding(outputs: OutputsCollector, regLosses: seq<Tensor>)
      requires !isTraining && IsEncoding(inferType) && |sampler| >= 1 && net.Some?
      modifies this`outputDecoder, outputs
      ensures var c := Connect(isTraining, netParam, actionParam, autoencoderParam, inferType, reader, sampler, net.value, regLosses);
        outputs.variables == old(outputs.variables) + c.declared && outputDecoder == c.decoder
    {
      var dataDict := sampler[0];
      var image := CastFloat32(Popped(dataDict, "image"));
      var netOutput := NetCall(net.value, image, false);
      outputs.AddToCollection(Binding("location", Popped(dataDict, "image_location"), true, Console, None));
      if inferType == Some("encode-decode") {
        outputs.AddToCollection(Binding("generated_image", Item(netOutput, 2), true, Console, None));
      }
      if inferType == Some("encode") {
        outputs.AddToCollection(Binding("embedded", Item(netOutput, 7), true, Console, None));
      }
      outputDecoder := Some(WindowAsImageAggregator(reader, actionParam.saveSegDir));
    }

    /** The `sample` branch: noise shaped like the latent output of a zero
        dummy pass, decoded, with an aggregator that has no reader.
        `regLosses` only names the `Connect` outcome; this branch does not
        read it. */
    method ConnectSample(outputs: OutputsCollector, regLosses: seq<Tensor>)
      requires !isTraining && inferType == Some("sample") && autoencoderParam.Some? && net.Some?
      modifies this`outputDecoder, outputs
      ensures var c := Connect(isTraining, netParam, actionParam, autoencoderParam, inferType, reader, sampler, net.value, regLosses);
        outputs.variables == old(outputs.variables) + c.declared && outputDecoder == c.decoder
    {
      var imageSize := [netParam.batchSize] + actionParam.spatialWindowSize + [1];
      var netOutput := NetCall(net.value, Zeros(imageSize), false);
      var noiseShape := StaticShapeOf(Item(netOutput, -1));
      var noise := RandomNormal(noiseShape, 0.0, autoencoderParam.value.noiseStddev);
      var partiallyDecoded := SharedDecoder(net.value, noise, false);
      var decoderOutput := DecoderMeans(net.value, partiallyDecoded, false);
      outputs.AddToCollection(Binding("generated_image", decoderOutput, true, Console, None));
      outputDecoder := Some(WindowAsImageAggregator(NoneValue, actionParam.saveSegDir));
    }

    /** The `linear_interpolation` branch: the feature batch reshaped to
        the latent shape and decoded, then the location declared, with an
        aggregator over the reader. `regLosses` only names the `Connect`
        outcome; this branch does not read it. */
    method ConnectInterpolation(outputs: OutputsCollector, regLosses: seq<Tensor>)
      requires !isTraining && inferType == Some("linear_interpolation") && |sampler| >= 1 && net.Some?
      modifies this`outputDecoder, outputs
      ensures var c := Connect(isTraining, netParam, actionParam, autoencoderParam, inferType, reader, sampler, net.value, regLosses);
        outputs.variables == old(outputs.variables) + c.declared && outputDecoder == c.decoder
    {
      var imageSize := [netParam.batchSize] + actionParam.spatialWindowSize + [1];
      var netOutput := NetCall(net.value, Zeros(imageSize), false);
      var dataDict := sampler[0];
      var realCode := Reshape(Popped(dataDict, "feature"), StaticShapeOf(Item(netOutput, -1)));
      var partiallyDecoded := SharedDecoder(net.value, realCode, false);
      var decoderOutput := DecoderMeans(net.value, partiallyDecoded, false);
      outputs.AddToCollection(Binding("generated_image", decoderOutput, true, Console, None));
      outputs.AddToCollection(Binding("location", Popped(dataDict, "feature_location"), true, Console, None));
      outputDecoder := Some(WindowAsImageAggregator(reader, actionParam.saveSegDir));
    }

    /** interpret_output: True when training; otherwise the inference type
        is looked up again and the batch is handed to the output decoder,
        the artifact with the mode's location columns. */
    function InterpretOutput(batch: map<string, NdArray>): (r: Result<Interpretation>)
      reads this
      ensures isTraining ==> r == Ok(Continue)
      ensures !isTraining && autoencoderParam.None? ==> r == Err(MissingAttribute("inference_type"))
      ensures !isTraining && autoencoderParam.Some? ==>
        var t := autoencoderParam.value.inferenceType;
        t !in SUPPORTED_INFERENCE ==> r == Err(UnsupportedOperation(t))
      ensures !isTraining && autoencoderParam.Some? ==>
        var t := autoencoderParam.value.inferenceType;
        var artifact := if t == "encode" then "embedded" else "generated_image";
        t in SUPPORTED_INFERENCE ==>
          && (r.Ok? <==> outputDecoder.Some? && artifact in batch && (t != "sample" ==> "location" in batch))
          && (r.Ok? ==> r.value.Decoded?
                        && r.value.call.aggregator == outputDecoder.value
                        && r.value.call.artifact == batch[artifact]
                        && (r.value.call.location.None? <==> t == "sample"))
          && (r.Ok? && t != "sample" ==>
                r.value.call.location == Some(SliceColumns(batch["location"],
                                                           if t == "linear_interpolation" then 2 else 1)))
    {
      if isTraining then Ok(Continue)
      else if autoencoderParam.None? then Err(MissingAttribute("inference_type"))
      else
        match LookUpOperations(autoencoderParam.value.inferenceType, SUPPORTED_INFERENCE)
        case Err(e) => Err(e)
        case Ok(t) =>
          if t == "encode" then Decode(batch, "embedded", Some(1))
          else if t == "encode-decode" then Decode(batch, "generated_image", Some(1))
          else if t == "sample" then Decode(batch, "generated_image", None)
          else Decode(batch, "generated_image", Some(2))  // t == "linear_interpolation"
    }

    /** output_decoder.decode_batch(batch[artifact], location[:, :k]), with
        Python's evaluation order: the decoder attribute first, then the
        artifact, then the location. */
    function Decode(batch: map<string, NdArray>, artifact: string, columns: Option<nat>): (r: Result<Interpretation>)
      reads this
      ensures r.Ok? <==> outputDecoder.Some? && artifact in batch && (columns.Some? ==> "location" in batch)
      ensures outputDecoder.None? ==> r == Err(MissingAttribute("decode_batch"))
      ensures outputDecoder.Some? && artifact !in batch ==> r == Err(MissingKey(artifact))
      ensures r.Err? && outputDecoder.Some? && artifact in batch ==> r == Err(MissingKey("location"))
      ensures r.Ok? ==>
        && r.value.Decoded? && r.value.call.aggregator == outputDecoder.value
        && r.value.call.artifact == batch[artifact]
        && (r.value.call.location.None? <==> columns.None?)
        && (columns.Some? ==> r.value.call.location == Some(SliceColumns(batch["location"], columns.value)))
    {
      if outputDecoder.None? then Err(MissingAttribute("decode_batch"))
      else if artifact !in batch then Err(MissingKey(artifact))
      else if columns.Some? && "location" !in batch then Err(MissingKey("location"))
      else
        var location := if columns.Some? then Some(SliceColumns(batch["location"], columns.value)) else None;
        Ok(Decoded(DecodeBatch(outputDecoder.value, batch[artifact], location)))
    }
  }

  /** The four setup steps in the engine's order, on a fresh application
      and a fresh outputs collector: for a supported mode none of them
      fails, and the outputs declared and the decoder built are the ones
      `Connect` gives for the loaded state. */
  method Setup(netParam: NetParam, actionParam: ActionParam, isTraining: bool,
               dp: Option<DataParam>, tp: Option<TaskParam>, regLosses: seq<Tensor>)
    returns (app: AutoencoderApplication, outputs: OutputsCollector)
    requires isTraining || (tp.Some? && tp.value.inferenceType in SUPPORTED_INFERENCE)
    requires isTraining ==> |actionParam.scalingPercentage| != 1 && |actionParam.rotationAngle| != 1
    ensures app.isTraining == isTraining && app.netParam == netParam && app.actionParam == actionParam
    ensures app.autoencoderParam == tp && app.net.Some?
    ensures ReaderFits(isTraining, app.inferType, app.reader)
    ensures !isTraining ==> app.inferType == Some(tp.value.inferenceType)
    ensures ConnectReady(isTraining, app.inferType, app.sampler, tp)
    ensures var c := Connect(isTraining, netParam, actionParam, tp, app.inferType, app.reader, app.sampler,
                             app.net.value, regLosses);
      && outputs.variables == c.declared
      && (!isTraining ==> app.outputDecoder == c.decoder)
  {
    app := new AutoencoderApplication(netParam, actionParam, isTraining);
    LoadSucceeds(isTraining, actionParam, dp, tp, None, NoneValue);
    var err := app.InitialiseDatasetLoader(dp, tp);
    app.InitialiseSampler();
    app.InitialiseNetwork();
    outputs := new OutputsCollector();
    var trainLoss, connectErr := app.ConnectDataAndNetwork(outputs, regLosses);
  }

  /** One run as the engine drives it: the four setup steps in order, then
      interpret_output on a batch holding the console outputs that
      connect_data_and_network declared. The engine is not part of this
      model: the batch is assumed to be the CONSOLE collection evaluated and
      keyed by name, with `evaluate` standing for the session that evaluates
      it. Whatever the mode, setup succeeds and the batch
      holds everything interpret_output reads: training carries on, and
      each inference mode decodes its own artifact with its own location
      columns. */
  method Lifecycle(netParam: NetParam, actionParam: ActionParam, isTraining: bool,
                   dp: Option<DataParam>, tp: Option<TaskParam>, regLosses: seq<Tensor>,
                   evaluate: string -> NdArray)
    returns (r: Result<Interpretation>)
    requires isTraining || (tp.Some? && tp.value.inferenceType in SUPPORTED_INFERENCE)
    requires isTraining ==> |actionParam.scalingPercentage| != 1 && |actionParam.rotationAngle| != 1
    ensures isTraining ==> r == Ok(Continue)
    ensures !isTraining ==>
      var t := tp.value.inferenceType;
      && r.Ok? && r.value.Decoded?
      && r.value.call.artifact == evaluate(if t == "encode" then "embedded" else "generated_image")
      && r.value.call.aggregator.outputPath == actionParam.saveSegDir
      && (r.value.call.aggregator.imageReader == NoneValue <==> t == "sample")
      && (r.value.call.location.None? <==> t == "sample")
      && (r.value.call.location.Some? ==>
            r.value.call.location.value == SliceColumns(evaluate("location"),
                                                        if t == "linear_interpolation" then 2 else 1))
  {
    var app, outputs := Setup(netParam, actionParam, isTraining, dp, tp, regLosses);
    ConnectConsoleNames(isTraining, netParam, actionParam, tp, app.inferType, app.reader, app.sampler,
                        app.net.value, regLosses);
    DecoderChoice(isTraining, netParam, actionParam, tp, app.inferType, app.reader, app.sampler,
                  app.net.value, regLosses);
    var names := ConsoleNames(outputs.variables);
    var batch := map n | n in names :: evaluate(n);
    assert outputs.variables == Connect(isTraining, netParam, actionParam, tp, app.inferType, app.reader,
                                        app.sampler, app.net.value, regLosses).declared;
    if !isTraining {
      var t := tp.value.inferenceType;
      assert app.autoencoderParam == tp && app.inferType == Some(t);
      assert app.outputDecoder == Some(WindowAsImageAggregator(if t == "sample" then NoneValue else app.reader,
                                                               actionParam.saveSegDir));
      assert t != "sample" ==> app.reader.Built?;
      DecodesConsoleOutputs(app, t, names, evaluate, batch);
    }
    r := app.InterpretOutput(batch);
  }

  /** interpret_output on a batch holding the evaluated outputs named in
      `names`: when those include the mode's artifact and, outside `sample`,
      the location, the mode's artifact is decoded with its location
      columns by the aggregator connect_data_and_network built. */
  lemma DecodesConsoleOutputs(app: AutoencoderApplication, t: string, names: set<string>,
                              evaluate: string -> NdArray, batch: map<string, NdArray>)
    requires !app.isTraining && app.autoencoderParam.Some? && app.autoencoderParam.value.inferenceType == t
    requires t in SUPPORTED_INFERENCE
    requires app.outputDecoder == Some(WindowAsImageAggregator(if t == "sample" then NoneValue else app.reader,
                                                               app.actionParam.saveSegDir))
    requires t != "sample" ==> app.reader.Built?
    requires batch == map n | n in names :: evaluate(n)
    requires (if t == "encode" then "embedded" else "generated_image") in names
    requires t != "sample" ==> "location" in names
    ensures var r := app.InterpretOutput(batch);
      && r.Ok? && r.value.Decoded?
      && r.value.call.artifact == evaluate(if t == "encode" then "embedded" else "generated_image")
      && r.value.call.aggregator.outputPath == app.actionParam.saveSegDir
      && (r.value.call.aggregator.imageReader == NoneValue <==> t == "sample")
      && (r.value.call.location.None? <==> t == "sample")
      && (r.value.call.location.Some? ==>
            r.value.call.location.value == SliceColumns(evaluate("location"),
                                                        if t == "linear_interpolation" then 2 else 1))
  {
    var artifact := if t == "encode" then "embedded" else "generated_image";
    assert batch[artifact] == evaluate(artifact);
    assert t != "sample" ==> batch["location"] == evaluate("location");
  }
}
