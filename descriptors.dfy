/** Values that the autoencoder application passes around: its configuration
    records, descriptors standing for the collaborators it constructs (reader,
    samplers, augmentation layers, network, aggregator), symbolic tensors for
    the graph it wires, and the exceptions it can raise. Nothing here computes
    a tensor; every collaborator is an opaque descriptor recording how it was
    built. */
module Descriptors {

  datatype Option<+T> = None | Some(value: T)

  /** The exceptions the application raises, named after their Python kinds. */
  datatype Error =
    | UnsupportedOperation(typeStr: string)  // look_up_operations rejects a type string
    | MissingAttribute(attr: string)         // AttributeError, e.g. on a None task_param
    | IndexOutOfRange(param: string)         // IndexError reading element [1] of a short range
    | NotImplemented                         // NotImplementedError: no inference branch matched
    | MissingKey(key: string)                // KeyError on the batch_output dictionary

  datatype Result<+T> = Ok(value: T) | Err(error: Error)

  /** SUPPORTED_INPUT: the input channels a reader may be built over. */
  const SUPPORTED_INPUT: set<string> := {"image", "feature"}

  /** SUPPORTED_INFERENCE: the four inference types. */
  const SUPPORTED_INFERENCE: set<string> := {"encode", "encode-decode", "sample", "linear_interpolation"}

  /** look_up_operations over a set, whose body is not part of this model: it
      is assumed to return the type string itself when the string is one of
      the supported ones and to fail otherwise. */
  function LookUpOperations(typeStr: string, supported: set<string>): (r: Result<string>)
    ensures r.Ok? <==> typeStr in supported
    ensures r.Ok? ==> r.value == typeStr
    ensures r.Err? ==> r.error == UnsupportedOperation(typeStr)
  {
    if typeStr in supported then Ok(typeStr) else Err(UnsupportedOperation(typeStr))
  }

  // ---------------------------------------------------------------------
  // Configuration records (only the fields this application reads)

  /** net_param */
  datatype NetParam = NetParam(name: string, batchSize: int, regType: string, decay: real)

  /** random_flipping_axes holds either the integer sentinel -1 or a tuple of axes. */
  datatype FlipAxes = IntAxes(n: int) | TupleAxes(axes: seq<int>)

  /** action_param */
  datatype ActionParam = ActionParam(
    lr: real,
    lossType: string,
    randomFlippingAxes: FlipAxes,
    scalingPercentage: seq<real>,
    rotationAngle: seq<real>,
    spatialWindowSize: seq<int>,
    saveSegDir: string)

  /** task_param, kept by the application as autoencoder_param */
  datatype TaskParam = TaskParam(inferenceType: string, nInterpolations: int, noiseStddev: real)

  /** data_param: only passed through to the reader and the samplers. */
  datatype DataParam = DataParam(sections: seq<string>)

  // ---------------------------------------------------------------------
  // Collaborator descriptors

  /** The augmentation layers, with the arguments they are built from. */
  datatype Layer =
    | RandomFlip(flipAxes: FlipAxes)
    | RandomSpatialScaling(minPercentage: real, maxPercentage: real)
    | RandomRotation(minAngle: real, maxAngle: real)

  /** The arguments of ImageReader.initialise_reader. */
  datatype ReaderInit = ReaderInit(data: Option<DataParam>, task: Option<TaskParam>)

  /** An ImageReader: the channels it was built over, how it was initialised,
      and the preprocessing layers added to it. */
  datatype ReaderDesc = ReaderDesc(channels: seq<string>, init: Option<ReaderInit>, layers: seq<Layer>)

  /** What the application's `reader` attribute holds: None, the empty tuple
      used as a "no reader" sentinel, or an ImageReader. */
  datatype ReaderSlot = NoneValue | EmptyTuple | Built(desc: ReaderDesc)

  /** Python truthiness of the reader attribute: an ImageReader is truthy,
      None and () are not. */
  predicate Truthy(slot: ReaderSlot)
  {
    slot.Built?
  }

  datatype SamplerDesc =
    | ResizeSampler(reader: ReaderSlot, data: Option<DataParam>, batchSize: int,
                    windowsPerImage: int, shuffleBuffer: bool)
    | LinearInterpolateSampler(reader: ReaderSlot, data: Option<DataParam>, batchSize: int,
                               nInterpolations: int)

  datatype Regulariser = L2Regulariser(scale: real) | L1Regulariser(scale: real)

  /** The network built by the factory from its name and its two regularisers. */
  datatype NetDesc = NetDesc(name: string, wRegulariser: Option<Regulariser>, bRegulariser: Option<Regulariser>)

  datatype Optimiser = Adam(learningRate: real)

  /** WindowAsImageAggregator, the output decoder. */
  datatype Aggregator = WindowAsImageAggregator(imageReader: ReaderSlot, outputPath: string)

  // ---------------------------------------------------------------------
  // Symbolic graph

  /** A node of the computation graph the application wires. */
  datatype Tensor =
    | Popped(sampler: SamplerDesc, key: string)       // data_dict[key] of sampler.pop_batch_op()
    | CastFloat32(t: Tensor)
    | NetCall(net: NetDesc, input: Tensor, isTraining: bool)  // the network's output tuple
    | Item(tuple: Tensor, index: int)                  // tuple[index]; -1 is the last element
    | Zeros(dims: seq<int>)
    | RandomNormal(shape: Shape, mean: real, stddev: real)
    | Reshape(t: Tensor, shape: Shape)
    | SharedDecoder(net: NetDesc, t: Tensor, isTraining: bool)
    | DecoderMeans(net: NetDesc, t: Tensor, isTraining: bool)
    | DataLoss(lossType: string, netOutput: Tensor)    // LossFunction(loss_type)(net_output)
    | RegularisationLoss(id: nat)                      // an item of REGULARIZATION_LOSSES
    | ReduceMean(t: Tensor)
    | ReduceMeanOf(items: seq<Tensor>)                 // reduce_mean over a list of tensors
    | Add(a: Tensor, b: Tensor)

  /** A tensor shape: literal dimensions or the static shape of a tensor. */
  datatype Shape = Dims(dims: seq<int>) | StaticShapeOf(of: Tensor)

  datatype Collection = Console | TfSummaries

  /** One outputs_collector.add_to_collection call. */
  datatype Binding = Binding(name: string, value: Tensor, averageOverDevices: bool,
                             collection: Collection, summaryType: Option<string>)

  // ---------------------------------------------------------------------
  // Evaluated batches and their interpretation

  /** An evaluated array, seen as rows (the batch axis) of numbers. */
  type NdArray = seq<seq<real>>

  /** One output_decoder.decode_batch call. */
  datatype DecodeCall = DecodeBatch(aggregator: Aggregator, artifact: NdArray, location: Option<NdArray>)

  /** What interpret_output returns: True (carry on) or the decoder's answer. */
  datatype Interpretation = Continue | Decoded(call: DecodeCall)
}
