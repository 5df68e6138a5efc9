# Autoencoder application: mode dispatch

This project models the wiring logic of NiftyNet's `AutoencoderApplication`
(`niftynet/application/autoencoder_application.py`). The engine drives the
application through its setup steps, in this order:

1. `initialise_dataset_loader`
2. `initialise_sampler`
3. `initialise_network`
4. `connect_data_and_network`

After setup, the engine calls `interpret_output` on every evaluated batch. What
each step does depends on the operating mode. The mode is training, or one of
four inference types: `encode`, `encode-decode`, `sample` and
`linear_interpolation`. Each step decides one part of the setup:

- which channel the reader reads;
- which augmentation layers it adds;
- which sampler it builds;
- which regulariser the network gets;
- how the graph is wired and which outputs are declared;
- how a batch is decoded.

Every collaborator is an opaque descriptor:

- the reader, the samplers, the augmentation layers, the network, the
  optimiser and the aggregator;
- the TensorFlow tensors, which are symbolic terms: a network call, an item of
  its output tuple, a reshape to the static shape of another tensor, and so on.

The project has three files:

- `descriptors.dfy` (module `Descriptors`) holds the configuration records, the
  descriptors, the symbolic tensors, the exceptions, the constants
  `SUPPORTED_INPUT` and `SUPPORTED_INFERENCE`, and the assumed behaviour of
  `look_up_operations`.
- `dispatch.dfy` (module `Dispatch`) holds functions that say what each step
  leaves behind: `Load`, `Samplers`, `ChooseRegulariser`, `Connect` and
  `SliceColumns`. It also holds the lemmas that state the dispatch's
  properties.
- `application.dfy` (module `Application`) holds the class
  `AutoencoderApplication`. Its fields mirror the Python object's attributes.
  Its setup methods assign those fields step by step, and each method is proved
  to leave exactly the state that the matching `Dispatch` function describes.
  `Valid()` is the object invariant. After a successful load it says that the
  mode is settled and that the reader fits the mode. After
  `initialise_sampler` it says that the sampler list is the one the mode calls
  for. `interpret_output` is a function of the object.

The `Lifecycle` client runs the four setup steps in order. It then calls
`interpret_output` on a batch holding the console outputs that
`connect_data_and_network` declared. It assumes that the engine evaluates the
CONSOLE collection and hands it over keyed by name. Under that assumption, for
every mode, it proves that nothing fails and that the batch contains every key
`interpret_output` reads.

## Model

| member | source | states |
|---|---|---|
| `Descriptors.LookUpOperations` | niftynet/application/autoencoder_application.py:41-45 | Assumed behaviour of `look_up_operations` on a set: it succeeds iff the string is supported, returns the string itself, and otherwise fails naming the string. |
| `Dispatch.InferType` | niftynet/application/autoencoder_application.py:41-45 | `_infer_type` is None when training. Otherwise it is the task's inference type, which must be in `SUPPORTED_INFERENCE`. The value fails exactly when the type is unsupported, and a missing task_param is an attribute error. |
| `Dispatch.SelectReader` | niftynet/application/autoencoder_application.py:47-55 | The inference type's choice overrides the training one: `image` for the encoding modes, `()` for `sample`, and `feature` for `linear_interpolation`. With no inference type, training selects the image reader and otherwise the prior slot survives. Any newly selected reader reads one supported channel, is not yet initialised and has no layers. |
| `Dispatch.AugmentationChain` | niftynet/application/autoencoder_application.py:60-73 | The chain is empty when not training. Its layers come in strictly increasing rank (flip, then scaling, then rotation) with no kind twice. Flip is present iff the axes are not the -1 sentinel, scaling iff `scaling_percentage` is non-empty, and rotation iff `rotation_angle` is non-empty. Nothing else is in the chain, and it is empty iff nothing is enabled. A one-element range fails with IndexError, and the scaling check comes first. |
| `Dispatch.Load` | niftynet/application/autoencoder_application.py:37-73 | What initialise_dataset_loader leaves. Outside training, only the mode lookup can fail, and then `_infer_type` and the reader keep their prior values. In training, only a one-element range can fail; by then the image reader has been built and initialised but has no layers. The lemmas below state the successful case. |
| `Dispatch.LoadChannels` | niftynet/application/autoencoder_application.py:47-73 | After a successful load, training, `encode` and `encode-decode` read `['image']`, and `linear_interpolation` reads `['feature']`. `sample` holds the `()` sentinel iff that is the mode. Every built reader is initialised with (data_param, task_param), carries exactly the augmentation chain, and reads only channels in `SUPPORTED_INPUT`. |
| `Dispatch.LoadSettlesMode` | niftynet/application/autoencoder_application.py:41-58 | A successful load sets `_infer_type` to None iff training, and otherwise to the task's supported type. What it leaves does not depend on the state before the call. |
| `Dispatch.LoadRejectsUnsupported` | niftynet/application/autoencoder_application.py:41-45 | The loader raises the lookup error for the task's type iff not training and the type is unsupported, so setup fails fast. |
| `Dispatch.LoadFits` | niftynet/application/autoencoder_application.py:41-58 | A successful load leaves a reader slot that fits its mode (`ReaderFits`). |
| `Dispatch.LoadSucceeds` | niftynet/application/autoencoder_application.py:37-73 | A supported inference type, or training with well-formed ranges, never makes the loader fail. |
| `Dispatch.Samplers` | niftynet/application/autoencoder_application.py:75-99 | There is at most one sampler, and the list is empty iff the mode is `sample` (or no branch applies). The sampler is built over the current reader, data_param and batch size. A resize sampler has one window per image and shuffles iff training. The interpolate sampler is used iff the mode is `linear_interpolation`, and it carries `n_interpolations`. |
| `Dispatch.Lower` | niftynet/application/autoencoder_application.py:104 | Lower-casing keeps the length and lower-cases each character. |
| `Dispatch.LowerIdempotent` | niftynet/application/autoencoder_application.py:104 | Lower-casing twice gives the same result as lower-casing once. |
| `Dispatch.ChooseRegulariser` | niftynet/application/autoencoder_application.py:101-113 | The regulariser is L2 iff the lower-cased reg_type is `l2` and decay > 0, and L1 iff it is `l1` and decay > 0. Otherwise there is none. Any chosen regulariser has scale `decay`. |
| `Dispatch.RegulariserIgnoresCase` | niftynet/application/autoencoder_application.py:104-113 | Lower-casing reg_type beforehand does not change the choice. |
| `Dispatch.MeansOf` | niftynet/application/autoencoder_application.py:138-139 | The comprehension gives one `reduce_mean` per regularisation loss, in order. |
| `Dispatch.TotalLoss` | niftynet/application/autoencoder_application.py:133-140 | The total loss is the data loss iff decay <= 0 or there are no regularisation losses. Otherwise it is the data loss plus the mean of the per-item means. |
| `Dispatch.Connect` | niftynet/application/autoencoder_application.py:119-222 | What connect_data_and_network leaves. An optimiser and a training loss exist iff training. A decoder exists iff not training and nothing was raised. The only possible error is NotImplementedError, which declares nothing, and outputs are declared iff there is no error. The lemmas below give each branch. |
| `Dispatch.TrainingConnect` | niftynet/application/autoencoder_application.py:122-151 | Training creates Adam with the configured rate and builds no decoder. It declares `variational_lower_bound` twice, both averaged and both equal to the data loss: first to CONSOLE with no summary type, then to TF_SUMMARIES as a scalar. The optimiser's loss is `TotalLoss` of the data loss, so it differs from the data loss iff decay > 0 and regularisation losses exist. |
| `Dispatch.InferenceBindings` | niftynet/application/autoencoder_application.py:152-220 | In each inference mode, every binding is averaged and sent to CONSOLE, with no optimiser and no training loss. The names, in order, are: `encode` declares location and embedded; `encode-decode` declares location and generated_image; `sample` declares generated_image; `linear_interpolation` declares generated_image and then location. |
| `Dispatch.EncodingPicksPosition` | niftynet/application/autoencoder_application.py:153-169 | `encode` and `encode-decode` read the same network output tuple, from a forward pass on the cast image batch. `encode` takes index 7 and `encode-decode` takes index 2, and both declare the same location. |
| `Dispatch.SampleNoiseShape` | niftynet/application/autoencoder_application.py:175-193 | For any sampler list, including the empty list that `sample` mode has, the noise is a normal draw with mean 0 and the configured stddev. Its shape is exactly the static shape of the last output of a zero dummy pass of shape (batch,)+window+(1,). The noise then goes through shared_decoder and then decoder_means. |
| `Dispatch.InterpolationReshape` | niftynet/application/autoencoder_application.py:198-214 | The interpolation feature batch is reshaped to the static shape of the last output of the same zero dummy pass. It then goes through shared_decoder and then decoder_means. |
| `Dispatch.DecoderChoice` | niftynet/application/autoencoder_application.py:153-222 | The decoder is built with the reader for `encode`, `encode-decode` and `linear_interpolation`, with None for `sample`, and never when training. NotImplementedError is raised iff not training and the type is not supported. Outputs are declared iff there is no error. |
| `Dispatch.ConnectKeys` | niftynet/application/autoencoder_application.py:119-217 | Per mode, the batch keys the declared outputs read are: `{image}` for training, `{image, image_location}` for the encoding modes, none for `sample`, and `{feature, feature_location}` for interpolation. |
| `Dispatch.ChannelsMatchReads` | niftynet/application/autoencoder_application.py:48-217 | For a reader that fits its mode, the data channels the wired graph reads are exactly the channels the reader provides. Each inference mode that reads a channel also reads that channel's location. |
| `Dispatch.ConnectConsoleNames` | niftynet/application/autoencoder_application.py:145-217 | For each mode, gives the set of names declared to CONSOLE. |
| `Dispatch.SliceColumns` | niftynet/application/autoencoder_application.py:231-246 | `location[:, :k]` keeps every row. Each row keeps its first min(k, width) entries, so no column at index k or beyond appears. |
| `Application.AutoencoderApplication.constructor` | niftynet/application/autoencoder_application.py:25-35 | The constructor stores is_training, net_param and action_param. Every other attribute starts as None, and the sampler list as empty. The object is `Valid()`. |
| `Application.AutoencoderApplication.InitialiseDatasetLoader` | niftynet/application/autoencoder_application.py:37-73 | The loader stores data_param and task_param, and leaves `_infer_type`, the reader and the exception that `Load` describes. It counts as loaded iff nothing was raised, keeps `Valid()`, and changes nothing else. |
| `Application.AutoencoderApplication.InferTypeOf` | niftynet/application/autoencoder_application.py:41-45 | The lookup branch yields exactly `InferType`. |
| `Application.AutoencoderApplication.ChooseReader` | niftynet/application/autoencoder_application.py:47-55 | The assignments to the reader leave exactly `SelectReader` of the settled mode and the prior reader. |
| `Application.AutoencoderApplication.InitialiseReader` | niftynet/application/autoencoder_application.py:57-73 | Initialising a truthy reader and adding its layers completes exactly the reader and the exception that `Load` describes. |
| `Application.AutoencoderApplication.AugmentationLayers` | niftynet/application/autoencoder_application.py:60-73 | The appends build exactly `AugmentationChain`. |
| `Application.AutoencoderApplication.InitialiseSampler` | niftynet/application/autoencoder_application.py:75-99 | The sampler list becomes `Samplers(...)` of the current state, and `Valid()` now ties it to the mode. |
| `Application.AutoencoderApplication.InitialiseNetwork` | niftynet/application/autoencoder_application.py:101-117 | The network is built from its name, with `ChooseRegulariser` as both the weight and the bias regulariser. |
| `Application.AutoencoderApplication.ConnectDataAndNetwork` | niftynet/application/autoencoder_application.py:119-222 | The method appends exactly `Connect(...).declared` to the outputs collector, and sets the optimiser and the output decoder as `Connect` says. It returns the optimiser's loss. After a successful setup it never raises NotImplementedError. |
| `Application.AutoencoderApplication.ConnectTraining` | niftynet/application/autoencoder_application.py:122-151 | The training branch appends exactly the declarations `Connect` gives, and sets the optimiser and the training loss as `Connect` says. |
| `Application.AutoencoderApplication.ConnectEncoding` | niftynet/application/autoencoder_application.py:153-174 | The encoding branch appends exactly the declarations `Connect` gives, and builds its decoder. |
| `Application.AutoencoderApplication.ConnectSample` | niftynet/application/autoencoder_application.py:175-197 | The `sample` branch appends exactly the declarations `Connect` gives, and builds its decoder, without reading the sampler. |
| `Application.AutoencoderApplication.ConnectInterpolation` | niftynet/application/autoencoder_application.py:198-220 | The `linear_interpolation` branch appends exactly the declarations `Connect` gives, and builds its decoder. |
| `Application.AutoencoderApplication.InterpretOutput` | niftynet/application/autoencoder_application.py:224-246 | Training gives True. Otherwise the type is looked up again, and an unsupported type is rejected here as well. `encode` decodes `embedded`, and the other modes decode `generated_image`, always with the object's decoder. `sample` passes no location. The encoding modes pass `location[:, 0:1]`, and interpolation passes `location[:, :2]`. The call succeeds iff the decoder exists and the batch holds the keys it reads. |
| `Application.AutoencoderApplication.Decode` | niftynet/application/autoencoder_application.py:232-246 | `decode_batch` is called in Python's evaluation order. A missing decoder attribute fails first, then a missing artifact key, then a missing `location`. The call succeeds iff all three are present, and then passes the decoder, the artifact and `location[:, :k]`, or no location when no columns are asked for. |
| `Application.Setup` | niftynet/application/autoencoder_application.py:37-222 | The four setup steps, run in order on fresh objects, succeed for every supported mode. Afterwards the reader fits the mode, the outputs collector holds exactly `Connect(...).declared`, and in inference the decoder is the one `Connect` builds. |
| `Application.DecodesConsoleOutputs` | niftynet/application/autoencoder_application.py:224-246 | `interpret_output`, on a batch of evaluated outputs that includes the mode's artifact and (outside `sample`) the location, decodes that artifact. It uses the mode's location columns and the aggregator built for the mode. |
| `Application.Lifecycle` | niftynet/application/autoencoder_application.py:37-246 | Run in the engine's order, setup succeeds for every supported mode. `interpret_output`, given the console outputs (assumed to be what the engine evaluates), then returns True when training. Otherwise it decodes the mode's artifact with the mode's location columns, through an aggregator writing to `save_seg_dir`. That aggregator has no reader exactly in `sample`. |

## Left out

- TensorFlow values and numerics are not modelled. This covers the cast, zeros,
  random normal, reshape, reduce_mean, the Adam optimiser and the name scope.
  Each appears only as a symbolic term recording how it was built.
- A reshape whose element counts disagree is not modelled. TensorFlow raises
  that error, and this file does not check for it.
- `ApplicationNetFactory.create`, `shared_decoder`, `decoder_means`,
  `LossFunction` and the regularizer functions are named opaque calls. Their
  bodies are not part of this model, and an unknown network name is not
  modelled.
- The internals of `ImageReader`, `ResizeSampler`, `LinearInterpolateSampler`,
  the augmentation layers and `WindowAsImageAggregator.decode_batch` are
  descriptors. `interpret_output` returns the `decode_batch` call it makes
  rather than that call's result. `add_preprocessing_layers` is taken to
  append. On every reachable path the reader is fresh, so appending and
  setting agree.
- An `ImageReader` is assumed truthy, and `None` and `()` falsy. `ImageReader`
  is not part of this model.
- `look_up_operations` is not part of this model. `LookUpOperations` states
  the behaviour it is assumed to have.
- The tower id from `gradients_collector.current_tower_id`, which
  `pop_batch_op` receives when training, is left out. So is the gradients
  collector. The loss handed to `compute_gradients` is returned instead.
- The outputs collector is a recorder of its `add_to_collection` calls. Its
  own checks and storage are not part of this model.
- `BaseApplication` is not part of this model. The constructor starts the
  attributes it would provide as absent (`None`), and the sampler list as
  empty.
- The `tf.logging.info` call in the constructor is I/O and is not modelled.
- Dispatch.Lower: lower-cases ASCII letters only, not the full Unicode case
  mapping of Python's `str.lower`. A reg_type of `l1` or `l2` in any
  letter case is handled the same either way.
- Application.AutoencoderApplication.ConnectDataAndNetwork: states the graph
  symbolically and does not model the gradient collection or the device id.
- The engine calls the steps in this order, and the model requires that order
  through the ghost flags `loaded` and `samplerReady`. Out of order, Python
  fails on `_infer_type` (AttributeError) or inside a collaborator. In `sample`
  mode, `connect_data_and_network` never reads the sampler. These paths are
  not modelled.
- The last `interpret_output` branch is written as the remaining case. After a
  successful lookup the type is one of the four, so Python's implicit `None`
  return cannot happen.
- The code does not check that a required channel is present, and neither
  does the model.
- The `ValueError` of `look_up_operations` is modelled as
  `UnsupportedOperation`.
- The engine that evaluates the declared outputs is not part of this model.
  `Lifecycle` assumes it evaluates the CONSOLE collection and passes the
  values to `interpret_output` keyed by name.
