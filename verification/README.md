# onnx-react core, modelled in Dafny

This project models the two pieces of logic in the onnx-react demo that are not rendering:

- **The tensor encoder** (`imageDataToTensor` in `utils/imageHelper.ts`). It takes the RGBA bytes the canvas hands back, splits them into red, green and blue arrays, and drops alpha. It then concatenates the arrays into planar order and divides every byte by 255. The results go into a zero-initialised buffer of length `dims[1]·dims[2]·dims[3]`.
- **The application state machine** (`src/App.tsx`). The component's `useState` hooks form one immutable `App.State` record. The handlers are pure transitions:
  - `capture`, `chooseImage`, `handleFileChange` and the file reader's `onload`;
  - the two capture-mode buttons;
  - `setRandomImage`;
  - `classifyImage`, split at its `await` into `BeginClassify` and `FinishClassify`.

Files:

- `wrappers.dfy`: `Option` (null/undefined) and `Result` (a thrown error).
- `image_helper.dfy`: the encoder. It has three parts:
  - the source's two loops as methods with loop invariants: `SplitChannels` (lines 53-58) and `Normalise` (lines 65-67). `Transpose` (line 61) and `ImageDataToTensor` (the whole function) put them together without further loops;
  - an index-by-index reference definition, `Encode`;
  - lemmas about `Encode`: the planes, the [0, 1] range, alpha being ignored, and a decoder that reads every pixel back.
- `app.dfy`: the state record and its transitions. It also holds an invariant (`Valid`) that every run of actions preserves, and lemmas about the random-image loop and the ranking of predictions.

Things outside the model are parameters:

- The canvas step becomes an input `Canvas`: either no 2D context, or the bytes `getImageData` returned.
- `Math.random()` becomes a finite sequence of draws in [0, 1).
- The webcam screenshot becomes an `Option<string>`.
- The inference call becomes an `Inference` outcome: it either returned predictions and a duration, or threw.
- `toUpperCase` becomes a function parameter `upper`.

Points of the code's behaviour that are easy to miss:

- **A failed inference does not keep the previous result.** The code clears label, confidence and time before the inference call. After a failure the label stays `"Inferencing..."` (`App.ClassifyImage`).
- **The empty string counts as no image.** The image guard is JavaScript truthiness, so `""` is treated like `null` (`App.Truthy`). The same holds for the screenshot in `capture`.
- **An image that cannot be loaded shows the inference error.** Loading the image happens inside the awaited call. So a load failure reaches the user as `"Error during inference"`, not as `"Please select an image first."`. The latter appears only when no image is set.
- **The canvas width is `dims[2]` and its height `dims[3]`** (`utils/imageHelper.ts:26`). The shape handed to the runtime's `Tensor` is the same `dims`, and an NCHW shape puts the height at index 2. For a non-square shape the planes are therefore laid out row by row of a canvas `dims[2]` wide, under a shape that names `dims[2]` as the height. The default `[1, 3, 224, 224]` is square, so the two readings agree there. The model keeps the code's reading.
- **An empty prediction list is an error.** Reading `inferenceResult[0].name` on an empty list throws inside the `try`. The model therefore treats an empty list like a thrown inference (`App.FinishClassify`).

## Model

| member | source | states |
|---|---|---|
| ImageHelper.SplitChannels | utils/imageHelper.ts:45-58 | each of the red, green and blue arrays gets exactly one entry per 4-byte pixel, a quarter of the buffer length in all, and entry `k` is byte `4k`, `4k+1` or `4k+2` of the buffer |
| ImageHelper.Transpose | utils/imageHelper.ts:46-61 | the concatenation red‖green‖blue has `3·N` entries and agrees, index by index, with the pixel-wise reference layout `PlanarAt` |
| ImageHelper.Normalise | utils/imageHelper.ts:63-67 | the output has exactly the requested buffer length; every index covered by the input holds input/255; indices past the input keep the initial 0; input past the buffer's end is dropped |
| ImageHelper.ImageDataToTensor | utils/imageHelper.ts:25-71 | fails with "Failed to get 2D context" exactly when the canvas has no context. It fails with `getImageData`'s index-size error exactly when the canvas width `dims[2]` or height `dims[3]` is 0. It fails with the runtime's size mismatch exactly when the batch `dims[0]` is not 1 and the buffer is non-empty. It succeeds in every other case, returning a float32 tensor of shape `dims` and length `dims[1]·dims[2]·dims[3]` that equals the reference encoding. With three channels it is exactly the red, green and blue planes. The output depends only on the canvas bytes and dims, so two runs agree |
| ImageHelper.PlanesOfEncode | utils/imageHelper.ts:53-67 | with `dims[1] = 3` the encoding has length `3·N`: `out[k] = data[4k]/255`, `out[N+k] = data[4k+1]/255`, `out[2N+k] = data[4k+2]/255` for every pixel `k < N` |
| ImageHelper.EncodeInUnitRange | utils/imageHelper.ts:66 | every value of the encoding lies in [0, 1] |
| ImageHelper.AlphaIgnored | utils/imageHelper.ts:53-58 | two buffers that agree on every byte except the alpha bytes `4k+3` encode to the same tensor |
| ImageHelper.DecodeEncode | utils/imageHelper.ts:53-67 | with at least three channels, reading the planes back and multiplying by 255 recovers every pixel's red, green and blue bytes: the encoding loses nothing but alpha |
| ImageHelper.TwoByTwoExample | utils/imageHelper.ts:46-67 | the 2×2 raster red, green, blue, white encodes to `[1,0,0,1, 0,1,0,1, 0,0,1,1]` |
| App.Capture | src/App.tsx:15-21 | a non-null, non-empty screenshot becomes the image; any other screenshot leaves the state unchanged; no field other than the image ever changes |
| App.ChooseImage | src/App.tsx:46-52 | capture mode is off afterwards and no other field changes |
| App.HandleFileChange | src/App.tsx:54-64 | capture mode is off afterwards, whether or not a file was chosen, and no other field changes |
| App.FileLoaded | src/App.tsx:59-61 | the data URL read becomes the image and no other field changes |
| App.EnableCapture | src/App.tsx:134 | the "take picture" button turns capture mode on and changes nothing else |
| App.CancelCapture | src/App.tsx:139 | the "Cancel" button turns capture mode off and changes nothing else |
| App.Draw | src/App.tsx:38 | `Math.floor(Math.random() * n)` is an index in `[0, n)` |
| App.PickIndex | src/App.tsx:38-41 | a picked index lies in `[0, n)`, differs from the current one, and is the index of the first draw that differs from the current one, every earlier draw repeating it. No index is picked exactly when every draw maps to the current index, that is, when the loop is still spinning |
| App.SetRandomImage | src/App.tsx:35-44 | when the loop ends: the new index is that of the first draw differing from the current one, so it lies in `[0, 4)` and differs from the current index. The image is that sample, capture mode is off, and no other field changes. The loop has not ended within the given draws exactly when every draw repeats the current index |
| App.BeginClassify | src/App.tsx:66-75 | without an image only the error changes, to "Please select an image first.". With one: label "Inferencing...", confidence and time cleared, error cleared, image, index and capture flag untouched |
| App.FinishClassify | src/App.tsx:77-87 | a non-empty prediction list shows the upper-cased top name, its probability and the duration, and leaves the error alone. A throw, or an empty list, sets "Error during inference" and changes nothing else |
| App.ClassifyImage | src/App.tsx:66-88 | image, index and capture flag never change. Without an image only the error changes. On success the top prediction is shown and the error is cleared. On failure the error is "Error during inference" while the label stays "Inferencing..." and confidence and time stay empty |
| App.InitValid | src/App.tsx:12-31 | the initial hook values form a valid state |
| App.StepPreservesValid | src/App.tsx:15-88 | every action that returns keeps the index a valid sample index and keeps confidence and time shown together. It also keeps the error one of the two messages |
| App.RunPreservesValid | src/App.tsx:15-88 | the same holds after any sequence of actions, by induction on the sequence |
| App.SingleImageNeverSettles | src/App.tsx:38-41 | with a one-image list and current index 0, the retry loop never ends, whatever the draws |
| App.SeveralImagesCanSettle | src/App.tsx:38-41 | with at least two samples, some single draw ends the retry loop, whatever the current index |
| App.FirstRandomSkipsFirstSample | src/App.tsx:25-43 | the index starts at 0 with no image shown, so the first random image is never `strawberry.jpg` |
| App.FirstIsMostLikely | src/App.tsx:80 | in a list ranked by descending probability the first entry is at least as likely as every other |
| App.ShownConfidenceIsMaximal | src/App.tsx:80-82 | when the predictions are ranked, the confidence shown after a successful classification is the maximum probability |

## Left out

- Canvas creation, `drawImage` resampling and `getImageData` (`utils/imageHelper.ts:29-43`) are browser drawing calls with an unspecified resampling filter. The model starts from the byte buffer they produce, four bytes per pixel. Of `getImageData`'s behaviour it keeps the bytes and the index-size error for an empty area.
- `loadImageFromPath` and `getImageTensorFromPath` (`utils/imageHelper.ts:3-23`) are asynchronous image loading.
- `FileReader` and the hidden file input's `click()` (`src/App.tsx:49-51`, `58-62`) are DOM I/O. Only their effect on the state is modelled (`App.FileLoaded`).
- Float32 rounding: values are exact `real`s divided by 255, not IEEE single-precision numbers.
- The `Tensor` constructor of the inference runtime is an external library. The model keeps its element type, data and shape. Of its checks it keeps only the one this call can trip: data length against the product of the dims (`ImageHelper.TensorSize`).
- `runSqueezenetModel` in `utils/modelHelper` is not part of this model. `inferenceSqueezenet` in `utils/predict.ts` only chains the image helper and the model call. Inference is the abstract `Inference` outcome.
- `toUpperCase` is the parameter `upper`. The text of "Inference speed: … seconds" and of the confidence is not modelled: the state holds the numbers, with `None` for the empty string.
- The webcam component, JSX rendering, styling and the unused `url` state (`src/App.tsx:90-177`) are left out. The capture-mode buttons at lines 134 and 139 are the exception.
- Overlapping classify calls, where the last to finish wins, are concurrency. Each `classifyImage` is modelled as one uninterrupted step.
- `dims` with fewer than four entries, or negative entries, would throw or produce `NaN` in the source. The model takes `dims` as four naturals.
- A buffer length that is not a multiple of four would make the source push `undefined`. `getImageData` never produces one, so the model requires a multiple of four.
