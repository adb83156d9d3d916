# Fashion classifier service — Dafny model

A model of the inference request pipeline of a small web service that
classifies uploaded garment images into ten Fashion-MNIST categories. The
service checks an `X-API-Key` header against a configured secret, validates
the upload (not empty, declared media type `image/…`), converts the image to
a 1×28×28 grayscale tensor, runs a pre-trained Keras model on it, and answers
with the winning class index, its label and a confidence percentage. Every
failure path ends in an HTTP error with a `detail` string: a fixed text
for the 403 and 400 responses, and for a 500 the prefix
"Image processing failed: " followed by the cause of the failure.

Files and modules:

- `base.dfy` — `Base`: Python's `None`, a call outcome that is either a value
  or a raised exception (kept as the exception's text), bytes, and
  `str.startswith`.
- `config.dfy` — `Config`: the ten-entry label table of `src/config.py:22-23`
  and the three settings read from the environment (each may be unset).
- `argmax.dfy` — `Argmax`: numpy's `argmax` on one row, as a recursive
  function, as the left-to-right scan, and as the property "first maximum"
  that both satisfy.
- `inference.dfy` — `Inference`: `classify_image` as its stages
  (preprocessing at the level of shapes, the model call, result assembly,
  re-raising with a prefix); `AssemblyFacts`: concrete consequences of the
  assembly rules.
- `gateway.dfy` — `Gateway`: the API-key dependency, `GET /` and
  `POST /predict`, with the handler's `try` block and its `except` clauses.

The foreign libraries are parameters. `Inference.Imaging` holds the imaging
library's decoder (which may raise), its grayscale conversion and its
resampling; `Inference.Model` is the Keras `predict` call, which may raise.
The pipeline only fixes what it does with their results. Every member is a
pure function of its arguments and reads or writes no state, so equal
bytes, settings, library and model give equal responses within the model.
For the running service this holds only as far as the libraries' answers,
error texts included, depend on the bytes alone (see "Left out").

Behaviour that follows the code rather than a looser reading of the HTTP
contract:

- A non-empty upload with no declared media type gets a 500, not a 400:
  `.startswith` is called on `None`, and that exception is caught by the
  generic handler (main.py:49, main.py:58-60).
- A failure inside `classify_image` reaches the client with
  "Image processing failed: " twice, because both `classify_image` and the
  handler add it (src/inference.py:32, main.py:60).
- When no API secret is configured, every key is refused: no string equals
  `None` (main.py:24).
- A missing or empty `X-API-Key` header is refused by the framework's header
  dependency (main.py:20) before `verify_api_key` runs, with its own 403
  detail "Not authenticated"; an empty key is therefore never accepted, even
  if the configured secret is empty.
- The labels are those of `src/config.py:22-23` (`T_Shirt`, `Ankle_Boot`),
  not the display names the front end uses.
- Confidence is the raw score times 100 and is not clamped to [0, 100].

## Model

| member | source | states |
|---|---|---|
| `Argmax.ArgMax` | src/inference.py:19 | for any non-empty row, the chosen index holds a maximum and every earlier index holds a strictly smaller score |
| `Argmax.FirstMaxIsUnique` | src/inference.py:19 | a row has exactly one first maximum, so the tie rule determines the winner |
| `Argmax.ArgMaxScan` | src/inference.py:19 | the left-to-right scan that keeps the first strictly larger score finds the first maximum, the same index as the recursive definition |
| `Inference.ToGrayscale` | src/inference.py:11-12 | the result is always in mode "L" with the size unchanged; an image already in mode "L" passes through untouched, any other is replaced by the library's grayscale pixels |
| `Inference.Resize` | src/inference.py:13 | the result has exactly the requested width and height, whatever the input's aspect ratio, and keeps its mode; with a library that resamples to the requested size it holds one value per pixel |
| `Inference.AsBatchOfOne` | src/inference.py:14-15 | a single-band image becomes an array of shape 1 × height × width holding its pixels; the array holds as many elements as its shape calls for exactly when the image holds one value per pixel |
| `Inference.Preprocess` | src/inference.py:10-15 | preprocessing fails exactly when decoding fails, with the decoder's cause; otherwise the tensor has shape 1×28×28 for any decoded size, and with a library that resamples to the requested size it holds exactly 784 values |
| `Inference.Assemble` | src/inference.py:19-27 | a prediction is returned exactly when the first row is non-empty and its first maximum lies inside the ten-entry table; it then carries that index, the table's label for it and the score times 100; an empty batch, an empty row and an index beyond the table each raise their own cause |
| `Inference.Reraise` | src/inference.py:30-32 | a returned value passes through unchanged; a raised cause is raised again with "Image processing failed: " in front |
| `Inference.ClassifyImage` | src/inference.py:7-32 | success exactly when decoding, prediction and assembly all succeed, with index in range, label from the table, the first maximum of the model's first row and confidence equal to its score times 100; every failure's text starts with "Image processing failed: " followed by the original cause of the stage that failed: decoding, prediction, or assembly (empty batch, empty row, index beyond the table) |
| `AssemblyFacts.TieGoesToLowestIndex` | src/inference.py:19-20 | with equal top scores at positions 1 and 2 the answer is index 1, "Trouser" |
| `AssemblyFacts.ConfidenceIsNotClamped` | src/inference.py:26 | a top score of 3.0 yields confidence 300, not 100 |
| `AssemblyFacts.WinnerBeyondTableRaises` | src/inference.py:20 | a row whose first maximum is at index 10 makes the label lookup raise instead of returning a result |
| `Gateway.ApiKeyHeader` | main.py:20 | a key is handed on exactly when the header is present and non-empty, and it is the header's value; otherwise 403 "Not authenticated" |
| `Gateway.VerifyApiKey` | main.py:23-26 | access is granted exactly when the presented key equals the configured secret (never when no secret is configured); otherwise 403 with "You are not authorized to use this API" |
| `Gateway.Authenticate` | main.py:20-26 | access is granted exactly when a non-empty header equals the secret; a missing or empty header gets "Not authenticated", a wrong one "You are not authorized to use this API", both 403 |
| `Gateway.Home` | main.py:29-35 | with the right key, 200 with the configured name, version and "Up & running"; otherwise the 403 of the failing authentication step |
| `Gateway.TryBlock` | main.py:40-54 | an empty upload raises the 400 "Empty file provided" before the media type is looked at; only 400s are raised as HTTP exceptions; a returned value is exactly what classification gave |
| `Gateway.Except` | main.py:56-60 | a returned prediction becomes the 200 body; an HTTP exception reaches the client unchanged; any other exception becomes a 500 whose detail is "Image processing failed: " and its cause |
| `Gateway.Classify` | main.py:38-60 | the full decision: missing or empty key 403 "Not authenticated"; wrong key 403 "You are not authorized to use this API"; empty 400; missing media type 500 with the `NoneType` error; non-image type 400; otherwise 200 with classification's result or 500 with its cause prefixed; every 400 carries one of the two validation messages |
| `Gateway.RejectedWithoutClassifying` | main.py:39-50 | a request rejected by authentication or validation gets the same response for every imaging library and model |
| `Gateway.ClassificationFailureIsPrefixedTwice` | main.py:58-60 | when classification fails on an admissible upload the response is a 500 whose detail starts with the prefix twice |

## Left out

- The imaging library: decoding, grayscale conversion and resampling of pixel values are parameters; only the image's mode and size are followed.
- Inference.Preprocess: the imaging library reads only the header when an image is opened and decodes the pixel data later, inside `convert` or `resize`, which can then raise on truncated or corrupt data. The model's `open` stands for the complete decode, so every decode failure is attributed to it and conversion and resampling never fail.
- Inference.ClassifyImage: the decoder's error text is a function of the bytes in the model. The real library's message for unidentifiable data names the in-memory buffer object and its address, so the 500 detail for such bytes can differ from one request to the next.
- Inference.Preprocess: the 784-element guarantee holds for a library whose resampling yields one value per requested pixel; that is an assumption about the library, not something the pipeline checks.
- The Keras forward pass is a parameter. Its scores are `real`s, so IEEE float rounding, NaN and infinities (numpy's argmax returns the first NaN) are not modelled.
- Argmax.ArgMax: numpy's argmax runs over every row of the batch but only the first row's answer is used; the model assumes the rectangular arrays numpy has, so the other rows cannot fail it.
- Inference.AsBatchOfOne: covers single-band images only, since the pipeline always converts to mode "L" before building the array.
- Inference.Assemble: the model's output is a sequence of rows, which cannot record the row width of an empty batch. An empty batch stands for one whose rows would hold scores, which numpy answers with the out-of-bounds index error. For a 0×0 output numpy checks the empty axis first and raises the empty-argmax error instead; the model does not distinguish that case. The model used here returns one row per input, so it never returns an empty batch.
- Inference.Assemble: the texts of the numpy and Python errors (`NoRowCause`, `EmptyRowCause`, `LookupCause`) are the ones those libraries use as far as the model assumes; only their presence after the prefix matters to the rest of the model.
- `PredictionResponse` validation: the schema module is not part of this model, so building the response is taken never to fail.
- Gateway.ApiKeyHeader: the framework's response to a missing or empty header is taken to be 403 "Not authenticated", as the header dependency answered in the framework versions of the time; later versions answer 401.
- Reading the upload (`await file.read()`) is I/O and is taken to succeed.
- Loading the settings from the environment and the model from disk is startup I/O; the settings are a parameter and the model a function.
- CORS middleware, dependency injection, async scheduling and multipart parsing are framework plumbing.
- The Streamlit front end is a client of the HTTP contract and is not modelled.
