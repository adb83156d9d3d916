/** `classify_image`: bytes in, a labelled prediction or a wrapped error out.
    Image decoding, pixel resampling and the Keras forward pass belong to
    foreign libraries; they appear as function parameters that may fail. */
module Inference {
  import opened Base
  import opened Config
  import opened Argmax

  /** A decoded image at the level the pipeline observes it: its mode, its
      size, and its pixel values (whatever the library computed). */
  datatype Image = Image(mode: string, width: nat, height: nat, pixels: seq<int>)

  /** A single-band image holds one value per pixel. */
  predicate WellSized(img: Image)
  {
    |img.pixels| == img.width * img.height
  }

  /** A numpy array: its shape and its elements in row-major order. */
  datatype Tensor = Tensor(shape: seq<nat>, data: seq<int>)

  /** The number of elements an array of the given shape holds. */
  function Elements(shape: seq<nat>): nat
  {
    if |shape| == 0 then 1 else shape[0] * Elements(shape[1..])
  }

  /** The array holds exactly as many elements as its shape calls for. */
  predicate Consistent(t: Tensor)
  {
    |t.data| == Elements(t.shape)
  }

  /** The imaging library's operations as seen by the pipeline:
      - `open` stands for the complete decode of the bytes, including the
        loading of pixel data the library defers until the image is first
        converted or resized; it returns the image or raises;
      - `grayscale` gives the pixels of `convert("L")`;
      - `resample` gives the pixels of `resize((w, h))`. */
  datatype Imaging = Imaging(
    open: seq<byte> -> Result<Image>,
    grayscale: Image -> seq<int>,
    resample: (Image, nat, nat) -> seq<int>)

  /** The library's resampling yields one value per pixel of the requested
      size. */
  ghost predicate ResamplesToSize(lib: Imaging)
  {
    forall img: Image, w: nat, h: nat :: |lib.resample(img, w, h)| == w * h
  }

  /** The loaded Keras model's `predict`: one row of scores per batch entry,
      or an exception. */
  type Model = Tensor -> Result<seq<seq<real>>>

  /** The response `classify_image` builds. */
  datatype Prediction = Prediction(classIndex: nat, className: string, confidence: real)

  /** The side of the square input the classifier was trained on. */
  const Side: nat := 28

  /** The text `classify_image` puts in front of every cause it re-raises. */
  const FailurePrefix: string := "Image processing failed: "

  /** What numpy raises when indexing the first entry of an empty batch whose
      rows would hold scores. */
  const NoRowCause: string := "index 0 is out of bounds for axis 0 with size 0"
  /** What numpy raises for the argmax of a row with no scores. */
  const EmptyRowCause: string := "attempt to get argmax of an empty sequence"
  /** What Python raises when the label table has no entry at the index. */
  const LookupCause: string := "list index out of range"

  /** Convert to single-band grayscale unless the image already is "L". */
  function ToGrayscale(lib: Imaging, img: Image): (r: Image)
    ensures r.mode == "L"
    ensures r.width == img.width && r.height == img.height
    ensures img.mode == "L" ==> r == img
    ensures img.mode != "L" ==> r.pixels == lib.grayscale(img)
  {
    if img.mode != "L" then Image("L", img.width, img.height, lib.grayscale(img))
    else img
  }

  /** Stretch to exactly `w` by `h`, whatever the original aspect ratio. */
  function Resize(lib: Imaging, img: Image, w: nat, h: nat): (r: Image)
    ensures r.width == w && r.height == h
    ensures r.mode == img.mode
    ensures ResamplesToSize(lib) ==> WellSized(r)
  {
    Image(img.mode, w, h, lib.resample(img, w, h))
  }

  /** `np.expand_dims(np.array(img), axis=0)` for a single-band image: the
      array is height by width, and a batch axis of size 1 goes in front. */
  function AsBatchOfOne(img: Image): (t: Tensor)
    requires img.mode == "L"
    ensures t.shape == [1, img.height, img.width]
    ensures t.data == img.pixels
    ensures Elements(t.shape) == img.width * img.height
    ensures Consistent(t) <==> WellSized(img)
  {
    var t := Tensor([1] + [img.height, img.width], img.pixels);
    assert Elements([img.width]) == img.width;
    assert Elements([img.height, img.width]) == img.height * img.width;
    t
  }

  /** Decode, convert to grayscale, stretch to 28 by 28, add the batch axis. */
  function Preprocess(lib: Imaging, bytes: seq<byte>): (r: Result<Tensor>)
    ensures r.Raised? <==> lib.open(bytes).Raised?
    ensures r.Raised? ==> r.cause == lib.open(bytes).cause
    ensures r.Ok? ==> r.value.shape == [1, Side, Side]
    ensures r.Ok? && ResamplesToSize(lib) ==> Consistent(r.value) && |r.value.data| == Side * Side
  {
    match lib.open(bytes)
    case Raised(c) => Raised(c)
    case Ok(img) => Ok(AsBatchOfOne(Resize(lib, ToGrayscale(lib, img), Side, Side)))
  }

  /** The scores the model gives the preprocessed bytes. */
  function Scores(lib: Imaging, model: Model, bytes: seq<byte>): Result<seq<seq<real>>>
  {
    match Preprocess(lib, bytes)
    case Raised(c) => Raised(c)
    case Ok(t) => model(t)
  }

  /** Reduce the model's output to a prediction: the first row's first
      maximum, its label, and its score times 100 (not clamped). */
  function Assemble(batch: seq<seq<real>>): (r: Result<Prediction>)
    ensures r.Ok? <==>
      && |batch| > 0 && |batch[0]| > 0
      && (forall i :: IsFirstMax(batch[0], i) ==> i < |ClassNames|)
    ensures r.Ok? ==>
      && IsFirstMax(batch[0], r.value.classIndex)
      && r.value.classIndex < |ClassNames|
      && r.value.className == ClassNames[r.value.classIndex]
      && r.value.confidence == batch[0][r.value.classIndex] * 100.0
    ensures |batch| == 0 ==> r == Raised(NoRowCause)
    ensures |batch| > 0 && |batch[0]| == 0 ==> r == Raised(EmptyRowCause)
    ensures |batch| > 0 && |batch[0]| > 0 && r.Raised? ==> r.cause == LookupCause
  {
    if |batch| == 0 then Raised(NoRowCause)
    else if |batch[0]| == 0 then Raised(EmptyRowCause)
    else
      var row := batch[0];
      var i := ArgMax(row);
      FirstMaxIsUnique(row, i);
      if i < |ClassNames| then Ok(Prediction(i, ClassNames[i], row[i] * 100.0))
      else Raised(LookupCause)
  }

  /** The `except` clause of `classify_image`: a value passes through, an
      exception is raised again with the prefix in front of its text. */
  function Reraise<T>(r: Result<T>): (w: Result<T>)
    ensures w.Ok? <==> r.Ok?
    ensures r.Ok? ==> w == r
    ensures r.Raised? ==> w.cause == FailurePrefix + r.cause
  {
    match r
    case Ok(_) => r
    case Raised(c) => Raised(FailurePrefix + c)
  }

  /** `classify_image(image_bytes)`. */
  function ClassifyImage(lib: Imaging, model: Model, bytes: seq<byte>): (r: Result<Prediction>)
    ensures r.Ok? <==> Scores(lib, model, bytes).Ok? && Assemble(Scores(lib, model, bytes).value).Ok?
    ensures r.Ok? ==>
      var row := Scores(lib, model, bytes).value[0];
      && IsFirstMax(row, r.value.classIndex)
      && r.value.classIndex < |ClassNames|
      && r.value.className == ClassNames[r.value.classIndex]
      && r.value.confidence == row[r.value.classIndex] * 100.0
    // Each stage's failure is re-raised with the prefix before its cause.
    ensures lib.open(bytes).Raised? ==>
      r == Raised(FailurePrefix + lib.open(bytes).cause)
    ensures lib.open(bytes).Ok? && model(Preprocess(lib, bytes).value).Raised? ==>
      r == Raised(FailurePrefix + model(Preprocess(lib, bytes).value).cause)
    ensures Scores(lib, model, bytes).Ok? && Assemble(Scores(lib, model, bytes).value).Raised? ==>
      r == Raised(FailurePrefix + Assemble(Scores(lib, model, bytes).value).cause)
    ensures r.Raised? ==> StartsWith(r.cause, FailurePrefix)
  {
    Reraise(match Scores(lib, model, bytes)
            case Raised(c) => Raised(c)
            case Ok(batch) => Assemble(batch))
  }
}

/** Consequences of the result assembly spelled out on concrete score rows. */
module AssemblyFacts {
  import opened Base
  import opened Config
  import opened Inference

  /** Equal scores go to the lowest index. */
  lemma TieGoesToLowestIndex()
    ensures Assemble([[0.25, 0.5, 0.5]]) == Ok(Prediction(1, "Trouser", 50.0))
  {
  }

  /** Scores that are not probabilities give a confidence above 100. */
  lemma ConfidenceIsNotClamped()
    ensures Assemble([[0.0, 0.0, 0.0, 0.0, 0.0, 0.0, 0.0, 3.0]]) == Ok(Prediction(7, "Sneaker", 300.0))
  {
  }

  /** A model with more outputs than labels can win at an index the table
      lacks; the lookup then raises instead of returning a result. */
  lemma WinnerBeyondTableRaises(row: seq<real>)
    requires |row| > |ClassNames|
    requires forall j :: 0 <= j < |ClassNames| ==> row[j] < row[|ClassNames|]
    requires forall j :: |ClassNames| < j < |row| ==> row[j] <= row[|ClassNames|]
    ensures Assemble([row]) == Raised(LookupCause)
  {
  }
}
