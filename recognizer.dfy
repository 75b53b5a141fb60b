/** The go-face recognizer as the service uses it, seen from outside.

    Detection, descriptor extraction and nearest-neighbour classification are
    not modelled: an `Engine` is a record of four arbitrary functions, one per
    call the service makes (RecognizeSingleFile, RecognizeSingle, Recognize,
    Classify), and a `Descriptor` is an abstract value. `classify` receives the
    gallery last installed by SetSamples, so what it returns may depend on that
    gallery and on nothing else of the service's state. */
module Recognizer {
  import opened Errors
  import opened Strconv

  /** Raw image bytes. */
  type Bytes = seq<bv8>

  /** The engine's numeric embedding of one face; its contents are never inspected. */
  type Descriptor(==)

  /** One gallery entry: the pair SetSamples receives as samples[i], cats[i]. */
  datatype Sample = Sample(descriptor: Descriptor, category: int32)

  /** What RecognizeSingle and RecognizeSingleFile return: an error, a nil
      face (no face, or more than one), or the image's only face. */
  datatype Single = Failed(err: Error) | NoFace | Found(descriptor: Descriptor)

  /** What Recognize returns: the faces found, in the engine's order, and an
      error that may be set alongside them. */
  datatype Detection = Detection(faces: seq<Descriptor>, err: Option<Error>)

  datatype Engine = Engine(
    recognizeSingleFile: string -> Single,
    recognizeSingle: Bytes -> Single,
    recognize: Bytes -> Detection,
    classify: (seq<Sample>, Descriptor) -> int)

  /** The gallery that SetSamples(samples, cats) installs: entry i pairs
      samples[i] with cats[i]. */
  function Zip(samples: seq<Descriptor>, cats: seq<int32>): (g: seq<Sample>)
    requires |samples| == |cats|
    ensures |g| == |samples|
    ensures forall i :: 0 <= i < |g| ==> g[i].descriptor == samples[i] && g[i].category == cats[i]
  {
    seq(|samples|, i requires 0 <= i < |samples| => Sample(samples[i], cats[i]))
  }

  /** Appending one pair to the two slices appends one entry to the gallery. */
  lemma ZipSnoc(samples: seq<Descriptor>, cats: seq<int32>, d: Descriptor, c: int32)
    requires |samples| == |cats|
    ensures Zip(samples + [d], cats + [c]) == Zip(samples, cats) + [Sample(d, c)]
  {
  }
}
