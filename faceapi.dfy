/** The FaceAPI service object (api.go:27-29) and its three operations on the
    recognizer: rebuilding the gallery from the training directory (`train`,
    api.go:118-144), recognising the only face of an image (`recognize`,
    api.go:146-157), recognising every face of an image (`recongizeMultiple`,
    api.go:159-170), and the choice between the last two that the /recognize
    handler makes (api.go:58-64).

    The recognizer's installed samples are the `gallery` field; the engine's
    calls are the functions of `engine`. */
module FaceApi {
  import opened Errors
  import opened Strconv
  import opened Recognizer
  import opened FileNames
  import opened Training

  const ReadDirMessage: string := "failed to read training dir"
  // The source's own spelling.
  const RecognizeMessage: string := "failed to recongize face"
  const NoFaceMessage: string := "no face on image"

  class FaceAPI {
    const engine: Engine
    /** The samples last given to SetSamples, as (descriptor, category) pairs. */
    var gallery: seq<Sample>

    /** A freshly created recognizer has no samples installed. */
    constructor (engine: Engine)
      ensures this.engine == engine && gallery == []
    {
      this.engine := engine;
      gallery := [];
    }

    /** rec.SetSamples(samples, cats): an empty or mismatched pair of slices is
        ignored and the installed gallery stays; otherwise the new gallery
        replaces the old one whole. */
    method SetSamples(samples: seq<Descriptor>, cats: seq<int32>)
      modifies this
      ensures |samples| == 0 || |samples| != |cats| ==> gallery == old(gallery)
      ensures |samples| != 0 && |samples| == |cats| ==> gallery == Zip(samples, cats)
    {
      if |samples| == 0 || |samples| != |cats| {
        return;
      }
      gallery := Zip(samples, cats);
    }

    /** train: `listing` is what os.ReadDir returned for the training directory.
        The gallery changes only when every entry was handled and at least one
        face was accumulated, and then becomes exactly what the loop
        accumulated; on any error, or when no file had a face, it is left as it
        was. */
    method Train(listing: Result<seq<string>, Error>) returns (err: Option<Error>)
      modifies this
      ensures listing.Failure? ==> err == Some(Wrapped(ReadDirMessage, listing.error)) && gallery == old(gallery)
      ensures listing.Success? && Build(engine, listing.value).Success? ==>
                err == None
                && gallery == if Build(engine, listing.value).value == [] then old(gallery)
                              else Build(engine, listing.value).value
      ensures listing.Success? && Build(engine, listing.value).Failure? ==>
                err == Some(Build(engine, listing.value).error) && gallery == old(gallery)
    {
      if listing.Failure? {
        return Some(Wrapped(ReadDirMessage, listing.error));
      }
      var files := listing.value;
      var samples: seq<Descriptor> := [];
      var cats: seq<int32> := [];
      for i := 0 to |files|
        invariant |samples| == |cats|
        invariant Build(engine, files[..i]) == Success(Zip(samples, cats))
        invariant gallery == old(gallery)
      {
        var name := files[i];
        var face := engine.recognizeSingleFile(TrainingPath(name));
        if face.Failed? {
          assert StepOf(engine, name) == Abort(Wrapped(RecognizeFileMessage + name, face.err));
          StopsAt(engine, files, i, Zip(samples, cats), Wrapped(RecognizeFileMessage + name, face.err));
          return Some(Wrapped(RecognizeFileMessage + name, face.err));
        }
        if face.Found? {
          var id := ParseId(name);
          if id.Failure? {
            assert StepOf(engine, name) == Abort(Wrapped(ParseNameMessage, id.error));
            StopsAt(engine, files, i, Zip(samples, cats), Wrapped(ParseNameMessage, id.error));
            return Some(Wrapped(ParseNameMessage, id.error));
          }
          assert StepOf(engine, name) == Add(Sample(face.descriptor, ToInt32(id.value)));
          ContinuesAt(engine, files, i, Zip(samples, cats));
          ZipSnoc(samples, cats, face.descriptor, ToInt32(id.value));
          cats := cats + [ToInt32(id.value)];
          samples := samples + [face.descriptor];
        } else {
          ContinuesAt(engine, files, i, Zip(samples, cats));
        }
      }
      assert files[..|files|] == files;
      SetSamples(samples, cats);
      return None;
    }

    /** recognize: the only face of `data`, if there is exactly one,
        classified against the installed gallery. An engine error gives 0 and
        that error; no single face gives 0 and a nil error, because wrapping
        the nil error yields nil. */
    function Recognize(data: Bytes): (r: (int, Option<Error>))
      reads this
      ensures r.1.Some? <==> engine.recognizeSingle(data).Failed?
      ensures engine.recognizeSingle(data).Failed? ==>
                r == (0, Some(Wrapped(RecognizeMessage, engine.recognizeSingle(data).err)))
      ensures engine.recognizeSingle(data).NoFace? ==> r == (0, None)
      ensures engine.recognizeSingle(data).Found? ==>
                r.0 == engine.classify(gallery, engine.recognizeSingle(data).descriptor)
    {
      match engine.recognizeSingle(data)
      case Failed(e) => (0, Wrap(Some(e), RecognizeMessage))
      case NoFace => (0, Wrap(None, NoFaceMessage))
      case Found(d) => (engine.classify(gallery, d), None)
    }

    /** recongizeMultiple: one result per face the engine reports, in the
        engine's order, each the classification of that face against the one
        installed gallery. An engine error is passed on wrapped, and the faces
        returned beside it are still classified. */
    method RecognizeMultiple(data: Bytes) returns (results: seq<int>, err: Option<Error>)
      ensures |results| == |engine.recognize(data).faces|
      ensures forall i :: 0 <= i < |results| ==> results[i] == engine.classify(gallery, engine.recognize(data).faces[i])
      ensures err == Wrap(engine.recognize(data).err, RecognizeMessage)
    {
      var detection := engine.recognize(data);
      err := detection.err;
      if err.Some? {
        err := Wrap(err, RecognizeMessage);
      }
      results := [];
      for i := 0 to |detection.faces|
        invariant |results| == i
        invariant forall k :: 0 <= k < i ==> results[k] == engine.classify(gallery, detection.faces[k])
      {
        results := results + [engine.classify(gallery, detection.faces[i])];
      }
    }

    /** The /recognize handler's branch on the request's `multiple` flag: single
        mode always answers with a one-element list, multiple mode with one
        result per detected face. */
    method HandleRecognize(data: Bytes, multiple: bool) returns (results: seq<int>, err: Option<Error>)
      ensures !multiple ==> |results| == 1 && results[0] == Recognize(data).0 && err == Recognize(data).1
      ensures multiple ==> |results| == |engine.recognize(data).faces|
      ensures multiple ==> forall i :: 0 <= i < |results| ==>
                results[i] == engine.classify(gallery, engine.recognize(data).faces[i])
      ensures multiple ==> err == Wrap(engine.recognize(data).err, RecognizeMessage)
    {
      if multiple {
        results, err := RecognizeMultiple(data);
      } else {
        results := [0];
        var r := Recognize(data);
        results := results[0 := r.0];
        err := r.1;
      }
    }
  }

  /** In single mode an image without a face answers exactly like an image
      whose face the gallery classifies as 0: the two cannot be told apart. */
  lemma NoFaceLooksLikeCategoryZero(api: FaceAPI, blank: Bytes, data: Bytes)
    requires api.engine.recognizeSingle(blank).NoFace?
    requires api.engine.recognizeSingle(data).Found?
    requires api.engine.classify(api.gallery, api.engine.recognizeSingle(data).descriptor) == 0
    ensures api.Recognize(blank) == api.Recognize(data) == (0, None)
  {
  }
}
