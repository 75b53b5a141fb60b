/** What `FaceAPI.train` computes from a directory listing (api.go:118-144),
    as a function of the engine and the listed names, with its properties.

    Each entry is sent to the engine; an engine error aborts, a file without a
    face is skipped, a face whose file name does not parse aborts, and any other
    face adds (descriptor, int32(id)) to the gallery. */
module Training {
  import opened Errors
  import opened Strconv
  import opened FileNames
  import opened Recognizer

  /** filepath.Join("data", "training"). */
  const TrainingDir: string := "data/training"

  const RecognizeFileMessage: string := "failed to recognize file "
  const ParseNameMessage: string := "failed to parse file name"

  /** filepath.Join(trainingDir, name) for a plain directory entry name: the
      entry's name becomes the last component under the training directory. */
  function TrainingPath(name: string): (path: string)
    ensures |path| == |TrainingDir| + 1 + |name|
    ensures path[..|TrainingDir|] == TrainingDir && path[|TrainingDir|] == '/'
    ensures path[|TrainingDir| + 1..] == name
  {
    TrainingDir + "/" + name
  }

  /** What one directory entry does to the loop. */
  datatype Step = Skip | Add(sample: Sample) | Abort(err: Error)

  function StepOf(engine: Engine, name: string): (s: Step)
    ensures s.Skip? <==> engine.recognizeSingleFile(TrainingPath(name)).NoFace?
    ensures s.Abort? <==> engine.recognizeSingleFile(TrainingPath(name)).Failed?
                          || (engine.recognizeSingleFile(TrainingPath(name)).Found? && ParseId(name).Failure?)
    ensures engine.recognizeSingleFile(TrainingPath(name)).Failed? ==>
              s == Abort(Wrapped(RecognizeFileMessage + name, engine.recognizeSingleFile(TrainingPath(name)).err))
    ensures engine.recognizeSingleFile(TrainingPath(name)).Found? && ParseId(name).Failure? ==>
              s == Abort(Wrapped(ParseNameMessage, ParseId(name).error))
    ensures engine.recognizeSingleFile(TrainingPath(name)).Found? && ParseId(name).Success? ==>
              s == Add(Sample(engine.recognizeSingleFile(TrainingPath(name)).descriptor, ToInt32(ParseId(name).value)))
  {
    match engine.recognizeSingleFile(TrainingPath(name))
    case Failed(e) => Abort(Wrapped(RecognizeFileMessage + name, e))
    case NoFace => Skip
    case Found(d) =>
      match ParseId(name)
      case Failure(e) => Abort(Wrapped(ParseNameMessage, e))
      case Success(id) => Add(Sample(d, ToInt32(id)))
  }

  /** The outcome of the loop over `names`: the gallery it accumulates, or the
      error of the entry that stopped it. */
  function Build(engine: Engine, names: seq<string>): (r: Result<seq<Sample>, Error>)
    ensures r.Success? ==> |r.value| <= |names|
    ensures r.Failure? ==> names != []
    decreases |names|
  {
    if names == [] then Success([])
    else Extend(Build(engine, names[..|names| - 1]), StepOf(engine, names[|names| - 1]))
  }

  /** One pass of the loop body on the outcome so far: a stopped loop stays
      stopped, otherwise the entry's step is applied. */
  function Extend(sofar: Result<seq<Sample>, Error>, step: Step): (r: Result<seq<Sample>, Error>)
    ensures sofar.Failure? ==> r == sofar
    ensures sofar.Success? && step.Skip? ==> r == sofar
    ensures sofar.Success? && step.Add? ==> r == Success(sofar.value + [step.sample])
    ensures sofar.Success? && step.Abort? ==> r == Failure(step.err)
  {
    match sofar
    case Failure(_) => sofar
    case Success(g) =>
      match step
      case Skip => sofar
      case Add(s) => Success(g + [s])
      case Abort(e) => Failure(e)
  }

  /** The loop's outcome after entry i is one more step on its outcome
      before it. */
  lemma PrefixStep(engine: Engine, names: seq<string>, i: nat)
    requires i < |names|
    ensures Build(engine, names[..i + 1]) == Extend(Build(engine, names[..i]), StepOf(engine, names[i]))
  {
    assert names[..i + 1][..i] == names[..i];
  }

  /** Entry i of the loop aborts after the entries before it were handled:
      the whole listing fails with that entry's error. */
  lemma StopsAt(engine: Engine, names: seq<string>, i: nat, g: seq<Sample>, e: Error)
    requires i < |names| && Build(engine, names[..i]) == Success(g)
    requires StepOf(engine, names[i]) == Abort(e)
    ensures Build(engine, names) == Failure(e)
  {
    PrefixStep(engine, names, i);
    FailureIsFinal(engine, names, i + 1, e);
  }

  /** Entry i of the loop is handled after the entries before it were: a
      skipped entry keeps the gallery, an added one extends it. */
  lemma ContinuesAt(engine: Engine, names: seq<string>, i: nat, g: seq<Sample>)
    requires i < |names| && Build(engine, names[..i]) == Success(g)
    requires !StepOf(engine, names[i]).Abort?
    ensures StepOf(engine, names[i]).Skip? ==> Build(engine, names[..i + 1]) == Success(g)
    ensures StepOf(engine, names[i]).Add? ==>
              Build(engine, names[..i + 1]) == Success(g + [StepOf(engine, names[i]).sample])
  {
    PrefixStep(engine, names, i);
  }

  /** The names among `names` on which the engine finds a face, in listing order. */
  function FaceFiles(engine: Engine, names: seq<string>): (r: seq<string>)
    ensures |r| <= |names|
    ensures forall f :: f in r ==> f in names && engine.recognizeSingleFile(TrainingPath(f)).Found?
    decreases |names|
  {
    if names == [] then []
    else
      var rest := FaceFiles(engine, names[..|names| - 1]);
      var last := names[|names| - 1];
      if engine.recognizeSingleFile(TrainingPath(last)).Found? then rest + [last] else rest
  }

  /** A gallery entry that was made from file `name`. */
  predicate MadeFrom(engine: Engine, name: string, s: Sample) {
    && engine.recognizeSingleFile(TrainingPath(name)) == Found(s.descriptor)
    && ParseId(name).Success?
    && s.category == ToInt32(ParseId(name).value)
  }

  /** Once the loop has stopped on a prefix, the rest of the listing is never
      looked at: the same error comes out. */
  lemma {:induction false} FailureIsFinal(engine: Engine, names: seq<string>, k: nat, e: Error)
    requires k <= |names|
    requires Build(engine, names[..k]) == Failure(e)
    ensures Build(engine, names) == Failure(e)
    decreases |names| - k
  {
    if k < |names| {
      assert names[..k + 1][..k] == names[..k];
      FailureIsFinal(engine, names, k + 1, e);
    } else {
      assert names[..k] == names;
    }
  }

  /** An aborting entry makes the whole loop fail, whatever comes before or
      after it. */
  lemma {:induction false} AbortFails(engine: Engine, names: seq<string>, i: nat)
    requires i < |names|
    ensures StepOf(engine, names[i]).Abort? ==> Build(engine, names).Failure?
  {
    if StepOf(engine, names[i]).Abort? {
      PrefixStep(engine, names, i);
      if Build(engine, names[..i]).Failure? {
        FailureIsFinal(engine, names, i, Build(engine, names[..i]).error);
      } else {
        FailureIsFinal(engine, names, i + 1, StepOf(engine, names[i]).err);
      }
    }
  }

  /** When the loop fails, its error is the one of the first aborting entry. */
  lemma {:induction false} FailureIsFirstAbort(engine: Engine, names: seq<string>, e: Error)
    requires Build(engine, names) == Failure(e)
    ensures exists i :: 0 <= i < |names| && StepOf(engine, names[i]) == Abort(e)
                        && forall j :: 0 <= j < i ==> !StepOf(engine, names[j]).Abort?
    decreases |names|
  {
    var init := names[..|names| - 1];
    if Build(engine, init).Failure? {
      FailureIsFirstAbort(engine, init, e);
      var i :| 0 <= i < |init| && StepOf(engine, init[i]) == Abort(e)
               && forall j :: 0 <= j < i ==> !StepOf(engine, init[j]).Abort?;
      assert names[i] == init[i];
      forall j | 0 <= j < i ensures !StepOf(engine, names[j]).Abort? {
        assert names[j] == init[j];
      }
    } else {
      forall j | 0 <= j < |names| - 1 ensures !StepOf(engine, names[j]).Abort? {
        AbortFails(engine, init, j);
        assert names[j] == init[j];
      }
    }
  }

  /** The loop fails exactly when some entry aborts: an engine error, or a face
      on a file whose name does not parse. */
  lemma {:induction false} FailsIffSomeAbort(engine: Engine, names: seq<string>)
    ensures Build(engine, names).Failure? <==> exists i :: 0 <= i < |names| && StepOf(engine, names[i]).Abort?
  {
    if Build(engine, names).Failure? {
      FailureIsFirstAbort(engine, names, Build(engine, names).error);
    } else {
      forall i | 0 <= i < |names| ensures !StepOf(engine, names[i]).Abort? {
        AbortFails(engine, names, i);
      }
    }
  }

  /** On success the gallery holds one entry per face-bearing file, in listing
      order, and entry k pairs that file's descriptor with the int32 of the ID
      parsed from that same file's name. */
  lemma {:induction false} SuccessIsFaceFiles(engine: Engine, names: seq<string>, g: seq<Sample>)
    requires Build(engine, names) == Success(g)
    ensures |g| == |FaceFiles(engine, names)|
    ensures forall k :: 0 <= k < |g| ==> MadeFrom(engine, FaceFiles(engine, names)[k], g[k])
    decreases |names|
  {
    if names != [] {
      var init := names[..|names| - 1];
      var last := names[|names| - 1];
      var g0 := Build(engine, init).value;
      SuccessIsFaceFiles(engine, init, g0);
      if StepOf(engine, last).Add? {
        assert g == g0 + [StepOf(engine, last).sample];
        assert FaceFiles(engine, names) == FaceFiles(engine, init) + [last];
      }
    }
  }

  /** A file on which the engine finds no face changes nothing, wherever it
      stands in the listing and whatever its name: the face check comes before
      the name is parsed. */
  lemma {:induction false} NoFaceIsSkipped(engine: Engine, pre: seq<string>, f: string, post: seq<string>)
    requires engine.recognizeSingleFile(TrainingPath(f)).NoFace?
    ensures Build(engine, pre + [f] + post) == Build(engine, pre + post)
    decreases |post|
  {
    if post == [] {
      assert pre + [f] + post == pre + [f] && pre + post == pre;
      assert (pre + [f])[..|pre|] == pre;
      assert StepOf(engine, f) == Skip;
    } else {
      var post0, x := post[..|post| - 1], post[|post| - 1];
      NoFaceIsSkipped(engine, pre, f, post0);
      LastSplit(post);
      SnocAssoc(pre + [f], post0, x);
      SnocAssoc(pre, post0, x);
      SnocKeepsSameBuild(engine, pre + [f] + post0, pre + post0, x);
    }
  }

  /** A non-empty sequence is its front followed by its last element. */
  lemma LastSplit<T>(s: seq<T>)
    requires s != []
    ensures s == s[..|s| - 1] + [s[|s| - 1]]
  {
  }

  /** Appending after a concatenation appends to its second part. */
  lemma SnocAssoc<T>(a: seq<T>, b: seq<T>, x: T)
    ensures a + (b + [x]) == (a + b) + [x]
  {
  }

  /** Two listings the loop treats alike are still treated alike once the
      same name is appended to both. */
  lemma {:induction false} SnocKeepsSameBuild(engine: Engine, a: seq<string>, b: seq<string>, x: string)
    requires Build(engine, a) == Build(engine, b)
    ensures Build(engine, a + [x]) == Build(engine, b + [x])
  {
    assert (a + [x])[..|a|] == a;
    assert (b + [x])[..|b|] == b;
  }

  /** A listing with no face on any file (an empty one included) trains an
      empty gallery. */
  lemma {:induction false} NoFacesEmptyGallery(engine: Engine, names: seq<string>)
    requires forall i :: 0 <= i < |names| ==> engine.recognizeSingleFile(TrainingPath(names[i])).NoFace?
    ensures Build(engine, names) == Success([])
    decreases |names|
  {
    if names != [] {
      var init := names[..|names| - 1];
      NoFacesEmptyGallery(engine, init);
    }
  }

  /** Files that /add wrote for non-negative IDs never make the loop fail on
      their names: it fails only if the engine reports an error. */
  lemma {:induction false} AddedNamesTrain(engine: Engine, names: seq<string>, ids: seq<int>, times: seq<int>)
    requires |ids| == |names| && |times| == |names|
    requires forall i :: 0 <= i < |names| ==> 0 <= ids[i] <= MaxInt64 && names[i] == SampleFileName(ids[i], times[i])
    ensures Build(engine, names).Failure? <==> exists i :: 0 <= i < |names| && engine.recognizeSingleFile(TrainingPath(names[i])).Failed?
  {
    FailsIffSomeAbort(engine, names);
    forall i | 0 <= i < |names| ensures ParseId(names[i]).Success? {
      IdRoundTrip(ids[i], times[i]);
    }
  }

  /** One sample stored by /add under an ID that fits in int32 trains a gallery
      whose only entry carries that ID. */
  lemma {:induction false} AddThenTrain(engine: Engine, id: int, unixTime: int, d: Descriptor)
    requires 0 <= id < 0x8000_0000
    requires engine.recognizeSingleFile(TrainingPath(SampleFileName(id, unixTime))) == Found(d)
    ensures Build(engine, [SampleFileName(id, unixTime)]) == Success([Sample(d, id as int32)])
  {
    var name := SampleFileName(id, unixTime);
    IdRoundTrip(id, unixTime);
    assert ToInt32(id) == id as int32;
    assert StepOf(engine, name) == Add(Sample(d, id as int32));
    assert [name][..0] == [];
    var s := Sample(d, id as int32);
    assert [] + [s] == [s];
  }

  /** A sample stored by /add under a negative ID on which the engine finds a
      face makes every later training fail, whatever the other files hold. */
  lemma {:induction false} NegativeIdBlocksTraining(engine: Engine, names: seq<string>, i: nat, id: int, unixTime: int)
    requires i < |names| && names[i] == SampleFileName(id, unixTime) && id < 0
    requires engine.recognizeSingleFile(TrainingPath(names[i])).Found?
    ensures Build(engine, names).Failure?
  {
    NegativeIdUnparsable(id, unixTime);
    FailsIffSomeAbort(engine, names);
  }
}
