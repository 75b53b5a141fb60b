# faceapi: the training and recognition core

A Dafny model of the logic in `api.go`, a small Go service that recognises faces
with the go-face library. Three pieces are modelled:

- **The training-file name codec.** `/add` stores a sample under the name
  `"<id>-<unixtime>.jpg"`. `train` reads the identity back with
  `strconv.Atoi(strings.Split(name, "-")[0])` and narrows it with `int32(...)`.
  The model contains Go's `%d` (`Strconv.FormatInt`) and `strconv.Atoi` for a
  64-bit `int` (`Strconv.Atoi`). Atoi keeps Go's syntax and range errors, and the
  order in which they are found. The model also has the split on the first `-`
  (`FileNames.IdField`) and the truncating `int32` conversion (`Strconv.ToInt32`).
  It proves that the round trip holds for every non-negative ID. It also proves
  that a negative ID always fails the parse: its name starts with `-`, so the
  ID field is empty.
- **The gallery rebuild (`FaceAPI.train`).** `Training.Build` is the reference
  definition of what the loop over a directory listing yields: the accumulated
  (descriptor, category) pairs, or the error that stopped it.
  `FaceApi.FaceAPI.Train` is the loop itself. It keeps two parallel sequences,
  `samples` and `cats`, and installs them with `SetSamples` only when every entry
  has been handled. The lemmas in `Training` prove four things:
  - when the loop fails, and with which error;
  - that a face-less file is neutral;
  - that a successful gallery is exactly the face-bearing files in listing order;
  - how names written by `/add` behave.
- **Result shaping for recognition.** `recognize`, `recongizeMultiple` and the
  single/multiple branch of the `/recognize` handler.

The go-face recognizer is a record of four functions (`Recognizer.Engine`):
`RecognizeSingleFile`, `RecognizeSingle`, `Recognize` and `Classify`. The model
puts no constraint on them. `Classify` receives the gallery last installed, so
its answer depends on that gallery. A descriptor is an abstract value.

What the code does, in the places where a reader might expect otherwise:

- A per-sample engine error during a rebuild is not skipped. `train` returns on
  the first engine error, and on the first face-bearing file whose name does
  not parse.
- Samples are not kept in one directory per identity. They sit flat in one
  directory, and the identity is the file-name prefix.
- "No face" is not a distinct answer. In single mode the code answers `(0, nil)`,
  the same as a face classified as 0 (`FaceApi.NoFaceLooksLikeCategoryZero`).
  go-face's `RecognizeSingle` also returns no face for an image with more than
  one face, so such an image answers `(0, nil)` too.
- There are no detection modes and no thresholds in the code.
- A rebuild that finds no face at all does not empty the gallery. `SetSamples`
  ignores an empty call, so the previously installed samples stay.

## Model

| member | source | states |
|---|---|---|
| `Errors.Wrap` | api.go:152-153 | errors.Wrap gives nil exactly when the wrapped error is nil; otherwise it gives a wrapped error carrying the message and the cause |
| `Strconv.DigitChar` | api.go:87 | the character written for a digit d < 10 is a decimal digit whose value is d |
| `Strconv.FormatInt` | api.go:87 | `%d` output is non-empty; it starts with '-' exactly for negative numbers and is all digits otherwise |
| `Strconv.Decimal` | api.go:87 | the digits of a natural number are non-empty, all decimal digits, and have no leading zero |
| `Strconv.ScanUint` | api.go:134 | Atoi's digit loop succeeds only on all-digit text, with a value at most MaxUint64; on all-digit text it yields exactly the number the digits spell (`DigitsFrom`) when that fits in uint64, and a range error otherwise |
| `Strconv.Atoi` | api.go:134 | on text of the form [+-]digits it yields exactly the signed value the digits spell (`IntValue`) when that lies in int64, and a range error NumError otherwise; text without that syntax is rejected; every error is a NumError naming "Atoi" and the whole input |
| `Strconv.ScanUintMalformed` | api.go:134 | on text whose digits s[..p] are followed by a non-digit, the digit loop gives a range error if those digits already pass MaxUint64 and a syntax error otherwise |
| `Strconv.AtoiMalformed` | api.go:134 | Atoi on [+-]digits followed by a non-digit fails with a NumError naming "Atoi" and the input, of kind range when the leading digits already pass MaxUint64 and of kind syntax otherwise |
| `Strconv.AtoiNoDigits` | api.go:134 | Atoi on empty text or a lone sign fails with a syntax NumError naming "Atoi" and the input |
| `Strconv.ToInt32` | api.go:138 | int32(x) is congruent to x modulo 2^32, and equals x exactly when x fits in int32 |
| `Strconv.DigitsFromSnoc` | api.go:134 | positional notation: one more digit at the end of the text multiplies its value by ten and adds the digit |
| `Strconv.DecimalValue` | api.go:87 | the digits `%d` writes for a natural number spell exactly that number |
| `Strconv.AtoiFormatInt` | api.go:134 | round trip: Atoi(FormatInt(x)) == x for every 64-bit x, negatives included |
| `Strconv.FormatIntInjective` | api.go:87 | different 64-bit numbers print differently |
| `FileNames.SampleFileName` | api.go:87 | the /add name is the ID's `%d` text, a '-', the timestamp's `%d` text and ".jpg", with exactly the length of those four parts |
| `FileNames.IdField` | api.go:134 | Split(name, "-")[0] is the longest prefix of the name without a '-': a prefix, dash-free, and followed by '-' unless it is the whole name |
| `FileNames.ParseId` | api.go:134 | Atoi of the ID field: it succeeds only on a name that does not start with '-' and whose ID field has Atoi's syntax; every failure is a NumError about the ID field |
| `FileNames.IdFieldOfJoin` | api.go:134 | the ID field of `a + "-" + b` is `a` when `a` has no '-' |
| `FileNames.IdRoundTrip` | api.go:134 | for 0 <= id <= MaxInt64 and any timestamp, parsing the ID field of the name written at api.go:87 gives back exactly id |
| `FileNames.NegativeIdUnparsable` | api.go:134-137 | for a negative id the ID field is empty, and Atoi fails with a syntax error on "" |
| `FileNames.SampleFileNameInjective` | api.go:87-89 | two /add names with non-negative IDs coincide only for the same ID and the same second, so a second sample within one second is written to the same path as the first |
| `Recognizer.Zip` | api.go:142 | the gallery SetSamples installs pairs samples[i] with cats[i] and has their common length |
| `Training.TrainingPath` | api.go:126 | the path handed to RecognizeSingleFile is the training directory, a '/', and the entry's name |
| `Training.StepOf` | api.go:126-139 | one entry is skipped exactly when the engine finds no face; an engine error aborts with that error wrapped as "failed to recognize file <name>"; a face on a name that does not parse aborts with Atoi's error wrapped as "failed to parse file name"; otherwise it adds that face's descriptor with int32 of the parsed ID |
| `Training.Build` | api.go:125-141 | the loop's outcome over a listing: a gallery has at most one entry per listed file, and only a non-empty listing can fail |
| `Training.FaceFiles` | api.go:130-133 | the face-bearing files are drawn from the listing and all have a face |
| `Training.FailureIsFinal` | api.go:127-137 | once an entry has aborted the loop, later entries cannot change the error that train returns |
| `Training.AbortFails` | api.go:125-137 | an entry that aborts makes train fail, wherever it stands in the listing |
| `Training.FailsIffSomeAbort` | api.go:125-137 | train fails if and only if some entry has an engine error or a face on an unparsable name |
| `Training.FailureIsFirstAbort` | api.go:125-137 | the error returned is that of the first aborting entry in listing order |
| `Training.SuccessIsFaceFiles` | api.go:123-141 | on success there is one gallery entry per face-bearing file, in listing order; entry k holds that file's descriptor and the int32 of the ID parsed from the same file (the parallel slices stay aligned) |
| `Training.NoFaceIsSkipped` | api.go:130-133 | inserting a face-less file anywhere in the listing changes nothing, whatever its name, because the face check precedes the parse |
| `Training.NoFacesEmptyGallery` | api.go:123-141 | an empty listing, or one where no file has a face, makes the loop accumulate no samples |
| `Training.AddedNamesTrain` | api.go:134-137 | on a listing of names written by /add for non-negative IDs, train fails exactly when the engine reports an error on some file |
| `Training.AddThenTrain` | api.go:134-139 | one /add sample whose ID fits in int32 and which has a face trains a one-entry gallery carrying that ID |
| `Training.NegativeIdBlocksTraining` | api.go:134-137 | one /add sample with a negative ID on which a face is found makes train fail, whatever else is in the directory |
| `FaceApi.FaceAPI.constructor` | api.go:33 | a new recognizer has an empty gallery |
| `FaceApi.FaceAPI.SetSamples` | api.go:142 | an empty or mismatched pair of slices leaves the gallery as it was; otherwise the whole gallery is replaced with the paired samples and categories |
| `FaceApi.FaceAPI.Train` | api.go:118-144 | a directory-read error is wrapped and returned, gallery unchanged; otherwise, if the loop succeeds the error is nil and the gallery becomes Build's result (or stays as it was when that result is empty), and if it fails Build's error is returned and the gallery is left as it was |
| `FaceApi.FaceAPI.Recognize` | api.go:146-157 | an error is returned exactly when the engine fails, and then the result is 0 with the wrapped engine error; no face gives (0, nil); a face gives Classify of its descriptor against the installed gallery |
| `FaceApi.FaceAPI.RecognizeMultiple` | api.go:159-170 | one result per detected face, in the engine's order, each Classify of that face against the same installed gallery; an engine error is wrapped and the returned faces are still classified |
| `FaceApi.FaceAPI.HandleRecognize` | api.go:58-64 | single mode always answers with a one-element list holding recognize's result and error; multiple mode answers with recongizeMultiple's results and error |
| `FaceApi.NoFaceLooksLikeCategoryZero` | api.go:152-155 | in single mode an image with no face answers exactly like an image whose face is classified as 0 |

## Left out

- HTTP routing, body parsing, JSON encoding and the listening socket (api.go:39-116) are not modelled. This includes JSON printing a `nil` result slice as `null` rather than `[]`.
- Base64 decoding (api.go:53, 82) is not modelled: the decoded bytes are an input.
- `os.WriteFile` and its permission bits (api.go:89) are not modelled. Neither is the `/add` handler beyond the name it builds.
- File modes are not modelled. `/add` passes `fs.ModeAppend` as the permission, which has no permission bits, so each sample file is created with mode 0000. For a process without the privilege to bypass file permissions, a second `/add` to the same name then fails with "failed to write output file" instead of overwriting, and `RecognizeSingleFile` cannot read the sample during `train` (an engine error in this model).
- `os.ReadDir` (api.go:119) is an input: either a listing of entry names in the order returned, or an error. That ReadDir sorts by name and also lists sub-directories is not modelled.
- `time.Now().Unix()` (api.go:87) is an input.
- Logging (api.go:131, 140) is not modelled.
- `filepath.Join` is modelled as `"data/training/" + name`. The path cleaning it also does is not modelled; it changes nothing for plain directory entry names.
- Creating the recognizer and its error path (api.go:33-36) are not modelled, and neither is the start-up `train` call (api.go:109-112). The constructor stands for a recognizer that loaded its models.
- The go-face engine's internals are not modelled: face detection, descriptor values (float vectors) and nearest-neighbour classification. Its four calls are arbitrary functions.
- The model assumes the engine never returns a face together with an error. `RecognizeSingleFile` and `RecognizeSingle` each return one of error, no face, or one face.
- `FaceApi.FaceAPI.SetSamples`: go-face is not part of this model. Its `SetSamples` is modelled as returning without a change when the slices are empty or of different lengths, and otherwise replacing the samples whole, which is how that library defines it.
- Concurrency is not modelled. `/train` can run `SetSamples` while `/recognize` runs `Classify`, and the code has no lock; the model is sequential.
- Go strings are bytes and the model's are characters. Only ASCII characters ('-', '+', digits) matter to the codec, so this does not affect the results.
