/** The training-file naming convention: `/add` stores a sample as
    "<id>-<unixtime>.jpg" (api.go:87) and `train` reads the ID back as the text
    before the first '-' (api.go:134). */
module FileNames {
  import opened Errors
  import opened Strconv

  /** fmt.Sprintf("%d-%d.jpg", id, unixTime). */
  function SampleFileName(id: int, unixTime: int): (name: string)
    ensures |name| == |FormatInt(id)| + 1 + |FormatInt(unixTime)| + 4
    ensures name[..|FormatInt(id)|] == FormatInt(id) && name[|FormatInt(id)|] == '-'
    ensures name[|FormatInt(id)| + 1..|name| - 4] == FormatInt(unixTime)
    ensures name[|name| - 4..] == ".jpg"
  {
    FormatInt(id) + "-" + FormatInt(unixTime) + ".jpg"
  }

  /** strings.Split(name, "-")[0]: the longest prefix of name without a '-'. */
  function IdField(name: string): (r: string)
    ensures |r| <= |name| && r == name[..|r|]
    ensures '-' !in r
    ensures |r| < |name| ==> name[|r|] == '-'
  {
    if name == [] || name[0] == '-' then [] else [name[0]] + IdField(name[1..])
  }

  /** The identity `train` reads from a file name: strconv.Atoi of its ID field. */
  function ParseId(name: string): (r: Result<int, Error>)
    ensures r.Success? ==> name != [] && name[0] != '-' && IntSyntax(IdField(name))
    ensures r.Failure? ==> r.error.NumError? && r.error.num == IdField(name)
  {
    Atoi(IdField(name))
  }

  /** Whatever follows the first '-', the ID field is the dash-free text before it. */
  lemma {:induction false} IdFieldOfJoin(a: string, b: string)
    requires '-' !in a
    ensures IdField(a + "-" + b) == a
  {
    if a != [] {
      assert a[0] in a;
      assert (a + "-" + b)[1..] == a[1..] + "-" + b;
      assert forall c :: c in a[1..] ==> c in a;
      IdFieldOfJoin(a[1..], b);
    }
  }

  /** Round trip of /add and train: a non-negative ID is read back exactly,
      whatever the timestamp. */
  lemma IdRoundTrip(id: int, unixTime: int)
    requires 0 <= id <= MaxInt64
    ensures ParseId(SampleFileName(id, unixTime)) == Success(id)
  {
    var digits := FormatInt(id);
    assert '-' !in digits by {
      assert forall i :: 0 <= i < |digits| ==> IsDigit(digits[i]);
    }
    assert SampleFileName(id, unixTime) == digits + "-" + (FormatInt(unixTime) + ".jpg");
    IdFieldOfJoin(digits, FormatInt(unixTime) + ".jpg");
    AtoiFormatInt(id);
  }

  /** A negative ID's name starts with '-', so its ID field is empty and Atoi
      rejects it as a syntax error. */
  lemma NegativeIdUnparsable(id: int, unixTime: int)
    requires id < 0
    ensures IdField(SampleFileName(id, unixTime)) == ""
    ensures ParseId(SampleFileName(id, unixTime)) == Failure(NumError("Atoi", "", ErrSyntax))
  {
  }

  /** Two samples get the same file name only when they have the same ID and
      the same second; a second /add for one ID within one second is written
      to the same path as the first. */
  lemma SampleFileNameInjective(id1: int, t1: int, id2: int, t2: int)
    requires 0 <= id1 <= MaxInt64 && 0 <= id2 <= MaxInt64
    requires MinInt64 <= t1 <= MaxInt64 && MinInt64 <= t2 <= MaxInt64
    requires SampleFileName(id1, t1) == SampleFileName(id2, t2)
    ensures id1 == id2 && t1 == t2
  {
    IdRoundTrip(id1, t1);
    IdRoundTrip(id2, t2);
    var name := SampleFileName(id1, t1);
    var k := |FormatInt(id1)| + 1;
    assert name[k..|name| - 4] == FormatInt(t1);
    assert name[k..|name| - 4] == FormatInt(t2);
    FormatIntInjective(t1, t2);
  }
}
