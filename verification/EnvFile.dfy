/** Environment files of the staging host, line by line, and the three image lines in them. */
module EnvFile {

  type Image = string
  type Lines = seq<string>

  datatype Triple = Triple(api: Image, worker: Image, releaseOps: Image)

  const API := "SMEDC_API_IMAGE="
  const WORKER := "SMEDC_WORKER_IMAGE="
  const RELEASE_OPS := "SMEDC_RELEASE_OPS_IMAGE="

  predicate Starts(line: string, prefix: string) {
    |prefix| <= |line| && line[..|prefix|] == prefix
  }

  predicate IsImageLine(line: string) {
    Starts(line, API) || Starts(line, WORKER) || Starts(line, RELEASE_OPS)
  }

  /** `sed -n 's/^NAME=//p' FILE | tail -n 1`: the value of the last such line, or nothing. */
  function Read(file: Lines, prefix: string): Image {
    if file == [] then ""
    else if Starts(file[|file| - 1], prefix) then file[|file| - 1][|prefix|..]
    else Read(file[..|file| - 1], prefix)
  }

  function ReadTriple(file: Lines): Triple {
    Triple(Read(file, API), Read(file, WORKER), Read(file, RELEASE_OPS))
  }

  /** The lines the image lines are set among, in order. */
  function Others(file: Lines): Lines {
    if file == [] then []
    else if IsImageLine(file[0]) then Others(file[1..])
    else [file[0]] + Others(file[1..])
  }

  function ImageLines(t: Triple): Lines {
    [API + t.api, WORKER + t.worker, RELEASE_OPS + t.releaseOps]
  }

  /** `update_images`: drop every image line and append the new three. */
  function Updated(file: Lines, t: Triple): Lines {
    Others(file) + ImageLines(t)
  }

  lemma PrefixesApart(line: string)
    ensures !(Starts(line, API) && Starts(line, WORKER))
    ensures !(Starts(line, API) && Starts(line, RELEASE_OPS))
    ensures !(Starts(line, WORKER) && Starts(line, RELEASE_OPS))
  {
    assert API[6] == 'A' && WORKER[6] == 'W' && RELEASE_OPS[6] == 'R';
    if Starts(line, API) {
      assert line[6] == line[..|API|][6];
    }
    if Starts(line, WORKER) {
      assert line[6] == line[..|WORKER|][6];
    }
    if Starts(line, RELEASE_OPS) {
      assert line[6] == line[..|RELEASE_OPS|][6];
    }
  }

  lemma Tagged(prefix: string, image: Image)
    ensures Starts(prefix + image, prefix) && (prefix + image)[|prefix|..] == image
  {
  }

  lemma ReadSnoc(file: Lines, line: string, prefix: string)
    ensures Read(file + [line], prefix) == if Starts(line, prefix) then line[|prefix|..] else Read(file, prefix)
  {
    assert (file + [line])[..|file|] == file;
  }

  /** What is read is what stands behind the name on the last line that begins with it ... */
  lemma {:induction false} ReadMeans(file: Lines, name: string, value: string, at: nat)
    requires at < |file| && file[at] == name + value
    requires forall j | at < j < |file| :: !(name <= file[j])
    ensures Read(file, name) == value
  {
    var n := |file| - 1;
    Tagged(name, value);
    if at < n {
      assert !Starts(file[n], name);
      ReadMeans(file[..n], name, value, at);
    }
  }

  /** ... and nothing if no line does. */
  lemma {:induction false} ReadNothing(file: Lines, name: string)
    requires forall j | 0 <= j < |file| :: !(name <= file[j])
    ensures Read(file, name) == ""
  {
    if file != [] {
      assert !Starts(file[|file| - 1], name);
      ReadNothing(file[..|file| - 1], name);
    }
  }

  /** Of the lines of a file exactly those that set an image are no others. */
  lemma OthersMeans(a: Lines, line: string, b: Lines)
    ensures Others([]) == []
    ensures Others(a + [line] + b) == Others(a)
      + (if "SMEDC_API_IMAGE=" <= line || "SMEDC_WORKER_IMAGE=" <= line || "SMEDC_RELEASE_OPS_IMAGE=" <= line
         then [] else [line])
      + Others(b)
  {
    OthersOfSum(a + [line], b);
    OthersOfSum(a, [line]);
    OthersOne(line);
    StartsMeans(line, API);
    StartsMeans(line, WORKER);
    StartsMeans(line, RELEASE_OPS);
  }

  lemma StartsMeans(line: string, prefix: string)
    ensures Starts(line, prefix) <==> prefix <= line
  {
  }

  /** Whatever stands before them, the three lines read back as written. */
  lemma ReadBack(file: Lines, t: Triple)
    ensures ReadTriple(file + ImageLines(t)) == t
  {
    var a, w, r := API + t.api, WORKER + t.worker, RELEASE_OPS + t.releaseOps;
    Tagged(API, t.api);
    Tagged(WORKER, t.worker);
    Tagged(RELEASE_OPS, t.releaseOps);
    PrefixesApart(a);
    PrefixesApart(w);
    PrefixesApart(r);
    assert file + ImageLines(t) == ((file + [a]) + [w]) + [r];
    ReadBackOne(file, a, w, r, API);
    ReadBackOne(file, a, w, r, WORKER);
    ReadBackOne(file, a, w, r, RELEASE_OPS);
  }

  lemma ReadBackOne(file: Lines, a: string, w: string, r: string, prefix: string)
    ensures Read(((file + [a]) + [w]) + [r], prefix) ==
            if Starts(r, prefix) then r[|prefix|..] else if Starts(w, prefix) then w[|prefix|..]
            else if Starts(a, prefix) then a[|prefix|..] else Read(file, prefix)
  {
    ReadSnoc((file + [a]) + [w], r, prefix);
    ReadSnoc(file + [a], w, prefix);
    ReadSnoc(file, a, prefix);
  }

  lemma {:induction false} OthersOfSum(a: Lines, b: Lines)
    ensures Others(a + b) == Others(a) + Others(b)
  {
    if a == [] {
      assert a + b == b;
    } else {
      OthersOfSum(a[1..], b);
      assert (a + b)[1..] == a[1..] + b;
    }
  }

  lemma {:induction false} OthersIdempotent(file: Lines)
    ensures Others(Others(file)) == Others(file)
  {
    if file != [] {
      OthersIdempotent(file[1..]);
      if !IsImageLine(file[0]) {
        assert ([file[0]] + Others(file[1..]))[1..] == Others(file[1..]);
      }
    }
  }

  lemma NoOthersInImages(t: Triple)
    ensures Others(ImageLines(t)) == []
  {
    Tagged(API, t.api);
    Tagged(WORKER, t.worker);
    Tagged(RELEASE_OPS, t.releaseOps);
    assert Others([RELEASE_OPS + t.releaseOps]) == [];
    var two := [WORKER + t.worker, RELEASE_OPS + t.releaseOps];
    assert two[1..] == [RELEASE_OPS + t.releaseOps] && ImageLines(t)[1..] == two;
    assert Others(two) == [];
  }

  /** An update sets the triple and keeps every other line in its order. */
  lemma UpdateSets(file: Lines, t: Triple)
    ensures ReadTriple(Updated(file, t)) == t
    ensures Others(Updated(file, t)) == Others(file)
  {
    ReadBack(Others(file), t);
    OthersOfSum(Others(file), ImageLines(t));
    OthersIdempotent(file);
    NoOthersInImages(t);
  }

  /** Going to a new triple and back to the first leaves what one update to the first would leave. */
  lemma UpdateBack(file: Lines, there: Triple, back: Triple)
    ensures Updated(Updated(file, there), back) == Updated(file, back)
  {
    UpdateSets(file, there);
  }

  /** The lines of a file of which only the first `n` characters were written. */
  function Cut(file: Lines, n: nat): Lines
    decreases file
  {
    if file == [] || n == 0 then []
    else if n <= |file[0]| then [file[0][..n]]
    else [file[0]] + Cut(file[1..], n - |file[0]| - 1)
  }

  lemma CutOne(line: string, n: nat)
    ensures Cut([line], n) == if n == 0 then [] else if n <= |line| then [line[..n]] else [line]
  {
    assert [line][1..] == [];
    assert n > |line| ==> Cut([line], n) == [line] + [];
  }

  lemma CutTwo(first: string, second: string, n: nat)
    ensures Cut([first, second], n) ==
      if n <= |first| then Cut([first], n) else [first] + Cut([second], n - |first| - 1)
  {
    assert [first, second][1..] == [second];
    CutOne(first, n);
  }

  lemma CutApart(prefix: string, other: string, image: Image, n: nat)
    requires n <= |prefix + image| && prefix in {API, WORKER, RELEASE_OPS} && other in {API, WORKER, RELEASE_OPS}
    requires other != prefix
    ensures !Starts((prefix + image)[..n], other)
  {
    var line, cut := prefix + image, (prefix + image)[..n];
    Tagged(prefix, image);
    PrefixesApart(line);
    assert |other| <= n ==> line[..|other|] == cut[..|other|];
  }

  lemma NothingRead()
    ensures forall prefix :: Read([], prefix) == ""
  {
  }

  /** A record cut off anywhere while its lines were being written names nothing but
      beginnings of what was to be written, and the last of the three only if the other
      two are there in full: a record that names all three names two images of one release. */
  lemma CutOff(t: Triple, n: nat)
    ensures var f := Cut(ImageLines(t), n);
      && Read(f, API) <= t.api && Read(f, WORKER) <= t.worker && Read(f, RELEASE_OPS) <= t.releaseOps
      && (Read(f, RELEASE_OPS) != "" ==> Read(f, API) == t.api && Read(f, WORKER) == t.worker)
  {
    hide Read, Starts;
    var a, w, r := API + t.api, WORKER + t.worker, RELEASE_OPS + t.releaseOps;
    assert ImageLines(t)[1..] == [w, r];
    var f := Cut(ImageLines(t), n);
    NothingRead();
    if n == 0 {
    } else if n <= |a| {
      assert f == [] + [a[..n]];
      ReadCut(API, t.api, n, [], WORKER, RELEASE_OPS);
    } else if n - |a| - 1 == 0 {
      assert f == [] + [a];
      assert a[..|a|] == a;
      ReadCut(API, t.api, |a|, [], WORKER, RELEASE_OPS);
    } else {
      CutThree(t, n - |a| - 1);
    }
  }

  /** What one more line, cut at `n`, adds to what a file names. */
  lemma ReadCut(prefix: string, image: Image, n: nat, file: Lines, other: string, another: string)
    requires n <= |prefix + image| && prefix in {API, WORKER, RELEASE_OPS}
    requires other in {API, WORKER, RELEASE_OPS} && another in {API, WORKER, RELEASE_OPS}
    requires other != prefix && another != prefix
    ensures var f := file + [(prefix + image)[..n]];
      && Read(f, other) == Read(file, other) && Read(f, another) == Read(file, another)
      && (Read(file, prefix) == "" ==> Read(f, prefix) <= image)
      && (n == |prefix + image| ==> Read(f, prefix) == image)
  {
    var line := (prefix + image)[..n];
    CutApart(prefix, other, image, n);
    CutApart(prefix, another, image, n);
    ReadSnoc(file, line, prefix);
    ReadSnoc(file, line, other);
    ReadSnoc(file, line, another);
    if Starts(line, prefix) {
      assert line[|prefix|..] == image[..n - |prefix|];
    }
    if n == |prefix + image| {
      assert line == prefix + image;
      Tagged(prefix, image);
    }
  }

  /** The cut behind the first line. */
  lemma CutThree(t: Triple, m: nat)
    requires m > 0
    ensures var f := [API + t.api] + Cut([WORKER + t.worker, RELEASE_OPS + t.releaseOps], m);
      && Read(f, API) == t.api && Read(f, WORKER) <= t.worker && Read(f, RELEASE_OPS) <= t.releaseOps
      && (Read(f, RELEASE_OPS) != "" ==> Read(f, WORKER) == t.worker)
  {
    var a, w, r := API + t.api, WORKER + t.worker, RELEASE_OPS + t.releaseOps;
    assert [] + [a] == [a] && a[..|a|] == a && w[..|w|] == w && r[..|r|] == r;
    ReadCut(API, t.api, |a|, [], WORKER, RELEASE_OPS);
    CutTwo(w, r, m);
    CutOne(w, m);
    if m <= |w| {
      ReadCut(WORKER, t.worker, m, [a], API, RELEASE_OPS);
    } else {
      ReadCut(WORKER, t.worker, |w|, [a], API, RELEASE_OPS);
      var k := m - |w| - 1;
      CutOne(r, k);
      if k == 0 {
        assert [a] + Cut([w, r], m) == [a] + [w];
      } else {
        var l := if k <= |r| then k else |r|;
        assert [a] + Cut([w, r], m) == ([a] + [w]) + [r[..l]];
        ReadCut(RELEASE_OPS, t.releaseOps, l, [a] + [w], API, WORKER);
      }
    }
  }

  /** The filter and the three appended lines, as the script writes its temporary file. */
  method UpdateImages(file: Lines, t: Triple) returns (next: Lines)
    ensures next == Updated(file, t)
    ensures ReadTriple(next) == t && Others(next) == Others(file)
  {
    next := [];
    var i := 0;
    while i < |file|
      invariant 0 <= i <= |file|
      invariant next + Others(file[i..]) == Others(file)
    {
      assert file[i..][1..] == file[i + 1..];
      if !IsImageLine(file[i]) {
        next := next + [file[i]];
      }
      i := i + 1;
    }
    next := next + [API + t.api];
    next := next + [WORKER + t.worker];
    next := next + [RELEASE_OPS + t.releaseOps];
    assert next == Updated(file, t);
    UpdateSets(file, t);
  }

  // ---------------------------------------------------------------- the signing secret

  const SECRET := "CURSOR_SIGNING_SECRET="

  function Unsigned(file: Lines): Lines {
    if file == [] then []
    else
      var n := |file| - 1;
      if Starts(file[n], SECRET) then Unsigned(file[..n]) else Unsigned(file[..n]) + [file[n]]
  }

  /** The signing secret's line is dropped wherever it stands and appended anew. */
  function Signed(file: Lines, secret: string): Lines { Unsigned(file) + [SECRET + secret] }

  lemma StartsFirst(line: string, prefix: string)
    requires Starts(line, prefix) && prefix != ""
    ensures line != "" && line[0] == prefix[0]
  {
    assert line[0] == line[..|prefix|][0];
  }

  lemma StartsElsewhere(line: string, prefix: string)
    requires line != "" && prefix != "" && line[0] != prefix[0]
    ensures !Starts(line, prefix)
  {
    if Starts(line, prefix) {
      StartsFirst(line, prefix);
    }
  }

  lemma SecretApart(line: string)
    requires Starts(line, SECRET)
    ensures !IsImageLine(line)
  {
    assert SECRET[0] == 'C' && API[0] == 'S' && WORKER[0] == 'S' && RELEASE_OPS[0] == 'S';
    StartsFirst(line, SECRET);
    StartsElsewhere(line, API);
    StartsElsewhere(line, WORKER);
    StartsElsewhere(line, RELEASE_OPS);
  }

  lemma {:induction false} UnsignedReads(file: Lines, prefix: string)
    requires prefix == API || prefix == WORKER || prefix == RELEASE_OPS
    ensures Read(Unsigned(file), prefix) == Read(file, prefix)
  {
    if file != [] {
      var n := |file| - 1;
      UnsignedReads(file[..n], prefix);
      if Starts(file[n], SECRET) {
        SecretApart(file[n]);
      } else {
        ReadSnoc(Unsigned(file[..n]), file[n], prefix);
      }
    }
  }

  lemma OthersOne(line: string)
    ensures Others([line]) == if IsImageLine(line) then [] else [line]
  {
    assert [line][1..] == [];
  }

  lemma UnsignedSnoc(file: Lines, line: string)
    ensures Unsigned(file + [line]) == if Starts(line, SECRET) then Unsigned(file) else Unsigned(file) + [line]
  {
    assert (file + [line])[..|file|] == file;
  }

  lemma {:induction false} UnsignedOthers(file: Lines)
    ensures Others(Unsigned(file)) == Unsigned(Others(file))
  {
    if file != [] {
      var n := |file| - 1;
      assert file == file[..n] + [file[n]];
      UnsignedOthers(file[..n]);
      OthersOfSum(file[..n], [file[n]]);
      OthersOne(file[n]);
      if Starts(file[n], SECRET) {
        SecretApart(file[n]);
        UnsignedSnoc(Others(file[..n]), file[n]);
      } else {
        OthersOfSum(Unsigned(file[..n]), [file[n]]);
        UnsignedSnoc(Others(file[..n]), file[n]);
        assert Others(file[..n]) + [] == Others(file[..n]);
      }
    }
  }

  /** Setting the secret changes no image and no other line. */
  lemma SignedKeepsImages(file: Lines, secret: string)
    ensures ReadTriple(Signed(file, secret)) == ReadTriple(file)
    ensures Others(Signed(file, secret)) == Signed(Others(file), secret)
  {
    var line := SECRET + secret;
    Tagged(SECRET, secret);
    SecretApart(line);
    UnsignedReads(file, API);
    UnsignedReads(file, WORKER);
    UnsignedReads(file, RELEASE_OPS);
    ReadSnoc(Unsigned(file), line, API);
    ReadSnoc(Unsigned(file), line, WORKER);
    ReadSnoc(Unsigned(file), line, RELEASE_OPS);
    UnsignedOthers(file);
    OthersOfSum(Unsigned(file), [line]);
    OthersOne(line);
  }

  /** The secret reads back, and every line that does not set it stays where it was. */
  lemma SignedMeans(file: Lines, line: string, secret: string)
    ensures Read(Signed(file, secret), "CURSOR_SIGNING_SECRET=") == secret
    ensures Signed([], secret) == ["CURSOR_SIGNING_SECRET=" + secret]
    ensures Signed(file + [line], secret) ==
      Unsigned(file) + (if "CURSOR_SIGNING_SECRET=" <= line then [] else [line]) + [SECRET + secret]
  {
    Tagged(SECRET, secret);
    ReadSnoc(Unsigned(file), SECRET + secret, SECRET);
    UnsignedSnoc(file, line);
    StartsMeans(line, SECRET);
    assert Unsigned(file) + [] == Unsigned(file);
  }
}
