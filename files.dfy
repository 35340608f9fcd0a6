/** xmlback/files.py: choosing the image files of a directory and pairing
    them into a closed cycle of (from, to) transitions.

    The file system is replaced by parameters: `isDir` is the answer of
    os.path.isdir(path), `listing` is os.listdir(path) in the order the
    operating system returns it, and `resolve(name)` stands for
    os.path.realpath(os.path.join(path, name)). */
module Files {
  import opened Types

  predicate EndsWith(s: string, suffix: string)
  {
    |suffix| <= |s| && s[|s| - |suffix|..] == suffix
  }

  /** The filter SUPPORTED, on names without a newline: an exact,
      case-sensitive ".jpg" or ".png" at the end of the name. */
  predicate Supported(name: string)
  {
    EndsWith(name, ".jpg") || EndsWith(name, ".png")
  }

  ghost predicate NoNewline(s: string)
  {
    forall i :: 0 <= i < |s| ==> s[i] != '\n'
  }

  /** What re.match(r'.*\.(jpg|png)$', name) accepts: `.*` consumes a prefix
      without newlines from the start of the name, then the extension, then
      `$`, which matches at the end or before one final newline. */
  ghost predicate RegexMatches(name: string)
  {
    exists k :: 0 <= k <= |name| && NoNewline(name[..k]) && name[k..] in {".jpg", ".png", ".jpg\n", ".png\n"}
  }

  /** On names without a newline the suffix test is exactly the regular
      expression's match. */
  lemma SupportedIffRegexMatches(name: string)
    requires NoNewline(name)
    ensures Supported(name) <==> RegexMatches(name)
  {
    if Supported(name) {
      var k := |name| - 4;
      assert NoNewline(name[..k]);
      assert name[k..] in {".jpg", ".png", ".jpg\n", ".png\n"};
    }
    if RegexMatches(name) {
      var k :| 0 <= k <= |name| && NoNewline(name[..k]) && name[k..] in {".jpg", ".png", ".jpg\n", ".png\n"};
      var tail := name[k..];
      assert tail[|tail| - 1] == name[|name| - 1];
      assert tail == ".jpg" || tail == ".png";
      assert name[|name| - 4..] == tail;
    }
  }

  /** Names the filter keeps. */
  lemma KeptNameExamples()
    ensures Supported("a.jpg") && Supported("x.jpg") && Supported("y.png") && Supported(".jpg")
  {
    assert "a.jpg"[1..] == ".jpg";
    assert "x.jpg"[1..] == ".jpg";
    assert "y.png"[1..] == ".png";
  }

  /** Names the filter drops: the extension is case-sensitive and exact. */
  lemma DroppedNameExamples()
    ensures !Supported("b.PNG") && !Supported("c.txt") && !Supported("d.jpeg") && !Supported("jpg")
  {
    assert "b.PNG"[1..][1] == 'P';
    assert "c.txt"[1..][1] == 't';
    assert "d.jpeg"[2..][3] == 'g';
  }

  /** The names of the listing that pass the filter, in listing order. */
  function SupportedNames(listing: seq<string>): seq<string>
  {
    if listing == [] then []
    else SupportedNames(listing[..|listing| - 1])
         + (if Supported(listing[|listing| - 1]) then [listing[|listing| - 1]] else [])
  }

  /** Filtering distributes over concatenation: the kept names keep their
      relative order and nothing is sorted. */
  lemma {:induction false} SupportedNamesAppend(a: seq<string>, b: seq<string>)
    ensures SupportedNames(a + b) == SupportedNames(a) + SupportedNames(b)
    decreases |b|
  {
    if b == [] {
      assert a + b == a;
    } else {
      var b' := b[..|b| - 1];
      assert (a + b)[..|a + b| - 1] == a + b';
      SupportedNamesAppend(a, b');
    }
  }

  /** Each name occurs in the result exactly as often as in the listing when
      it is supported, and not at all otherwise: no de-duplication. */
  lemma {:induction false} SupportedNamesCount(listing: seq<string>, name: string)
    ensures multiset(SupportedNames(listing))[name] == if Supported(name) then multiset(listing)[name] else 0
    decreases |listing|
  {
    if listing != [] {
      var init := listing[..|listing| - 1];
      SupportedNamesCount(init, name);
      assert listing == init + [listing[|listing| - 1]];
    }
  }

  function Resolved(names: seq<string>, resolve: string -> Path): (r: seq<Path>)
    ensures |r| == |names|
    ensures forall i :: 0 <= i < |names| ==> r[i] == resolve(names[i])
  {
    seq(|names|, i requires 0 <= i < |names| => resolve(names[i]))
  }

  /** image_files(path, shuffle=False) */
  function KeptImages(listing: seq<string>, resolve: string -> Path): seq<Path>
  {
    Resolved(SupportedNames(listing), resolve)
  }

  lemma KeptImagesExample(resolve: string -> Path)
    ensures KeptImages(["a.jpg", "b.PNG", "c.txt"], resolve) == [resolve("a.jpg")]
  {
    var l := ["a.jpg", "b.PNG", "c.txt"];
    assert l[..2] == ["a.jpg", "b.PNG"] && l[..2][..1] == ["a.jpg"] && l[..2][..1][..0] == [];
    KeptNameExamples();
    DroppedNameExamples();
    assert SupportedNames(["a.jpg"]) == ["a.jpg"];
    assert SupportedNames(["a.jpg", "b.PNG"]) == ["a.jpg"];
    assert SupportedNames(l) == ["a.jpg"];
  }

  /** random.shuffle: the Fisher-Yates swap loop, each index drawn by the
      random number generator chosen here without constraint. */
  method Shuffle(s: seq<Path>) returns (t: seq<Path>)
    ensures |t| == |s| && multiset(t) == multiset(s)
  {
    t := s;
    var i := |t| - 1;
    while i > 0
      invariant i < |t| == |s|
      invariant multiset(t) == multiset(s)
    {
      var j :| 0 <= j <= i;
      t := t[i := t[j]][j := t[i]];
      i := i - 1;
    }
  }

  /** image_files(path, shuffle) */
  method ImageFiles(isDir: bool, listing: seq<string>, resolve: string -> Path, shuffle: bool)
    returns (r: Result<seq<Path>>)
    ensures !isDir ==> r == Failure(NotADirectory)
    ensures isDir && !shuffle ==> r == Success(KeptImages(listing, resolve))
    ensures isDir && shuffle ==> r.Success? && multiset(r.value) == multiset(KeptImages(listing, resolve))
  {
    if !isDir {
      return Failure(NotADirectory);
    }
    var images: seq<Path> := [];
    for i := 0 to |listing|
      invariant images == KeptImages(listing[..i], resolve)
    {
      var filename := listing[i];
      assert listing[..i + 1][..i] == listing[..i];
      if Supported(filename) {
        images := images + [resolve(filename)];
      }
    }
    assert listing[..|listing|] == listing;
    if shuffle {
      images := Shuffle(images);
    }
    r := Success(images);
  }

  datatype Pair = Pair(from: Path, to: Option<Path>)

  /** The closed cycle over the images: image k goes to image k + 1, the last
      one back to the first; a single image has no successor. */
  function CyclePairs(images: seq<Path>): seq<Pair>
  {
    if |images| == 0 then []
    else if |images| == 1 then [Pair(images[0], None)]
    else seq(|images|, k requires 0 <= k < |images| =>
           Pair(images[k], Some(if k + 1 < |images| then images[k + 1] else images[0])))
  }

  /** One pair per image, the k-th leaving from image k: every image is a
      `from` exactly once, in order. */
  lemma CyclePairsFroms(images: seq<Path>)
    ensures |CyclePairs(images)| == |images|
    ensures forall k :: 0 <= k < |images| ==> CyclePairs(images)[k].from == images[k]
  {
  }

  /** The `to` of each pair is the `from` of the next, and for two or more
      images the last pair closes the cycle back to the first image. */
  lemma CyclePairsChain(images: seq<Path>)
    requires |images| >= 2
    ensures forall k :: 0 <= k < |images| - 1 ==> CyclePairs(images)[k].to == Some(CyclePairs(images)[k + 1].from)
    ensures CyclePairs(images)[|images| - 1] == Pair(images[|images| - 1], Some(images[0]))
  {
  }

  lemma CyclePairsSmall(images: seq<Path>)
    requires |images| <= 1
    ensures |images| == 0 ==> CyclePairs(images) == []
    ensures |images| == 1 ==> CyclePairs(images) == [Pair(images[0], None)]
  {
  }

  /** The cycle does not exclude a pair from an image to itself: two names
      resolving to the same path give self-pairs. */
  lemma CyclePairsSelfPair(p: Path)
    ensures CyclePairs([p, p]) == [Pair(p, Some(p)), Pair(p, Some(p))]
  {
  }

  /** The pairs the generator yields for two or more images are the cycle. */
  lemma LinkedPairsAreCycle(images: seq<Path>, pairs: seq<Pair>)
    requires |images| >= 2 && |pairs| == |images|
    requires forall k :: 0 <= k < |images| - 1 ==> pairs[k] == Pair(images[k], Some(images[k + 1]))
    requires pairs[|images| - 1] == Pair(images[|images| - 1], Some(images[0]))
    ensures pairs == CyclePairs(images)
  {
  }

  /** transitions(path, shuffle): the generator, yielding as it goes; the
      yielded pairs are collected into the result. `images` is the order
      image_files produced. */
  method Transitions(isDir: bool, listing: seq<string>, resolve: string -> Path, shuffle: bool)
    returns (r: Result<seq<Pair>>, ghost images: seq<Path>)
    ensures !isDir ==> r == Failure(NotADirectory)
    ensures isDir ==> r == Success(CyclePairs(images))
    ensures isDir ==> multiset(images) == multiset(KeptImages(listing, resolve))
    ensures isDir && !shuffle ==> images == KeptImages(listing, resolve)
  {
    var files := ImageFiles(isDir, listing, resolve, shuffle);
    if files.Failure? {
      return Failure(files.error), [];
    }
    var imgs := files.value;
    images := imgs;
    var pairs: seq<Pair> := [];
    var fromfile: Option<Path> := None;
    for i := 0 to |imgs|
      invariant fromfile == if i == 0 then None else Some(imgs[i - 1])
      invariant |pairs| == if i == 0 then 0 else i - 1
      invariant forall k :: 0 <= k < |pairs| ==> pairs[k] == Pair(imgs[k], Some(imgs[k + 1]))
    {
      var tofile := imgs[i];
      if Truthy(fromfile) {
        pairs := pairs + [Pair(fromfile.value, Some(tofile))];
      }
      fromfile := Some(tofile);
    }
    if |imgs| == 0 {
      assert pairs == CyclePairs(imgs);
    } else {
      if |imgs| == 1 {
        pairs := pairs + [Pair(imgs[0], None)];
        assert pairs == CyclePairs(imgs);
      } else {
        pairs := pairs + [Pair(fromfile.value, Some(imgs[0]))];
      }
    }
    if |imgs| >= 2 {
      LinkedPairsAreCycle(imgs, pairs);
    }
    r := Success(pairs);
  }
}
