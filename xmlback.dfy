/** xmlback.py: main(path, dest, duration, transition) turning the cyclic
    pairs into playlist entries. The copies of image_files, transitions and
    Background in this file are the ones of the package and are modelled
    once, by Files and BackgroundXml. */
module Xmlback {
  import opened Types
  import opened Files
  import opened BackgroundXml
  import opened Dom

  /** Defaults of main: 900 seconds per image, of which 2 are the
      transition. */
  const DefaultDuration := 900
  const DefaultTransition := 2

  /** What the loop body adds for one pair: the image shown for
      `imageDuration`, then the transition to the next image when there is
      one. */
  function PairEntries(p: Pair, imageDuration: int, transition: int): seq<Entry>
  {
    [Static(imageDuration, p.from)]
    + (if Truthy(p.to) then [Transition(transition, p.from, p.to.value)] else [])
  }

  /** The entries the loop adds for a sequence of pairs, in order. */
  function Playlist(pairs: seq<Pair>, imageDuration: int, transition: int): seq<Entry>
  {
    if pairs == [] then []
    else Playlist(pairs[..|pairs| - 1], imageDuration, transition)
         + PairEntries(pairs[|pairs| - 1], imageDuration, transition)
  }

  /** No pair asks for a transition from an image to itself. */
  predicate NoSelfTransition(pairs: seq<Pair>)
  {
    forall k :: 0 <= k < |pairs| && Truthy(pairs[k].to) ==> pairs[k].to.value != pairs[k].from
  }

  lemma PlaylistPrefix(pairs: seq<Pair>, k: nat, imageDuration: int, transition: int)
    requires k < |pairs|
    ensures Playlist(pairs[..k + 1], imageDuration, transition)
         == Playlist(pairs[..k], imageDuration, transition) + PairEntries(pairs[k], imageDuration, transition)
  {
    assert pairs[..k + 1][..k] == pairs[..k];
  }

  lemma NoSelfTransitionPrefix(pairs: seq<Pair>, k: nat)
    requires k < |pairs| && NoSelfTransition(pairs[..k])
    ensures NoSelfTransition(pairs[..k + 1]) <==> !(Truthy(pairs[k].to) && pairs[k].to.value == pairs[k].from)
    ensures Truthy(pairs[k].to) && pairs[k].to.value == pairs[k].from ==> !NoSelfTransition(pairs)
  {
  }

  /** The loop of main: for each pair, add the image, then the transition
      to its successor when it has one; stop at the first self-transition. */
  method AddPairs(background: Background, pairs: seq<Pair>, imageDuration: int, transition: int)
    returns (o: Outcome)
    modifies background
    ensures o.Pass? <==> NoSelfTransition(pairs)
    ensures o.Fail? ==> o.error == SelfTransition
    ensures o.Pass? ==> background.entries == old(background.entries) + Playlist(pairs, imageDuration, transition)
  {
    for k := 0 to |pairs|
      invariant background.entries == old(background.entries) + Playlist(pairs[..k], imageDuration, transition)
      invariant NoSelfTransition(pairs[..k])
    {
      var (fromfile, tofile) := (pairs[k].from, pairs[k].to);
      PlaylistPrefix(pairs, k, imageDuration, transition);
      NoSelfTransitionPrefix(pairs, k);
      background.AddImage(fromfile, imageDuration);
      if Truthy(tofile) {
        o := background.AddTransition(fromfile, tofile.value, transition);
        if o.Fail? {
          return;
        }
      }
    }
    assert pairs[..|pairs|] == pairs;
    o := Pass;
  }

  /** main: build the document for the pairs of `transitions(path,
      shuffle=True)` and return the text it writes. `images` is the order the
      shuffle chose. */
  method BuildPlaylist(isDir: bool, listing: seq<string>, resolve: string -> Path,
                       t: StartTime, order: seq<TimeField>,
                       duration: int := DefaultDuration, transition: int := DefaultTransition)
    returns (r: Result<string>, ghost images: seq<Path>)
    requires IsFieldOrder(order)
    ensures !isDir ==> r == Failure(NotADirectory)
    ensures isDir ==> multiset(images) == multiset(KeptImages(listing, resolve))
    ensures isDir ==> (r.Success? <==> NoSelfTransition(CyclePairs(images)))
    ensures isDir && !NoSelfTransition(CyclePairs(images)) ==> r == Failure(SelfTransition)
    ensures r.Success? ==>
              r.value == Render(Document(StartTimeElem(t, order),
                                         Playlist(CyclePairs(images), duration - transition, transition)), 0)
  {
    var background := new Background(t, order);
    var pairsOrError;
    pairsOrError, images := Transitions(isDir, listing, resolve, true);
    if pairsOrError.Failure? {
      return Failure(pairsOrError.error), images;
    }
    ghost var entries := Playlist(CyclePairs(images), duration - transition, transition);
    var o := AddPairs(background, pairsOrError.value, duration - transition, transition);
    if o.Fail? {
      return Failure(o.error), images;
    }
    assert background.entries == entries;
    assert background.ToXml() == Render(Document(StartTimeElem(t, order), entries), 0);
    r := Success(background.ToXml());
  }

  /** When every pair has a successor, the entries alternate: the even ones
      show the pair's image, the odd ones are the transition from it to the
      pair's successor. */
  lemma {:induction false} PlaylistLinked(pairs: seq<Pair>, imageDuration: int, transition: int)
    requires forall k :: 0 <= k < |pairs| ==> pairs[k].to.Some?
    ensures |Playlist(pairs, imageDuration, transition)| == 2 * |pairs|
    ensures forall k :: 0 <= k < |pairs| ==>
              Playlist(pairs, imageDuration, transition)[2 * k] == Static(imageDuration, pairs[k].from)
              && Playlist(pairs, imageDuration, transition)[2 * k + 1]
                 == Transition(transition, pairs[k].from, pairs[k].to.value)
    decreases |pairs|
  {
    if pairs != [] {
      var n := |pairs|;
      var init := pairs[..n - 1];
      PlaylistLinked(init, imageDuration, transition);
      var p := Playlist(pairs, imageDuration, transition);
      assert p == Playlist(init, imageDuration, transition) + PairEntries(pairs[n - 1], imageDuration, transition);
      forall k | 0 <= k < n
        ensures p[2 * k] == Static(imageDuration, pairs[k].from)
        ensures p[2 * k + 1] == Transition(transition, pairs[k].from, pairs[k].to.value)
      {
        if k < n - 1 {
          assert init[k] == pairs[k];
        }
      }
    }
  }

  /** The playlist main builds for the images i0 .. i(n-1): nothing for no
      image, a single static entry for one image, and otherwise 2n entries
      alternating static i_k and transition i_k -> i_(k+1), the last one
      going back to i0. */
  lemma PlaylistOfCycle(images: seq<Path>, imageDuration: int, transition: int)
    ensures |images| == 0 ==> Playlist(CyclePairs(images), imageDuration, transition) == []
    ensures |images| == 1 ==> Playlist(CyclePairs(images), imageDuration, transition) == [Static(imageDuration, images[0])]
    ensures |images| >= 2 ==> |Playlist(CyclePairs(images), imageDuration, transition)| == 2 * |images|
    ensures |images| >= 2 ==> forall k :: 0 <= k < |images| ==>
              Playlist(CyclePairs(images), imageDuration, transition)[2 * k] == Static(imageDuration, images[k])
              && Playlist(CyclePairs(images), imageDuration, transition)[2 * k + 1]
                 == Transition(transition, images[k], if k + 1 < |images| then images[k + 1] else images[0])
  {
    var pairs := CyclePairs(images);
    if |images| == 1 {
      assert pairs[..0] == [];
    } else if |images| >= 2 {
      PlaylistLinked(pairs, imageDuration, transition);
      forall k | 0 <= k < |images|
        ensures pairs[k].from == images[k]
        ensures pairs[k].to.value == if k + 1 < |images| then images[k + 1] else images[0]
      {
      }
    }
  }

  /** The last entry closes the loop: a transition from the last image back
      to the first. */
  lemma PlaylistClosesLoop(images: seq<Path>, imageDuration: int, transition: int)
    requires |images| >= 2
    ensures |Playlist(CyclePairs(images), imageDuration, transition)| == 2 * |images|
            && Playlist(CyclePairs(images), imageDuration, transition)[2 * |images| - 1]
               == Transition(transition, images[|images| - 1], images[0])
  {
    PlaylistOfCycle(images, imageDuration, transition);
    var k := |images| - 1;
    assert 2 * k + 1 == 2 * |images| - 1;
    assert images[k] == images[|images| - 1];
  }

  /** Every transition comes right after the static entry of its `from`
      image, whatever the pairs. */
  lemma {:induction false} TransitionFollowsStatic(pairs: seq<Pair>, imageDuration: int, transition: int)
    ensures forall j :: 0 <= j < |Playlist(pairs, imageDuration, transition)|
                        && Playlist(pairs, imageDuration, transition)[j].Transition? ==>
              0 < j && Playlist(pairs, imageDuration, transition)[j - 1]
                       == Static(imageDuration, Playlist(pairs, imageDuration, transition)[j].from)
    decreases |pairs|
  {
    if pairs != [] {
      var init := pairs[..|pairs| - 1];
      TransitionFollowsStatic(init, imageDuration, transition);
      var head := Playlist(init, imageDuration, transition);
      var tail := PairEntries(pairs[|pairs| - 1], imageDuration, transition);
      var all: seq<Entry> := head + tail;
      assert Playlist(pairs, imageDuration, transition) == all;
      forall j | 0 <= j < |all| && all[j].Transition?
        ensures 0 < j && all[j - 1] == Static(imageDuration, all[j].from)
      {
        if j >= |head| {
          assert j == |head| + 1;
        }
      }
    }
  }

  /** main fails on the way exactly when two consecutive images of the cycle,
      the last and the first included, are the same path. */
  lemma SelfTransitionHazard(images: seq<Path>)
    ensures NoSelfTransition(CyclePairs(images))
        <==> |images| <= 1
             || ((forall k :: 0 <= k < |images| - 1 ==> images[k] != images[k + 1])
                 && images[|images| - 1] != images[0])
  {
    var pairs := CyclePairs(images);
    var n := |images|;
    if n >= 2 {
      if NoSelfTransition(pairs) {
        forall k | 0 <= k < n - 1
          ensures images[k] != images[k + 1]
        {
          assert pairs[k].to == Some(images[k + 1]);
        }
        assert pairs[n - 1].to == Some(images[0]);
      }
    }
  }

  /** Two supported names of the listing that resolve to the same file, for
      instance through a symbolic link, and no other image: the cycle holds a
      self-transition, so the document cannot be built. */
  lemma SymlinkedPairFails(a: string, b: string, resolve: string -> Path)
    requires Supported(a) && Supported(b) && resolve(a) == resolve(b)
    ensures KeptImages([a, b], resolve) == [resolve(a), resolve(a)]
    ensures !NoSelfTransition(CyclePairs(KeptImages([a, b], resolve)))
  {
    var l := [a, b];
    assert l[..1] == [a] && l[..1][..0] == [];
    assert SupportedNames([a]) == [a];
    assert SupportedNames(l) == l;
    assert KeptImages(l, resolve) == [resolve(a), resolve(a)];
    SelfTransitionHazard([resolve(a), resolve(a)]);
  }

  lemma TwoImagesKept(resolve: string -> Path)
    ensures KeptImages(["x.jpg", "y.png"], resolve) == [resolve("x.jpg"), resolve("y.png")]
  {
    var l := ["x.jpg", "y.png"];
    KeptNameExamples();
    assert l[..1] == ["x.jpg"] && l[..1][..0] == [];
    assert SupportedNames(["x.jpg"]) == ["x.jpg"];
    assert SupportedNames(l) == l;
    assert Resolved(l, resolve) == [resolve("x.jpg"), resolve("y.png")];
  }

  /** The document for a listing of x.jpg and y.png, in that order and not
      shuffled, with a duration of 10 and a transition of 2. */
  lemma TwoImageScenario(resolve: string -> Path)
    ensures Playlist(CyclePairs(KeptImages(["x.jpg", "y.png"], resolve)), 10 - 2, 2)
         == [Static(8, resolve("x.jpg")), Transition(2, resolve("x.jpg"), resolve("y.png")),
             Static(8, resolve("y.png")), Transition(2, resolve("y.png"), resolve("x.jpg"))]
  {
    TwoImagesKept(resolve);
    var images := [resolve("x.jpg"), resolve("y.png")];
    PlaylistOfCycle(images, 8, 2);
    var p := Playlist(CyclePairs(images), 8, 2);
    assert images[0] == resolve("x.jpg") && images[1] == resolve("y.png");
    assert p[2 * 0] == Static(8, images[0]);
    assert p[2 * 1 + 1] == Transition(2, images[1], images[0]);
  }
}
