# xmlback in Dafny

xmlback turns the image files of one directory into a GNOME wallpaper
slideshow: an XML `background` document that shows each image for a fixed
time, cross-fades to the next one and loops back to the first. This project
models its core and proves what it computes:

- `Files` (types.dfy, files.dfy) models `xmlback/files.py`. It covers the `SUPPORTED` filter, `image_files`
  (keep the `.jpg`/`.png` names in listing order, resolve them, optionally
  shuffle) and the `transitions` generator, which pairs the images into a closed cycle.
- `BackgroundXml` (background.dfy) models `xmlback/background.py`. The class `Background`
  keeps the `starttime` element and the entries appended after it by
  `add_image` and `add_transition`. `toxml` is a pure rendering of that tree.
- `Dom` (dom.dfy) stands in for the parts of `xml.dom.minidom` the program
  uses: element and text nodes, and `toprettyxml(indent='  ')`.
- `Decimal` (decimal.dfy) models Python's `str()` on integers, with a parser
  that inverts it.
- `Xmlback` (xmlback.dfy) models the loop of `main` in `xmlback.py`. It adds
  one static entry per pair and a transition when the pair has a successor.
  The copies of `image_files`, `transitions` and `Background` in
  `xmlback.py` (lines 11-111) are the same text as the package files. They
  are modelled once, by `Files` and `BackgroundXml`.

The file system, the clock and the random number generator are parameters:

- `isDir` is the answer of `os.path.isdir`.
- `listing` is what `os.listdir` returns, in its order.
- `resolve(name)` stands for `os.path.realpath(os.path.join(path, name))`. Its
  result type `Path` is a non-empty string, as every resolved path is.
- The six `time.gmtime()` fields are a `StartTime` value.
- The iteration order of the `TIME_PART` dictionary is a parameter `order`.
  It is any arrangement of the six keys.
- Each random index of `random.shuffle` is chosen nondeterministically.

The two assertion failures of the program are modelled as results:
`NotADirectory` for `assert os.path.isdir(path)` and `SelfTransition` for
`assert fromfile != tofile`.

A transition pair is sometimes described as never going from an image to
itself. The code does not ensure that. Two names that resolve to the same path
(through a symbolic link, say) give a self-pair, and `main` then stops on the
assertion in `add_transition`. The model follows the code:
`Files.CyclePairsSelfPair`, `Xmlback.SelfTransitionHazard` and
`Xmlback.SymlinkedPairFails` state it.

## Model

| member | source | states |
|---|---|---|
| `Files.SupportedIffRegexMatches` | xmlback/files.py:7 | on a name without a newline, the suffix test accepts exactly the names `re.match(r'.*\.(jpg|png)$', name)` accepts |
| `Files.KeptNameExamples` | xmlback/files.py:20 | `a.jpg`, `x.jpg`, `y.png` and `.jpg` are kept |
| `Files.DroppedNameExamples` | xmlback/files.py:20 | `b.PNG`, `c.txt`, `d.jpeg` and `jpg` are dropped: the extension is case-sensitive and exact |
| `Files.SupportedNamesAppend` | xmlback/files.py:19-21 | filtering a concatenated listing concatenates the filtered parts: listing order is kept and nothing is sorted |
| `Files.SupportedNamesCount` | xmlback/files.py:19-21 | a supported name occurs in the result exactly as often as in the listing, and an unsupported one never does: no de-duplication |
| `Files.KeptImagesExample` | xmlback/files.py:18-24 | a listing `a.jpg`, `b.PNG`, `c.txt` gives exactly the resolved path of `a.jpg` |
| `Files.Shuffle` | xmlback/files.py:22-23 | the shuffled list has the same length and the same multiset of paths |
| `Files.ImageFiles` | xmlback/files.py:9-24 | not a directory: the assertion fault; without shuffle: the supported names, in listing order, each resolved; with shuffle: a permutation of that |
| `Files.CyclePairsFroms` | xmlback/files.py:33-36 | one pair per image; the k-th pair leaves from image k, so every image is a `from` exactly once, in order |
| `Files.CyclePairsChain` | xmlback/files.py:33-41 | for two or more images the `to` of each pair is the `from` of the next, and the last pair goes from the last image back to the first |
| `Files.CyclePairsSmall` | xmlback/files.py:37-39 | no image gives no pair; one image gives exactly `(i0, None)` |
| `Files.CyclePairsSelfPair` | xmlback/files.py:33-36 | the cycle does not exclude `from == to`: two equal paths give two self-pairs |
| `Files.Transitions` | xmlback/files.py:26-41 | the generator loop with its carried `fromfile` yields exactly the closed cycle over the images `image_files` returned; it fails when the path is not a directory |
| `Decimal.IntToString` | xmlback/background.py:29 | `str()` of an integer is non-empty and starts with `-` exactly when the integer is negative |
| `Decimal.IntToStringRoundTrip` | xmlback/background.py:40 | reading back the text `str(duration)` gives the duration |
| `Dom.RenderAllAppend` | xmlback/background.py:66-70 | appending a child appends its rendering after the unchanged text of the earlier children |
| `BackgroundXml.BuildStartTime` | xmlback/background.py:55-64 | the loop over `TIME_PART` builds the `starttime` element with one text element per key, in dictionary order |
| `BackgroundXml.StartTimeFieldsOnce` | xmlback/background.py:6-13 | `starttime` has six children; year, month, day, hour, minute and second each appear exactly once, each with its clock value |
| `BackgroundXml.EntryRoundTrip` | xmlback/background.py:33-53 | the element built for an entry reads back as that entry: its kind, duration, file, from and to |
| `BackgroundXml.EntriesRoundTrip` | xmlback/background.py:42 | the elements of a sequence of entries read back as that sequence, in order |
| `BackgroundXml.DocumentRoundTrip` | xmlback/background.py:19-22 | the root is `background`, its first child is the start time, and the children after it read back as the entries in call order with their values |
| `BackgroundXml.StaticRender` | xmlback/background.py:39-41 | a static entry is written as `<static>`, then `duration` and `file` on lines one level deeper, in that order, then `</static>` |
| `BackgroundXml.TransitionRender` | xmlback/background.py:49-52 | a transition entry is written as `<transition>`, then `duration`, `from` and `to` one level deeper, in that order, then `</transition>` |
| `BackgroundXml.DocumentText` | xmlback/background.py:66-70 | the whole text `toxml` returns: `<background>`, the start time two spaces in, then for each entry in call order its `static` or `transition` block (opening tag, one line per leaf four spaces in, closing tag), then `</background>` |
| `BackgroundXml.DocumentRenderAppend` | xmlback/background.py:42 | after an append, the text is the earlier text up to the closing tag, then the new entry's text, then `</background>` |
| `BackgroundXml.Background.constructor` | xmlback/background.py:19-22 | the new root is `background` with exactly one child, the `starttime` element |
| `BackgroundXml.Background.AddImage` | xmlback/background.py:33-42 | appends exactly one `static` element (`duration` = str(duration), then `file`) after the unchanged earlier children; the default duration is 895 |
| `BackgroundXml.Background.AddTransition` | xmlback/background.py:44-53 | equal files: the assertion fault and no change; otherwise appends one `transition` element (`duration`, `from`, `to`) after the unchanged earlier children; the default duration is 5 |
| `Xmlback.AddPairs` | xmlback.py:134-137 | stops with the self-transition fault exactly when some pair goes from an image to itself; otherwise the entries after the call are the earlier ones followed by, per pair in order, a static entry and a transition entry when the pair has a successor |
| `Xmlback.BuildPlaylist` | xmlback.py:113-138 | not a directory: the fault; otherwise the images are a permutation of the kept images, and the run fails with the self-transition fault exactly when some pair of the cycle goes from an image to itself; on success the text is the rendering of the start time followed by one static entry of `duration - transition` per pair and a transition entry when the pair has a successor (defaults 900 and 2, so 898) |
| `Xmlback.PlaylistLinked` | xmlback.py:134-137 | when every pair has a successor, entry 2k is the static entry of pair k and entry 2k+1 its transition, right after it |
| `Xmlback.PlaylistOfCycle` | xmlback.py:133-137 | no image gives no entry (only `starttime`); one image gives one static entry and no transition; n >= 2 images give 2n entries alternating static i_k and transition i_k to i_(k+1) |
| `Xmlback.PlaylistClosesLoop` | xmlback.py:107-111 | for n >= 2 images the last entry is the transition from i_(n-1) back to i_0 |
| `Xmlback.TransitionFollowsStatic` | xmlback.py:134-137 | for any pairs, each transition entry comes right after the static entry of its `from` file |
| `Xmlback.SelfTransitionHazard` | xmlback.py:134-137 | no pair is a self-transition exactly when there are at most one image or no two cyclically adjacent images are the same path |
| `Xmlback.SymlinkedPairFails` | xmlback.py:89-91 | a listing of two supported names that resolve to the same path keeps that path twice, and its cycle then holds a self-transition |
| `Xmlback.TwoImageScenario` | xmlback.py:133-137 | `x.jpg`, `y.png` unshuffled with duration 10 and transition 2 give static x (8), transition x to y (2), static y (8), transition y to x (2) |

## Left out

- File system calls (`os.path.isdir`, `os.listdir`, `os.path.realpath`, `os.path.join`) are parameters. The path join and the symbolic-link resolution are one abstract resolver.
- Files.Shuffle: states only that the result is a permutation. It does not state the uniform distribution `random.shuffle` aims for, because the random number generator is not modelled.
- `time.gmtime()` is a parameter, and so is the iteration order of `TIME_PART`. Python 2 dictionaries have no defined order, so any arrangement of the six keys is allowed.
- `Dom.Render` follows `toprettyxml(indent='  ')` in structure only: one line per leaf, a two-space indent per level, children in document order. It leaves out minidom's XML escaping of `<`, `&` and quotes in text, attributes, and the whitespace details that differ between library versions.
- The filter is modelled as a suffix test on names without a newline. `re.match` also accepts a name ending in `.jpg` plus a newline, because `$` matches before a final newline. `Files.RegexMatches` describes that case, but the model keeps the suffix test.
- The generator of `transitions` is modelled as the finite list of pairs it yields. Nothing is written before the loop of `main` ends, so the output and the faults are the same.
- `main` always shuffles. `Xmlback.BuildPlaylist` reports the order the shuffle chose as a ghost output.
- The two faults are `assert` statements (xmlback.py:54 and xmlback.py:86). The model keeps them as results. Under `python -O` they are removed: `os.listdir` then raises its own error on a missing directory, and `add_transition(p, p)` appends a self-transition without complaint.
- Xmlback.BuildPlaylist: takes the transition duration as an integer and writes `str()` of it. `main` passes the raw `transition` argument to `add_transition` (xmlback.py:137), so that text is written as typed (`+2` and `02` stay as they are). Only the static duration goes through `int()`.
- Command-line handling is left out: argument parsing, the usage message with exit status 0, and the `int()` conversion of duration and transition. Durations are integers.
- Output is left out: opening the destination file (which truncates it before any fault), writing the text, and standard output.
- Python's truthiness tests `if fromfile:` and `if tofile:` are modelled by `Types.Truthy`. A resolved path is never empty, so they only test for presence.
