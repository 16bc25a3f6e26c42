/** `static_map_generator/utils.py`: merging keyword-argument dictionaries and
    stacking the per-layer images into one picture. */
module Utils {
  import PyValues

  // ===== merge_dicts =====

  /** The left fold of dictionary update over `dicts`: start from the empty
      dictionary and update it with each argument in turn. */
  function Merged<K, V>(dicts: seq<map<K, V>>): map<K, V>
    decreases |dicts|
  {
    if |dicts| == 0 then map[] else Merged(dicts[..|dicts| - 1]) + dicts[|dicts| - 1]
  }

  /** Some argument holds `k`. */
  ghost predicate InSome<K, V>(dicts: seq<map<K, V>>, k: K) {
    exists i :: 0 <= i < |dicts| && k in dicts[i]
  }

  /** `dicts[i]` is the last argument holding `k`. */
  ghost predicate LastHolder<K, V>(dicts: seq<map<K, V>>, k: K, i: int) {
    0 <= i < |dicts| && k in dicts[i] && forall j :: i < j < |dicts| ==> k !in dicts[j]
  }

  /** `merge_dicts(*dicts)`: a new dictionary, updated with every argument in
      order; the arguments are values and stay as they were. What the result
      holds is stated by `MergedKeys` and `MergedLastWins`. */
  method MergeDicts<K, V>(dicts: seq<map<K, V>>) returns (result: map<K, V>)
    ensures result == Merged(dicts)
  {
    result := map[];
    for n := 0 to |dicts|
      invariant result == Merged(dicts[..n])
    {
      assert dicts[..n + 1][..n] == dicts[..n];
      result := result + dicts[n];
    }
    assert dicts[..|dicts|] == dicts;
  }

  /** The merged key set is exactly the union of the arguments' key sets. */
  lemma {:induction false} MergedKeys<K, V>(dicts: seq<map<K, V>>)
    ensures forall k :: k in Merged(dicts) <==> InSome(dicts, k)
    decreases |dicts|
  {
    if |dicts| > 0 {
      var front := dicts[..|dicts| - 1];
      MergedKeys(front);
      forall k | InSome(dicts, k)
        ensures k in Merged(dicts)
      {
        var i :| 0 <= i < |dicts| && k in dicts[i];
        if i < |dicts| - 1 {
          assert front[i] == dicts[i];
          assert InSome(front, k);
        }
      }
      forall k | k in Merged(dicts)
        ensures InSome(dicts, k)
      {
        if k !in dicts[|dicts| - 1] {
          assert InSome(front, k);
          var i :| 0 <= i < |front| && k in front[i];
          assert dicts[i] == front[i];
        }
      }
    }
  }

  /** A later argument takes precedence: a key's merged value is the one in the
      last argument that holds the key. */
  lemma {:induction false} MergedLastWins<K, V>(dicts: seq<map<K, V>>, k: K, i: int)
    requires LastHolder(dicts, k, i)
    ensures k in Merged(dicts) && Merged(dicts)[k] == dicts[i][k]
    decreases |dicts|
  {
    var last := |dicts| - 1;
    if i < last {
      var front := dicts[..last];
      assert front[i] == dicts[i];
      assert LastHolder(front, k, i);
      MergedLastWins(front, k, i);
    }
  }

  /** Merging the concatenation of two argument lists is merging the two
      merged halves, the second over the first. */
  lemma {:induction false} MergedAppend<K, V>(a: seq<map<K, V>>, b: seq<map<K, V>>)
    ensures Merged(a + b) == Merged(a) + Merged(b)
    decreases |b|
  {
    if |b| == 0 {
      assert a + b == a;
    } else {
      var b' := b[..|b| - 1];
      assert (a + b)[..|a + b| - 1] == a + b';
      MergedAppend(a, b');
    }
  }

  /** No argument gives the empty dictionary, one argument gives that
      argument, and an empty argument on either side changes nothing. */
  lemma MergedUnits<K, V>(d: map<K, V>)
    ensures Merged<K, V>([]) == map[]
    ensures Merged([d]) == d
    ensures Merged([d, map[]]) == d
    ensures Merged([map[], d]) == d
  {
  }

  /** Two arguments: the second overrides the first, key by key. */
  lemma MergedPair<K, V>(first: map<K, V>, second: map<K, V>)
    ensures Merged([first, second]) == first + second
    ensures forall k :: k in Merged([first, second]) <==> k in first || k in second
    ensures forall k :: k in second ==> Merged([first, second])[k] == second[k]
    ensures forall k :: k in first && k !in second ==> Merged([first, second])[k] == first[k]
  {
    var empty: map<K, V> := map[];
    assert [first][..0] == [];
    assert Merged([first]) == empty + first == first;
    assert [first, second][..1] == [first];
    assert Merged([first, second]) == Merged([first]) + second;
  }

  // ===== combine_layers =====

  type Path = string

  /** A picture as the sequence of image operations that produced it: an image
      file read from `path`, or `layer` composited onto `base` with its top-left
      corner at (`left`, `top`). Two pictures are equal only if they were built
      by the same operations, so nothing is assumed about the pixels that
      compositing produces. */
  datatype Image =
    | Loaded(path: Path)
    | Overlay(base: Image, layer: Image, left: int, top: int)

  /** An in-memory image object that compositing updates in place. */
  class Canvas {
    var picture: Image
    var closed: bool

    /** `Image(filename=path)`. */
    constructor Load(path: Path)
      ensures picture == Loaded(path) && !closed
    {
      picture := Loaded(path);
      closed := false;
    }

    /** `composite(layer, left=left, top=top)`: draws `layer` over this image. */
    method Composite(layer: Image, left: int, top: int)
      modifies this
      ensures picture == Overlay(old(picture), layer, left, top)
      ensures closed == old(closed)
    {
      picture := Overlay(picture, layer, left, top);
    }

    /** `save(filename=filename)`: what ends up in the file. */
    method Save(filename: Path) returns (saved: SavedFile)
      ensures saved == SavedFile(filename, picture)
    {
      saved := SavedFile(filename, picture);
    }

    /** `close()`: releases the image. */
    method Close()
      modifies this
      ensures closed && picture == old(picture)
    {
      closed := true;
    }
  }

  /** A file written by `save`: where, and the picture it holds. */
  datatype SavedFile = SavedFile(filename: Path, picture: Image)

  /** `base` with each image of `tops` composited on it at (0,0), in order. */
  function ComposeOnto(base: Image, tops: seq<Path>): Image
    decreases |tops|
  {
    if |tops| == 0 then base else ComposeOnto(Overlay(base, Loaded(tops[0]), 0, 0), tops[1..])
  }

  /** The picture `combine_layers` saves: the first image with every later one
      composited onto it in list order. */
  function Flattened(images: seq<Path>): Image
    requires |images| > 0
  {
    ComposeOnto(Loaded(images[0]), images[1..])
  }

  /** Adding one more image to the end adds one more overlay on top. */
  lemma {:induction false} ComposeOntoSnoc(base: Image, tops: seq<Path>, next: Path)
    ensures ComposeOnto(base, tops + [next]) == Overlay(ComposeOnto(base, tops), Loaded(next), 0, 0)
    decreases |tops|
  {
    if |tops| > 0 {
      assert (tops + [next])[1..] == tops[1..] + [next];
      ComposeOntoSnoc(Overlay(base, Loaded(tops[0]), 0, 0), tops[1..], next);
    }
  }

  /** `combine_layers(images, filename)`: loads the first image, composites
      every later one onto it at (0,0) in order, saves and closes it. With no
      images `combo` is still `None` when `save` is called on it. */
  method CombineLayers(images: seq<Path>, filename: Path) returns (r: CombineResult)
    ensures |images| == 0 ==> r == SaveOnNone(PyValues.AttributeError("save"))
    ensures |images| > 0 ==> r == Saved(SavedFile(filename, Flattened(images)))
  {
    var combo: Canvas? := null;
    for index := 0 to |images|
      invariant |images| > 0 ==> index < |images|
      invariant index == 0 <==> combo == null
      invariant combo != null ==> fresh(combo) && !combo.closed
      invariant combo != null ==> combo.picture == ComposeOnto(Loaded(images[0]), images[1..index + 1])
    {
      if combo == null {
        combo := new Canvas.Load(images[index]);
      }
      if index == |images| - 1 {
        break;
      }
      var layer := new Canvas.Load(images[index + 1]);
      ComposeOntoSnoc(Loaded(images[0]), images[1..index + 1], images[index + 1]);
      assert images[1..index + 2] == images[1..index + 1] + [images[index + 1]];
      combo.Composite(layer.picture, 0, 0);
    }
    if combo == null {
      return SaveOnNone(PyValues.AttributeError("save"));
    }
    assert images[1..] == images[1..|images|];
    var saved := combo.Save(filename);
    combo.Close();
    r := Saved(saved);
  }

  /** What `combine_layers` ends with: a saved file, or the exception raised
      by calling `save` on `None`. */
  datatype CombineResult =
    | Saved(file: SavedFile)
    | SaveOnNone(error: PyValues.Exception)

  // ----- independent description of the flattened picture -----

  /** The image files a picture is built from, bottom to top. */
  function LayersOf(img: Image): seq<Path> {
    match img
    case Loaded(p) => [p]
    case Overlay(b, l, _, _) => LayersOf(b) + LayersOf(l)
  }

  /** The number of `composite` calls that built a picture. */
  function CompositeCalls(img: Image): nat {
    match img
    case Loaded(_) => 0
    case Overlay(b, l, _, _) => CompositeCalls(b) + 1 + CompositeCalls(l)
  }

  /** Every overlay covers the whole canvas: it is placed at (0,0). */
  predicate AtOrigin(img: Image) {
    match img
    case Loaded(_) => true
    case Overlay(b, l, left, top) => left == 0 && top == 0 && AtOrigin(b) && AtOrigin(l)
  }

  /** Each overlay puts a single freshly loaded file on top of the stack so
      far: the layers are stacked one at a time, bottom to top. */
  predicate Stacked(img: Image) {
    match img
    case Loaded(_) => true
    case Overlay(b, l, _, _) => l.Loaded? && Stacked(b)
  }

  lemma {:induction false} ComposeOntoShape(base: Image, tops: seq<Path>)
    ensures LayersOf(ComposeOnto(base, tops)) == LayersOf(base) + tops
    ensures CompositeCalls(ComposeOnto(base, tops)) == CompositeCalls(base) + |tops|
    ensures AtOrigin(ComposeOnto(base, tops)) == AtOrigin(base)
    ensures Stacked(ComposeOnto(base, tops)) == Stacked(base)
    decreases |tops|
  {
    if |tops| > 0 {
      var next := Overlay(base, Loaded(tops[0]), 0, 0);
      ComposeOntoShape(next, tops[1..]);
      assert LayersOf(next) + tops[1..] == LayersOf(base) + tops;
    }
  }

  /** The saved picture holds every input image exactly once, in list order,
      each overlaid at (0,0), built by exactly one `composite` call per image
      after the first; a single image is saved unchanged. */
  lemma FlattenedShape(images: seq<Path>)
    requires |images| > 0
    ensures LayersOf(Flattened(images)) == images
    ensures CompositeCalls(Flattened(images)) == |images| - 1
    ensures AtOrigin(Flattened(images)) && Stacked(Flattened(images))
    ensures |images| == 1 ==> Flattened(images) == Loaded(images[0])
  {
    ComposeOntoShape(Loaded(images[0]), images[1..]);
    assert [images[0]] + images[1..] == images;
  }

  /** Conversely, a picture stacked one file at a time at (0,0) is the
      flattening of its own layers: the order of the layers fixes the result. */
  lemma {:induction false} FlattenedUnique(img: Image)
    requires AtOrigin(img) && Stacked(img)
    ensures |LayersOf(img)| > 0 && img == Flattened(LayersOf(img))
  {
    match img
    case Loaded(p) =>
    case Overlay(b, l, _, _) =>
      FlattenedUnique(b);
      var below := LayersOf(b);
      ComposeOntoSnoc(Loaded(below[0]), below[1..], l.path);
      assert LayersOf(img) == below + [l.path];
      assert LayersOf(img)[1..] == below[1..] + [l.path];
  }
}
