/** Grouping of the render list into draw batches: elements are sorted into
    the categories lines, shapes, images, texts and other (in that order, the
    insertion order of the category table), and every non-empty category is
    cut into consecutive batches of at most `maxBatchSize` elements. */
module Batching {
  import opened Common
  import opened CanvasGeometry
  import opened LevelOfDetail

  /** An entry of the render list: the (simplified) element, the level it is
      drawn at and its distance to the viewport centre. */
  datatype Optimized = Optimized(element: Element, lodLevel: Lod, distance: real)

  /** The batch categories, keyed `lines`, `shapes`, `images`, `texts` and `other`. */
  datatype Category = Lines | Shapes | Images | Texts | Other

  function CategoryOf(kind: Kind): Category
  {
    if kind == Line then Lines
    else if kind == Rect || kind == Circle || kind == Ellipse then Shapes
    else if kind == Image then Images
    else if kind == Text then Texts
    else Other
  }

  datatype Batch = Batch(batchType: Category, elements: seq<Optimized>)

  /** With batching off the render list is returned as it is. */
  datatype BatchResult = Unbatched(items: seq<Optimized>) | Batched(batches: seq<Batch>)

  /** The entries of category `c`, in render-list order. */
  function Bucket(xs: seq<Optimized>, c: Category): (r: seq<Optimized>)
    ensures |r| <= |xs|
    ensures forall i :: 0 <= i < |r| ==> CategoryOf(r[i].element.kind) == c
  {
    if xs == [] then []
    else
      var front := Bucket(xs[..|xs| - 1], c);
      if CategoryOf(xs[|xs| - 1].element.kind) == c then front + [xs[|xs| - 1]] else front
  }

  /** Consecutive slices of at most `max` entries. */
  function Chunks(b: seq<Optimized>, c: Category, max: nat): (r: seq<Batch>)
    requires max >= 1
    ensures forall k :: 0 <= k < |r| ==> r[k].batchType == c && 1 <= |r[k].elements| <= max
    decreases |b|
  {
    if b == [] then []
    else if |b| <= max then [Batch(c, b)]
    else [Batch(c, b[..max])] + Chunks(b[max..], c, max)
  }

  /** The order of the category table. */
  const Order: seq<Category> := [Lines, Shapes, Images, Texts, Other]

  /** The slices of the given categories, one category after the other. */
  function BatchesIn(xs: seq<Optimized>, cats: seq<Category>, max: nat): (r: seq<Batch>)
    requires max >= 1
    ensures forall k :: 0 <= k < |r| ==> 1 <= |r[k].elements| <= max && r[k].batchType in cats
  {
    if cats == [] then []
    else
      var first := Chunks(Bucket(xs, cats[0]), cats[0], max);
      var rest := BatchesIn(xs, cats[1..], max);
      assert forall k :: 0 <= k < |rest| ==> rest[k].batchType in cats;
      first + rest
  }

  /** The batches of a render list: each category in order, cut into slices. */
  function Batches(xs: seq<Optimized>, max: nat): (r: seq<Batch>)
    requires max >= 1
    ensures forall k :: 0 <= k < |r| ==> 1 <= |r[k].elements| <= max
  {
    BatchesIn(xs, Order, max)
  }

  /** The buckets of the given categories, one after the other. */
  function BucketsIn(xs: seq<Optimized>, cats: seq<Category>): seq<Optimized>
  {
    if cats == [] then [] else Bucket(xs, cats[0]) + BucketsIn(xs, cats[1..])
  }

  function Flatten(bs: seq<Batch>): seq<Optimized>
  {
    if bs == [] then [] else bs[0].elements + Flatten(bs[1..])
  }

  /** The batches of category `c`. */
  function OfType(bs: seq<Batch>, c: Category): seq<Batch>
  {
    if bs == [] then []
    else (if bs[0].batchType == c then [bs[0]] else []) + OfType(bs[1..], c)
  }

  // ------------------------------------------------------------------ loops

  /** Cutting one category into slices. */
  method SplitBatch(b: seq<Optimized>, c: Category, max: nat) returns (bs: seq<Batch>)
    requires max >= 1
    ensures bs == Chunks(b, c, max)
  {
    if |b| == 0 {
      return [];
    }
    if |b| <= max {
      return [Batch(c, b)];
    }
    bs := [];
    var i := 0;
    assert b[0..] == b;
    while i < |b|
      invariant 0 <= i <= |b|
      invariant bs + Chunks(b[i..], c, max) == Chunks(b, c, max)
      decreases |b| - i
    {
      var j := if i + max < |b| then i + max else |b|;
      ChunksStep(b, c, max, i);
      var next := [Batch(c, b[i..j])];
      AppendAssoc(bs, next, Chunks(b[j..], c, max));
      bs := bs + next;
      i := j;
    }
    assert b[i..] == [];
    AppendNil(bs);
  }

  /** One slice cut off the remainder at `i`. */
  lemma ChunksStep(b: seq<Optimized>, c: Category, max: nat, i: nat)
    requires max >= 1 && i < |b|
    ensures var j := if i + max < |b| then i + max else |b|;
      Chunks(b[i..], c, max) == [Batch(c, b[i..j])] + Chunks(b[j..], c, max)
  {
    var rest := b[i..];
    if i + max < |b| {
      assert rest[..max] == b[i..i + max];
      assert rest[max..] == b[i + max..];
    } else {
      assert b[i..|b|] == rest;
      assert b[|b|..] == [];
    }
  }

  /** The batching pass: sort into categories, then cut each into slices. */
  method BatchElements(enabled: bool, maxBatchSize: nat, xs: seq<Optimized>) returns (r: BatchResult)
    requires maxBatchSize >= 1
    ensures !enabled ==> r == Unbatched(xs)
    ensures enabled ==> r == Batched(Batches(xs, maxBatchSize))
  {
    if !enabled {
      return Unbatched(xs);
    }
    var lines, shapes, images, texts, other := [], [], [], [], [];
    var i := 0;
    while i < |xs|
      invariant 0 <= i <= |xs|
      invariant lines == Bucket(xs[..i], Lines) && shapes == Bucket(xs[..i], Shapes)
      invariant images == Bucket(xs[..i], Images) && texts == Bucket(xs[..i], Texts)
      invariant other == Bucket(xs[..i], Other)
    {
      assert xs[..i + 1][..i] == xs[..i];
      var x := xs[i];
      match CategoryOf(x.element.kind) {
        case Lines => lines := lines + [x];
        case Shapes => shapes := shapes + [x];
        case Images => images := images + [x];
        case Texts => texts := texts + [x];
        case Other => other := other + [x];
      }
      i := i + 1;
    }
    assert xs[..i] == xs;
    var b1 := SplitBatch(lines, Lines, maxBatchSize);
    var b2 := SplitBatch(shapes, Shapes, maxBatchSize);
    var b3 := SplitBatch(images, Images, maxBatchSize);
    var b4 := SplitBatch(texts, Texts, maxBatchSize);
    var b5 := SplitBatch(other, Other, maxBatchSize);
    BatchesUnfold(xs, maxBatchSize);
    r := Batched(b1 + (b2 + (b3 + (b4 + b5))));
  }

  // ----------------------------------------------------------------- lemmas

  lemma {:induction false} FlattenAppend(a: seq<Batch>, b: seq<Batch>)
    ensures Flatten(a + b) == Flatten(a) + Flatten(b)
  {
    if a != [] {
      FlattenAppend(a[1..], b);
      assert (a + b)[1..] == a[1..] + b;
      AppendAssoc(a[0].elements, Flatten(a[1..]), Flatten(b));
    } else {
      assert a + b == b;
    }
  }

  lemma {:induction false} OfTypeAppend(a: seq<Batch>, b: seq<Batch>, c: Category)
    ensures OfType(a + b, c) == OfType(a, c) + OfType(b, c)
  {
    if a != [] {
      OfTypeAppend(a[1..], b, c);
      assert (a + b)[1..] == a[1..] + b;
      var h := if a[0].batchType == c then [a[0]] else [];
      AppendAssoc(h, OfType(a[1..], c), OfType(b, c));
    } else {
      assert a + b == b;
    }
  }

  lemma {:induction false} ChunksFlatten(b: seq<Optimized>, c: Category, max: nat)
    requires max >= 1
    ensures Flatten(Chunks(b, c, max)) == b
    decreases |b|
  {
    if |b| > max {
      ChunksFlatten(b[max..], c, max);
      var rest := Chunks(b[max..], c, max);
      assert ([Batch(c, b[..max])] + rest)[1..] == rest;
      assert b == b[..max] + b[max..];
    }
  }

  /** Slices of category `c` consist of `c` only: selecting another category
      selects nothing, selecting `c` selects them all. */
  lemma {:induction false} ChunksOfType(b: seq<Optimized>, c: Category, d: Category, max: nat)
    requires max >= 1
    ensures OfType(Chunks(b, c, max), d) == if c == d then Chunks(b, c, max) else []
    decreases |b|
  {
    if |b| > max {
      ChunksOfType(b[max..], c, d, max);
      var rest := Chunks(b[max..], c, max);
      assert ([Batch(c, b[..max])] + rest)[1..] == rest;
    }
  }

  /** The five categories' slices, one after the other. */
  lemma BatchesUnfold(xs: seq<Optimized>, max: nat)
    requires max >= 1
    ensures Batches(xs, max) ==
      Chunks(Bucket(xs, Lines), Lines, max) + (Chunks(Bucket(xs, Shapes), Shapes, max) +
      (Chunks(Bucket(xs, Images), Images, max) + (Chunks(Bucket(xs, Texts), Texts, max) +
      Chunks(Bucket(xs, Other), Other, max))))
  {
    var s5: seq<Category> := [];
    var s4 := [Other] + s5;
    var s3 := [Texts] + s4;
    var s2 := [Images] + s3;
    var s1 := [Shapes] + s2;
    assert Order == [Lines] + s1;
    BatchesInCons(xs, Other, s5, max);
    BatchesInCons(xs, Texts, s4, max);
    BatchesInCons(xs, Images, s3, max);
    BatchesInCons(xs, Shapes, s2, max);
    BatchesInCons(xs, Lines, s1, max);
    var c5 := Chunks(Bucket(xs, Other), Other, max);
    assert BatchesIn(xs, s5, max) == [];
    AppendNil(c5);
  }

  lemma BatchesInCons(xs: seq<Optimized>, c: Category, cats: seq<Category>, max: nat)
    requires max >= 1
    ensures BatchesIn(xs, [c] + cats, max) == Chunks(Bucket(xs, c), c, max) + BatchesIn(xs, cats, max)
  {
    assert ([c] + cats)[0] == c && ([c] + cats)[1..] == cats;
  }

  lemma {:induction false} BucketsInEmpty(cats: seq<Category>)
    ensures BucketsIn([], cats) == []
  {
    if cats != [] {
      BucketsInEmpty(cats[1..]);
    }
  }

  /** The slices, read in order, spell the buckets one after the other. */
  lemma {:induction false} BatchesInFlatten(xs: seq<Optimized>, cats: seq<Category>, max: nat)
    requires max >= 1
    ensures Flatten(BatchesIn(xs, cats, max)) == BucketsIn(xs, cats)
  {
    if cats != [] {
      var first := Chunks(Bucket(xs, cats[0]), cats[0], max);
      BatchesInFlatten(xs, cats[1..], max);
      FlattenAppend(first, BatchesIn(xs, cats[1..], max));
      ChunksFlatten(Bucket(xs, cats[0]), cats[0], max);
    }
  }

  /** The batches, read in order, are the lines, then the shapes, images,
      texts and other elements, each in render-list order. */
  lemma BatchesFlatten(xs: seq<Optimized>, max: nat)
    requires max >= 1
    ensures Flatten(Batches(xs, max)) == BucketsIn(xs, Order)
  {
    BatchesInFlatten(xs, Order, max);
  }

  lemma FlattenOfTypeAppend(a: seq<Batch>, b: seq<Batch>, d: Category)
    ensures Flatten(OfType(a + b, d)) == Flatten(OfType(a, d)) + Flatten(OfType(b, d))
  {
    OfTypeAppend(a, b, d);
    FlattenAppend(OfType(a, d), OfType(b, d));
  }

  /** Selecting category `d` from the slices of category `c`. */
  lemma ChunksSelected(b: seq<Optimized>, c: Category, d: Category, max: nat)
    requires max >= 1
    ensures Flatten(OfType(Chunks(b, c, max), d)) == if c == d then b else []
  {
    ChunksOfType(b, c, d, max);
    ChunksFlatten(b, c, max);
  }

  /** The batches of category `d` among the slices of distinct categories. */
  lemma {:induction false} BatchesInOfType(xs: seq<Optimized>, cats: seq<Category>, max: nat, d: Category)
    requires max >= 1 && NoDup(cats)
    ensures Flatten(OfType(BatchesIn(xs, cats, max), d)) == if d in cats then Bucket(xs, d) else []
  {
    if cats != [] {
      var first := Chunks(Bucket(xs, cats[0]), cats[0], max);
      assert NoDup(cats[1..]);
      assert d == cats[0] ==> d !in cats[1..];
      BatchesInOfType(xs, cats[1..], max, d);
      FlattenOfTypeAppend(first, BatchesIn(xs, cats[1..], max), d);
      ChunksSelected(Bucket(xs, cats[0]), cats[0], d, max);
      assert d in cats <==> d == cats[0] || d in cats[1..];
    }
  }

  /** The batches of one category, read in order, are exactly that
      category's entries in render-list order. */
  lemma BatchesOfType(xs: seq<Optimized>, max: nat, d: Category)
    requires max >= 1
    ensures Flatten(OfType(Batches(xs, max), d)) == Bucket(xs, d)
  {
    assert NoDup(Order);
    assert d in Order;
    BatchesInOfType(xs, Order, max, d);
  }

  /** Appending an entry appends it to the bucket of its category. */
  lemma {:induction false} BucketsInSnoc(xs: seq<Optimized>, x: Optimized, cats: seq<Category>)
    requires NoDup(cats)
    ensures multiset(BucketsIn(xs + [x], cats)) ==
      multiset(BucketsIn(xs, cats)) + (if CategoryOf(x.element.kind) in cats then multiset{x} else multiset{})
  {
    if cats != [] {
      var c, tl := cats[0], cats[1..];
      var k := CategoryOf(x.element.kind);
      NoDupTail(cats);
      BucketsInSnoc(xs, x, tl);
      var ys := xs + [x];
      assert ys[..|ys| - 1] == xs;
      assert Bucket(ys, c) == Bucket(xs, c) + (if k == c then [x] else []);
      assert BucketsIn(ys, cats) == Bucket(ys, c) + BucketsIn(ys, tl);
      assert BucketsIn(xs, cats) == Bucket(xs, c) + BucketsIn(xs, tl);
      assert k in cats <==> k == c || k in tl;
    }
  }

  lemma NoDupTail(cats: seq<Category>)
    requires cats != [] && NoDup(cats)
    ensures NoDup(cats[1..]) && cats[0] !in cats[1..]
  {
  }

  /** Every entry lands in exactly one bucket. */
  lemma {:induction false} BucketsPartition(xs: seq<Optimized>)
    ensures multiset(BucketsIn(xs, Order)) == multiset(xs)
  {
    if xs == [] {
      BucketsInEmpty(Order);
    } else {
      var front, x := xs[..|xs| - 1], xs[|xs| - 1];
      BucketsPartition(front);
      PartitionStep(front, x);
      SnocSplit(xs);
    }
  }

  lemma PartitionStep(front: seq<Optimized>, x: Optimized)
    requires multiset(BucketsIn(front, Order)) == multiset(front)
    ensures multiset(BucketsIn(front + [x], Order)) == multiset(front + [x])
  {
    OrderCovers(CategoryOf(x.element.kind));
    BucketsInSnoc(front, x, Order);
  }

  /** The category table lists every category once. */
  lemma OrderCovers(k: Category)
    ensures NoDup(Order) && k in Order
  {
  }

  /** Batching neither loses nor duplicates an entry. */
  lemma BatchesConserve(xs: seq<Optimized>, max: nat)
    requires max >= 1
    ensures multiset(Flatten(Batches(xs, max))) == multiset(xs)
    ensures |Flatten(Batches(xs, max))| == |xs|
  {
    BatchesFlatten(xs, max);
    BucketsPartition(xs);
    assert |multiset(Flatten(Batches(xs, max)))| == |multiset(xs)|;
  }
}
