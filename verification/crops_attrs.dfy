/** The annotation pass of `process_split` in
    scripts/polylines_to_crops_attrs.py: for every annotation of one of the
    four line classes whose image file is present, the points traced by the
    annotator, the crop box around them, the curve metrics and the number of
    breaks, which is the number of other annotations of the same class on the
    same image. Directory handling, JSON parsing, the image crop itself and
    CSV writing are outside the model; file existence is the parameter
    `present`. */
module CropsAttrs {
  import opened Wrappers
  import opened Geometry
  import Text

  /** The side of the square crops saved for training. */
  const ImgSize := 128

  /** The four line classes, in the order the source lists them. */
  const Classes: seq<string> := ["life", "heart", "head", "fate"]

  // ---------------------------------------------------------------------
  // COCO records

  /** An annotation's `segmentation` field: a list of polygons (only the
      first is used) or one flat list of alternating x, y coordinates. A
      missing field reads as an empty list, `Coords([])`. */
  datatype Segmentation = Polygons(polys: seq<seq<real>>) | Coords(coords: seq<real>)

  /** The `bbox` field: top-left corner, width and height. */
  datatype BboxField = BboxField(x: real, y: real, w: real, h: real)

  datatype Annotation = Annotation(id: int, imageId: int, categoryId: int,
                                   segmentation: Segmentation, bbox: BboxField)

  datatype ImageInfo = ImageInfo(id: int, fileName: string, width: int, height: int)

  datatype Category = Category(id: int, name: string)

  datatype Coco = Coco(images: seq<ImageInfo>, categories: seq<Category>, annotations: seq<Annotation>)

  /** How the pass stops early: Python raises `KeyError` for an annotation
      whose category or image id is not listed, and `ZeroDivisionError` when
      an image has width and height 0. */
  datatype Failure = UnknownCategory(categoryId: int) | UnknownImage(imageId: int) | ZeroSizeImage(imageId: int)

  // ---------------------------------------------------------------------
  // Lookup tables

  /** A dict comprehension `{key(x): x for x in xs}`: every key that occurs,
      mapped to the last element carrying it. */
  function IndexBy<T>(xs: seq<T>, key: T -> int): (m: map<int, T>)
    ensures forall k :: k in m <==> exists i :: 0 <= i < |xs| && key(xs[i]) == k
    ensures forall k :: k in m ==> key(m[k]) == k
  {
    if |xs| == 0 then map[]
    else
      var last := xs[|xs| - 1];
      var init := xs[..|xs| - 1];
      assert forall i :: 0 <= i < |init| ==> init[i] == xs[i];
      IndexBy(init, key)[key(last) := last]
  }

  /** A later entry with the same key overrides an earlier one. */
  lemma {:induction false} IndexByLastWins<T>(xs: seq<T>, key: T -> int, i: int)
    requires 0 <= i < |xs|
    requires forall j :: i < j < |xs| ==> key(xs[j]) != key(xs[i])
    ensures key(xs[i]) in IndexBy(xs, key) && IndexBy(xs, key)[key(xs[i])] == xs[i]
  {
    if i < |xs| - 1 {
      var init := xs[..|xs| - 1];
      IndexByLastWins(init, key, i);
    }
  }

  /** `id2file` and `id2size` share their keys; one table holds both. */
  function ImageTable(images: seq<ImageInfo>): map<int, ImageInfo> {
    IndexBy(images, (im: ImageInfo) => im.id)
  }

  /** `id2cat`: category id to lower-cased name. */
  function CategoryNames(categories: seq<Category>): (names: map<int, string>)
    ensures forall k :: k in names <==> exists i :: 0 <= i < |categories| && categories[i].id == k
  {
    var byId := IndexBy(categories, (c: Category) => c.id);
    map k | k in byId :: Text.Lower(byId[k].name)
  }

  // ---------------------------------------------------------------------
  // Points of an annotation

  /** The coordinates kept from a segmentation: the first polygon of a list
      of polygons, or the flat list itself. */
  function FirstPolygon(seg: Segmentation): seq<real> {
    match seg
    case Polygons(polys) => if |polys| > 0 then polys[0] else []
    case Coords(coords) => coords
  }

  /** `list(zip(c[0::2], c[1::2]))`: consecutive coordinates paired into
      points; an odd trailing coordinate has no partner and is dropped. */
  function Pairs(c: seq<real>): (pts: seq<Point>)
    ensures |pts| == |c| / 2
    ensures forall i :: 0 <= i < |pts| ==> pts[i] == Point(c[2 * i], c[2 * i + 1])
  {
    seq(|c| / 2, i requires 0 <= i < |c| / 2 => Point(c[2 * i], c[2 * i + 1]))
  }

  /** The inverse of `Pairs`: points written out as x, y, x, y, ... */
  function Flatten(pts: seq<Point>): (c: seq<real>)
    ensures |c| == 2 * |pts|
    ensures forall i :: 0 <= i < |pts| ==> c[2 * i] == pts[i].x && c[2 * i + 1] == pts[i].y
  {
    if |pts| == 0 then []
    else
      var init := Flatten(pts[..|pts| - 1]);
      var p := pts[|pts| - 1];
      assert forall i :: 0 <= i < |pts| - 1 ==> init[2 * i] == pts[..|pts| - 1][i].x;
      init + [p.x, p.y]
  }

  /** The points traced by the annotator; when the segmentation yields no
      point, the two corners of the annotation's `bbox`. Never empty, so the
      crop box is always defined. */
  function ExtractPoints(a: Annotation): (pts: seq<Point>)
    ensures |pts| > 0
  {
    var traced := Pairs(FirstPolygon(a.segmentation));
    if |traced| > 0 then traced
    else
      var b := a.bbox;
      [Point(b.x, b.y), Point(b.x + b.w, b.y + b.h)]
  }

  // ---------------------------------------------------------------------
  // The tables both passes consult

  /** What `process_split` looks annotations up in: the class list, `id2cat`,
      `id2file` and `id2size` (one table), and the image files present in
      the split's directory. */
  datatype Lookup = Lookup(classes: seq<string>, names: map<int, string>,
                           images: map<int, ImageInfo>, present: set<string>)

  predicate CategoriesKnown(anns: seq<Annotation>, names: map<int, string>) {
    forall i :: 0 <= i < |anns| ==> anns[i].categoryId in names
  }

  /** The first category id, in annotation order, missing from `names`:
      where the first pass raises. */
  function FirstUnknownCategory(anns: seq<Annotation>, names: map<int, string>): (r: Option<int>)
    ensures r.None? <==> CategoriesKnown(anns, names)
    ensures r.Some? ==> exists i :: 0 <= i < |anns| && anns[i].categoryId == r.value
                                    && r.value !in names && CategoriesKnown(anns[..i], names)
  {
    if |anns| == 0 then None
    else if anns[0].categoryId !in names then
      assert CategoriesKnown(anns[..0], names);
      Some(anns[0].categoryId)
    else
      var r := FirstUnknownCategory(anns[1..], names);
      if r.Some? then
        var i :| 0 <= i < |anns| - 1 && anns[1..][i].categoryId == r.value
                 && r.value !in names && CategoriesKnown(anns[1..][..i], names);
        assert anns[..i + 1] == [anns[0]] + anns[1..][..i];
        r
      else
        assert forall i :: 1 <= i < |anns| ==> anns[i] == anns[1..][i - 1];
        r
  }

  /** The line class of an annotation, or `None` for any other category.
      (An unlisted category never gets this far: the first pass raises.) */
  function ClassOf(a: Annotation, lk: Lookup): (c: Option<string>)
    ensures c.Some? ==> a.categoryId in lk.names && c.value == lk.names[a.categoryId] && c.value in lk.classes
    ensures c.None? ==> a.categoryId !in lk.names || lk.names[a.categoryId] !in lk.classes
  {
    if a.categoryId in lk.names && lk.names[a.categoryId] in lk.classes then Some(lk.names[a.categoryId]) else None
  }

  // ---------------------------------------------------------------------
  // First pass: counting annotations per (image, class)

  /** The dict key `(image_id, label)`. */
  datatype LineKey = LineKey(imageId: int, lineClass: string)

  /** Annotation `a` counts towards key `k`: it lies on `k`'s image and has
      `k`'s line class. */
  predicate HasKey(a: Annotation, lk: Lookup, k: LineKey) {
    a.imageId == k.imageId && ClassOf(a, lk) == Some(k.lineClass)
  }

  /** The number of positions of `s` whose element satisfies `p`. */
  function CountWhere<T>(s: seq<T>, p: T -> bool): nat {
    |set i | 0 <= i < |s| && p(s[i])|
  }

  /** Appending an element adds one to the count exactly when it satisfies
      `p`. */
  lemma CountWhereSnoc<T>(s: seq<T>, p: T -> bool)
    requires |s| > 0
    ensures CountWhere(s, p) == CountWhere(s[..|s| - 1], p) + (if p(s[|s| - 1]) then 1 else 0)
  {
    var n := |s|;
    var front := set i | 0 <= i < n - 1 && p(s[i]);
    CountWherePrefix(s, p, n - 1);
    var last: set<int> := if p(s[n - 1]) then {n - 1} else {};
    CountWhereSplit(s, p, front, last);
  }

  /** Counting over a prefix looks only at the prefix's positions. */
  lemma CountWherePrefix<T>(s: seq<T>, p: T -> bool, m: nat)
    requires m <= |s|
    ensures CountWhere(s[..m], p) == |set i | 0 <= i < m && p(s[i])|
  {
    var init := s[..m];
    var front := set i | 0 <= i < m && p(s[i]);
    var front' := set i | 0 <= i < m && p(init[i]);
    forall i | 0 <= i < m ensures (i in front') == (i in front) {
      assert init[i] == s[i];
    }
    assert front' == front;
  }

  /** The positions that satisfy `p` are those before the last, plus the
      last one when it satisfies `p`. */
  lemma CountWhereSplit<T>(s: seq<T>, p: T -> bool, front: set<int>, last: set<int>)
    requires |s| > 0
    requires front == set i | 0 <= i < |s| - 1 && p(s[i])
    requires last == if p(s[|s| - 1]) then {|s| - 1} else {}
    ensures CountWhere(s, p) == |front| + |last|
  {
    var whole := set i | 0 <= i < |s| && p(s[i]);
    assert whole == front + last;
    assert front !! last;
  }

  /** The number of annotations that count towards key `k`. */
  function KeyCount(anns: seq<Annotation>, lk: Lookup, k: LineKey): nat {
    CountWhere(anns, a => HasKey(a, lk, k))
  }

  /** Appending an annotation adds one to the count of its own key and
      nothing to any other. */
  lemma KeyCountSnoc(anns: seq<Annotation>, lk: Lookup)
    requires |anns| > 0
    ensures forall k :: (KeyCount(anns, lk, k) ==
      KeyCount(anns[..|anns| - 1], lk, k) + (if HasKey(anns[|anns| - 1], lk, k) then 1 else 0))
  {
    forall k
      ensures KeyCount(anns, lk, k) ==
        KeyCount(anns[..|anns| - 1], lk, k) + (if HasKey(anns[|anns| - 1], lk, k) then 1 else 0)
    {
      CountWhereSnoc(anns, a => HasKey(a, lk, k));
    }
  }

  /** The keys counted by the first pass, in annotation order: one per
      annotation of a line class, whether or not its image file exists. */
  function ClassedKeys(anns: seq<Annotation>, lk: Lookup): (keys: seq<LineKey>)
    ensures |keys| <= |anns|
    ensures forall i :: 0 <= i < |anns| && ClassOf(anns[i], lk).Some? ==>
              LineKey(anns[i].imageId, ClassOf(anns[i], lk).value) in keys
    ensures forall k :: k in keys ==>
              exists i :: 0 <= i < |anns| && ClassOf(anns[i], lk) == Some(k.lineClass) && anns[i].imageId == k.imageId
    ensures forall k :: multiset(keys)[k] == KeyCount(anns, lk, k)
  {
    if |anns| == 0 then []
    else
      var init := anns[..|anns| - 1];
      var a := anns[|anns| - 1];
      var keys := ClassedKeys(init, lk);
      assert forall i :: 0 <= i < |init| ==> init[i] == anns[i];
      KeyCountSnoc(anns, lk);
      match ClassOf(a, lk)
      case None => keys
      case Some(lab) =>
        assert forall k :: (multiset(keys + [LineKey(a.imageId, lab)])[k]
          == multiset(keys)[k] + (if LineKey(a.imageId, lab) == k then 1 else 0));
        keys + [LineKey(a.imageId, lab)]
  }

  /** The `counts` dict: for each key that occurs, how often it occurs. */
  function Counts(keys: seq<LineKey>): (m: map<LineKey, nat>)
    ensures forall k :: k in m <==> k in keys
    ensures forall k :: k in m ==> m[k] == multiset(keys)[k]
  {
    if |keys| == 0 then map[]
    else
      var init := keys[..|keys| - 1];
      var k := keys[|keys| - 1];
      assert keys == init + [k];
      var m := Counts(init);
      m[k := (if k in m then m[k] else 0) + 1]
  }

  /** `counts.get(key, 1) - 1`. */
  function Breaks(counts: map<LineKey, nat>, key: LineKey): int {
    (if key in counts then counts[key] as int else 1) - 1
  }

  // ---------------------------------------------------------------------
  // Second pass: one row per written crop

  /** The crop box and the curve metrics of one annotation (before the
      source rounds them). */
  datatype Metrics = Metrics(box: Box, lengthNorm: real, slope: real, curv: real)

  /** One CSV row: the crop's class and origin, its metrics and its break
      count. */
  datatype Row = Row(lineClass: string, imageId: int, annId: int, metrics: Metrics, breaks: int)

  /** An annotation is written when it has a line class, its image is
      listed and the image file is present. */
  predicate Written(a: Annotation, lk: Lookup) {
    ClassOf(a, lk).Some? && a.imageId in lk.images && lk.images[a.imageId].fileName in lk.present
  }

  /** An annotation makes the second pass raise: it has a line class and
      its image is unlisted, or its image file is present and has width and
      height 0. */
  predicate Fails(a: Annotation, lk: Lookup) {
    ClassOf(a, lk).Some? &&
    (a.imageId !in lk.images ||
     (var im := lk.images[a.imageId]; im.fileName in lk.present && LongSide(im.width, im.height) == 0))
  }

  /** The error an annotation makes the second pass raise. */
  function FailureOf(a: Annotation, lk: Lookup): Failure {
    if a.imageId !in lk.images then UnknownImage(a.imageId) else ZeroSizeImage(a.imageId)
  }

  /** The crop box and metrics of traced points on a `w` x `h` image:
      the box never leaves the image and the normalised length is not
      negative. */
  function MetricsOf(f: RealFns, pts: seq<Point>, w: int, h: int): (m: Metrics)
    requires Sound(f) && |pts| > 0 && LongSide(w, h) != 0
    ensures 0 <= m.box.x1 && m.box.x2 <= w && 0 <= m.box.y1 && m.box.y2 <= h
    ensures (w > 0 || h > 0) ==> m.lengthNorm >= 0.0
  {
    Metrics(BboxFromPoints(pts, w, h, DefaultPad), LengthNorm(f, pts, w, h), AvgSlope(f, pts), AvgCurvature(f, pts))
  }

  /** The row written for an annotation. */
  function RowFor(f: RealFns, a: Annotation, lk: Lookup, counts: map<LineKey, nat>): (r: Row)
    requires Sound(f) && Written(a, lk) && !Fails(a, lk)
    ensures r.lineClass == lk.names[a.categoryId] && r.imageId == a.imageId && r.annId == a.id
    ensures r.breaks == Breaks(counts, LineKey(a.imageId, r.lineClass))
  {
    var lab := ClassOf(a, lk).value;
    var im := lk.images[a.imageId];
    Row(lab, a.imageId, a.id, MetricsOf(f, ExtractPoints(a), im.width, im.height),
        Breaks(counts, LineKey(a.imageId, lab)))
  }

  /** No annotation makes the second pass raise. */
  predicate NoneFails(anns: seq<Annotation>, lk: Lookup) {
    forall i :: 0 <= i < |anns| ==> !Fails(anns[i], lk)
  }

  /** The error of the first annotation, in order, that makes the second
      pass raise. */
  function FirstFailure(anns: seq<Annotation>, lk: Lookup): (r: Option<Failure>)
    ensures r.None? <==> NoneFails(anns, lk)
    ensures r.Some? ==> exists i :: 0 <= i < |anns| && Fails(anns[i], lk) && r.value == FailureOf(anns[i], lk)
                                    && NoneFails(anns[..i], lk)
  {
    if |anns| == 0 then None
    else if Fails(anns[0], lk) then
      assert NoneFails(anns[..0], lk);
      Some(FailureOf(anns[0], lk))
    else
      var rest := anns[1..];
      assert forall i :: 1 <= i < |anns| ==> anns[i] == rest[i - 1];
      var r := FirstFailure(rest, lk);
      if r.Some? then
        var i :| 0 <= i < |rest| && Fails(rest[i], lk) && r.value == FailureOf(rest[i], lk) && NoneFails(rest[..i], lk);
        assert anns[..i + 1] == [anns[0]] + rest[..i];
        r
      else r
  }

  /** The positions of the annotations that get a crop and a row: every
      such position once, in increasing order, and no other. */
  function WrittenIndices(anns: seq<Annotation>, lk: Lookup): (idx: seq<nat>)
    ensures |idx| <= |anns|
    ensures forall j :: 0 <= j < |idx| ==> idx[j] < |anns| && Written(anns[idx[j]], lk)
    ensures forall j1, j2 :: 0 <= j1 < j2 < |idx| ==> idx[j1] < idx[j2]
    ensures forall i :: 0 <= i < |anns| && Written(anns[i], lk) ==> i in idx
  {
    if |anns| == 0 then []
    else
      var n := |anns|;
      var init := anns[..n - 1];
      assert forall i :: 0 <= i < |init| ==> init[i] == anns[i];
      WrittenIndices(init, lk) + (if Written(anns[n - 1], lk) then [n - 1] else [])
  }

  /** The annotations that get a crop and a row, in order. */
  function WrittenAnnotations(anns: seq<Annotation>, lk: Lookup): (w: seq<Annotation>)
    ensures |w| <= |anns|
    ensures forall a :: a in w ==> a in anns && Written(a, lk)
    ensures forall i :: 0 <= i < |anns| && Written(anns[i], lk) ==> anns[i] in w
  {
    if |anns| == 0 then []
    else
      var init := anns[..|anns| - 1];
      var a := anns[|anns| - 1];
      assert forall i :: 0 <= i < |init| ==> init[i] == anns[i];
      WrittenAnnotations(init, lk) + (if Written(a, lk) then [a] else [])
  }

  /** The written annotations are the annotations at the written
      positions, one for one and in the same order. */
  lemma {:induction false} WrittenAnnotationsAtIndices(anns: seq<Annotation>, lk: Lookup)
    ensures var w := WrittenAnnotations(anns, lk);
      var idx := WrittenIndices(anns, lk);
      |w| == |idx| && forall j :: 0 <= j < |w| ==> w[j] == anns[idx[j]]
  {
    if |anns| > 0 {
      var n := |anns|;
      var init := anns[..n - 1];
      WrittenAnnotationsAtIndices(init, lk);
      var w0 := WrittenAnnotations(init, lk);
      var idx0 := WrittenIndices(init, lk);
      var tail: seq<Annotation> := if Written(anns[n - 1], lk) then [anns[n - 1]] else [];
      var tailIdx: seq<nat> := if Written(anns[n - 1], lk) then [n - 1] else [];
      assert WrittenAnnotations(anns, lk) == w0 + tail;
      assert WrittenIndices(anns, lk) == idx0 + tailIdx;
      SnocAtIndices(anns, w0, idx0, tail, tailIdx);
    }
  }

  /** One step of `WrittenAnnotationsAtIndices`: the prefix's written
      annotations sit at the prefix's written positions, and the last
      annotation at position `|anns| - 1`. */
  lemma SnocAtIndices(anns: seq<Annotation>, w0: seq<Annotation>, idx0: seq<nat>,
                      tail: seq<Annotation>, tailIdx: seq<nat>)
    requires |anns| > 0 && |w0| == |idx0|
    requires forall j :: 0 <= j < |idx0| ==> idx0[j] < |anns| - 1 && w0[j] == anns[..|anns| - 1][idx0[j]]
    requires (tail == [] && tailIdx == []) || (tail == [anns[|anns| - 1]] && tailIdx == [|anns| - 1])
    ensures |w0 + tail| == |idx0 + tailIdx|
    ensures forall j :: 0 <= j < |w0 + tail| ==> (w0 + tail)[j] == anns[(idx0 + tailIdx)[j]]
  {
    forall j | 0 <= j < |w0 + tail|
      ensures (w0 + tail)[j] == anns[(idx0 + tailIdx)[j]]
    {
      if j < |w0| {
        assert (w0 + tail)[j] == w0[j] && (idx0 + tailIdx)[j] == idx0[j];
      }
    }
  }

  /** The rows of annotations that are written, in the same order. */
  function RowsOf(f: RealFns, w: seq<Annotation>, lk: Lookup, counts: map<LineKey, nat>): (rows: seq<Row>)
    requires Sound(f) && forall j :: 0 <= j < |w| ==> Written(w[j], lk) && !Fails(w[j], lk)
    ensures |rows| == |w|
  {
    seq(|w|, j requires 0 <= j < |w| => RowFor(f, w[j], lk, counts))
  }

  /** The second loop of `process_split`: the rows of the written
      annotations in order, unless some annotation makes it raise. */
  function WriteRows(f: RealFns, anns: seq<Annotation>, lk: Lookup, counts: map<LineKey, nat>): (r: Result<seq<Row>, Failure>)
    requires Sound(f)
    ensures r.Err? <==> !NoneFails(anns, lk)
    ensures r.Ok? ==> |r.value| <= |anns| && |r.value| == |WrittenAnnotations(anns, lk)|
    ensures r.Ok? ==> var idx := WrittenIndices(anns, lk);
      |r.value| == |idx| && forall j :: 0 <= j < |idx| ==> r.value[j] == RowFor(f, anns[idx[j]], lk, counts)
  {
    match FirstFailure(anns, lk)
    case Some(e) => Err(e)
    case None =>
      var w := WrittenAnnotations(anns, lk);
      WrittenNeverFails(anns, lk);
      WrittenAnnotationsAtIndices(anns, lk);
      Ok(RowsOf(f, w, lk, counts))
  }

  /** When nothing fails, the written annotations do not fail either. */
  lemma WrittenNeverFails(anns: seq<Annotation>, lk: Lookup)
    requires NoneFails(anns, lk)
    ensures var w := WrittenAnnotations(anns, lk);
      |w| <= |anns| && forall j :: 0 <= j < |w| ==> Written(w[j], lk) && !Fails(w[j], lk)
  {
    var w := WrittenAnnotations(anns, lk);
    forall j | 0 <= j < |w| ensures Written(w[j], lk) && !Fails(w[j], lk) {
      assert w[j] in w;
      var i :| 0 <= i < |anns| && anns[i] == w[j];
    }
  }

  /** When nothing fails, every row is the row of an annotation that is
      written. */
  lemma RowsOnlyWritten(f: RealFns, anns: seq<Annotation>, lk: Lookup, counts: map<LineKey, nat>)
    requires Sound(f) && NoneFails(anns, lk)
    ensures var r := WriteRows(f, anns, lk, counts);
      r.Ok? && forall row :: row in r.value ==>
        exists a :: a in anns && Written(a, lk) && !Fails(a, lk) && row == RowFor(f, a, lk, counts)
  {
    var w := WrittenAnnotations(anns, lk);
    WrittenNeverFails(anns, lk);
    var rows := RowsOf(f, w, lk, counts);
    forall row | row in rows
      ensures exists a :: a in anns && Written(a, lk) && !Fails(a, lk) && row == RowFor(f, a, lk, counts)
    {
      var j :| 0 <= j < |rows| && rows[j] == row;
      assert w[j] in w;
    }
  }

  /** When nothing fails, every annotation that is written has its row. */
  lemma RowsAllWritten(f: RealFns, anns: seq<Annotation>, lk: Lookup, counts: map<LineKey, nat>)
    requires Sound(f) && NoneFails(anns, lk)
    ensures var r := WriteRows(f, anns, lk, counts);
      r.Ok? && forall i :: 0 <= i < |anns| && Written(anns[i], lk) ==> RowFor(f, anns[i], lk, counts) in r.value
  {
    var w := WrittenAnnotations(anns, lk);
    WrittenNeverFails(anns, lk);
    var rows := RowsOf(f, w, lk, counts);
    forall i | 0 <= i < |anns| && Written(anns[i], lk) ensures RowFor(f, anns[i], lk, counts) in rows {
      var j :| 0 <= j < |w| && w[j] == anns[i];
      assert rows[j] == RowFor(f, anns[i], lk, counts);
    }
  }

  /** The rows come in annotation order: of two written annotations, the
      earlier one's row comes first. */
  lemma RowsInAnnotationOrder(f: RealFns, anns: seq<Annotation>, lk: Lookup, counts: map<LineKey, nat>, i: int, k: int)
    requires Sound(f) && NoneFails(anns, lk)
    requires 0 <= i < k < |anns| && Written(anns[i], lk) && Written(anns[k], lk)
    ensures var rows := WriteRows(f, anns, lk, counts).value;
      exists p, q :: 0 <= p < q < |rows|
        && rows[p] == RowFor(f, anns[i], lk, counts) && rows[q] == RowFor(f, anns[k], lk, counts)
  {
    var idx := WrittenIndices(anns, lk);
    var rows := WriteRows(f, anns, lk, counts).value;
    var p, q := PositionsInOrder(idx, i, k);
    assert rows[p] == RowFor(f, anns[idx[p]], lk, counts);
    assert rows[q] == RowFor(f, anns[idx[q]], lk, counts);
  }

  /** In a strictly increasing sequence of positions, the smaller of two
      listed positions is listed first. */
  lemma PositionsInOrder(idx: seq<nat>, i: int, k: int) returns (p: int, q: int)
    requires forall j1, j2 :: 0 <= j1 < j2 < |idx| ==> idx[j1] < idx[j2]
    requires i in idx && k in idx && i < k
    ensures 0 <= p < q < |idx| && idx[p] == i && idx[q] == k
  {
    p :| 0 <= p < |idx| && idx[p] == i;
    q :| 0 <= q < |idx| && idx[q] == k;
  }

  /** The tables `process_split` builds from the annotation file. */
  function LookupOf(coco: Coco, present: set<string>): Lookup {
    Lookup(Classes, CategoryNames(coco.categories), ImageTable(coco.images), present)
  }

  /** `process_split` on one split's annotation file. */
  function ProcessSplit(f: RealFns, coco: Coco, present: set<string>): (r: Result<seq<Row>, Failure>)
    requires Sound(f)
  {
    var lk := LookupOf(coco, present);
    var anns := coco.annotations;
    match FirstUnknownCategory(anns, lk.names)
    case Some(c) => Err(UnknownCategory(c))
    case None => WriteRows(f, anns, lk, Counts(ClassedKeys(anns, lk)))
  }
}
