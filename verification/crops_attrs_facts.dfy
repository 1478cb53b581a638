/** Properties of the annotation pass in `CropsAttrs`: how points are read
    from a segmentation, and what the break count of a row means. */
module CropsAttrsFacts {
  import opened Wrappers
  import opened Geometry
  import opened CropsAttrs
  import Text

  // ---------------------------------------------------------------------
  // Points

  /** Writing points out as coordinates and pairing them again gives the
      points back. */
  lemma PairsOfFlatten(pts: seq<Point>)
    ensures Pairs(Flatten(pts)) == pts
  {
  }

  /** Pairing coordinates and writing them out again loses only an odd
      trailing coordinate. */
  lemma FlattenOfPairs(c: seq<real>)
    ensures Flatten(Pairs(c)) == c[..2 * (|c| / 2)]
  {
    var r := Flatten(Pairs(c));
    forall k | 0 <= k < |r| ensures r[k] == c[k] {
      if k % 2 == 0 {
        assert r[2 * (k / 2)] == Pairs(c)[k / 2].x;
      } else {
        assert r[2 * (k / 2) + 1] == Pairs(c)[k / 2].y;
      }
    }
  }

  /** An odd trailing coordinate is dropped. */
  lemma OddCoordinateDropped(c: seq<real>, z: real)
    requires |c| % 2 == 0
    ensures Pairs(c + [z]) == Pairs(c)
  {
  }

  /** Only the first polygon of a list of polygons is read. */
  lemma OnlyFirstPolygon(a: Annotation, p: seq<real>, rest: seq<seq<real>>)
    requires a.segmentation == Polygons([p] + rest)
    ensures ExtractPoints(a) == ExtractPoints(a.(segmentation := Coords(p)))
  {
  }

  /** With at least two coordinates the traced points are used; with fewer
      (a missing or empty segmentation, or a single coordinate) the two
      corners of `bbox` are. */
  lemma PointsSource(a: Annotation)
    ensures var c := FirstPolygon(a.segmentation);
      && (|c| >= 2 ==> ExtractPoints(a) == Pairs(c))
      && (|c| < 2 ==> ExtractPoints(a) == [Point(a.bbox.x, a.bbox.y),
                                            Point(a.bbox.x + a.bbox.w, a.bbox.y + a.bbox.h)])
  {
  }

  // ---------------------------------------------------------------------
  // Lookup tables

  /** `id2cat` holds, for each id, the lower-cased name of the last
      category listed with that id. */
  lemma CategoryNameIsLastLowered(categories: seq<Category>, i: int)
    requires 0 <= i < |categories|
    requires forall j :: i < j < |categories| ==> categories[j].id != categories[i].id
    ensures CategoryNames(categories)[categories[i].id] == Text.Lower(categories[i].name)
  {
    IndexByLastWins(categories, (c: Category) => c.id, i);
  }

  // ---------------------------------------------------------------------
  // Breaks

  /** The key of an annotation that has a line class is counted, whatever
      happens to its image. */
  lemma ClassedKeyCounted(anns: seq<Annotation>, lk: Lookup, i: int)
    requires 0 <= i < |anns| && ClassOf(anns[i], lk).Some?
    ensures var key := LineKey(anns[i].imageId, ClassOf(anns[i], lk).value);
      var counts := Counts(ClassedKeys(anns, lk));
      key in counts && counts[key] == multiset(ClassedKeys(anns, lk))[key] >= 1
  {
  }

  /** The row of an annotation that is written has as `breaks` the number
      of other annotations with its key. */
  lemma RowBreaks(f: RealFns, anns: seq<Annotation>, lk: Lookup, a: Annotation)
    requires Sound(f) && a in anns && Written(a, lk) && !Fails(a, lk)
    ensures var keys := ClassedKeys(anns, lk);
      var row := RowFor(f, a, lk, Counts(keys));
      var key := LineKey(row.imageId, row.lineClass);
      && key in keys && row.breaks == multiset(keys)[key] - 1 && row.breaks >= 0
      && row.breaks == KeyCount(anns, lk, key) - 1
  {
    var i :| 0 <= i < |anns| && anns[i] == a;
    ClassedKeyCounted(anns, lk, i);
  }

  /** Every row's `breaks` is the number of OTHER annotations of the same
      class on the same image (`KeyCount` minus the row's own annotation),
      counting those whose image file is missing;
      the default of `counts.get` is never used, so it is never negative. */
  lemma BreaksCountOthers(f: RealFns, coco: Coco, present: set<string>)
    requires Sound(f) && ProcessSplit(f, coco, present).Ok?
    ensures var lk := LookupOf(coco, present);
      var keys := ClassedKeys(coco.annotations, lk);
      forall row :: row in ProcessSplit(f, coco, present).value ==>
        var key := LineKey(row.imageId, row.lineClass);
        && key in keys && row.breaks == multiset(keys)[key] - 1 && row.breaks >= 0
        && row.breaks == KeyCount(coco.annotations, lk, key) - 1
  {
    var lk := LookupOf(coco, present);
    var anns := coco.annotations;
    var counts := Counts(ClassedKeys(anns, lk));
    assert ProcessSplit(f, coco, present) == WriteRows(f, anns, lk, counts);
    WrittenRowsBreaks(f, anns, lk);
  }

  /** `BreaksCountOthers` for the rows written from one annotation list. */
  lemma WrittenRowsBreaks(f: RealFns, anns: seq<Annotation>, lk: Lookup)
    requires Sound(f) && NoneFails(anns, lk)
    ensures var keys := ClassedKeys(anns, lk);
      var r := WriteRows(f, anns, lk, Counts(keys));
      r.Ok? && forall row :: row in r.value ==>
        var key := LineKey(row.imageId, row.lineClass);
        && key in keys && row.breaks == multiset(keys)[key] - 1 && row.breaks >= 0
        && row.breaks == KeyCount(anns, lk, key) - 1
  {
    var counts := Counts(ClassedKeys(anns, lk));
    RowsOnlyWritten(f, anns, lk, counts);
    forall row | row in WriteRows(f, anns, lk, counts).value
      ensures var key := LineKey(row.imageId, row.lineClass);
        && key in ClassedKeys(anns, lk) && row.breaks == multiset(ClassedKeys(anns, lk))[key] - 1 && row.breaks >= 0
        && row.breaks == KeyCount(anns, lk, key) - 1
    {
      var a :| a in anns && Written(a, lk) && !Fails(a, lk) && row == RowFor(f, a, lk, counts);
      RowBreaks(f, anns, lk, a);
    }
  }

  /** The pass fails exactly when an annotation's category is unlisted, or
      an annotation of a line class has an unlisted image or a present
      image of size 0; an unlisted category is reported first. */
  lemma ProcessSplitFails(f: RealFns, coco: Coco, present: set<string>)
    requires Sound(f)
    ensures var lk := LookupOf(coco, present);
      var r := ProcessSplit(f, coco, present);
      && (r.Err? <==> !CategoriesKnown(coco.annotations, lk.names) || !NoneFails(coco.annotations, lk))
      && (!CategoriesKnown(coco.annotations, lk.names) ==> r.Err? && r.error.UnknownCategory?)
  {
  }

  // ---------------------------------------------------------------------
  // An annotation whose image file is missing

  /** `rows` with one more break on every row of `key`. */
  function Bump(rows: seq<Row>, key: LineKey): (r: seq<Row>)
    ensures |r| == |rows|
  {
    seq(|rows|, j requires 0 <= j < |rows| =>
      if LineKey(rows[j].imageId, rows[j].lineClass) == key then rows[j].(breaks := rows[j].breaks + 1)
      else rows[j])
  }

  /** One more occurrence of `key` adds one break for `key` and none for
      any other key already counted. */
  lemma BreaksOneMore(keys: seq<LineKey>, key: LineKey, k: LineKey)
    requires k in keys
    ensures Breaks(Counts(keys + [key]), k) == Breaks(Counts(keys), k) + (if k == key then 1 else 0)
  {
    assert multiset(keys + [key]) == multiset(keys) + multiset{key};
  }

  /** The same, row by row. */
  lemma RowForOneMore(f: RealFns, a: Annotation, lk: Lookup, keys: seq<LineKey>, key: LineKey)
    requires Sound(f) && Written(a, lk) && !Fails(a, lk)
    requires LineKey(a.imageId, ClassOf(a, lk).value) in keys
    ensures var r := RowFor(f, a, lk, Counts(keys));
      var r' := RowFor(f, a, lk, Counts(keys + [key]));
      r' == (if LineKey(r.imageId, r.lineClass) == key then r.(breaks := r.breaks + 1) else r)
  {
    BreaksOneMore(keys, key, LineKey(a.imageId, ClassOf(a, lk).value));
  }

  /** The rows of written annotations whose keys are all counted, with one
      more occurrence of `key`. */
  lemma RowsOneMore(f: RealFns, w: seq<Annotation>, lk: Lookup, keys: seq<LineKey>, key: LineKey)
    requires Sound(f)
    requires forall j :: 0 <= j < |w| ==>
      Written(w[j], lk) && !Fails(w[j], lk) && LineKey(w[j].imageId, ClassOf(w[j], lk).value) in keys
    ensures RowsOf(f, w, lk, Counts(keys + [key])) == Bump(RowsOf(f, w, lk, Counts(keys)), key)
  {
    var rows := RowsOf(f, w, lk, Counts(keys));
    var rows' := RowsOf(f, w, lk, Counts(keys + [key]));
    forall j | 0 <= j < |w| ensures rows'[j] == Bump(rows, key)[j] {
      RowForOneMore(f, w[j], lk, keys, key);
    }
  }

  /** Appending an annotation of a line class whose image file is missing
      adds its key to the count and changes nothing else. */
  lemma AppendUnwritten(anns: seq<Annotation>, lk: Lookup, a: Annotation)
    requires ClassOf(a, lk).Some? && a.imageId in lk.images && lk.images[a.imageId].fileName !in lk.present
    ensures ClassedKeys(anns + [a], lk) == ClassedKeys(anns, lk) + [LineKey(a.imageId, ClassOf(a, lk).value)]
    ensures WrittenAnnotations(anns + [a], lk) == WrittenAnnotations(anns, lk)
    ensures NoneFails(anns + [a], lk) <==> NoneFails(anns, lk)
    ensures CategoriesKnown(anns + [a], lk.names) <==> CategoriesKnown(anns, lk.names)
  {
    var anns' := anns + [a];
    assert anns'[..|anns|] == anns;
    assert anns'[|anns|] == a;
    assert forall i :: 0 <= i < |anns| ==> anns'[i] == anns[i];
  }

  /** An annotation of a line class whose image is listed but whose file is
      missing writes no row, yet it still counts as a break for every row
      of the same image and class. */
  lemma MissingImageStillCounted(f: RealFns, coco: Coco, present: set<string>, a: Annotation)
    requires Sound(f) && ProcessSplit(f, coco, present).Ok?
    requires var lk := LookupOf(coco, present);
      ClassOf(a, lk).Some? && a.imageId in lk.images && lk.images[a.imageId].fileName !in present
    ensures var lk := LookupOf(coco, present);
      var coco' := coco.(annotations := coco.annotations + [a]);
      ProcessSplit(f, coco', present) ==
        Ok(Bump(ProcessSplit(f, coco, present).value, LineKey(a.imageId, ClassOf(a, lk).value)))
  {
    var lk := LookupOf(coco, present);
    var anns := coco.annotations;
    var coco' := coco.(annotations := anns + [a]);
    var key := LineKey(a.imageId, ClassOf(a, lk).value);
    assert LookupOf(coco', present) == lk;
    AppendUnwritten(anns, lk, a);
    var keys := ClassedKeys(anns, lk);
    var w := WrittenAnnotations(anns, lk);
    WrittenNeverFails(anns, lk);
    forall j | 0 <= j < |w| ensures LineKey(w[j].imageId, ClassOf(w[j], lk).value) in keys {
      assert w[j] in w;
    }
    RowsOneMore(f, w, lk, keys, key);
    assert ProcessSplit(f, coco, present) == Ok(RowsOf(f, w, lk, Counts(keys)));
    assert ProcessSplit(f, coco', present) == Ok(RowsOf(f, w, lk, Counts(keys + [key])));
  }
}
