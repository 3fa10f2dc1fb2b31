/** The dataset download script's bookkeeping: which ESC-50 metadata rows are
    selected into which class folder, and which files are fetched. Reading the
    CSV and the HTTP transfers themselves are not modelled. */
module Download {

  /** One metadata row, reduced to the two columns the script reads. */
  datatype Row = Row(category: string, filename: string)

  /** `TARGET_MAP` in its dictionary order: folder name and the ESC-50
      categories collected into it. */
  const TargetMap: seq<(string, seq<string>)> := [
    ("gunshot", ["fireworks"]),
    ("chainsaw", ["chainsaw"]),
    ("background", ["wind", "rain", "crickets"])
  ]

  /** At most this many files per folder. */
  const SamplesPerClass: nat := 40

  const DataDir: string := "data"

  /** The `files_to_download` lists, one per TargetMap entry in its order. */
  type Selection = seq<seq<string>>

  function Categories(f: nat): seq<string>
    requires f < |TargetMap|
  {
    TargetMap[f].1
  }

  function EmptySelection(): (sel: Selection)
    ensures |sel| == |TargetMap|
    ensures forall f :: 0 <= f < |sel| ==> sel[f] == []
  {
    [[], [], []]
  }

  /** One folder's check for one row: append when the category maps to the
      folder and the folder is below its cap. */
  function OfferTo(list: seq<string>, row: Row, f: nat): seq<string>
    requires f < |TargetMap|
  {
    if row.category in Categories(f) && |list| < SamplesPerClass then list + [row.filename] else list
  }

  /** The loop over the mappings for one row, from mapping f on. */
  function Offer(sel: Selection, row: Row, f: nat): (r: Selection)
    requires |sel| == |TargetMap| && f <= |TargetMap|
    ensures |r| == |TargetMap|
    decreases |TargetMap| - f
  {
    if f == |TargetMap| then sel
    else Offer(sel[f := OfferTo(sel[f], row, f)], row, f + 1)
  }

  /** The selection after reading the given rows in CSV order. */
  function Select(rows: seq<Row>): (sel: Selection)
    ensures |sel| == |TargetMap|
  {
    if |rows| == 0 then EmptySelection()
    else Offer(Select(rows[..|rows| - 1]), rows[|rows| - 1], 0)
  }

  /** Reference definition: the filenames of every row whose category maps to
      folder f, in row order. */
  function Matching(rows: seq<Row>, f: nat): seq<string>
    requires f < |TargetMap|
  {
    if |rows| == 0 then []
    else
      var last := rows[|rows| - 1];
      Matching(rows[..|rows| - 1], f) + (if last.category in Categories(f) then [last.filename] else [])
  }

  /** The first SamplesPerClass entries of a list. */
  function Cap(xs: seq<string>): (r: seq<string>)
    ensures |r| <= SamplesPerClass
  {
    if |xs| <= SamplesPerClass then xs else xs[..SamplesPerClass]
  }

  /** Each mapping touches only its own folder. */
  lemma {:induction false} OfferAt(sel: Selection, row: Row, g: nat, f: nat)
    requires |sel| == |TargetMap| && g <= |TargetMap| && f < |TargetMap|
    ensures Offer(sel, row, g)[f] == (if g <= f then OfferTo(sel[f], row, f) else sel[f])
    decreases |TargetMap| - g
  {
    if g < |TargetMap| {
      OfferAt(sel[g := OfferTo(sel[g], row, g)], row, g + 1, f);
    }
  }

  lemma CapAppend(xs: seq<string>, x: string)
    ensures Cap(xs + [x]) == (if |Cap(xs)| < SamplesPerClass then Cap(xs) + [x] else Cap(xs))
  {
    if |xs| > SamplesPerClass {
      assert (xs + [x])[..SamplesPerClass] == xs[..SamplesPerClass];
    }
  }

  /** Each folder's list is exactly the first min(40, #matching rows) matching
      filenames, in CSV row order. */
  lemma {:induction false} SelectIsCappedMatching(rows: seq<Row>, f: nat)
    requires f < |TargetMap|
    ensures Select(rows)[f] == Cap(Matching(rows, f))
  {
    if |rows| > 0 {
      var init := rows[..|rows| - 1];
      var last := rows[|rows| - 1];
      SelectIsCappedMatching(init, f);
      OfferAt(Select(init), last, 0, f);
      if last.category in Categories(f) {
        CapAppend(Matching(init, f), last.filename);
      } else {
        assert Matching(rows, f) == Matching(init, f) + [];
        assert Matching(init, f) + [] == Matching(init, f);
      }
    }
  }

  /** Every filename in a folder's reference list came from a row whose
      category maps to that folder. */
  lemma {:induction false} MatchingFromRows(rows: seq<Row>, f: nat, i: nat)
    requires f < |TargetMap| && i < |Matching(rows, f)|
    ensures exists j :: 0 <= j < |rows| && rows[j].filename == Matching(rows, f)[i]
                        && rows[j].category in Categories(f)
  {
    var init := rows[..|rows| - 1];
    var last := rows[|rows| - 1];
    if i < |Matching(init, f)| {
      MatchingFromRows(init, f, i);
      var j :| 0 <= j < |init| && init[j].filename == Matching(init, f)[i]
               && init[j].category in Categories(f);
      assert rows[j] == init[j];
    } else {
      assert rows[|rows| - 1] == last;
    }
  }

  /** The selection's promises: at most SamplesPerClass per folder, and every
      selected file comes from a row of a mapped category. */
  lemma SelectionSound(rows: seq<Row>, f: nat, i: nat)
    requires f < |TargetMap|
    ensures |Select(rows)[f]| <= SamplesPerClass
    ensures i < |Select(rows)[f]| ==>
              exists j :: 0 <= j < |rows| && rows[j].filename == Select(rows)[f][i]
                          && rows[j].category in Categories(f)
  {
    SelectIsCappedMatching(rows, f);
    if i < |Select(rows)[f]| {
      MatchingFromRows(rows, f, i);
    }
  }

  /** A row whose category is in no mapping changes no folder. */
  lemma UnmappedRowIgnored(rows: seq<Row>, row: Row)
    requires forall f :: 0 <= f < |TargetMap| ==> row.category !in Categories(f)
    ensures Select(rows + [row]) == Select(rows)
  {
    var sel := Select(rows);
    assert (rows + [row])[..|rows|] == rows;
    forall f | 0 <= f < |TargetMap|
      ensures Select(rows + [row])[f] == sel[f]
    {
      OfferAt(sel, row, 0, f);
    }
  }

  /** The mapped category lists are pairwise disjoint, so a row can be added to
      at most one folder. */
  lemma CategoriesDisjoint(c: string, f: nat, g: nat)
    requires f < |TargetMap| && g < |TargetMap| && f != g
    ensures !(c in Categories(f) && c in Categories(g))
  {
  }

  /** `os.path.join(DATA_DIR, folder, filename)` for plain relative names. */
  function SavePath(folder: string, filename: string): string
  {
    DataDir + "/" + folder + "/" + filename
  }

  /** Every selected file's save path, folders in dictionary order from
      mapping f on. */
  function SavePaths(sel: Selection, f: nat): seq<string>
    requires |sel| == |TargetMap| && f <= |TargetMap|
    decreases |TargetMap| - f
  {
    if f == |TargetMap| then []
    else seq(|sel[f]|, i requires 0 <= i < |sel[f]| => SavePath(TargetMap[f].0, sel[f][i]))
         + SavePaths(sel, f + 1)
  }

  /** The save paths are exactly those of the files selected for folders f
      onward. */
  lemma {:induction false} SavePathsMembers(sel: Selection, f: nat, p: string)
    requires |sel| == |TargetMap| && f <= |TargetMap|
    ensures p in SavePaths(sel, f) <==>
              exists g, i :: f <= g < |TargetMap| && 0 <= i < |sel[g]| && p == SavePath(TargetMap[g].0, sel[g][i])
    decreases |TargetMap| - f
  {
    if f < |TargetMap| {
      SavePathsMembers(sel, f + 1, p);
      var here := seq(|sel[f]|, i requires 0 <= i < |sel[f]| => SavePath(TargetMap[f].0, sel[f][i]));
      assert SavePaths(sel, f) == here + SavePaths(sel, f + 1);
      if p in here {
        var i :| 0 <= i < |here| && here[i] == p;
        assert f <= f < |TargetMap| && 0 <= i < |sel[f]| && p == SavePath(TargetMap[f].0, sel[f][i]);
      }
      if exists g, i :: f <= g < |TargetMap| && 0 <= i < |sel[g]| && p == SavePath(TargetMap[g].0, sel[g][i]) {
        var g, i :| f <= g < |TargetMap| && 0 <= i < |sel[g]| && p == SavePath(TargetMap[g].0, sel[g][i]);
        if g == f {
          assert here[i] == p;
        }
      }
    }
  }

  /** The download phase of the script: the selected files' save paths, with
      the ones already on disk skipped. */
  function DownloadPlan(rows: seq<Row>, existing: set<string>): seq<string>
  {
    Fetches(SavePaths(Select(rows), 0), existing)
  }

  /** The skip-if-exists loop: fetch a path only when it does not exist yet; a
      fetched file exists from then on. */
  function Fetches(paths: seq<string>, existing: set<string>): seq<string>
  {
    if |paths| == 0 then []
    else if paths[0] in existing then Fetches(paths[1..], existing)
    else [paths[0]] + Fetches(paths[1..], existing + {paths[0]})
  }

  /** Exactly the paths that did not exist are fetched, each once. */
  lemma {:induction false} FetchesExactlyMissing(paths: seq<string>, existing: set<string>)
    ensures forall p :: p in Fetches(paths, existing) <==> p in paths && p !in existing
    ensures forall i, j :: 0 <= i < j < |Fetches(paths, existing)| ==>
              Fetches(paths, existing)[i] != Fetches(paths, existing)[j]
  {
    if |paths| > 0 {
      var p0 := paths[0];
      assert forall p :: p in paths <==> p == p0 || p in paths[1..];
      if p0 in existing {
        FetchesExactlyMissing(paths[1..], existing);
      } else {
        var rest := Fetches(paths[1..], existing + {p0});
        FetchesExactlyMissing(paths[1..], existing + {p0});
        var r := [p0] + rest;
        assert p0 !in rest;
        forall i, j | 0 <= i < j < |r| ensures r[i] != r[j] {
          if i > 0 {
            assert r[i] == rest[i - 1] && r[j] == rest[j - 1];
          } else {
            assert r[j] == rest[j - 1];
          }
        }
      }
    }
  }

  /** A file is fetched exactly when it was selected for some folder and its
      save path does not exist yet, and no file is fetched twice. */
  lemma DownloadPlanFetchesMissingSelected(rows: seq<Row>, existing: set<string>)
    ensures forall p :: p in DownloadPlan(rows, existing) <==>
              p !in existing &&
              exists g, i :: 0 <= g < |TargetMap| && 0 <= i < |Select(rows)[g]|
                             && p == SavePath(TargetMap[g].0, Select(rows)[g][i])
    ensures forall i, j :: 0 <= i < j < |DownloadPlan(rows, existing)| ==>
              DownloadPlan(rows, existing)[i] != DownloadPlan(rows, existing)[j]
  {
    FetchesExactlyMissing(SavePaths(Select(rows), 0), existing);
    forall p
      ensures p in SavePaths(Select(rows), 0) <==>
                exists g, i :: 0 <= g < |TargetMap| && 0 <= i < |Select(rows)[g]|
                               && p == SavePath(TargetMap[g].0, Select(rows)[g][i])
    {
      SavePathsMembers(Select(rows), 0, p);
    }
  }
}
