/**
 * The barangay image index (`barangay_images.csv`, aaqua.py:406-429): saving
 * an image is an upsert keyed by barangay, deleting removes every row of
 * that barangay. The image files themselves are not modelled.
 */
module BarangayImages {
  import opened Options

  datatype ImageRow = ImageRow(barangay: string, filename: string)

  /** `not df[df["barangay"] == barangay].empty`. */
  predicate HasBarangay(rows: seq<ImageRow>, barangay: string)
  {
    exists i :: 0 <= i < |rows| && rows[i].barangay == barangay
  }

  /** At most one row per barangay. */
  predicate UniqueBarangays(rows: seq<ImageRow>)
  {
    forall i, j :: 0 <= i < j < |rows| ==> rows[i].barangay != rows[j].barangay
  }

  /** The file name of the first row of a barangay (`row.iloc[0]["filename"]`). */
  function FirstFilename(rows: seq<ImageRow>, barangay: string): (f: Option<string>)
    ensures f.None? <==> !HasBarangay(rows, barangay)
    ensures f.Some? ==>
              exists i :: 0 <= i < |rows| && rows[i] == ImageRow(barangay, f.value)
                          && forall j :: 0 <= j < i ==> rows[j].barangay != barangay
  {
    if |rows| == 0 then None
    else if rows[0].barangay == barangay then Some(rows[0].filename)
    else
      var rest := FirstFilename(rows[1..], barangay);
      assert forall i :: 1 <= i < |rows| ==> rows[i] == rows[1..][i - 1];
      rest
  }

  /** `save_barangay_image` on the table: rewrite the file name of every row of the barangay, or append one row. */
  function Upsert(rows: seq<ImageRow>, barangay: string, filename: string): seq<ImageRow>
  {
    if HasBarangay(rows, barangay) then
      seq(|rows|, i requires 0 <= i < |rows| =>
        if rows[i].barangay == barangay then rows[i].(filename := filename) else rows[i])
    else rows + [ImageRow(barangay, filename)]
  }

  /** `df[df["barangay"] != barangay]`: the rows of every other barangay, in order. */
  function Without(rows: seq<ImageRow>, barangay: string): (rest: seq<ImageRow>)
    ensures |rest| <= |rows|
    ensures !HasBarangay(rest, barangay)
  {
    if |rows| == 0 then []
    else if rows[0].barangay == barangay then Without(rows[1..], barangay)
    else [rows[0]] + Without(rows[1..], barangay)
  }

  /** Removing a barangay from a concatenation removes it from each part, so the order of the rest is kept. */
  lemma {:induction false} WithoutAppend(rows1: seq<ImageRow>, rows2: seq<ImageRow>, barangay: string)
    ensures Without(rows1 + rows2, barangay) == Without(rows1, barangay) + Without(rows2, barangay)
  {
    if |rows1| > 0 {
      assert (rows1 + rows2)[1..] == rows1[1..] + rows2;
      WithoutAppend(rows1[1..], rows2, barangay);
    } else {
      assert rows1 + rows2 == rows2;
    }
  }

  /** A table holding no row of the barangay is left exactly as it is, and only then. */
  lemma {:induction false} WithoutIdentity(rows: seq<ImageRow>, barangay: string)
    ensures Without(rows, barangay) == rows <==> !HasBarangay(rows, barangay)
  {
    if |rows| > 0 {
      WithoutIdentity(rows[1..], barangay);
      if rows[0].barangay != barangay {
        assert HasBarangay(rows[1..], barangay) ==> HasBarangay(rows, barangay) by {
          if HasBarangay(rows[1..], barangay) {
            var i :| 0 <= i < |rows[1..]| && rows[1..][i].barangay == barangay;
            assert rows[i + 1].barangay == barangay;
          }
        }
        assert HasBarangay(rows, barangay) ==> HasBarangay(rows[1..], barangay) by {
          if HasBarangay(rows, barangay) {
            var i :| 0 <= i < |rows| && rows[i].barangay == barangay;
            assert rows[1..][i - 1].barangay == barangay;
          }
        }
      } else {
        assert |Without(rows, barangay)| < |rows| by { assert |Without(rows[1..], barangay)| <= |rows[1..]|; }
      }
    }
  }

  /**
   * Deleting keeps every row of another barangay, as many times as it
   * occurred, and no row of the deleted one.
   */
  lemma {:induction false} WithoutCounts(rows: seq<ImageRow>, barangay: string, row: ImageRow)
    ensures multiset(Without(rows, barangay))[row] == if row.barangay == barangay then 0 else multiset(rows)[row]
  {
    if |rows| > 0 {
      WithoutCounts(rows[1..], barangay, row);
      assert rows == [rows[0]] + rows[1..];
    }
  }

  /** Deleting twice is deleting once. */
  lemma WithoutIdempotent(rows: seq<ImageRow>, barangay: string)
    ensures Without(Without(rows, barangay), barangay) == Without(rows, barangay)
  {
    WithoutIdentity(Without(rows, barangay), barangay);
  }

  /** Deleting keeps a table free of duplicate barangays. */
  lemma {:induction false} WithoutKeepsUnique(rows: seq<ImageRow>, barangay: string)
    requires UniqueBarangays(rows)
    ensures UniqueBarangays(Without(rows, barangay))
  {
    if |rows| > 0 {
      WithoutKeepsUnique(rows[1..], barangay);
      if rows[0].barangay != barangay {
        var rest := Without(rows[1..], barangay);
        forall k | 0 <= k < |rest| ensures rest[k].barangay != rows[0].barangay {
          WithoutCounts(rows[1..], barangay, rest[k]);
          assert rest[k] in multiset(rest);
          assert rest[k] in rows[1..];
        }
      }
    }
  }

  /**
   * After a save every row of the barangay names the new file, in place when
   * the barangay already had rows; in particular its first row does.
   */
  lemma UpsertStores(rows: seq<ImageRow>, barangay: string, filename: string)
    ensures FirstFilename(Upsert(rows, barangay, filename), barangay) == Some(filename)
    ensures var u := Upsert(rows, barangay, filename);
            forall k :: 0 <= k < |u| && u[k].barangay == barangay ==> u[k].filename == filename
    ensures var u := Upsert(rows, barangay, filename);
            HasBarangay(rows, barangay) ==> forall k :: 0 <= k < |rows| ==> u[k].barangay == rows[k].barangay
    ensures HasBarangay(rows, barangay) ==> |Upsert(rows, barangay, filename)| == |rows|
    ensures !HasBarangay(rows, barangay) ==> |Upsert(rows, barangay, filename)| == |rows| + 1
  {
    var u := Upsert(rows, barangay, filename);
    if HasBarangay(rows, barangay) {
      var k :| 0 <= k < |rows| && rows[k].barangay == barangay;
      assert u[k].barangay == barangay;
    } else {
      assert u[|rows|] == ImageRow(barangay, filename);
    }
    assert forall k :: 0 <= k < |u| && u[k].barangay == barangay ==> u[k].filename == filename;
    var f := FirstFilename(u, barangay);
    var i :| 0 <= i < |u| && u[i] == ImageRow(barangay, f.value);
    assert u[i].filename == filename;
  }

  /**
   * A save leaves the rows of every other barangay as they were, in the same
   * order; equivalently, saving then deleting a barangay is just deleting it.
   */
  lemma UpsertKeepsOthers(rows: seq<ImageRow>, barangay: string, filename: string)
    ensures Without(Upsert(rows, barangay, filename), barangay) == Without(rows, barangay)
  {
    if HasBarangay(rows, barangay) {
      RewriteKeepsOthers(rows, barangay, filename);
    } else {
      WithoutAppend(rows, [ImageRow(barangay, filename)], barangay);
    }
  }

  lemma {:induction false} RewriteKeepsOthers(rows: seq<ImageRow>, barangay: string, filename: string)
    ensures var rewritten := seq(|rows|, i requires 0 <= i < |rows| =>
                               if rows[i].barangay == barangay then rows[i].(filename := filename) else rows[i]);
            Without(rewritten, barangay) == Without(rows, barangay)
  {
    var rewritten := seq(|rows|, i requires 0 <= i < |rows| =>
                       if rows[i].barangay == barangay then rows[i].(filename := filename) else rows[i]);
    if |rows| > 0 {
      RewriteKeepsOthers(rows[1..], barangay, filename);
      var tail := seq(|rows[1..]|, i requires 0 <= i < |rows[1..]| =>
                    if rows[1..][i].barangay == barangay then rows[1..][i].(filename := filename) else rows[1..][i]);
      assert rewritten[1..] == tail;
    }
  }

  /** The last save of a barangay wins. */
  lemma UpsertLastWins(rows: seq<ImageRow>, barangay: string, filename1: string, filename2: string)
    ensures Upsert(Upsert(rows, barangay, filename1), barangay, filename2) == Upsert(rows, barangay, filename2)
  {
    var u1 := Upsert(rows, barangay, filename1);
    UpsertStores(rows, barangay, filename1);
    if !HasBarangay(rows, barangay) {
      assert u1[|rows|].barangay == barangay;
    }
  }

  /** Saving keeps a table free of duplicate barangays. */
  lemma UpsertKeepsUnique(rows: seq<ImageRow>, barangay: string, filename: string)
    requires UniqueBarangays(rows)
    ensures UniqueBarangays(Upsert(rows, barangay, filename))
  {
  }

  /** The image index table. */
  class ImageTable {
    var rows: seq<ImageRow>

    constructor (rows0: seq<ImageRow>)
      ensures rows == rows0
    {
      rows := rows0;
    }

    /** `save_barangay_image`. */
    method SaveImage(barangay: string, filename: string)
      modifies this
      ensures rows == Upsert(old(rows), barangay, filename)
      ensures UniqueBarangays(old(rows)) ==> UniqueBarangays(rows)
    {
      if HasBarangay(rows, barangay) {
        var table := rows;
        rows := seq(|table|, i requires 0 <= i < |table| =>
          if table[i].barangay == barangay then table[i].(filename := filename) else table[i]);
      } else {
        rows := rows + [ImageRow(barangay, filename)];
      }
      if UniqueBarangays(old(rows)) {
        UpsertKeepsUnique(old(rows), barangay, filename);
      }
    }

    /**
     * `delete_barangay_image`: when the barangay has rows, answer the file
     * name of the first one (the file the source deletes) and drop them all;
     * otherwise leave the table alone and answer `None`.
     */
    method DeleteImage(barangay: string) returns (removed: Option<string>)
      modifies this
      ensures removed == FirstFilename(old(rows), barangay)
      ensures rows == Without(old(rows), barangay)
      ensures removed.None? ==> rows == old(rows)
      ensures UniqueBarangays(old(rows)) ==> UniqueBarangays(rows)
    {
      removed := FirstFilename(rows, barangay);
      if removed.Some? {
        rows := Without(rows, barangay);
      } else {
        WithoutIdentity(rows, barangay);
      }
      if UniqueBarangays(old(rows)) {
        WithoutKeepsUnique(old(rows), barangay);
      }
    }
  }
}
