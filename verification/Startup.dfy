/**
 The data repairs of `ensure_schema`: one share row per document and user, and real sizes for attachments from
 before the column existed.
 */
module Startup {
  import opened Library
  import opened ShareRows
  import Paths
  import DocumentRequests
  import FileSafety

  predicate Measurable(a: Attachment, folder: seq<string>, disk: map<string, seq<Byte>>) {
    a.size == 0 && Paths.Sealed(folder, a.name) && a.name in disk
  }

  function Measured(a: Attachment, folder: seq<string>, disk: map<string, seq<Byte>>): Attachment {
    if Measurable(a, folder, disk) then a.(size := |disk[a.name]|) else a
  }

  function Backfill(rows: seq<Attachment>, folder: seq<string>, disk: map<string, seq<Byte>>): seq<Attachment> {
    seq(|rows|, i requires 0 <= i < |rows| => Measured(rows[i], folder, disk))
  }

  lemma BackfillTwice(rows: seq<Attachment>, folder: seq<string>, disk: map<string, seq<Byte>>)
    ensures Backfill(Backfill(rows, folder, disk), folder, disk) == Backfill(rows, folder, disk)
  {
    hide Paths.Sealed;
    assert forall a :: Measured(Measured(a, folder, disk), folder, disk) == Measured(a, folder, disk);
  }

  /**
   Only sizes change. A row that has its file ends with the length of the file exactly when it had that size or
   none before; a row without a file in the folder keeps its size.
   */
  lemma BackfillIsExact(rows: seq<Attachment>, folder: seq<string>, disk: map<string, seq<Byte>>, i: nat)
    requires i < |rows|
    ensures
      var before, after := rows[i], Backfill(rows, folder, disk)[i];
      && after.(size := before.size) == before
      && (Paths.Sealed(folder, before.name) && before.name in disk ==>
            (after.size == |disk[before.name]| <==> before.size == 0 || before.size == |disk[before.name]|))
      && (!Paths.Sealed(folder, before.name) || before.name !in disk || before.size > 0 ==> after == before)
  {
    hide Paths.Sealed;
  }

  // ---------- usage ----------

  /** The bytes of an uploader's files that the table does not count yet. */
  function Unmeasured(rows: seq<Attachment>, folder: seq<string>, disk: map<string, seq<Byte>>, u: UserId): nat {
    if rows == [] then 0
    else
      var last := rows[|rows| - 1];
      Unmeasured(rows[..|rows| - 1], folder, disk, u)
      + if last.uploader == u && Measurable(last, folder, disk) then |disk[last.name]| else 0
  }

  lemma {:induction false} BackfillUsage(rows: seq<Attachment>, folder: seq<string>, disk: map<string, seq<Byte>>, u: UserId)
    ensures FilesBy(Backfill(rows, folder, disk), u) == FilesBy(rows, u)
    ensures BytesBy(Backfill(rows, folder, disk), u) == BytesBy(rows, u) + Unmeasured(rows, folder, disk, u)
  {
    if rows != [] {
      hide Paths.Sealed;
      BackfillUsage(rows[..|rows| - 1], folder, disk, u);
      assert Backfill(rows, folder, disk)[..|rows| - 1] == Backfill(rows[..|rows| - 1], folder, disk);
    }
  }

  predicate Fits(t: Tables, lim: Limits, folder: seq<string>, disk: map<string, seq<Byte>>, u: UserId) {
    BytesBy(t.attachments, u) + Unmeasured(t.attachments, folder, disk, u) <= lim.bytes
  }

  /** Tables within limits stay within them exactly when no uploader's uncounted files go beyond the byte limit. */
  lemma BackfillWithinLimitsIff(t: Tables, lim: Limits, folder: seq<string>, disk: map<string, seq<Byte>>)
    requires DocumentRequests.WithinLimits(t, lim)
    ensures DocumentRequests.WithinLimits(t.(attachments := Backfill(t.attachments, folder, disk)), lim) <==>
      forall u :: Fits(t, lim, folder, disk, u)
  {
    var v := t.(attachments := Backfill(t.attachments, folder, disk));
    forall u: UserId
      ensures FilesBy(v.attachments, u) <= lim.attachments
      ensures BytesBy(v.attachments, u) <= lim.bytes <==> Fits(t, lim, folder, disk, u)
    {
      BackfillUsage(t.attachments, folder, disk, u);
      assert FilesBy(t.attachments, u) <= lim.attachments;
    }
    if DocumentRequests.WithinLimits(v, lim) {
      forall u: UserId
        ensures Fits(t, lim, folder, disk, u)
      {
        assert BytesBy(v.attachments, u) <= lim.bytes;
      }
    }
  }

  const OLD_ROW := Attachment(1, "a.txt", 7, 0)
  const OLD_TABLES := Tables(map[1 := Document(7, "title", "body", "private")], 2, map[], [], [OLD_ROW], {})
  const SMALL := Limits(1, 1, 1, 1)

  /** One row of unknown size, a file of two bytes and a limit of one: within limits before, beyond them after. */
  lemma BackfillCanExceed()
    ensures
      var folder, disk := ["uploads"], map["a.txt" := [65, 66]];
      && DocumentRequests.WithinLimits(OLD_TABLES, SMALL)
      && !DocumentRequests.WithinLimits(OLD_TABLES.(attachments := Backfill(OLD_TABLES.attachments, folder, disk)), SMALL)
  {
    var folder, disk: map<string, seq<Byte>> := ["uploads"], map["a.txt" := [65, 66]];
    OldTablesFit();
    Paths.OnePart("a.txt");
    assert Paths.Walk(["uploads", "a.txt"], []) == ["uploads", "a.txt"];
    assert ["uploads"] + ["a.txt"] == ["uploads", "a.txt"] && ["a.txt"][1..] == [];
    assert Paths.Sealed(folder, "a.txt");
    assert Unmeasured([], folder, disk, 7) == 0 && [OLD_ROW][..0] == [];
    assert Unmeasured([OLD_ROW], folder, disk, 7) == 2 && !Fits(OLD_TABLES, SMALL, folder, disk, 7);
    BackfillWithinLimitsIff(OLD_TABLES, SMALL, folder, disk);
  }

  lemma OldTablesFit()
    ensures DocumentRequests.WithinLimits(OLD_TABLES, SMALL)
  {
    forall u: UserId
      ensures |Owned(OLD_TABLES.docs, u)| <= 1 && FilesBy([OLD_ROW], u) <= 1 && BytesBy([OLD_ROW], u) <= 1
    {
      assert Owned(OLD_TABLES.docs, u) == if u == 7 then {1} else {};
      assert [OLD_ROW][..0] == [];
    }
    forall d: DocId
      ensures CommentsOn(OLD_TABLES.comments, d) <= 1
    {
    }
  }

  /** A restart changes no attachment the requests made, whatever happened between them. */
  lemma RestartKeepsAttachments(w0: DocumentRequests.World, w: DocumentRequests.World)
    requires DocumentRequests.Reachable(w0, w)
    ensures Backfill(w.rows.attachments, w.folder, w.disk) == w.rows.attachments
  {
    hide Paths.Sealed;
    FileSafety.FolderAndTablesAgree(w0, w);
    var rows := w.rows.attachments;
    assert forall i :: 0 <= i < |rows| ==> rows[i] in rows;
  }

  lemma BackfillEnds(rows: seq<Attachment>, folder: seq<string>, disk: map<string, seq<Byte>>)
    ensures Backfill(rows[..0], folder, disk) + rows[0..] == rows
    ensures Backfill(rows[..|rows|], folder, disk) + rows[|rows|..] == Backfill(rows, folder, disk)
    ensures forall i :: 0 <= i <= |rows| ==> |Backfill(rows[..i], folder, disk) + rows[i..]| == |rows|
  {
    assert rows[..|rows|] == rows;
  }

  lemma BackfillNext(rows: seq<Attachment>, i: nat, folder: seq<string>, disk: map<string, seq<Byte>>)
    requires i < |rows|
    ensures var before := Backfill(rows[..i], folder, disk) + rows[i..];
      before[i] == rows[i] &&
      before[i := Measured(rows[i], folder, disk)] == Backfill(rows[..i + 1], folder, disk) + rows[i + 1..]
  {
    hide Measured;
  }

  // ---------- the DELETE statement ----------

  /** The groups read so far: each pair that has a row, with the greatest id among its rows. */
  ghost predicate Grouped(greatest: map<(DocId, UserId), nat>, rows: seq<ShareRow>) {
    forall p: (DocId, UserId) ::
      (p in greatest <==> HasRow(rows, p.0, p.1)) && (p in greatest ==> greatest[p] == MaxId(rows, p.0, p.1))
  }

  lemma GroupNext(greatest: map<(DocId, UserId), nat>, rows: seq<ShareRow>, r: ShareRow)
    requires Grouped(greatest, rows)
    ensures
      var p := (r.doc, r.user);
      Grouped(if p in greatest && r.id <= greatest[p] then greatest else greatest[p := r.id], rows + [r])
  {
    var p := (r.doc, r.user);
    var next := if p in greatest && r.id <= greatest[p] then greatest else greatest[p := r.id];
    forall q: (DocId, UserId)
      ensures (q in next <==> HasRow(rows + [r], q.0, q.1)) && (q in next ==> next[q] == MaxId(rows + [r], q.0, q.1))
    {
      assert (rows + [r])[..|rows|] == rows;
      assert forall x :: x in rows + [r] <==> x in rows || x == r;
      assert HasRow(rows + [r], q.0, q.1) <==> HasRow(rows, q.0, q.1) || Of(r, q.0, q.1);
      if p !in greatest {
        NoMax(rows, p.0, p.1);
      }
    }
  }

  lemma GroupsAreMaxima(greatest: map<(DocId, UserId), nat>, rows: seq<ShareRow>)
    requires Grouped(greatest, rows)
    ensures greatest.Values == Maxima(rows)
  {
    forall id
      ensures id in greatest.Values <==> id in Maxima(rows)
    {
      if id in greatest.Values {
        var p :| p in greatest && greatest[p] == id;
        var r :| r in rows && Of(r, p.0, p.1);
      }
      if id in Maxima(rows) {
        var r :| r in rows && MaxId(rows, r.doc, r.user) == id;
        assert HasRow(rows, r.doc, r.user) && (r.doc, r.user) in greatest;
      }
    }
  }

  /** SELECT MAX(id) ... GROUP BY, in one pass over the rows. */
  method GroupMaxima(rows: seq<ShareRow>) returns (ids: set<nat>)
    ensures ids == Maxima(rows)
  {
    hide Grouped;
    var greatest: map<(DocId, UserId), nat> := map[];
    NoGroups();
    for i := 0 to |rows|
      invariant Grouped(greatest, rows[..i])
    {
      var r := rows[i];
      GroupNext(greatest, rows[..i], r);
      assert rows[..i + 1] == rows[..i] + [r];
      if (r.doc, r.user) !in greatest || r.id > greatest[(r.doc, r.user)] {
        greatest := greatest[(r.doc, r.user) := r.id];
      }
    }
    assert rows[..|rows|] == rows;
    GroupsAreMaxima(greatest, rows);
    ids := greatest.Values;
  }

  lemma NoGroups()
    ensures Grouped(map[], [])
  {
  }

  /** The rows whose id is listed, in one pass. */
  method KeepListed(rows: seq<ShareRow>, ids: set<nat>) returns (kept: seq<ShareRow>)
    ensures kept == Keep(rows, ids)
  {
    kept := [];
    for i := 0 to |rows|
      invariant kept == Keep(rows[..i], ids)
    {
      assert rows[..i + 1][..i] == rows[..i];
      if rows[i].id in ids {
        kept := kept + [rows[i]];
      }
    }
    assert rows[..|rows|] == rows;
  }

  // ---------- ensure_schema on the open connection ----------

  class SchemaRepair {
    var shares: seq<ShareRow>
    var attachments: seq<Attachment>
    const folder: seq<string>
    const disk: map<string, seq<Byte>>

    /** DELETE with its subquery. */
    method DropOldShares()
      modifies this`shares
      ensures shares == Clean(old(shares))
    {
      hide Keep, Maxima;
      var ids := GroupMaxima(shares);
      shares := KeepListed(shares, ids);
    }

    /** The loop over the rows of size 0 that the SELECT yields. */
    method FillSizes()
      modifies this`attachments
      ensures attachments == Backfill(old(attachments), folder, disk)
    {
      hide Paths.Sealed, Backfill;
      var i := 0;
      BackfillEnds(attachments, folder, disk);
      while i < |attachments|
        invariant 0 <= i <= |attachments| == |old(attachments)|
        invariant attachments == Backfill(old(attachments)[..i], folder, disk) + old(attachments)[i..]
      {
        BackfillNext(old(attachments), i, folder, disk);
        var row := attachments[i];
        if row.size == 0 && Paths.Sealed(folder, row.name) && row.name in disk {
          attachments := attachments[i := row.(size := |disk[row.name]|)];
        }
        i := i + 1;
      }
    }

    method EnsureSchema()
      modifies this
      ensures shares == Clean(old(shares))
      ensures attachments == Backfill(old(attachments), folder, disk)
    {
      DropOldShares();
      FillSizes();
    }
  }
}
