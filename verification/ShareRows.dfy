/**
 The shares table as rows in insertion order, with the queries, the writes and the start-up clean-up that run on it.
 Elsewhere the table is the map of rights that its rows stand for.
 */
module ShareRows {
  import opened Library
  import D = DocumentRequests
  import Paths

  datatype ShareRow = ShareRow(id: nat, doc: DocId, user: UserId, edit: bool)

  predicate Of(r: ShareRow, d: DocId, u: UserId) {
    r.doc == d && r.user == u
  }

  ghost predicate InOrder(rows: seq<ShareRow>) {
    forall i, j :: 0 <= i < j < |rows| ==> rows[i].id < rows[j].id
  }

  ghost predicate OnePerPair(rows: seq<ShareRow>) {
    forall i, j :: 0 <= i < j < |rows| ==> !Of(rows[i], rows[j].doc, rows[j].user)
  }

  // ---------- the queries of can_access and can_edit ----------

  predicate HasRow(rows: seq<ShareRow>, d: DocId, u: UserId) {
    exists r :: r in rows && Of(r, d, u)
  }

  predicate HasEditRow(rows: seq<ShareRow>, d: DocId, u: UserId) {
    exists r :: r in rows && Of(r, d, u) && r.edit
  }

  predicate RowsAccess(docs: map<DocId, Document>, rows: seq<ShareRow>, d: DocId, u: UserId) {
    d in docs && (docs[d].visibility == "public" || docs[d].owner == u || HasRow(rows, d, u))
  }

  predicate RowsEdit(docs: map<DocId, Document>, rows: seq<ShareRow>, d: DocId, u: UserId) {
    d in docs && (docs[d].owner == u || HasEditRow(rows, d, u))
  }

  // ---------- the clean-up ----------

  /** SELECT MAX(id) for one group; 0 when it is empty. */
  function MaxId(rows: seq<ShareRow>, d: DocId, u: UserId): nat {
    if rows == [] then 0
    else
      var m, last := MaxId(rows[..|rows| - 1], d, u), rows[|rows| - 1];
      if Of(last, d, u) && last.id > m then last.id else m
  }

  /** SELECT MAX(id) FROM shares GROUP BY document_id, user_id. */
  function Maxima(rows: seq<ShareRow>): set<nat> {
    set r | r in rows :: MaxId(rows, r.doc, r.user)
  }

  function Keep(rows: seq<ShareRow>, ids: set<nat>): seq<ShareRow> {
    if rows == [] then []
    else
      var last := rows[|rows| - 1];
      Keep(rows[..|rows| - 1], ids) + if last.id in ids then [last] else []
  }

  /** DELETE FROM shares WHERE id NOT IN the maxima. */
  function Clean(rows: seq<ShareRow>): seq<ShareRow> {
    Keep(rows, Maxima(rows))
  }

  ghost predicate IsLatest(rows: seq<ShareRow>, r: ShareRow) {
    r in rows && forall x :: x in rows && Of(x, r.doc, r.user) ==> x.id <= r.id
  }

  lemma {:induction false} MaxIdBounds(rows: seq<ShareRow>, d: DocId, u: UserId)
    ensures forall x :: x in rows && Of(x, d, u) ==> x.id <= MaxId(rows, d, u)
    ensures HasRow(rows, d, u) ==> exists x :: x in rows && Of(x, d, u) && x.id == MaxId(rows, d, u)
  {
    if rows != [] {
      var init, last := rows[..|rows| - 1], rows[|rows| - 1];
      MaxIdBounds(init, d, u);
      assert forall x :: x in rows <==> x in init || x == last;
      if HasRow(init, d, u) {
        var x :| x in init && Of(x, d, u) && x.id == MaxId(init, d, u);
        assert x in rows;
      } else if HasRow(rows, d, u) {
        assert Of(last, d, u);
        NoMax(init, d, u);
      }
    }
  }

  lemma {:induction false} NoMax(rows: seq<ShareRow>, d: DocId, u: UserId)
    requires !HasRow(rows, d, u)
    ensures MaxId(rows, d, u) == 0
  {
    if rows != [] {
      var init, last := rows[..|rows| - 1], rows[|rows| - 1];
      assert forall x :: x in rows <==> x in init || x == last;
      assert !HasRow(init, d, u) && !Of(last, d, u);
      NoMax(init, d, u);
    }
  }

  lemma {:induction false} Kept(rows: seq<ShareRow>, ids: set<nat>, r: ShareRow)
    ensures r in Keep(rows, ids) <==> r in rows && r.id in ids
  {
    if rows != [] {
      Kept(rows[..|rows| - 1], ids, r);
      assert rows == rows[..|rows| - 1] + [rows[|rows| - 1]];
    }
  }

  lemma {:induction false} KeepInOrder(rows: seq<ShareRow>, ids: set<nat>)
    requires InOrder(rows)
    ensures InOrder(Keep(rows, ids))
  {
    if rows != [] {
      var init, last := rows[..|rows| - 1], rows[|rows| - 1];
      KeepInOrder(init, ids);
      forall x | x in Keep(init, ids)
        ensures x.id < last.id
      {
        Kept(init, ids, x);
        var i :| 0 <= i < |init| && init[i] == x;
        assert rows[i].id < rows[|rows| - 1].id;
      }
    }
  }

  lemma IdsAreUnique(rows: seq<ShareRow>, a: ShareRow, b: ShareRow)
    requires InOrder(rows) && a in rows && b in rows && a.id == b.id
    ensures a == b
  {
  }

  lemma MaximaAreLatest(rows: seq<ShareRow>, r: ShareRow)
    requires InOrder(rows) && r in rows
    ensures r.id in Maxima(rows) <==> IsLatest(rows, r)
  {
    hide InOrder;
    MaxIdBounds(rows, r.doc, r.user);
    var top :| top in rows && Of(top, r.doc, r.user) && top.id == MaxId(rows, r.doc, r.user);
    if r.id in Maxima(rows) {
      var x :| x in rows && r.id == MaxId(rows, x.doc, x.user);
      MaxIdBounds(rows, x.doc, x.user);
      var y :| y in rows && Of(y, x.doc, x.user) && y.id == MaxId(rows, x.doc, x.user);
      IdsAreUnique(rows, r, y);
    }
  }

  /** After the clean-up there is one row per document and user, and it is the row inserted last for that pair. */
  lemma CleanKeepsLatest(rows: seq<ShareRow>)
    requires InOrder(rows)
    ensures InOrder(Clean(rows)) && OnePerPair(Clean(rows))
    ensures forall r :: r in Clean(rows) <==> IsLatest(rows, r)
  {
    hide Maxima, Keep;
    KeepInOrder(rows, Maxima(rows));
    forall r
      ensures r in Clean(rows) <==> IsLatest(rows, r)
    {
      Kept(rows, Maxima(rows), r);
      if r in rows {
        MaximaAreLatest(rows, r);
      }
    }
    var kept := Clean(rows);
    forall i, j | 0 <= i < j < |kept|
      ensures !Of(kept[i], kept[j].doc, kept[j].user)
    {
      assert kept[i] in kept && kept[j] in kept && kept[i].id < kept[j].id;
    }
  }

  lemma {:induction false} KeepAll(rows: seq<ShareRow>, ids: set<nat>)
    requires forall r :: r in rows ==> r.id in ids
    ensures Keep(rows, ids) == rows
  {
    if rows != [] {
      assert rows == rows[..|rows| - 1] + [rows[|rows| - 1]];
      KeepAll(rows[..|rows| - 1], ids);
    }
  }

  lemma UniqueIsLatest(rows: seq<ShareRow>)
    requires InOrder(rows) && OnePerPair(rows)
    ensures Clean(rows) == rows
  {
    hide Maxima, Keep;
    forall r | r in rows
      ensures r.id in Maxima(rows)
    {
      assert forall x :: x in rows && Of(x, r.doc, r.user) ==> x == r;
      MaximaAreLatest(rows, r);
    }
    KeepAll(rows, Maxima(rows));
  }

  /** On tables with one row per pair, such as the upsert keeps and the clean-up leaves, it changes nothing. */
  lemma CleanFixesUniqueTables(rows: seq<ShareRow>)
    requires InOrder(rows)
    ensures OnePerPair(rows) <==> Clean(rows) == rows
    ensures Clean(Clean(rows)) == Clean(rows)
  {
    CleanKeepsLatest(rows);
    UniqueIsLatest(Clean(rows));
    if OnePerPair(rows) {
      UniqueIsLatest(rows);
    }
  }

  lemma LatestExists(rows: seq<ShareRow>, d: DocId, u: UserId)
    requires HasRow(rows, d, u)
    ensures exists r :: IsLatest(rows, r) && Of(r, d, u)
  {
    MaxIdBounds(rows, d, u);
    var r :| r in rows && Of(r, d, u) && r.id == MaxId(rows, d, u);
    assert IsLatest(rows, r);
  }

  /** Who could read a document before the clean-up can read it after, and nobody else. */
  lemma CleanKeepsReading(docs: map<DocId, Document>, rows: seq<ShareRow>, d: DocId, u: UserId)
    requires InOrder(rows)
    ensures RowsAccess(docs, Clean(rows), d, u) <==> RowsAccess(docs, rows, d, u)
  {
    hide Clean;
    CleanKeepsLatest(rows);
    if HasRow(rows, d, u) {
      LatestExists(rows, d, u);
    }
  }

  ghost predicate LatestEdits(rows: seq<ShareRow>, d: DocId, u: UserId) {
    exists r :: IsLatest(rows, r) && Of(r, d, u) && r.edit
  }

  /**
   The clean-up grants no editing, and it takes editing away exactly from users who are not the owner and whose
   last row for the document does not allow it while an older one does.
   */
  lemma CleanKeepsEditingIff(docs: map<DocId, Document>, rows: seq<ShareRow>, d: DocId, u: UserId)
    requires InOrder(rows)
    ensures RowsEdit(docs, Clean(rows), d, u) ==> RowsEdit(docs, rows, d, u)
    ensures (RowsEdit(docs, Clean(rows), d, u) <==> RowsEdit(docs, rows, d, u)) <==>
      d !in docs || docs[d].owner == u || LatestEdits(rows, d, u) || !HasEditRow(rows, d, u)
  {
    hide Clean;
    CleanKeepsLatest(rows);
    assert HasEditRow(Clean(rows), d, u) <==> LatestEdits(rows, d, u);
  }

  /** Two rows of one pair, the later one without editing: the user could edit before the restart and cannot after. */
  lemma CleanCanTakeEditing()
    ensures
      var docs := map[5 := Document(1, "title", "body", "private")];
      var rows := [ShareRow(1, 5, 6, true), ShareRow(2, 5, 6, false)];
      && InOrder(rows) && RowsEdit(docs, rows, 5, 6) && !RowsEdit(docs, Clean(rows), 5, 6)
  {
    var docs := map[5 := Document(1, "title", "body", "private")];
    var rows := [ShareRow(1, 5, 6, true), ShareRow(2, 5, 6, false)];
    assert rows[0] in rows && rows[1] in rows;
    CleanKeepsEditingIff(docs, rows, 5, 6);
    assert !LatestEdits(rows, 5, 6);
  }

  // ---------- the rows and the map of rights ----------

  /** The right each row gives, later rows overriding earlier ones. */
  function Grants(rows: seq<ShareRow>): map<(DocId, UserId), bool> {
    if rows == [] then map[]
    else Grants(rows[..|rows| - 1])[(rows[|rows| - 1].doc, rows[|rows| - 1].user) := rows[|rows| - 1].edit]
  }

  /** The rows as every write leaves them, and the rights they stand for. */
  ghost predicate Represents(rows: seq<ShareRow>, next: nat, shares: map<(DocId, UserId), bool>) {
    InOrder(rows) && OnePerPair(rows) && (forall r :: r in rows ==> r.id < next) && Grants(rows) == shares
  }

  lemma {:induction false} GrantedPairs(rows: seq<ShareRow>, d: DocId, u: UserId)
    ensures (d, u) in Grants(rows) <==> HasRow(rows, d, u)
    ensures (d, u) in Grants(rows) && Grants(rows)[(d, u)] ==> HasEditRow(rows, d, u)
  {
    if rows != [] {
      var init, last := rows[..|rows| - 1], rows[|rows| - 1];
      GrantedPairs(init, d, u);
      assert forall r :: r in rows <==> r in init || r == last;
      assert HasRow(rows, d, u) <==> HasRow(init, d, u) || Of(last, d, u);
      assert HasEditRow(rows, d, u) <==> HasEditRow(init, d, u) || (Of(last, d, u) && last.edit);
    }
  }

  lemma {:induction false} GrantOfRow(rows: seq<ShareRow>, r: ShareRow)
    requires OnePerPair(rows) && r in rows
    ensures (r.doc, r.user) in Grants(rows) && Grants(rows)[(r.doc, r.user)] == r.edit
  {
    var init, last := rows[..|rows| - 1], rows[|rows| - 1];
    if r != last {
      assert r in init;
      var i :| 0 <= i < |init| && init[i] == r;
      assert !Of(rows[i], rows[|rows| - 1].doc, rows[|rows| - 1].user);
      GrantOfRow(init, r);
    }
  }

  lemma {:induction false} GrantOfLatest(rows: seq<ShareRow>, r: ShareRow)
    requires InOrder(rows) && IsLatest(rows, r)
    ensures (r.doc, r.user) in Grants(rows) && Grants(rows)[(r.doc, r.user)] == r.edit
  {
    var init, last := rows[..|rows| - 1], rows[|rows| - 1];
    if r != last {
      assert r in init;
      OlderInOrder(rows, r);
      hide InOrder;
      assert forall x :: x in init ==> x in rows;
      GrantOfLatest(init, r);
    }
  }

  lemma OlderInOrder(rows: seq<ShareRow>, r: ShareRow)
    requires InOrder(rows) && rows != [] && r in rows[..|rows| - 1]
    ensures InOrder(rows[..|rows| - 1]) && r.id < rows[|rows| - 1].id
  {
    var i :| 0 <= i < |rows| - 1 && rows[i] == r;
    assert rows[i].id < rows[|rows| - 1].id;
  }

  /** What the rows stand for after the clean-up is what the last row of each pair said before. */
  lemma CleanPreservesGrants(rows: seq<ShareRow>)
    requires InOrder(rows)
    ensures Grants(Clean(rows)) == Grants(rows)
  {
    hide Clean, Grants, InOrder;
    CleanKeepsLatest(rows);
    forall p: (DocId, UserId)
      ensures p in Grants(Clean(rows)) <==> p in Grants(rows)
      ensures p in Grants(rows) ==> Grants(Clean(rows))[p] == Grants(rows)[p]
    {
      GrantedPairs(rows, p.0, p.1);
      GrantedPairs(Clean(rows), p.0, p.1);
      if HasRow(rows, p.0, p.1) {
        LatestExists(rows, p.0, p.1);
        var r :| IsLatest(rows, r) && Of(r, p.0, p.1);
        GrantOfLatest(rows, r);
        GrantOfRow(Clean(rows), r);
      }
    }
  }

  /** On such rows the two queries decide what the rights on the map decide. */
  lemma QueriesReadTheMap(t: Tables, rows: seq<ShareRow>, next: nat, d: DocId, u: UserId)
    requires Represents(rows, next, t.shares)
    ensures RowsAccess(t.docs, rows, d, u) <==> CanAccess(t, d, u)
    ensures RowsEdit(t.docs, rows, d, u) <==> CanEdit(t, d, u)
  {
    hide Grants, InOrder, OnePerPair;
    GrantedPairs(rows, d, u);
    if HasEditRow(rows, d, u) {
      var r :| r in rows && Of(r, d, u) && r.edit;
      GrantOfRow(rows, r);
    }
  }

  function Overwrite(rows: seq<ShareRow>, d: DocId, u: UserId, edit: bool): seq<ShareRow> {
    seq(|rows|, i requires 0 <= i < |rows| => if Of(rows[i], d, u) then rows[i].(edit := edit) else rows[i])
  }

  /** INSERT ... ON CONFLICT DO UPDATE; `next` is the AUTOINCREMENT counter. */
  function Upsert(rows: seq<ShareRow>, next: nat, d: DocId, u: UserId, edit: bool): seq<ShareRow> {
    if HasRow(rows, d, u) then Overwrite(rows, d, u, edit) else rows + [ShareRow(next, d, u, edit)]
  }

  /** DELETE with any condition. */
  function Without(rows: seq<ShareRow>, gone: ShareRow -> bool): seq<ShareRow> {
    if rows == [] then []
    else Without(rows[..|rows| - 1], gone) + if gone(rows[|rows| - 1]) then [] else [rows[|rows| - 1]]
  }

  lemma {:induction false} OverwriteGrants(rows: seq<ShareRow>, d: DocId, u: UserId, edit: bool)
    ensures Grants(Overwrite(rows, d, u, edit)) ==
      if (d, u) in Grants(rows) then Grants(rows)[(d, u) := edit] else Grants(rows)
  {
    if rows != [] {
      var init := rows[..|rows| - 1];
      OverwriteGrants(init, d, u, edit);
      assert Overwrite(rows, d, u, edit)[..|rows| - 1] == Overwrite(init, d, u, edit);
    }
  }

  /** Sharing on the rows is sharing on the map, and keeps what the clean-up would otherwise have to repair. */
  lemma UpsertIsShare(rows: seq<ShareRow>, next: nat, t: Tables, d: DocId, u: UserId, edit: bool)
    requires Represents(rows, next, t.shares) && d in t.docs
    ensures Represents(Upsert(rows, next, d, u, edit), next + 1, Share(t, d, u, edit).shares)
  {
    hide Grants, InOrder, OnePerPair, Overwrite, HasRow;
    GrantedPairs(rows, d, u);
    OverwriteGrants(rows, d, u, edit);
    OverwriteStaysTidy(rows, next, d, u, edit);
    if !HasRow(rows, d, u) {
      AppendStaysTidy(rows, ShareRow(next, d, u, edit));
    }
  }

  lemma OverwriteStaysTidy(rows: seq<ShareRow>, next: nat, d: DocId, u: UserId, edit: bool)
    requires InOrder(rows) && OnePerPair(rows) && forall r :: r in rows ==> r.id < next
    ensures InOrder(Overwrite(rows, d, u, edit)) && OnePerPair(Overwrite(rows, d, u, edit))
    ensures forall r :: r in Overwrite(rows, d, u, edit) ==> r.id < next
  {
    var after := Overwrite(rows, d, u, edit);
    assert forall i :: 0 <= i < |rows| ==>
      after[i].id == rows[i].id && after[i].doc == rows[i].doc && after[i].user == rows[i].user;
    assert forall i :: 0 <= i < |rows| ==> rows[i] in rows;
  }

  lemma AppendStaysTidy(rows: seq<ShareRow>, r: ShareRow)
    requires InOrder(rows) && OnePerPair(rows) && (forall x :: x in rows ==> x.id < r.id)
    requires !HasRow(rows, r.doc, r.user)
    ensures InOrder(rows + [r]) && OnePerPair(rows + [r])
    ensures forall x :: x in rows + [r] ==> x.id < r.id + 1
    ensures Grants(rows + [r]) == Grants(rows)[(r.doc, r.user) := r.edit]
  {
    assert (rows + [r])[..|rows|] == rows;
    forall i | 0 <= i < |rows|
      ensures rows[i].id < r.id && !Of(rows[i], r.doc, r.user)
    {
      assert rows[i] in rows && (Of(rows[i], r.doc, r.user) ==> HasRow(rows, r.doc, r.user));
    }
  }

  lemma {:induction false} Remaining(rows: seq<ShareRow>, gone: ShareRow -> bool, r: ShareRow)
    ensures r in Without(rows, gone) <==> r in rows && !gone(r)
  {
    if rows != [] {
      assert rows == rows[..|rows| - 1] + [rows[|rows| - 1]];
      Remaining(rows[..|rows| - 1], gone, r);
    }
  }

  lemma BelowLast(rows: seq<ShareRow>, r: ShareRow)
    requires InOrder(rows) && OnePerPair(rows) && rows != [] && r in rows[..|rows| - 1]
    ensures r.id < rows[|rows| - 1].id && !Of(r, rows[|rows| - 1].doc, rows[|rows| - 1].user)
  {
    var i :| 0 <= i < |rows| - 1 && rows[i] == r;
  }

  lemma {:induction false} WithoutStaysTidy(rows: seq<ShareRow>, next: nat, gone: ShareRow -> bool)
    requires InOrder(rows) && OnePerPair(rows) && forall r :: r in rows ==> r.id < next
    ensures InOrder(Without(rows, gone)) && OnePerPair(Without(rows, gone))
    ensures forall r :: r in Without(rows, gone) ==> r.id < next
  {
    if rows != [] {
      var init, last := rows[..|rows| - 1], rows[|rows| - 1];
      InitStaysTidy(rows);
      hide InOrder, OnePerPair, Grants;
      assert forall r :: r in init ==> r in rows;
      WithoutStaysTidy(init, next, gone);
      forall r | r in Without(init, gone)
        ensures r.id < last.id && !Of(r, last.doc, last.user)
      {
        Remaining(init, gone, r);
        BelowLast(rows, r);
      }
      if !gone(last) {
        AppendStaysTidy(Without(init, gone), last);
      }
    }
  }

  lemma InitStaysTidy(rows: seq<ShareRow>)
    requires InOrder(rows) && OnePerPair(rows) && rows != []
    ensures InOrder(rows[..|rows| - 1]) && OnePerPair(rows[..|rows| - 1])
  {
  }

  /** Does the condition look at the pair alone? */
  ghost predicate ByPair(gone: ShareRow -> bool) {
    forall a: ShareRow, b: ShareRow :: Of(a, b.doc, b.user) ==> gone(a) == gone(b)
  }

  lemma {:induction false} WithoutGrant(rows: seq<ShareRow>, gone: ShareRow -> bool, r: ShareRow)
    requires ByPair(gone)
    ensures (r.doc, r.user) in Grants(Without(rows, gone)) <==> (r.doc, r.user) in Grants(rows) && !gone(r)
    ensures (r.doc, r.user) in Grants(Without(rows, gone)) ==>
      Grants(Without(rows, gone))[(r.doc, r.user)] == Grants(rows)[(r.doc, r.user)]
  {
    if rows != [] {
      var init, last := rows[..|rows| - 1], rows[|rows| - 1];
      WithoutGrant(init, gone, r);
      SamePairGoes(gone, last, r);
      if !gone(last) {
        GrantsOfLast(Without(init, gone), last);
      } else {
        assert Without(init, gone) + [] == Without(init, gone);
      }
    }
  }

  lemma SamePairGoes(gone: ShareRow -> bool, a: ShareRow, b: ShareRow)
    requires ByPair(gone)
    ensures Of(a, b.doc, b.user) ==> gone(a) == gone(b)
  {
  }

  lemma GrantsOfLast(rows: seq<ShareRow>, last: ShareRow)
    ensures Grants(rows + [last]) == Grants(rows)[(last.doc, last.user) := last.edit]
  {
    assert (rows + [last])[..|rows|] == rows;
  }

  /** A condition on the pair alone removes exactly the rights of those pairs. */
  lemma WithoutGrants(rows: seq<ShareRow>, gone: ShareRow -> bool)
    requires ByPair(gone)
    ensures Grants(Without(rows, gone)) == map p | p in Grants(rows) && !gone(ShareRow(0, p.0, p.1, false)) :: Grants(rows)[p]
  {
    hide Grants, Without, ByPair;
    forall p: (DocId, UserId)
      ensures p in Grants(Without(rows, gone)) <==> p in Grants(rows) && !gone(ShareRow(0, p.0, p.1, false))
      ensures p in Grants(Without(rows, gone)) ==> Grants(Without(rows, gone))[p] == Grants(rows)[p]
    {
      WithoutGrant(rows, gone, ShareRow(0, p.0, p.1, false));
    }
  }

  function OfPair(d: DocId, u: UserId): ShareRow -> bool {
    (r: ShareRow) => Of(r, d, u)
  }

  function OfDocument(d: DocId): ShareRow -> bool {
    (r: ShareRow) => r.doc == d
  }

  lemma RemoveIsUnshare(rows: seq<ShareRow>, next: nat, t: Tables, d: DocId, u: UserId)
    requires Represents(rows, next, t.shares)
    ensures Represents(Without(rows, OfPair(d, u)), next, Unshare(t, d, u).shares)
  {
    hide Grants, Without, InOrder, OnePerPair;
    WithoutStaysTidy(rows, next, OfPair(d, u));
    WithoutGrants(rows, OfPair(d, u));
  }

  lemma RemoveIsDropShares(rows: seq<ShareRow>, next: nat, t: Tables, d: DocId)
    requires Represents(rows, next, t.shares)
    ensures Represents(Without(rows, OfDocument(d)), next, Delete(t, d).shares)
  {
    hide Grants, Without, InOrder, OnePerPair;
    WithoutStaysTidy(rows, next, OfDocument(d));
    WithoutGrants(rows, OfDocument(d));
  }

  // ---------- the rows through a run of requests ----------

  datatype ShareTable = ShareTable(rows: seq<ShareRow>, next: nat)

  /** The statement each action runs on the rows. */
  function Write(s: ShareTable, w: D.World, a: D.Action): ShareTable {
    if w.lock.Some? then s
    else match a
      case ShareCommit(r) =>
        var q := D.At(w, r);
        if q.ShareReady? && q.doc in w.rows.docs
        then ShareTable(Upsert(s.rows, s.next, q.doc, q.target, q.edit), s.next + 1) else s
      case UnshareCommit(r) =>
        var q := D.At(w, r);
        if q.UnshareReady? then s.(rows := Without(s.rows, OfPair(q.doc, q.target))) else s
      case DeleteCommit(r) =>
        var q := D.At(w, r);
        if q.DeleteReady? then s.(rows := Without(s.rows, OfDocument(q.doc))) else s
      case _ => s
  }

  function WriteAll(s: ShareTable, w: D.World, actions: seq<D.Action>): ShareTable
    decreases |actions|
  {
    if actions == [] then s else WriteAll(Write(s, w, actions[0]), D.Apply(w, actions[0]), actions[1..])
  }

  lemma OthersKeepShares(w: D.World, a: D.Action)
    requires !a.ShareCommit? && !a.UnshareCommit? && !a.DeleteCommit?
    ensures D.Apply(w, a).rows.shares == w.rows.shares
  {
    hide CanEdit, CanAccess, IsOwner, UploadFits, UpdateStatus, Edited, Owned, CommentsOn, Paths.Sealed;
  }

  lemma WriteRepresents(s: ShareTable, w: D.World, a: D.Action)
    requires Represents(s.rows, s.next, w.rows.shares)
    ensures var v := Write(s, w, a); Represents(v.rows, v.next, D.Apply(w, a).rows.shares)
  {
    hide Represents, Upsert, Without, Delete;
    if a.ShareCommit? {
      var q := D.At(w, a.r);
      if q.ShareReady? && q.doc in w.rows.docs {
        UpsertIsShare(s.rows, s.next, w.rows, q.doc, q.target, q.edit);
      }
    } else if a.UnshareCommit? {
      var q := D.At(w, a.r);
      if q.UnshareReady? {
        RemoveIsUnshare(s.rows, s.next, w.rows, q.doc, q.target);
      }
    } else if a.DeleteCommit? {
      var q := D.At(w, a.r);
      if q.DeleteReady? {
        RemoveIsDropShares(s.rows, s.next, w.rows, q.doc);
      }
    } else {
      OthersKeepShares(w, a);
    }
  }

  lemma {:induction false} RunRepresents(s: ShareTable, w: D.World, actions: seq<D.Action>)
    requires Represents(s.rows, s.next, w.rows.shares)
    ensures var v := WriteAll(s, w, actions); Represents(v.rows, v.next, D.Run(w, actions).rows.shares)
    decreases |actions|
  {
    hide Represents, Write, D.Apply;
    if actions != [] {
      WriteRepresents(s, w, actions[0]);
      RunRepresents(Write(s, w, actions[0]), D.Apply(w, actions[0]), actions[1..]);
    }
  }

  /**
   After any interleaving of requests the rows answer both queries as the model's rights do, and a restart leaves
   every row as it is.
   */
  lemma RestartKeepsShares(s: ShareTable, w: D.World, actions: seq<D.Action>, d: DocId, u: UserId)
    requires Represents(s.rows, s.next, w.rows.shares)
    ensures
      var v, t := WriteAll(s, w, actions), D.Run(w, actions).rows;
      && Clean(v.rows) == v.rows
      && (RowsAccess(t.docs, v.rows, d, u) <==> CanAccess(t, d, u))
      && (RowsEdit(t.docs, v.rows, d, u) <==> CanEdit(t, d, u))
  {
    RunRepresents(s, w, actions);
    var v := WriteAll(s, w, actions);
    UniqueIsLatest(v.rows);
    QueriesReadTheMap(D.Run(w, actions).rows, v.rows, v.next, d, u);
  }
}
