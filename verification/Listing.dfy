/**
 Listing, searching and paging of documents.py and validation.py on one snapshot of the tables. `like` stands for
 SQLite's LIKE with the keyword; numbers arrive as the result of parsing the query string, None when int() raises.
 */
module Listing {
  import opened Outcomes
  import opened Library
  import DocumentRequests
  import RightsSafety

  const MAX_LIMIT := 100
  const MAX_OFFSET := 100000

  /** SELECT document_id FROM shares WHERE user_id = u. */
  function SharedWith(t: Tables, u: UserId): set<DocId> {
    set p | p in t.shares && p.1 == u :: p.0
  }

  predicate Selected(t: Tables, d: DocId, u: UserId, like: string -> bool) {
    && d in t.docs && like(t.docs[d].title)
    && (t.docs[d].owner == u || t.docs[d].visibility == "public" || d in SharedWith(t, u))
  }

  /** The selected ids below n in the order asked for. */
  function Rows(t: Tables, n: nat, u: UserId, like: string -> bool, descending: bool): seq<DocId> {
    if n == 0 then []
    else
      var rest, here := Rows(t, n - 1, u, like, descending), if Selected(t, n - 1, u, like) then [n - 1] else [];
      if descending then here + rest else rest + here
  }

  function Listed(t: Tables, u: UserId): seq<DocId> {
    Rows(t, t.nextDoc, u, (title: string) => true, true)
  }

  function Found(t: Tables, u: UserId, like: string -> bool): seq<DocId> {
    Rows(t, t.nextDoc, u, like, false)
  }

  /** LIMIT and OFFSET. */
  function Page<T>(rows: seq<T>, limit: nat, offset: nat): seq<T> {
    if offset >= |rows| then []
    else if offset + limit > |rows| then rows[offset..]
    else rows[offset..offset + limit]
  }

  datatype Window = Window(limit: nat, offset: nat)

  function Pagination(limit: Option<int>, offset: Option<int>): Option<Window> {
    if limit.None? || offset.None? then None
    else if !(1 <= limit.value <= MAX_LIMIT) || !(0 <= offset.value <= MAX_OFFSET) then None
    else Some(Window(limit.value, offset.value))
  }

  /** The answer of list_documents to a user who is logged in; None is a bad request. */
  function ListDocuments(t: Tables, u: UserId, limit: Option<int>, offset: Option<int>): Option<seq<DocId>> {
    var w := Pagination(limit, offset);
    if w.None? then None else Some(Page(Listed(t, u), w.value.limit, w.value.offset))
  }

  /** Which windows are served: one to a hundred rows, from row 0 to row 100000. */
  lemma PaginationIff(limit: Option<int>, offset: Option<int>)
    ensures Pagination(limit, offset).Some? <==>
      limit.Some? && offset.Some? && 1 <= limit.value <= 100 && 0 <= offset.value <= 100000
    ensures Pagination(limit, offset).Some? ==> Pagination(limit, offset) == Some(Window(limit.value, offset.value))
  {
  }

  // ---------- what is listed ----------

  lemma SelectedIsAccess(t: Tables, d: DocId, u: UserId, like: string -> bool)
    ensures Selected(t, d, u, like) <==> CanAccess(t, d, u) && like(t.docs[d].title)
  {
    assert (d, u) in t.shares ==> (d, u).0 in SharedWith(t, u);
  }

  lemma {:induction false} RowsExact(t: Tables, n: nat, u: UserId, like: string -> bool, descending: bool)
    ensures forall d: DocId :: d in Rows(t, n, u, like, descending) <==> d < n && Selected(t, d, u, like)
    ensures forall i, j :: 0 <= i < j < |Rows(t, n, u, like, descending)| ==>
      if descending then Rows(t, n, u, like, descending)[i] > Rows(t, n, u, like, descending)[j]
      else Rows(t, n, u, like, descending)[i] < Rows(t, n, u, like, descending)[j]
  {
    hide Selected;
    if n > 0 {
      RowsExact(t, n - 1, u, like, descending);
      var rest := Rows(t, n - 1, u, like, descending);
      assert forall i :: 0 <= i < |rest| ==> rest[i] in rest && rest[i] < n - 1;
    }
  }

  /**
   The list holds exactly the documents can_access allows, newest first; a search holds those of them whose title
   matches, oldest first. Neither repeats a document.
   */
  lemma ListsExactlyWhatIsAccessible(t: Tables, u: UserId, like: string -> bool)
    requires DocumentRequests.SchemaOk(t)
    ensures forall d :: d in Listed(t, u) <==> CanAccess(t, d, u)
    ensures forall d :: d in Found(t, u, like) <==> CanAccess(t, d, u) && like(t.docs[d].title)
    ensures forall i, j :: 0 <= i < j < |Listed(t, u)| ==> Listed(t, u)[i] > Listed(t, u)[j]
    ensures forall i, j :: 0 <= i < j < |Found(t, u, like)| ==> Found(t, u, like)[i] < Found(t, u, like)[j]
  {
    hide Rows, Selected;
    var any := (title: string) => true;
    RowsExact(t, t.nextDoc, u, any, true);
    RowsExact(t, t.nextDoc, u, like, false);
    forall d: DocId
      ensures Selected(t, d, u, any) <==> CanAccess(t, d, u)
      ensures Selected(t, d, u, like) <==> CanAccess(t, d, u) && like(t.docs[d].title)
      ensures CanAccess(t, d, u) ==> d < t.nextDoc
    {
      SelectedIsAccess(t, d, u, any);
      SelectedIsAccess(t, d, u, like);
      AccessNeedsDocument(t, d, u);
    }
  }

  lemma AccessNeedsDocument(t: Tables, d: DocId, u: UserId)
    ensures CanAccess(t, d, u) ==> d in t.docs
  {
  }

  /** So after any run a document is listed for a user exactly when its owner's actions let that user read it. */
  lemma ListingFollowsOwners(w0: DocumentRequests.World, w: DocumentRequests.World, d: DocId, u: UserId, base: RightsSafety.Rights)
    requires DocumentRequests.Reachable(w0, w) && RightsSafety.Matches(w0.rows, d, base)
    ensures d in Listed(w.rows, u) <==> RightsSafety.MayRead(RightsSafety.Replay(base, w.log, d), u)
  {
    hide DocumentRequests.Reachable, RightsSafety.Matches, Listed, DocumentRequests.SchemaOk;
    RightsSafety.RightsAreOwnersReplay(w0, w, d, base, u);
    RightsSafety.ReachableInv(w0, w);
    ListsExactlyWhatIsAccessible(w.rows, u, (title: string) => true);
  }

  // ---------- pages ----------

  /** The pages at 0, limit, 2 * limit, ..., k of them. */
  function Pages<T>(rows: seq<T>, limit: nat, k: nat): seq<T> {
    if k == 0 then [] else Pages(rows, limit, k - 1) + Page(rows, limit, (k - 1) * limit)
  }

  lemma {:induction false} PagesAreAPrefix<T>(rows: seq<T>, limit: nat, k: nat)
    ensures Pages(rows, limit, k) == rows[..if k * limit < |rows| then k * limit else |rows|]
  {
    if k > 0 {
      PagesAreAPrefix(rows, limit, k - 1);
      assert k * limit == (k - 1) * limit + limit;
    }
  }

  /** How many aligned pages the offset cap lets a client ask for. */
  function MostPages(limit: nat): nat
    requires limit > 0
  {
    MAX_OFFSET / limit + 1
  }

  lemma PageIsServed(t: Tables, u: UserId, limit: nat, k: nat)
    requires 1 <= limit <= MAX_LIMIT
    ensures ListDocuments(t, u, Some(limit), Some(k * limit)).Some? <==> k < MostPages(limit)
    ensures k < MostPages(limit) ==>
      ListDocuments(t, u, Some(limit), Some(k * limit)) == Some(Page(Listed(t, u), limit, k * limit))
  {
    CapByDivision(k, limit);
  }

  lemma CapByDivision(k: nat, limit: nat)
    requires limit > 0
    ensures k * limit <= MAX_OFFSET <==> k <= MAX_OFFSET / limit
  {
    var q := MAX_OFFSET / limit;
    assert q * limit <= MAX_OFFSET < q * limit + limit;
    if k <= q {
      assert k * limit <= q * limit;
    } else {
      assert k * limit >= (q + 1) * limit;
    }
  }

  /**
   Asking for page after page until the server refuses yields any list of rows in order, with no gap and no repeat,
   as far as the cap reaches; the whole list exactly when it is no longer than the cap allows.
   */
  lemma PagesCover<T>(rows: seq<T>, limit: nat)
    requires 1 <= limit <= MAX_LIMIT
    ensures Pages(rows, limit, MostPages(limit)) <= rows
    ensures Pages(rows, limit, MostPages(limit)) == rows <==> |rows| <= MostPages(limit) * limit
  {
    hide Pages, MostPages;
    var k := MostPages(limit);
    PagesAreAPrefix(rows, limit, k);
    PrefixIsAll(rows, Pages(rows, limit, k), k * limit);
  }

  lemma PrefixIsAll<T>(rows: seq<T>, part: seq<T>, n: nat)
    requires part == rows[..if n < |rows| then n else |rows|]
    ensures part <= rows
    ensures part == rows <==> |rows| <= n
  {
    if n < |rows| {
      assert |part| < |rows|;
    }
  }
}
