/**
 The connection helpers of db.py: `execute` commits after each statement unless a transaction is active, and
 `transaction` runs its body between BEGIN IMMEDIATE and commit, rolling back on any exception. A statement is a
 function of the database that may raise; `published` lists the committed states other connections have seen.
 */
module Transactions {
  import opened Outcomes
  import A = Accounts

  type Statement<!D> = D -> Option<D>

  /** The database after all statements, or None as soon as one raises. */
  function RunAll<D>(d: D, body: seq<Statement<D>>): Option<D>
    decreases |body|
  {
    if body == [] then Some(d)
    else match body[0](d)
      case Some(e) => RunAll(e, body[1..])
      case None => None
  }

  /** The states after each statement that did not raise: what a body leaves behind when nothing groups it. */
  function Prefixes<D>(d: D, body: seq<Statement<D>>): seq<D>
    decreases |body|
  {
    if body == [] then []
    else match body[0](d)
      case Some(e) => [e] + Prefixes(e, body[1..])
      case None => []
  }

  lemma {:induction false} RunAllAppend<D>(d: D, body: seq<Statement<D>>, s: Statement<D>)
    ensures RunAll(d, body + [s]) ==
      match RunAll(d, body)
      case Some(e) => s(e)
      case None => None
    decreases |body|
  {
    if body == [] {
      assert body + [s] == [s];
      assert [s][1..] == [];
    } else {
      assert (body + [s])[1..] == body[1..] + [s];
      match body[0](d)
      case Some(e) => RunAllAppend(e, body[1..], s);
      case None =>
    }
  }

  lemma {:induction false} PrefixesFit<D>(d: D, body: seq<Statement<D>>)
    ensures |Prefixes(d, body)| <= |body|
    ensures |Prefixes(d, body)| == |body| <==> RunAll(d, body).Some?
    decreases |body|
  {
    if body != [] && body[0](d).Some? {
      PrefixesFit(body[0](d).value, body[1..]);
    }
  }

  /** Each state an ungrouped body leaves behind is that of one of its beginnings, and all are there unless one raises. */
  lemma {:induction false} PrefixesAreBeginnings<D>(d: D, body: seq<Statement<D>>, i: nat)
    requires i < |Prefixes(d, body)|
    ensures |Prefixes(d, body)| <= |body| && RunAll(d, body[..i + 1]) == Some(Prefixes(d, body)[i])
    ensures |Prefixes(d, body)| == |body| <==> RunAll(d, body).Some?
    decreases |body|
  {
    PrefixesFit(d, body);
    var e := body[0](d).value;
    assert body[..i + 1][0] == body[0] && body[..i + 1][1..] == body[1..][..i];
    if i == 0 {
      assert RunAll(e, body[..1][1..]) == Some(e);
    } else {
      PrefixesAreBeginnings(e, body[1..], i - 1);
    }
  }

  lemma {:induction false} FailedPrefix<D>(d: D, body: seq<Statement<D>>, k: nat)
    requires k <= |body| && RunAll(d, body[..k]) == None
    ensures RunAll(d, body) == None
    decreases k
  {
    if k > 0 {
      assert body[..k][1..] == body[1..][..k - 1];
      match body[0](d)
      case Some(e) => FailedPrefix(e, body[1..], k - 1);
      case None =>
    }
  }

  class Connection<!D> {
    var committed: D             // the database file
    var working: D               // this connection's view of it
    var transactionActive: bool  // g.transaction_active
    var begun: bool              // a transaction is open, explicit or the driver's implicit one
    ghost var published: seq<D>

    ghost predicate Valid()
      reads this
    {
      && (transactionActive ==> begun)
      && (!transactionActive ==> working == committed)
      && published != [] && published[|published| - 1] == committed
    }

    constructor (d: D)
      ensures Valid() && !begun && committed == d && published == [d]
    {
      committed := d;
      working := d;
      transactionActive := false;
      begun := false;
      published := [d];
    }

    method Commit()
      modifies this
      ensures committed == working == old(working) && !begun
      ensures published == old(published) + [committed] && transactionActive == old(transactionActive)
    {
      committed := working;
      begun := false;
      published := published + [committed];
    }

    /**
     The driver opens a transaction before a write that finds none. Outside transaction() a write that succeeds is
     committed at once; one that raises changes nothing and leaves the driver's transaction open.
     */
    method Execute(s: Statement<D>) returns (ok: bool)
      requires Valid()
      modifies this
      ensures Valid() && transactionActive == old(transactionActive)
      ensures ok <==> s(old(working)).Some?
      ensures working == if ok then s(old(working)).value else old(working)
      ensures begun <==> transactionActive || !ok
      ensures transactionActive || !ok ==> committed == old(committed) && published == old(published)
      ensures !transactionActive && ok ==> published == old(published) + [committed]
    {
      begun := true;
      var result := s(working);
      if result == None {
        return false;
      }
      working := result.value;
      if !transactionActive {
        Commit();
      }
      ok := true;
    }

    /**
     `with transaction():` around a body. Whatever raises, in the body or in the commit, other connections see the
     whole body or nothing of it, and the connection is back in autocommit. BEGIN itself raises when a transaction
     is open, and then nothing changes.
     */
    method Transaction(body: seq<Statement<D>>, commitSucceeds: bool) returns (ok: bool)
      requires Valid()
      modifies this
      ensures Valid()
      ensures ok <==> !old(begun) && commitSucceeds && RunAll(old(committed), body).Some?
      ensures ok ==> RunAll(old(committed), body) == Some(committed)
      ensures published == if ok then old(published) + [committed] else old(published)
      ensures !ok ==> committed == old(committed)
      ensures !old(begun) ==> !begun && !transactionActive
      ensures old(begun) ==> begun && working == old(working) && transactionActive == old(transactionActive)
    {
      if begun {
        return false;
      }
      begun := true;
      transactionActive := true;
      var i := 0;
      ok := true;
      while i < |body| && ok
        invariant 0 <= i <= |body|
        invariant Valid() && begun && transactionActive
        invariant committed == old(committed) && published == old(published)
        invariant ok ==> RunAll(old(committed), body[..i]) == Some(working)
        invariant !ok ==> RunAll(old(committed), body) == None
        decreases |body| - i, ok
      {
        RunAllAppend(old(committed), body[..i], body[i]);
        assert body[..i + 1] == body[..i] + [body[i]];
        ok := Execute(body[i]);
        if ok {
          i := i + 1;
        } else {
          FailedPrefix(old(committed), body, i + 1);
        }
      }
      assert ok ==> body[..i] == body;
      if ok && commitSucceeds {
        Commit();
      } else {
        ok := false;
        working := committed;
        begun := false;
      }
      transactionActive := false;
    }

    /** The same statements without the transaction: every intermediate state becomes visible. */
    method ExecuteEach(body: seq<Statement<D>>) returns (ok: bool)
      requires Valid() && !transactionActive
      modifies this
      ensures Valid() && !transactionActive
      ensures ok <==> RunAll(old(committed), body).Some?
      ensures body != [] ==> (begun <==> !ok)
      ensures published == old(published) + Prefixes(old(committed), body)
    {
      var i := 0;
      ok := true;
      while i < |body| && ok
        invariant 0 <= i <= |body|
        invariant Valid() && !transactionActive
        invariant i == 0 && ok ==> begun == old(begun)
        invariant i > 0 || !ok ==> (begun <==> !ok)
        invariant ok ==> RunAll(committed, body[i..]) == RunAll(old(committed), body)
        invariant !ok ==> RunAll(old(committed), body) == None
        invariant ok ==> published + Prefixes(committed, body[i..]) == old(published) + Prefixes(old(committed), body)
        invariant !ok ==> published == old(published) + Prefixes(old(committed), body)
        decreases |body| - i, ok
      {
        assert body[i..][0] == body[i] && body[i..][1..] == body[i + 1..];
        ok := Execute(body[i]);
        if ok {
          i := i + 1;
        }
      }
    }
  }

  // ---------- _set_password as two statements ----------

  function SetPasswordBody(id: A.UserId, hash: A.Hash): seq<Statement<A.Tables>> {
    [(t: A.Tables) => Some(A.UpdatePassword(t, id, hash)), (t: A.Tables) => Some(A.UseResets(t, id))]
  }

  /** Grouped, the two statements are the password commit of the session protocol. */
  lemma SetPasswordIsOneCommit(t: A.Tables, id: A.UserId, hash: A.Hash)
    ensures RunAll(t, SetPasswordBody(id, hash)) == Some(A.SetPassword(t, id, hash))
  {
    var body := SetPasswordBody(id, hash);
    assert body[1..][0] == body[1] && body[1..][1..] == [];
    assert RunAll(A.UpdatePassword(t, id, hash), body[1..]) == RunAll(A.SetPassword(t, id, hash), []);
  }

  /**
   Ungrouped, exactly when the user still has a usable reset token, the state between the two statements lets that
   token set the password again although the password has just been changed.
   */
  lemma UngroupedLeavesResetUsable(t: A.Tables, id: A.UserId, hash: A.Hash, digest: string, now: A.Instant)
    requires digest in t.resets && t.resets[digest].user == id
    ensures
      var seen := Prefixes(t, SetPasswordBody(id, hash));
      && |seen| == 2
      && seen[1] == A.SetPassword(t, id, hash)
      && (A.ResetUsable(seen[0], digest, now) <==> A.ResetUsable(t, digest, now))
      && !A.ResetUsable(seen[1], digest, now)
  {
    var body := SetPasswordBody(id, hash);
    var u := A.UpdatePassword(t, id, hash);
    assert body[1..][0] == body[1] && body[1..][1..] == [];
    assert Prefixes(A.UseResets(u, id), []) == [];
    assert Prefixes(u, body[1..]) == [A.UseResets(u, id)];
    assert Prefixes(t, body) == [u] + Prefixes(u, body[1..]);
  }
}
