/** The SQLite connection and the multi-statement operations of db.cpp, with a fault
    chosen for every statement. */
module Database {
  import opened Wrappers
  import opened Tables

  // What may happen to a statement besides succeeding or breaking a constraint: SQLite
  // refuses it, or fails and rolls the whole transaction back by itself.
  datatype Fault = NoFault | Refused | Aborted

  // The fault of the k-th statement of an operation, BEGIN being statement 0.
  type Faults = seq<Fault>

  function FaultAt(f: Faults, k: nat): Fault {
    if k < |f| then f[k] else NoFault
  }

  ghost predicate NoFaults(f: Faults, from: nat, to: nat) {
    forall k :: from <= k < to ==> FaultAt(f, k) == NoFault
  }

  datatype Conn = Conn(committed: Tables, working: Tables, inTx: bool)
  {
    predicate Clean() {
      !inTx && working == committed
    }

    function Abort(): Conn {
      Conn(committed, committed, false)
    }
  }

  // -------------------------------------------------------------------------
  // One statement
  // -------------------------------------------------------------------------

  datatype Reply = Reply(conn: Conn, ok: bool, value: int)

  function Begin(c: Conn, f: Fault): Reply {
    if c.inTx || f != NoFault then Reply(c, false, 0)
    else Reply(c.(inTx := true), true, 0)
  }

  function Execute(c: Conn, s: Stmt, f: Fault): Reply {
    if f == Refused then Reply(c, false, 0)
    else if f == Aborted then Reply(c.Abort(), false, 0)
    else
      match Exec(c.working, s)
      case None => Reply(c, false, 0)
      case Some(r) =>
        Reply(c.(working := r.tables, committed := if c.inTx then c.committed else r.tables), true, r.value)
  }

  function End(c: Conn, f: Fault): Reply {
    if !c.inTx || f == Refused then Reply(c, false, 0)
    else if f == Aborted then Reply(c.Abort(), false, 0)
    else Reply(Conn(c.working, c.working, false), true, 0)
  }

  function Rollback(c: Conn, f: Fault): Reply {
    if !c.inTx || f == Refused then Reply(c, false, 0)
    else Reply(c.Abort(), f == NoFault, 0)
  }

  // -------------------------------------------------------------------------
  // The skeleton every operation follows: BEGIN, statements in order up to the first
  // failure, END, or else ROLLBACK
  // -------------------------------------------------------------------------

  function RunStmts(c: Conn, stmts: seq<Stmt>, i: nat, f: Faults): Reply
    requires i <= |stmts|
    decreases |stmts| - i
  {
    if i == |stmts| then End(c, FaultAt(f, i + 1))
    else
      var r := Execute(c, stmts[i], FaultAt(f, i + 1));
      if !r.ok then r else RunStmts(r.conn, stmts, i + 1, f)
  }

  function Then(r: Reply, next: Reply): Reply {
    if r.ok then next else r
  }

  lemma RunTwo(c: Conn, a: Stmt, b: Stmt, f: Faults)
    ensures RunStmts(c, [a, b], 0, f) ==
            (var r := Execute(c, a, FaultAt(f, 1));
             var q := Execute(r.conn, b, FaultAt(f, 2));
             Then(r, Then(q, End(q.conn, FaultAt(f, 3)))))
  {
    hide Execute, End;
    var r := Execute(c, a, FaultAt(f, 1));
    if r.ok {
      var q := Execute(r.conn, b, FaultAt(f, 2));
      if q.ok {
        assert RunStmts(q.conn, [a, b], 2, f) == End(q.conn, FaultAt(f, 3));
      }
      assert RunStmts(r.conn, [a, b], 1, f) == Then(q, End(q.conn, FaultAt(f, 3)));
    }
  }

  lemma RunThree(c: Conn, a: Stmt, b: Stmt, d: Stmt, f: Faults)
    ensures RunStmts(c, [a, b, d], 0, f) ==
            (var r := Execute(c, a, FaultAt(f, 1));
             var q := Execute(r.conn, b, FaultAt(f, 2));
             var p := Execute(q.conn, d, FaultAt(f, 3));
             Then(r, Then(q, Then(p, End(p.conn, FaultAt(f, 4))))))
  {
    hide Execute, End;
    var stmts := [a, b, d];
    var r := Execute(c, a, FaultAt(f, 1));
    if r.ok {
      var q := Execute(r.conn, b, FaultAt(f, 2));
      if q.ok {
        var p := Execute(q.conn, d, FaultAt(f, 3));
        if p.ok {
          assert RunStmts(p.conn, stmts, 3, f) == End(p.conn, FaultAt(f, 4));
        }
        assert RunStmts(q.conn, stmts, 2, f) == Then(p, End(p.conn, FaultAt(f, 4)));
      }
      assert RunStmts(r.conn, stmts, 1, f) == Then(q, RunStmts(q.conn, stmts, 2, f));
    }
  }

  datatype Outcome = Outcome(conn: Conn, rc: int)

  function Transaction(c: Conn, stmts: seq<Stmt>, f: Faults): Outcome {
    var b := Begin(c, FaultAt(f, 0));
    if !b.ok then Outcome(c, -1)
    else
      var r := RunStmts(b.conn, stmts, 0, f);
      if r.ok then Outcome(r.conn, 0)
      else Outcome(Rollback(r.conn, FaultAt(f, |stmts| + 2)).conn, -1)
  }

  // ROLLBACK itself was refused while the transaction was still open.
  ghost predicate RollbackRefused(c: Conn, stmts: seq<Stmt>, f: Faults) {
    && FaultAt(f, 0) == NoFault && !c.inTx
    && FaultAt(f, |stmts| + 2) == Refused
    && var r := RunStmts(c.(inTx := true), stmts, 0, f); !r.ok && r.conn.inTx
  }

  lemma {:induction false} RunStmtsEffect(c: Conn, stmts: seq<Stmt>, i: nat, f: Faults)
    requires i <= |stmts| && c.inTx
    ensures var r := RunStmts(c, stmts, i, f);
            && (r.ok <==> ApplyAll(c.working, stmts[i..]).Some? && NoFaults(f, i + 1, |stmts| + 2))
            && (r.ok ==> var t := ApplyAll(c.working, stmts[i..]).value; r.conn == Conn(t, t, false))
            && (!r.ok ==> r.conn.committed == c.committed && (r.conn.inTx || r.conn.Clean()))
    decreases |stmts| - i
  {
    if i == |stmts| {
      assert stmts[i..] == [];
    } else {
      assert stmts[i..][0] == stmts[i] && stmts[i..][1..] == stmts[i + 1..];
      var r := Execute(c, stmts[i], FaultAt(f, i + 1));
      assert NoFaults(f, i + 1, |stmts| + 2) <==> FaultAt(f, i + 1) == NoFault && NoFaults(f, i + 2, |stmts| + 2);
      if r.ok {
        RunStmtsEffect(r.conn, stmts, i + 1, f);
      }
    }
  }

  // All or nothing, for every statement list and every fault pattern: success stores the
  // whole effect and happens exactly when no statement faults or breaks a constraint;
  // failure never changes what is stored, and leaves the connection as it was unless
  // ROLLBACK itself is refused.
  lemma AllOrNothing(c: Conn, stmts: seq<Stmt>, f: Faults)
    requires c.Clean()
    ensures var o := Transaction(c, stmts, f);
            && (o.rc == 0 || o.rc == -1)
            && (o.rc == 0 <==> ApplyAll(c.committed, stmts).Some? && NoFaults(f, 0, |stmts| + 2))
            && (o.rc == 0 ==> var t := ApplyAll(c.committed, stmts).value; o.conn == Conn(t, t, false))
            && (o.rc == -1 ==> o.conn.committed == c.committed)
            && (o.rc == -1 ==> (o.conn == c <==> !RollbackRefused(c, stmts, f)))
            && (RollbackRefused(c, stmts, f) ==> o.rc == -1 && o.conn.inTx)
  {
    var b := c.(inTx := true);
    RunStmtsEffect(b, stmts, 0, f);
    assert stmts[0..] == stmts;
    assert NoFaults(f, 0, |stmts| + 2) <==> FaultAt(f, 0) == NoFault && NoFaults(f, 1, |stmts| + 2);
  }

  // A piece of work for the connection: an operation, or a single statement outside one.
  datatype Work = Operation(stmts: seq<Stmt>, faults: Faults) | Single(stmt: Stmt, fault: Fault)

  function Perform(c: Conn, w: Work): Outcome {
    match w
    case Operation(stmts, faults) => Transaction(c, stmts, faults)
    case Single(stmt, fault) => var r := Execute(c, stmt, fault); Outcome(r.conn, if r.ok then 0 else -1)
  }

  function PerformAll(c: Conn, ws: seq<Work>): Conn
    decreases |ws|
  {
    if ws == [] then c else PerformAll(Perform(c, ws[0]).conn, ws[1..])
  }

  // On a transaction left open every operation fails and changes nothing, for BEGIN is
  // refused. Single statements still succeed, on working tables that are not stored. Only
  // one that fails with an automatic rollback ends it, and then all of that is lost.
  lemma OpenTransactionSticks(c: Conn, w: Work)
    requires c.inTx
    ensures var o := Perform(c, w);
            && (w.Operation? ==> o == Outcome(c, -1))
            && (w.Single? ==> (o.rc == 0 <==> w.fault == NoFault && Exec(c.working, w.stmt).Some?))
            && (o.conn.inTx <==> !(w.Single? && w.fault == Aborted))
            && (o.conn.inTx ==> o.conn.committed == c.committed)
            && (!o.conn.inTx ==> o.conn == Conn(c.committed, c.committed, false))
  {
  }

  // So until then nothing is stored, however much work is done.
  lemma {:induction false} NothingStoredWhileOpen(c: Conn, ws: seq<Work>)
    requires c.inTx && forall i :: 0 <= i < |ws| ==> !(ws[i].Single? && ws[i].fault == Aborted)
    ensures PerformAll(c, ws).inTx && PerformAll(c, ws).committed == c.committed
    decreases |ws|
  {
    if ws != [] {
      OpenTransactionSticks(c, ws[0]);
      NothingStoredWhileOpen(Perform(c, ws[0]).conn, ws[1..]);
    }
  }

  // The faults that leave a transaction open exist: a refused INSERT and ROLLBACK.
  lemma RollbackCanBeRefused(t: Tables, x: Sub)
    ensures var f := [NoFault, NoFault, Refused, NoFault, Refused];
            var o := Transaction(Conn(t, t, false), AddSubStmts(x), f);
            x !in t.subs ==> o.rc == -1 && o.conn.inTx && o.conn.working.subs == t.subs + {x}
  {
    var f := [NoFault, NoFault, Refused, NoFault, Refused];
    var c := Conn(t, t, true);
    if x !in t.subs {
      var r := Execute(c, InsertSub(x), NoFault);
      assert RunStmts(c, AddSubStmts(x), 0, f) == RunStmts(r.conn, AddSubStmts(x), 1, f);
    }
  }

  // -------------------------------------------------------------------------
  // The operations
  // -------------------------------------------------------------------------

  lemma SelectLikesReads(c: Conn, s: Subject, f: Fault)
    ensures var r := Execute(c, SelectLikes(s), f);
            r.ok ==> r.conn.working == c.working && HasSubject(c.working, s) && r.value == StoredLikes(c.working, s)
  {
  }

  class Db {
    var conn: Conn

    constructor (stored: Tables)
      ensures conn == Conn(stored, stored, false)
    {
      conn := Conn(stored, stored, false);
    }

    method BeginTx(f: Fault) returns (ok: bool)
      modifies this`conn
      ensures (var r := Begin(old(conn), f); conn == r.conn && ok == r.ok)
    {
      ok := !conn.inTx && f == NoFault;
      if ok {
        conn := conn.(inTx := true);
      }
    }

    method Do(s: Stmt, f: Fault) returns (ok: bool, value: int)
      modifies this`conn
      ensures (var r := Execute(old(conn), s, f); conn == r.conn && ok == r.ok && value == r.value)
    {
      var r := Execute(conn, s, f);
      conn := r.conn;
      ok, value := r.ok, r.value;
    }

    method EndTx(f: Fault) returns (ok: bool)
      modifies this`conn
      ensures (var r := End(old(conn), f); conn == r.conn && ok == r.ok)
    {
      var r := End(conn, f);
      conn := r.conn;
      ok := r.ok;
    }

    method RollbackTx(f: Fault)
      modifies this`conn
      ensures conn == Rollback(old(conn), f).conn
    {
      conn := Rollback(conn, f).conn;
    }

    // db_add_post
    method AddPost(key: PostKey, f: Faults) returns (rc: int)
      modifies this`conn
      ensures Outcome(conn, rc) == Transaction(old(conn), AddPostStmts(key), f)
    {
      rc := -1;
      var ok := BeginTx(FaultAt(f, 0));
      if !ok {
        return;
      }
      RunTwo(conn, InsertPost(key), BumpNextPost(key.chan), f);
      var value;
      label tx: {
        ok, value := Do(InsertPost(key), FaultAt(f, 1));
        if !ok {
          break tx;
        }
        ok, value := Do(BumpNextPost(key.chan), FaultAt(f, 2));
        if !ok {
          break tx;
        }
        ok := EndTx(FaultAt(f, 3));
        if !ok {
          break tx;
        }
        return 0;
      }
      RollbackTx(FaultAt(f, 4));
    }

    // db_add_cmt: also reports the id of the new comment
    method AddCmt(key: PostKey, uid: nat, f: Faults) returns (rc: int, id: int)
      modifies this`conn
      ensures Outcome(conn, rc) == Transaction(old(conn), AddCmtStmts(key, uid), f)
      ensures rc == 0 ==> key in conn.working.posts && id == conn.working.posts[key].nextCmtId - 1
    {
      id := 0;
      rc := -1;
      var ok := BeginTx(FaultAt(f, 0));
      if !ok {
        return;
      }
      RunThree(conn, InsertCmt(key, uid), BumpNextCmt(key), SelectLastCmt(key), f);
      var value;
      label tx: {
        ok, value := Do(InsertCmt(key, uid), FaultAt(f, 1));
        if !ok {
          break tx;
        }
        ok, value := Do(BumpNextCmt(key), FaultAt(f, 2));
        if !ok {
          break tx;
        }
        ok, value := Do(SelectLastCmt(key), FaultAt(f, 3));
        if !ok {
          break tx;
        }
        id := value;
        ok := EndTx(FaultAt(f, 4));
        if !ok {
          break tx;
        }
        return 0, id;
      }
      RollbackTx(FaultAt(f, 5));
    }

    // db_add_like: also reports the new total
    method AddLike(l: Like, f: Faults) returns (rc: int, likes: int)
      modifies this`conn
      ensures Outcome(conn, rc) == Transaction(old(conn), AddLikeStmts(l), f)
      ensures rc == 0 ==> HasSubject(conn.working, l.subject) && likes == StoredLikes(conn.working, l.subject)
    {
      hide Exec;
      likes := 0;
      rc := -1;
      var ok := BeginTx(FaultAt(f, 0));
      if !ok {
        return;
      }
      RunThree(conn, AddLikes(l.subject, 1), InsertLike(l), SelectLikes(l.subject), f);
      var value;
      label tx: {
        ok, value := Do(AddLikes(l.subject, 1), FaultAt(f, 1));
        if !ok {
          break tx;
        }
        ok, value := Do(InsertLike(l), FaultAt(f, 2));
        if !ok {
          break tx;
        }
        ghost var reading := conn;
        ok, value := Do(SelectLikes(l.subject), FaultAt(f, 3));
        if !ok {
          break tx;
        }
        SelectLikesReads(reading, l.subject, FaultAt(f, 3));
        likes := value;
        ok := EndTx(FaultAt(f, 4));
        if !ok {
          break tx;
        }
        return 0, likes;
      }
      RollbackTx(FaultAt(f, 5));
    }

    // db_rm_like
    method RmLike(l: Like, f: Faults) returns (rc: int)
      modifies this`conn
      ensures Outcome(conn, rc) == Transaction(old(conn), RmLikeStmts(l), f)
    {
      rc := -1;
      var ok := BeginTx(FaultAt(f, 0));
      if !ok {
        return;
      }
      RunTwo(conn, AddLikes(l.subject, -1), DeleteLike(l), f);
      var value;
      label tx: {
        ok, value := Do(AddLikes(l.subject, -1), FaultAt(f, 1));
        if !ok {
          break tx;
        }
        ok, value := Do(DeleteLike(l), FaultAt(f, 2));
        if !ok {
          break tx;
        }
        ok := EndTx(FaultAt(f, 3));
        if !ok {
          break tx;
        }
        return 0;
      }
      RollbackTx(FaultAt(f, 4));
    }

    // db_add_sub
    method AddSub(x: Sub, f: Faults) returns (rc: int)
      modifies this`conn
      ensures Outcome(conn, rc) == Transaction(old(conn), AddSubStmts(x), f)
    {
      rc := -1;
      var ok := BeginTx(FaultAt(f, 0));
      if !ok {
        return;
      }
      RunTwo(conn, InsertSub(x), AddSubscribers(x.chan, 1), f);
      var value;
      label tx: {
        ok, value := Do(InsertSub(x), FaultAt(f, 1));
        if !ok {
          break tx;
        }
        ok, value := Do(AddSubscribers(x.chan, 1), FaultAt(f, 2));
        if !ok {
          break tx;
        }
        ok := EndTx(FaultAt(f, 3));
        if !ok {
          break tx;
        }
        return 0;
      }
      RollbackTx(FaultAt(f, 4));
    }

    // db_unsub
    method Unsub(x: Sub, f: Faults) returns (rc: int)
      modifies this`conn
      ensures Outcome(conn, rc) == Transaction(old(conn), UnsubStmts(x), f)
    {
      rc := -1;
      var ok := BeginTx(FaultAt(f, 0));
      if !ok {
        return;
      }
      RunTwo(conn, DeleteSub(x), AddSubscribers(x.chan, -1), f);
      var value;
      label tx: {
        ok, value := Do(DeleteSub(x), FaultAt(f, 1));
        if !ok {
          break tx;
        }
        ok, value := Do(AddSubscribers(x.chan, -1), FaultAt(f, 2));
        if !ok {
          break tx;
        }
        ok := EndTx(FaultAt(f, 3));
        if !ok {
          break tx;
        }
        return 0;
      }
      RollbackTx(FaultAt(f, 4));
    }

    // db_create_chan and db_upd_chan are single statements.
    method CreateChan(name: string, text: string, f: Fault) returns (rc: int)
      modifies this`conn
      ensures var r := Execute(old(conn), InsertChan(name, text), f);
              conn == r.conn && rc == if r.ok then 0 else -1
    {
      var ok, _ := Do(InsertChan(name, text), f);
      rc := if ok then 0 else -1;
    }

    method UpdChan(chan: nat, name: string, text: string, f: Fault) returns (rc: int)
      modifies this`conn
      ensures var r := Execute(old(conn), UpdateChan(chan, name, text), f);
              conn == r.conn && rc == if r.ok then 0 else -1
    {
      var ok, _ := Do(UpdateChan(chan, name, text), f);
      rc := if ok then 0 else -1;
    }
  }
}
