/** The schema migration of db_init (db.cpp): every registered table is created, brought to
    its newest columns through a backup table, or left alone, in one transaction. */
module Migration {
  import opened Wrappers

  datatype TableId =
    | Channels | Posts | Comments | Users | Subscriptions | Likes | ReportedComments | Tipping | Notification

  datatype TableName = Newest(id: TableId) | Backup(id: TableId)

  datatype IndexName = CreatedAtIndex(id: TableId) | UpdatedAtIndex(id: TableId)

  datatype Column =
    | ChannelId | PostId | CommentId | RefcommentId | UserId | CreatedAt | UpdatedAt | CreateAt | UpdateAt
    | Name | Intro | NextPostId | NextCommentId | Subscribers | LikeCount | Status | Iid | TipMethods | HashId
    | Proof | OriginPostUrl | Memo | Avatar | Thumbnails | Content | DidColumn | Email | DisplayName
    | ReporterId | Reasons | Id | TokenMount | TokenSymbol | UserDid | UserName | NotificationId | ActionType

  datatype Value = Num(n: int) | Str(s: string) | Blob(b: seq<int>)

  datatype Table = Table(cols: seq<Column>, rows: seq<seq<Value>>)

  datatype Schema = Schema(tables: map<TableName, Table>, indexes: set<IndexName>)

  // One item of the SELECT list that fills a new table from its backup.
  datatype Expr = Col(c: Column) | Const(v: Value)

  // A registered table: its column count and columns, whether it has a statement that
  // makes a backup, the SELECT list, and whether it has indexes.
  datatype Op = Op(id: TableId, itemNum: nat, cols: seq<Column>, backup: bool, retrieve: seq<Expr>, indexed: bool)

  // -------------------------------------------------------------------------
  // Statements
  // -------------------------------------------------------------------------

  datatype Sql =
    | MakeBackup(id: TableId)
    | NullStatement
    | DropIndex(index: IndexName)
    | CreateTable(id: TableId, cols: seq<Column>)
    | CreateIndex(index: IndexName)
    | Retrieve(id: TableId, exprs: seq<Expr>)

  function IndexOf(cols: seq<Column>, c: Column): (j: nat)
    requires c in cols
    ensures j < |cols| && cols[j] == c && forall k :: 0 <= k < j ==> cols[k] != c
  {
    if cols[0] == c then 0 else 1 + IndexOf(cols[1..], c)
  }

  predicate Selectable(exprs: seq<Expr>, cols: seq<Column>) {
    forall j :: 0 <= j < |exprs| && exprs[j].Col? ==> exprs[j].c in cols
  }

  function Eval(e: Expr, cols: seq<Column>, row: seq<Value>): Value
    requires |row| == |cols| && (e.Col? ==> e.c in cols)
  {
    match e
    case Col(c) => row[IndexOf(cols, c)]
    case Const(v) => v
  }

  ghost predicate WellFormed(t: Table) {
    forall i :: 0 <= i < |t.rows| ==> |t.rows[i]| == |t.cols|
  }

  ghost predicate Proper(s: Schema) {
    forall n :: n in s.tables ==> WellFormed(s.tables[n])
  }

  function Select(exprs: seq<Expr>, cols: seq<Column>, row: seq<Value>): seq<Value>
    requires |row| == |cols| && Selectable(exprs, cols)
  {
    seq(|exprs|, j requires 0 <= j < |exprs| => Eval(exprs[j], cols, row))
  }

  function SelectAll(exprs: seq<Expr>, t: Table): seq<seq<Value>>
    requires WellFormed(t) && Selectable(exprs, t.cols)
  {
    seq(|t.rows|, i requires 0 <= i < |t.rows| => Select(exprs, t.cols, t.rows[i]))
  }

  // None when the database rejects the statement.
  function Exec(s: Schema, q: Sql): Option<Schema>
    requires Proper(s)
  {
    match q
    case NullStatement => None
    case MakeBackup(id) =>
      if Newest(id) !in s.tables || Backup(id) in s.tables then None
      else Some(s.(tables := (s.tables - {Newest(id)})[Backup(id) := s.tables[Newest(id)]]))
    case DropIndex(x) => if x !in s.indexes then None else Some(s.(indexes := s.indexes - {x}))
    case CreateTable(id, cols) =>
      if Newest(id) in s.tables then Some(s)
      else Some(s.(tables := s.tables[Newest(id) := Table(cols, [])]))
    case CreateIndex(x) =>
      if x in s.indexes || Newest(x.id) !in s.tables then None else Some(s.(indexes := s.indexes + {x}))
    case Retrieve(id, exprs) =>
      if Newest(id) !in s.tables || Backup(id) !in s.tables then None
      else
        var to, from := s.tables[Newest(id)], s.tables[Backup(id)];
        if |exprs| != |to.cols| || !Selectable(exprs, from.cols) then None
        else Some(s.(tables := s.tables[Newest(id) := to.(rows := to.rows + SelectAll(exprs, from))]))
  }

  lemma ExecProper(s: Schema, q: Sql)
    requires Proper(s)
    ensures Exec(s, q).Some? ==> Proper(Exec(s, q).value)
  {
  }

  datatype Condition = Absent | Older | Current | Unknown

  // What the table is.
  function Checked(s: Schema, op: Op): Condition {
    if Newest(op.id) !in s.tables then Absent
    else if |s.tables[Newest(op.id)].cols| == op.itemNum then Current
    else Older
  }

  // How the look-ups of check_table_valid go: whether the table is counted, whether the
  // PRAGMA is prepared, and how many columns it yields before stepping fails. Nobody looks
  // at that failure.
  datatype Look = Look(counted: bool, prepared: bool, rows: nat)

  function Min(a: nat, b: nat): nat {
    if a <= b then a else b
  }

  // check_table_valid: what the table is taken for. With no column read, rc still holds
  // the count of tables.
  function Judged(s: Schema, op: Op, look: Look): Condition {
    if !look.counted then Unknown
    else if Newest(op.id) !in s.tables then Absent
    else if !look.prepared then Unknown
    else
      var read := Min(look.rows, |s.tables[Newest(op.id)].cols|);
      if (if read == 0 then 2 else read) == op.itemNum then Current else Older
  }

  // All columns were read.
  predicate Complete(s: Schema, op: Op, look: Look) {
    && look.counted
    && (Newest(op.id) in s.tables ==> look.prepared && 0 < |s.tables[Newest(op.id)].cols| <= look.rows)
  }

  // A table that is read to the end is taken for what it is. A current one is taken for
  // an older one exactly when reading its columns stops early.
  lemma JudgedExactly(s: Schema, op: Op, look: Look)
    ensures Complete(s, op, look) ==> Judged(s, op, look) == Checked(s, op)
    ensures Checked(s, op).Current? && look.counted && look.prepared && op.itemNum > 2 ==>
              (Judged(s, op, look).Current? <==> op.itemNum <= look.rows) &&
              (Judged(s, op, look).Older? <==> look.rows < op.itemNum)
  {
  }

  function DropIndexes(op: Op): seq<Sql> {
    if op.indexed then [DropIndex(CreatedAtIndex(op.id)), DropIndex(UpdatedAtIndex(op.id))] else []
  }

  function CreateIndexes(op: Op): seq<Sql> {
    if op.indexed then [CreateIndex(CreatedAtIndex(op.id)), CreateIndex(UpdatedAtIndex(op.id))] else []
  }

  // The statements for one registered table; a failed check goes straight to ROLLBACK.
  function Steps(c: Condition, op: Op): seq<Sql> {
    match c
    case Current => []
    case Unknown => [NullStatement]
    case Older =>
      [if op.backup then MakeBackup(op.id) else NullStatement] + DropIndexes(op) +
      [CreateTable(op.id, op.cols)] + CreateIndexes(op) + [Retrieve(op.id, op.retrieve)]
    case Absent => [CreateTable(op.id, op.cols)] + CreateIndexes(op)
  }

  // Statements in order; the k-th and following may be failed by faults.
  function RunAll(s: Schema, qs: seq<Sql>, k: nat, faults: seq<bool>): Option<Schema>
    requires Proper(s)
    decreases |qs|
  {
    if qs == [] then Some(s)
    else if k < |faults| && faults[k] then None
    else
      ExecProper(s, qs[0]);
      match Exec(s, qs[0])
      case None => None
      case Some(next) => RunAll(next, qs[1..], k + 1, faults)
  }

  lemma {:induction false} RunAllProper(s: Schema, qs: seq<Sql>, k: nat, faults: seq<bool>)
    requires Proper(s)
    ensures RunAll(s, qs, k, faults).Some? ==> Proper(RunAll(s, qs, k, faults).value)
    decreases |qs|
  {
    if qs != [] && Exec(s, qs[0]).Some? {
      ExecProper(s, qs[0]);
      RunAllProper(Exec(s, qs[0]).value, qs[1..], k + 1, faults);
    }
  }

  ghost predicate NoFaults(faults: seq<bool>, k: nat, n: nat) {
    forall i :: k <= i < k + n && i < |faults| ==> !faults[i]
  }

  // Faults aside, what a list of statements does; any fault fails the whole list.
  lemma {:induction false} RunAllFaults(s: Schema, qs: seq<Sql>, k: nat, faults: seq<bool>)
    requires Proper(s)
    ensures RunAll(s, qs, k, faults) == (if NoFaults(faults, k, |qs|) then RunAll(s, qs, 0, []) else None)
    decreases |qs|
  {
    if qs != [] && Exec(s, qs[0]).Some? {
      hide Exec;
      ExecProper(s, qs[0]);
      var next := Exec(s, qs[0]).value;
      RunAllFaults(next, qs[1..], k + 1, faults);
      RunAllFaults(next, qs[1..], 1, []);
      assert NoFaults(faults, k, |qs|) <==> !(k < |faults| && faults[k]) && NoFaults(faults, k + 1, |qs| - 1);
    }
  }

  lemma {:induction false} RunAllAppend(s: Schema, a: seq<Sql>, b: seq<Sql>)
    requires Proper(s)
    ensures RunAll(s, a + b, 0, []) ==
            match RunAll(s, a, 0, [])
            case None => None
            case Some(next) => (RunAllProper(s, a, 0, []); RunAll(next, b, 0, []))
    decreases |a|
  {
    hide Exec;
    if a == [] {
      assert a + b == b;
    } else {
      assert (a + b)[1..] == a[1..] + b && (a + b)[0] == a[0];
      if Exec(s, a[0]).Some? {
        ExecProper(s, a[0]);
        var next := Exec(s, a[0]).value;
        RunAllAppend(next, a[1..], b);
        RunAllFaults(next, (a + b)[1..], 1, []);
        RunAllFaults(next, a[1..], 1, []);
      }
    }
  }

  lemma RunOne(s: Schema, q: Sql)
    requires Proper(s)
    ensures RunAll(s, [q], 0, []) == Exec(s, q)
  {
    hide Exec;
    assert [q][1..] == [];
  }

  // -------------------------------------------------------------------------
  // One registered table
  // -------------------------------------------------------------------------

  function IndexesOf(op: Op): set<IndexName> {
    if op.indexed then {CreatedAtIndex(op.id), UpdatedAtIndex(op.id)} else {}
  }

  // When the statements for a table judged c are accepted.
  ghost predicate Ready(s: Schema, op: Op, c: Condition) {
    match c
    case Current => true
    case Unknown => false
    case Absent => Newest(op.id) !in s.tables && IndexesOf(op) !! s.indexes
    case Older =>
      && Newest(op.id) in s.tables && op.backup && Backup(op.id) !in s.tables && IndexesOf(op) <= s.indexes
      && |op.retrieve| == |op.cols| && Selectable(op.retrieve, s.tables[Newest(op.id)].cols)
  }

  // What they make of it.
  ghost function Upgraded(s: Schema, op: Op, c: Condition): Schema
    requires Proper(s) && Ready(s, op, c)
  {
    match c
    case Current => s
    case Absent => Schema(s.tables[Newest(op.id) := Table(op.cols, [])], s.indexes + IndexesOf(op))
    case Older =>
      var was := s.tables[Newest(op.id)];
      s.(tables := s.tables[Backup(op.id) := was][Newest(op.id) := Table(op.cols, SelectAll(op.retrieve, was))])
  }

  lemma CreateIndexesRun(s: Schema, op: Op)
    requires Proper(s) && Newest(op.id) in s.tables
    ensures RunAll(s, CreateIndexes(op), 0, []) ==
            if IndexesOf(op) !! s.indexes then Some(s.(indexes := s.indexes + IndexesOf(op))) else None
  {
    if op.indexed {
      var a, b := CreateIndex(CreatedAtIndex(op.id)), CreateIndex(UpdatedAtIndex(op.id));
      assert CreateIndexes(op) == [a] + [b];
      RunAllAppend(s, [a], [b]);
      RunOne(s, a);
      if Exec(s, a).Some? {
        RunOne(Exec(s, a).value, b);
        assert s.indexes + {a.index} + {b.index} == s.indexes + IndexesOf(op);
      }
    } else {
      assert s.indexes + {} == s.indexes;
    }
  }

  lemma DropIndexesRun(s: Schema, op: Op)
    requires Proper(s)
    ensures RunAll(s, DropIndexes(op), 0, []) ==
            if IndexesOf(op) <= s.indexes then Some(s.(indexes := s.indexes - IndexesOf(op))) else None
  {
    if op.indexed {
      var a, b := DropIndex(CreatedAtIndex(op.id)), DropIndex(UpdatedAtIndex(op.id));
      assert DropIndexes(op) == [a] + [b];
      RunAllAppend(s, [a], [b]);
      RunOne(s, a);
      if Exec(s, a).Some? {
        RunOne(Exec(s, a).value, b);
        assert s.indexes - {a.index} - {b.index} == s.indexes - IndexesOf(op);
      }
    } else {
      assert s.indexes - {} == s.indexes;
    }
  }

  lemma AbsentRun(s: Schema, op: Op)
    requires Proper(s) && Newest(op.id) !in s.tables
    ensures RunAll(s, Steps(Absent, op), 0, []) ==
            (if Ready(s, op, Absent) then Some(Upgraded(s, op, Absent)) else None)
  {
    hide RunAll;
    var create := CreateTable(op.id, op.cols);
    RunAllAppend(s, [create], CreateIndexes(op));
    RunOne(s, create);
    ExecProper(s, create);
    CreateIndexesRun(Exec(s, create).value, op);
  }

  // The second half for an older table: from the backup made to the rows brought back.
  lemma RebuildRun(s: Schema, op: Op)
    requires Proper(s) && Newest(op.id) !in s.tables && Backup(op.id) in s.tables && IndexesOf(op) <= s.indexes
    ensures RunAll(s, DropIndexes(op) + ([CreateTable(op.id, op.cols)] +
                      (CreateIndexes(op) + [Retrieve(op.id, op.retrieve)])), 0, []) ==
            var was := s.tables[Backup(op.id)];
            if |op.retrieve| == |op.cols| && Selectable(op.retrieve, was.cols) then
              Some(s.(tables := s.tables[Newest(op.id) := Table(op.cols, SelectAll(op.retrieve, was))]))
            else None
  {
    hide RunAll;
    var create, retrieve := CreateTable(op.id, op.cols), Retrieve(op.id, op.retrieve);
    RunAllAppend(s, DropIndexes(op), [create] + (CreateIndexes(op) + [retrieve]));
    DropIndexesRun(s, op);
    var s1 := s.(indexes := s.indexes - IndexesOf(op));
    RunAllAppend(s1, [create], CreateIndexes(op) + [retrieve]);
    RunOne(s1, create);
    ExecProper(s1, create);
    var s2 := Exec(s1, create).value;
    RunAllAppend(s2, CreateIndexes(op), [retrieve]);
    CreateIndexesRun(s2, op);
    var s3 := s2.(indexes := s2.indexes + IndexesOf(op));
    assert s3.indexes == s.indexes;
    RunOne(s3, retrieve);
    var was, id := s.tables[Backup(op.id)], Newest(op.id);
    assert s3.tables == s.tables[id := Table(op.cols, [])] && s3.tables[Backup(op.id)] == was;
    if |op.retrieve| == |op.cols| && Selectable(op.retrieve, was.cols) {
      var rows := SelectAll(op.retrieve, was);
      assert [] + rows == rows;
      assert s3.tables[id := Table(op.cols, rows)] == s.tables[id := Table(op.cols, rows)];
    }
  }

  lemma OlderRun(s: Schema, op: Op)
    requires Proper(s) && Newest(op.id) in s.tables
    ensures RunAll(s, Steps(Older, op), 0, []) == (if Ready(s, op, Older) then Some(Upgraded(s, op, Older)) else None)
  {
    hide RunAll;
    var first := if op.backup then MakeBackup(op.id) else NullStatement;
    var again := [CreateTable(op.id, op.cols)] + (CreateIndexes(op) + [Retrieve(op.id, op.retrieve)]);
    var rest := DropIndexes(op) + again;
    assert Steps(Older, op) == [first] + rest;
    RunAllAppend(s, [first], rest);
    RunOne(s, first);
    if Exec(s, first).Some? {
      ExecProper(s, first);
      var s1 := Exec(s, first).value;
      var was := s.tables[Newest(op.id)];
      assert s1.tables[Backup(op.id)] == was;
      if IndexesOf(op) <= s.indexes {
        RebuildRun(s1, op);
        if Ready(s, op, Older) {
          assert s1.tables[Newest(op.id) := Table(op.cols, SelectAll(op.retrieve, was))] ==
              Upgraded(s, op, Older).tables;
        }
      } else {
        RunAllAppend(s1, DropIndexes(op), again);
        DropIndexesRun(s1, op);
      }
    }
  }

  lemma CurrentRun(s: Schema, op: Op)
    requires Proper(s)
    ensures RunAll(s, Steps(Current, op), 0, []) == Some(s) && Upgraded(s, op, Current) == s
    ensures RunAll(s, Steps(Unknown, op), 0, []) == None
  {
    RunOne(s, NullStatement);
  }

  // The statements for a table succeed exactly when none faults and the table is ready
  // for what it is taken for.
  lemma StepsExactly(s: Schema, op: Op, look: Look, k: nat, faults: seq<bool>)
    requires Proper(s)
    ensures var c := Judged(s, op, look);
            RunAll(s, Steps(c, op), k, faults) ==
            (if NoFaults(faults, k, |Steps(c, op)|) && Ready(s, op, c) then Some(Upgraded(s, op, c)) else None)
  {
    hide RunAll, Upgraded;
    var c := Judged(s, op, look);
    RunAllFaults(s, Steps(c, op), k, faults);
    match c {
      case Current => CurrentRun(s, op);
      case Unknown => CurrentRun(s, op);
      case Absent => AbsentRun(s, op);
      case Older => OlderRun(s, op);
    }
  }

  // -------------------------------------------------------------------------
  // All registered tables
  // -------------------------------------------------------------------------

  lemma UpgradedProper(s: Schema, op: Op, c: Condition)
    requires Proper(s) && Ready(s, op, c)
    ensures Proper(Upgraded(s, op, c))
  {
  }

  // The loop over the registered tables, each with the luck of its look-ups.
  function RunOps(s: Schema, ops: seq<Op>, looks: seq<Look>, k: nat, faults: seq<bool>): Option<Schema>
    requires Proper(s) && |looks| == |ops|
    decreases |ops|
  {
    if ops == [] then Some(s)
    else
      var qs := Steps(Judged(s, ops[0], looks[0]), ops[0]);
      RunAllProper(s, qs, k, faults);
      match RunAll(s, qs, k, faults)
      case None => None
      case Some(next) => RunOps(next, ops[1..], looks[1..], k + |qs|, faults)
  }

  // How many statements that takes.
  function Statements(s: Schema, ops: seq<Op>, looks: seq<Look>): nat
    requires |looks| == |ops|
    decreases |ops|
  {
    if ops == [] then 0
    else |Steps(Judged(s, ops[0], looks[0]), ops[0])| + Statements(s, ops[1..], looks[1..])
  }

  ghost predicate DistinctIds(ops: seq<Op>) {
    forall i, j :: 0 <= i < j < |ops| ==> ops[i].id != ops[j].id
  }

  // The tables and indexes of one id are the business of one operation.
  ghost predicate SameAt(s: Schema, s': Schema, id: TableId) {
    && (Newest(id) in s.tables <==> Newest(id) in s'.tables)
    && (Newest(id) in s.tables ==> s'.tables[Newest(id)] == s.tables[Newest(id)])
    && (Backup(id) in s.tables <==> Backup(id) in s'.tables)
    && (CreatedAtIndex(id) in s.indexes <==> CreatedAtIndex(id) in s'.indexes)
    && (UpdatedAtIndex(id) in s.indexes <==> UpdatedAtIndex(id) in s'.indexes)
  }

  lemma UpgradedElsewhere(s: Schema, op: Op, c: Condition, id: TableId)
    requires Proper(s) && Ready(s, op, c) && id != op.id
    ensures SameAt(s, Upgraded(s, op, c), id)
  {
  }

  lemma ReadyLocal(s: Schema, s': Schema, op: Op, look: Look, c: Condition)
    requires SameAt(s, s', op.id)
    ensures Judged(s', op, look) == Judged(s, op, look) && (Ready(s', op, c) <==> Ready(s, op, c))
  {
    assert IndexesOf(op) <= s.indexes <==> IndexesOf(op) <= s'.indexes;
    assert IndexesOf(op) !! s.indexes <==> IndexesOf(op) !! s'.indexes;
  }

  lemma SameUpgrade(s: Schema, next: Schema, op: Op, c: Condition)
    requires Proper(s) && Proper(next) && Ready(s, op, c) && Ready(next, op, c) && SameAt(s, next, op.id)
    ensures SameAt(Upgraded(s, op, c), Upgraded(next, op, c), op.id)
  {
  }

  lemma SameTrans(a: Schema, b: Schema, c: Schema, id: TableId)
    requires SameAt(a, b, id) && SameAt(b, c, id)
    ensures SameAt(a, c, id)
  {
  }

  // The operations that are still to come see their tables as before.
  ghost predicate SameFor(s: Schema, s': Schema, ops: seq<Op>) {
    forall i :: 0 <= i < |ops| ==> SameAt(s, s', ops[i].id)
  }

  lemma {:induction false} SameStatements(s: Schema, s': Schema, ops: seq<Op>, looks: seq<Look>)
    requires |looks| == |ops| && SameFor(s, s', ops)
    ensures Statements(s', ops, looks) == Statements(s, ops, looks)
    decreases |ops|
  {
    if ops != [] {
      hide SameAt, Judged, Steps;
      assert SameAt(s, s', ops[0].id);
      ReadyLocal(s, s', ops[0], looks[0], Current);
      SameStatements(s, s', ops[1..], looks[1..]);
    }
  }

  ghost predicate AllReady(s: Schema, ops: seq<Op>, looks: seq<Look>)
    requires |looks| == |ops|
  {
    forall i :: 0 <= i < |ops| ==> Ready(s, ops[i], Judged(s, ops[i], looks[i]))
  }

  lemma SameReady(s: Schema, s': Schema, ops: seq<Op>, looks: seq<Look>)
    requires |looks| == |ops| && SameFor(s, s', ops)
    ensures AllReady(s', ops, looks) <==> AllReady(s, ops, looks)
  {
    hide SameAt, Judged, Ready;
    forall i | 0 <= i < |ops|
      ensures Ready(s', ops[i], Judged(s', ops[i], looks[i])) <==> Ready(s, ops[i], Judged(s, ops[i], looks[i]))
    {
      assert SameAt(s, s', ops[i].id);
      ReadyLocal(s, s', ops[i], looks[i], Judged(s, ops[i], looks[i]));
    }
  }

  lemma SplitFaults(faults: seq<bool>, k: nat, m: nat, n: nat)
    ensures NoFaults(faults, k, m + n) <==> NoFaults(faults, k, m) && NoFaults(faults, k + m, n)
  {
  }

  lemma FirstElsewhere(s: Schema, ops: seq<Op>, c: Condition)
    requires Proper(s) && ops != [] && DistinctIds(ops) && Ready(s, ops[0], c)
    ensures SameFor(s, Upgraded(s, ops[0], c), ops[1..])
  {
    hide Ready, Upgraded, SameAt;
    forall i | 0 <= i < |ops[1..]|
      ensures SameAt(s, Upgraded(s, ops[0], c), ops[1..][i].id)
    {
      assert ops[1..][i] == ops[i + 1];
      UpgradedElsewhere(s, ops[0], c, ops[i + 1].id);
    }
  }

  // Under any faults the migration succeeds exactly when no statement faults and every
  // table is ready for what it is taken for.
  lemma {:induction false} RunOpsExactly(s: Schema, ops: seq<Op>, looks: seq<Look>, k: nat, faults: seq<bool>)
    requires Proper(s) && DistinctIds(ops) && |looks| == |ops|
    ensures RunOps(s, ops, looks, k, faults).Some? <==>
            NoFaults(faults, k, Statements(s, ops, looks)) && AllReady(s, ops, looks)
    decreases |ops|
  {
    hide Ready, Upgraded, RunAll, Steps, Judged, NoFaults, SameFor, Proper;
    if ops == [] {
      NoStatements(faults, k);
    } else {
      var op, c := ops[0], Judged(s, ops[0], looks[0]);
      var n := |Steps(c, op)|;
      StepsExactly(s, op, looks[0], k, faults);
      SplitFaults(faults, k, n, Statements(s, ops[1..], looks[1..]));
      ReadySplit(s, ops, looks);
      if Ready(s, op, c) {
        var next := Upgraded(s, op, c);
        UpgradedProper(s, op, c);
        FirstElsewhere(s, ops, c);
        SameStatements(s, next, ops[1..], looks[1..]);
        SameReady(s, next, ops[1..], looks[1..]);
        RunOpsExactly(next, ops[1..], looks[1..], k + n, faults);
      }
    }
  }

  lemma NoStatements(faults: seq<bool>, k: nat)
    ensures NoFaults(faults, k, 0)
  {
  }

  lemma ReadySplit(s: Schema, ops: seq<Op>, looks: seq<Look>)
    requires |looks| == |ops| && ops != []
    ensures AllReady(s, ops, looks) <==>
            Ready(s, ops[0], Judged(s, ops[0], looks[0])) && AllReady(s, ops[1..], looks[1..])
  {
    hide Ready, Judged;
    if AllReady(s, ops[1..], looks[1..]) && Ready(s, ops[0], Judged(s, ops[0], looks[0])) {
      forall i | 0 <= i < |ops|
        ensures Ready(s, ops[i], Judged(s, ops[i], looks[i]))
      {
        if i > 0 {
          assert ops[i] == ops[1..][i - 1] && looks[i] == looks[1..][i - 1];
        }
      }
    }
  }

  // What a successful migration leaves of a registered table.
  ghost predicate Migrated(s: Schema, s': Schema, op: Op, c: Condition)
    requires Proper(s)
  {
    Ready(s, op, c) && SameAt(Upgraded(s, op, c), s', op.id)
  }

  // Each table is as its own statements leave it, whatever becomes of the others.
  lemma {:induction false} RunOpsEffect(s: Schema, ops: seq<Op>, looks: seq<Look>, k: nat, faults: seq<bool>, i: nat)
    requires Proper(s) && DistinctIds(ops) && |looks| == |ops| && i < |ops|
    requires RunOps(s, ops, looks, k, faults).Some?
    ensures var s' := RunOps(s, ops, looks, k, faults).value;
            Proper(s') && Migrated(s, s', ops[i], Judged(s, ops[i], looks[i]))
    decreases |ops|
  {
    hide Ready, Upgraded, RunAll, Steps, Judged, SameAt, Proper;
    var op, c := ops[0], Judged(s, ops[0], looks[0]);
    var s' := RunOps(s, ops, looks, k, faults).value;
    StepsExactly(s, op, looks[0], k, faults);
    UpgradedProper(s, op, c);
    FirstElsewhere(s, ops, c);
    var next, n := Upgraded(s, op, c), |Steps(c, op)|;
    assert RunOps(next, ops[1..], looks[1..], k + n, faults) == Some(s');
    if i == 0 {
      RunOpsElsewhere(next, ops[1..], looks[1..], k + n, faults, op.id);
    } else {
      assert ops[1..][i - 1] == ops[i] && looks[1..][i - 1] == looks[i];
      RunOpsEffect(next, ops[1..], looks[1..], k + n, faults, i - 1);
      ReadyLocal(s, next, ops[i], looks[i], Judged(s, ops[i], looks[i]));
      SameUpgrade(s, next, ops[i], Judged(s, ops[i], looks[i]));
      SameTrans(Upgraded(s, ops[i], Judged(s, ops[i], looks[i])), Upgraded(next, ops[i], Judged(s, ops[i], looks[i])),
                s', ops[i].id);
    }
  }

  // Tables that are not registered stay as they are.
  lemma {:induction false} RunOpsElsewhere(s: Schema, ops: seq<Op>, looks: seq<Look>, k: nat, faults: seq<bool>,
      id: TableId)
    requires Proper(s) && |looks| == |ops| && RunOps(s, ops, looks, k, faults).Some?
    requires forall i :: 0 <= i < |ops| ==> ops[i].id != id
    ensures Proper(RunOps(s, ops, looks, k, faults).value) && SameAt(s, RunOps(s, ops, looks, k, faults).value, id)
    decreases |ops|
  {
    if ops != [] {
      hide Ready, Upgraded, RunAll, Steps, Judged, SameAt, Proper;
      var op, c := ops[0], Judged(s, ops[0], looks[0]);
      StepsExactly(s, op, looks[0], k, faults);
      UpgradedProper(s, op, c);
      UpgradedElsewhere(s, op, c, id);
      var next := Upgraded(s, op, c);
      RunOpsElsewhere(next, ops[1..], looks[1..], k + |Steps(c, op)|, faults, id);
      SameTrans(s, next, RunOps(s, ops, looks, k, faults).value, id);
    }
  }

  // -------------------------------------------------------------------------
  // What is carried over
  // -------------------------------------------------------------------------

  // Each column taken from the backup lands in the column of the same name.
  ghost predicate Aligned(op: Op) {
    && |op.retrieve| == |op.cols|
    && (forall i, j :: 0 <= i < j < |op.cols| ==> op.cols[i] != op.cols[j])
    && (forall j :: 0 <= j < |op.cols| && op.retrieve[j].Col? ==> op.retrieve[j].c == op.cols[j])
  }

  // What a registered table has to be: the count fits the columns, and so does the SELECT
  // list if there is a backup to select from.
  ghost predicate Registered(op: Op) {
    op.itemNum == |op.cols| && (op.backup ==> Aligned(op))
  }

  ghost predicate Carried(op: Op, c: Column) {
    Col(c) in op.retrieve
  }

  function ValueAt(t: Table, i: nat, c: Column): Value
    requires i < |t.rows| && c in t.cols && |t.rows[i]| == |t.cols|
  {
    t.rows[i][IndexOf(t.cols, c)]
  }

  // Every carried column of every row of an older table reads as before.
  ghost predicate MeaningKept(was: Table, now: Table, op: Op)
    requires WellFormed(was) && WellFormed(now)
  {
    && now.cols == op.cols && |now.rows| == |was.rows|
    && forall i, c :: Carried(op, c) ==> KeptAt(was, now, i, c)
  }

  ghost predicate KeptAt(was: Table, now: Table, i: nat, c: Column)
    requires WellFormed(was) && WellFormed(now) && |now.rows| == |was.rows|
  {
    i < |was.rows| ==> c in was.cols && c in now.cols && ValueAt(now, i, c) == ValueAt(was, i, c)
  }

  lemma ColumnKept(op: Op, was: Table, i: nat, c: Column)
    requires WellFormed(was) && Selectable(op.retrieve, was.cols) && Aligned(op) && i < |was.rows| && Carried(op, c)
    ensures c in was.cols && c in op.cols
    ensures Select(op.retrieve, was.cols, was.rows[i])[IndexOf(op.cols, c)] == ValueAt(was, i, c)
  {
    var j :| 0 <= j < |op.retrieve| && op.retrieve[j] == Col(c);
    assert op.cols[j] == c;
    assert IndexOf(op.cols, c) == j;
  }

  lemma {:induction false} UpgradeKeepsMeaning(s: Schema, op: Op)
    requires Proper(s) && Ready(s, op, Older) && Aligned(op)
    ensures Proper(Upgraded(s, op, Older))
    ensures MeaningKept(s.tables[Newest(op.id)], Upgraded(s, op, Older).tables[Newest(op.id)], op)
  {
    UpgradedProper(s, op, Older);
    var was, now := s.tables[Newest(op.id)], Upgraded(s, op, Older).tables[Newest(op.id)];
    hide Select;
    assert now.cols == op.cols && |now.rows| == |was.rows|;
    forall i: nat, c: Column | Carried(op, c)
      ensures KeptAt(was, now, i, c)
    {
      if i < |was.rows| {
        ColumnKept(op, was, i, c);
      }
    }
  }

  // What a migration makes of a table, by what it is taken for.
  ghost predicate Outcome(s: Schema, s': Schema, op: Op, c: Condition)
    requires Proper(s) && Proper(s')
  {
    && Newest(op.id) in s'.tables
    && match c
       case Current => Newest(op.id) in s.tables && s'.tables[Newest(op.id)] == s.tables[Newest(op.id)]
       case Absent => Newest(op.id) !in s.tables && s'.tables[Newest(op.id)] == Table(op.cols, [])
       case Older => Newest(op.id) in s.tables && MeaningKept(s.tables[Newest(op.id)], s'.tables[Newest(op.id)], op)
       case Unknown => false
  }

  // For any registered tables, look-ups and faults: if the migration succeeds, tables
  // taken for older ones keep every carried column of every row, those taken for current
  // are untouched, new ones are empty.
  lemma MigrationKeepsMeaning(s: Schema, ops: seq<Op>, looks: seq<Look>, k: nat, faults: seq<bool>, i: nat)
    requires Proper(s) && DistinctIds(ops) && |looks| == |ops| && i < |ops| && Registered(ops[i])
    requires RunOps(s, ops, looks, k, faults).Some?
    ensures var s' := RunOps(s, ops, looks, k, faults).value;
            && Proper(s') && Outcome(s, s', ops[i], Judged(s, ops[i], looks[i]))
            && (Complete(s, ops[i], looks[i]) ==> Checked(s', ops[i]) == Current)
  {
    RunOpsEffect(s, ops, looks, k, faults, i);
    hide RunOps, SelectAll, Aligned, MeaningKept;
    var op, c := ops[i], Judged(s, ops[i], looks[i]);
    JudgedExactly(s, op, looks[i]);
    if c == Older {
      UpgradeKeepsMeaning(s, op);
    }
  }

  // Every column a SELECT list fills with a constant already holds that constant.
  ghost predicate AlreadyBlank(was: Table, op: Op)
    requires WellFormed(was)
  {
    && was.cols == op.cols
    && forall i, j :: 0 <= i < |was.rows| && 0 <= j < |op.cols| && j < |op.retrieve| && op.retrieve[j].Const? ==>
         was.rows[i][j] == op.retrieve[j].v
  }

  lemma SelectItself(op: Op, cols: seq<Column>, row: seq<Value>)
    requires Aligned(op) && cols == op.cols && |row| == |cols| && Selectable(op.retrieve, cols)
    ensures Select(op.retrieve, cols, row) == row <==>
            forall j :: 0 <= j < |cols| && op.retrieve[j].Const? ==> row[j] == op.retrieve[j].v
  {
    var r := Select(op.retrieve, cols, row);
    forall j | 0 <= j < |cols|
      ensures r[j] == if op.retrieve[j].Const? then op.retrieve[j].v else row[j]
    {
      if op.retrieve[j].Col? {
        assert cols[j] == op.retrieve[j].c;
        assert IndexOf(cols, op.retrieve[j].c) == j;
      }
    }
    if r == row {
      forall j | 0 <= j < |cols| && op.retrieve[j].Const?
        ensures row[j] == op.retrieve[j].v
      {
        assert r[j] == row[j];
      }
    }
  }

  lemma SelectAllItself(op: Op, was: Table)
    requires WellFormed(was) && Aligned(op) && Selectable(op.retrieve, was.cols)
    ensures Table(op.cols, SelectAll(op.retrieve, was)) == was <==> AlreadyBlank(was, op)
  {
    hide Select, Aligned;
    if was.cols == op.cols {
      assert |op.retrieve| == |op.cols| by {
        AlignedLengths(op);
      }
      var all := SelectAll(op.retrieve, was);
      forall i | 0 <= i < |was.rows|
        ensures all[i] == was.rows[i] <==>
                forall j :: 0 <= j < |op.cols| && op.retrieve[j].Const? ==> was.rows[i][j] == op.retrieve[j].v
      {
        SelectItself(op, was.cols, was.rows[i]);
      }
      if all == was.rows {
        assert forall i :: 0 <= i < |was.rows| ==> all[i] == was.rows[i];
      }
    }
  }

  lemma AlignedLengths(op: Op)
    requires Aligned(op)
    ensures |op.retrieve| == |op.cols|
  {
  }

  // A table that is current is left alone by a successful migration exactly when it was
  // read to the end, or had nothing to lose.
  lemma CurrentLeftAloneExactly(s: Schema, ops: seq<Op>, looks: seq<Look>, k: nat, faults: seq<bool>, i: nat)
    requires Proper(s) && DistinctIds(ops) && |looks| == |ops| && i < |ops| && Registered(ops[i]) && ops[i].itemNum > 2
    requires Checked(s, ops[i]) == Current && RunOps(s, ops, looks, k, faults).Some?
    ensures var s', id := RunOps(s, ops, looks, k, faults).value, Newest(ops[i].id);
            && id in s'.tables
            && (s'.tables[id] == s.tables[id] <==>
                ops[i].itemNum <= looks[i].rows || AlreadyBlank(s.tables[id], ops[i]))
  {
    RunOpsEffect(s, ops, looks, k, faults, i);
    hide RunOps, SelectAll, Aligned;
    var op := ops[i];
    JudgedExactly(s, op, looks[i]);
    if Judged(s, op, looks[i]) == Older {
      SelectAllItself(op, s.tables[Newest(op.id)]);
    }
  }

  // Where every table is taken for current there is nothing to do and nothing to fail.
  lemma {:induction false} RunAgain(s: Schema, ops: seq<Op>, looks: seq<Look>, k: nat, faults: seq<bool>)
    requires Proper(s) && |looks| == |ops| && forall i :: 0 <= i < |ops| ==> Judged(s, ops[i], looks[i]) == Current
    ensures RunOps(s, ops, looks, k, faults) == Some(s)
    decreases |ops|
  {
    if ops != [] {
      RunAgain(s, ops[1..], looks[1..], k, faults);
    }
  }

  // After a migration with complete look-ups, any later one with complete look-ups
  // succeeds, whatever its faults, and changes nothing.
  lemma MigrationIsIdempotent(s: Schema, ops: seq<Op>, later: seq<Op>, looks: seq<Look>, looks': seq<Look>,
                              k: nat, faults: seq<bool>, faults': seq<bool>)
    requires Proper(s) && DistinctIds(ops) && |looks| == |looks'| == |later| == |ops|
    requires forall i :: 0 <= i < |ops| ==> Registered(ops[i]) && Complete(s, ops[i], looks[i])
    requires forall i :: 0 <= i < |ops| ==> later[i].id == ops[i].id && later[i].itemNum == ops[i].itemNum
    requires RunOps(s, ops, looks, k, faults).Some?
    ensures var s' := RunOps(s, ops, looks, k, faults).value;
            Proper(s') && ((forall i :: 0 <= i < |ops| ==> Complete(s', later[i], looks'[i])) ==>
                             RunOps(s', later, looks', k, faults') == Some(s'))
  {
    hide RunOps, Registered;
    var s' := RunOps(s, ops, looks, k, faults).value;
    if ops == [] {
      NothingToRun(s, ops, looks, k, faults);
    } else {
      MigrationKeepsMeaning(s, ops, looks, k, faults, 0);
    }
    if forall i :: 0 <= i < |ops| ==> Complete(s', later[i], looks'[i]) {
      forall i | 0 <= i < |ops|
        ensures Judged(s', later[i], looks'[i]) == Current
      {
        MigrationKeepsMeaning(s, ops, looks, k, faults, i);
        JudgedExactly(s', later[i], looks'[i]);
      }
      RunAgain(s', later, looks', k, faults');
    }
  }

  lemma NothingToRun(s: Schema, ops: seq<Op>, looks: seq<Look>, k: nat, faults: seq<bool>)
    requires Proper(s) && |looks| == |ops| && ops == []
    ensures RunOps(s, ops, looks, k, faults) == Some(s)
  {
  }

  // The backup stays behind: the next change of the same table cannot be migrated.
  lemma SecondUpgradeRefused(s: Schema, op: Op, newer: Op)
    requires Proper(s) && Ready(s, op, Older) && newer.id == op.id
    ensures !Ready(Upgraded(s, op, Older), newer, Older)
  {
  }

  // -------------------------------------------------------------------------
  // db_init
  // -------------------------------------------------------------------------

  // Whether BEGIN, END and ROLLBACK succeed, the look-ups of each table, and the faults of
  // the statements between.
  datatype Luck = Luck(begin: bool, looks: seq<Look>, faults: seq<bool>, end: bool, rollback: bool)

  class Connection {
    var stored: Schema
    var working: Schema

    constructor (stored: Schema)
      ensures this.stored == stored && working == stored
    {
      this.stored, working := stored, stored;
    }

    // The statements for one table, up to the first that fails.
    method Execute(qs: seq<Sql>, k: nat, faults: seq<bool>) returns (ok: bool)
      requires Proper(working)
      modifies this`working
      ensures var r := RunAll(old(working), qs, k, faults);
              (ok <==> r.Some?) && (ok ==> working == r.value && Proper(working))
    {
      hide Exec, Proper;
      var i := 0;
      while i < |qs|
        invariant 0 <= i <= |qs| && Proper(working)
        invariant RunAll(old(working), qs, k, faults) == RunAll(working, qs[i..], k + i, faults)
      {
        assert qs[i..][0] == qs[i] && qs[i..][1..] == qs[i + 1..];
        if k + i < |faults| && faults[k + i] {
          return false;
        }
        ExecProper(working, qs[i]);
        match Exec(working, qs[i]) {
          case None => return false;
          case Some(next) => working := next;
        }
        i := i + 1;
      }
      assert qs[i..] == [];
      return true;
    }

    // The loop over the registered tables.
    method MigrateTables(ops: seq<Op>, looks: seq<Look>, faults: seq<bool>) returns (ok: bool)
      requires Proper(working) && |looks| == |ops|
      modifies this`working
      ensures var r := RunOps(old(working), ops, looks, 0, faults);
              (ok <==> r.Some?) && (ok ==> working == r.value && Proper(working))
    {
      hide RunAll, Proper, Steps, Judged;
      var i, k := 0, 0;
      while i < |ops|
        invariant 0 <= i <= |ops| && 0 <= k && Proper(working)
        invariant RunOps(old(working), ops, looks, 0, faults) == RunOps(working, ops[i..], looks[i..], k, faults)
      {
        assert ops[i..][0] == ops[i] && ops[i..][1..] == ops[i + 1..];
        assert looks[i..][0] == looks[i] && looks[i..][1..] == looks[i + 1..];
        var qs := Steps(Judged(working, ops[i], looks[i]), ops[i]);
        var done := Execute(qs, k, faults);
        if !done {
          return false;
        }
        k := k + |qs|;
        i := i + 1;
      }
      assert ops[i..] == [] && looks[i..] == [];
      return true;
    }

    // All or nothing: what is stored is what it was, or the whole migration, with its
    // meaning kept.
    method DbInit(ops: seq<Op>, luck: Luck) returns (rc: int)
      requires Proper(stored) && working == stored && DistinctIds(ops) && |luck.looks| == |ops|
      requires forall i :: 0 <= i < |ops| ==> Registered(ops[i])
      modifies this
      ensures rc == 0 || rc == -1
      ensures rc == 0 <==>
              && luck.begin && luck.end && AllReady(old(stored), ops, luck.looks)
              && NoFaults(luck.faults, 0, Statements(old(stored), ops, luck.looks))
      ensures rc == 0 ==> Proper(stored) && stored == working
      ensures rc == 0 ==> RunOps(old(stored), ops, luck.looks, 0, luck.faults) == Some(stored)
      ensures rc == 0 ==> forall i :: 0 <= i < |ops| ==>
                Outcome(old(stored), stored, ops[i], Judged(old(stored), ops[i], luck.looks[i]))
      ensures rc == -1 ==> stored == old(stored) && (luck.rollback ==> working == stored)
    {
      hide RunOps, Proper, Outcome, Registered, AllReady, NoFaults, Judged;
      RunOpsExactly(stored, ops, luck.looks, 0, luck.faults);
      rc := -1;
      if luck.begin {
        var ok := MigrateTables(ops, luck.looks, luck.faults);
        if ok && luck.end {
          forall i | 0 <= i < |ops|
            ensures Outcome(stored, working, ops[i], Judged(stored, ops[i], luck.looks[i]))
          {
            MigrationKeepsMeaning(stored, ops, luck.looks, 0, luck.faults, i);
          }
          stored := working;
          rc := 0;
        } else if luck.rollback {
          working := stored;
        }
      }
    }
  }

  // -------------------------------------------------------------------------
  // The registered tables
  // -------------------------------------------------------------------------

  const NA: Value := Str("NA")
  const BLANK: Value := Blob([0xA0])

  const CHANNELS := Op(Channels, 13,
    [ChannelId, CreatedAt, UpdatedAt, Name, Intro, NextPostId, Subscribers, Status, Iid, TipMethods, Proof, Memo,
     Avatar],
    true,
    [Col(ChannelId), Col(CreatedAt), Col(UpdatedAt), Col(Name), Col(Intro), Col(NextPostId),
     Col(Subscribers), Const(Num(0)), Const(NA), Const(NA), Const(NA), Const(NA), Col(Avatar)],
    true)

  const POSTS := Op(Posts, 14,
    [ChannelId, PostId, CreatedAt, UpdatedAt, NextCommentId, LikeCount, Status, Iid, HashId, Proof, OriginPostUrl, Memo,
     Thumbnails, Content],
    true,
    [Col(ChannelId), Col(PostId), Col(CreatedAt), Col(UpdatedAt), Col(NextCommentId),
     Col(LikeCount), Col(Status), Const(NA), Const(NA), Const(NA), Const(NA), Const(NA), Const(BLANK), Col(Content)],
    true)

  const COMMENTS := Op(Comments, 15,
    [ChannelId, PostId, CommentId, RefcommentId, UserId, CreatedAt, UpdatedAt, LikeCount, Status, Iid, HashId, Proof,
     Memo, Thumbnails, Content],
    true,
    [Col(ChannelId), Col(PostId), Col(CommentId), Col(RefcommentId), Col(UserId), Col(CreatedAt), Col(UpdatedAt),
     Col(LikeCount), Col(Status), Const(NA), Const(NA), Const(NA), Const(NA), Const(BLANK), Col(Content)],
    true)

  const LIKES := Op(Likes, 7,
    [ChannelId, PostId, CommentId, UserId, CreatedAt, Proof, Memo],
    true,
    [Col(ChannelId), Col(PostId), Col(CommentId), Col(UserId), Col(CreatedAt), Const(NA), Const(NA)],
    false)

  const REPORTED_COMMENTS := Op(ReportedComments, 6,
    [ChannelId, PostId, CommentId, ReporterId, CreatedAt, Reasons], false, [], false)

  const TIPPING := Op(Tipping, 10,
    [Id, ChannelId, PostId, CreatedAt, TokenMount, TokenSymbol, Proof, UserDid, UserName, Memo], false, [], false)

  const NOTIFICATION := Op(Notification, 9,
    [NotificationId, ChannelId, PostId, CommentId, ActionType, UserDid, UserName, CreatedAt, Memo], false, [], false)

  function UsersOp(now: Value): Op {
    Op(Users, 8,
       [UserId, DidColumn, Name, Email, DisplayName, UpdateAt, Memo, Avatar],
       true,
       [Col(UserId), Col(DidColumn), Col(Name), Col(Email), Const(NA), Const(now), Const(NA), Const(BLANK)],
       false)
  }

  function SubscriptionsOp(now: Value): Op {
    Op(Subscriptions, 5,
       [UserId, ChannelId, CreateAt, Proof, Memo],
       true,
       [Col(UserId), Col(ChannelId), Const(now), Const(NA), Const(NA)],
       false)
  }

  function Registry(now: Value): seq<Op> {
    [CHANNELS, POSTS, COMMENTS, UsersOp(now), SubscriptionsOp(now), LIKES, REPORTED_COMMENTS, TIPPING, NOTIFICATION]
  }

  // The place of each column in the newest version of a table that can be upgraded.
  function Place(id: TableId, c: Column): int {
    match id
    case Channels => (
      match c
      case ChannelId => 0 case CreatedAt => 1 case UpdatedAt => 2 case Name => 3 case Intro => 4
      case NextPostId => 5 case Subscribers => 6 case Status => 7 case Iid => 8 case TipMethods => 9
      case Proof => 10 case Memo => 11 case Avatar => 12 case _ => -1)
    case Posts => (
      match c
      case ChannelId => 0 case PostId => 1 case CreatedAt => 2 case UpdatedAt => 3 case NextCommentId => 4
      case LikeCount => 5 case Status => 6 case Iid => 7 case HashId => 8 case Proof => 9 case OriginPostUrl => 10
      case Memo => 11 case Thumbnails => 12 case Content => 13 case _ => -1)
    case Comments => (
      match c
      case ChannelId => 0 case PostId => 1 case CommentId => 2 case RefcommentId => 3 case UserId => 4
      case CreatedAt => 5 case UpdatedAt => 6 case LikeCount => 7 case Status => 8 case Iid => 9 case HashId => 10
      case Proof => 11 case Memo => 12 case Thumbnails => 13 case Content => 14 case _ => -1)
    case Likes => (
      match c
      case ChannelId => 0 case PostId => 1 case CommentId => 2 case UserId => 3 case CreatedAt => 4
      case Proof => 5 case Memo => 6 case _ => -1)
    case Users => (
      match c
      case UserId => 0 case DidColumn => 1 case Name => 2 case Email => 3 case DisplayName => 4 case UpdateAt => 5
      case Memo => 6 case Avatar => 7 case _ => -1)
    case Subscriptions => (
      match c
      case UserId => 0 case ChannelId => 1 case CreateAt => 2 case Proof => 3 case Memo => 4 case _ => -1)
    case _ => -1
  }

  lemma PlacesDistinct(op: Op)
    requires forall j :: 0 <= j < |op.cols| ==> Place(op.id, op.cols[j]) == j
    requires |op.retrieve| == |op.cols|
    requires forall j :: 0 <= j < |op.cols| && op.retrieve[j].Col? ==> op.retrieve[j].c == op.cols[j]
    ensures Aligned(op)
  {
    forall i, j | 0 <= i < j < |op.cols|
      ensures op.cols[i] != op.cols[j]
    {
      assert Place(op.id, op.cols[i]) == i && Place(op.id, op.cols[j]) == j;
    }
  }

  // The registered tables are what the theorems ask for: column counts and SELECT lists
  // fit the columns, and everything a counter is or counts is carried over.
  lemma ChannelsPlaced()
    ensures |CHANNELS.cols| == 13 && forall j :: 0 <= j < 13 ==> Place(Channels, CHANNELS.cols[j]) == j
  {
  }

  lemma ChannelsMatched()
    ensures |CHANNELS.cols| == |CHANNELS.retrieve| == 13
    ensures forall j :: 0 <= j < 13 && CHANNELS.retrieve[j].Col? ==> CHANNELS.retrieve[j].c == CHANNELS.cols[j]
  {
  }

  lemma ChannelsAligned()
    ensures Registered(CHANNELS)
  {
    hide Aligned, Place;
    ChannelsPlaced();
    ChannelsMatched();
    PlacesDistinct(CHANNELS);
  }

  lemma ChannelsCarried()
    ensures forall c :: c in {ChannelId, Name, Intro, NextPostId, Subscribers} ==> Carried(CHANNELS, c)
  {
    assert CHANNELS.retrieve[0] == Col(ChannelId);
    assert CHANNELS.retrieve[3] == Col(Name);
    assert CHANNELS.retrieve[4] == Col(Intro);
    assert CHANNELS.retrieve[5] == Col(NextPostId);
    assert CHANNELS.retrieve[6] == Col(Subscribers);
  }

  lemma PostsPlaced()
    ensures |POSTS.cols| == 14 && forall j :: 0 <= j < 14 ==> Place(Posts, POSTS.cols[j]) == j
  {
  }

  lemma PostsMatched()
    ensures |POSTS.cols| == |POSTS.retrieve| == 14
    ensures forall j :: 0 <= j < 14 && POSTS.retrieve[j].Col? ==> POSTS.retrieve[j].c == POSTS.cols[j]
  {
  }

  lemma PostsAligned()
    ensures Registered(POSTS)
  {
    hide Aligned, Place;
    PostsPlaced();
    PostsMatched();
    PlacesDistinct(POSTS);
  }

  lemma PostsCarried()
    ensures forall c :: c in {ChannelId, PostId, NextCommentId, LikeCount} ==> Carried(POSTS, c)
  {
    assert POSTS.retrieve[0] == Col(ChannelId);
    assert POSTS.retrieve[1] == Col(PostId);
    assert POSTS.retrieve[4] == Col(NextCommentId);
    assert POSTS.retrieve[5] == Col(LikeCount);
  }

  lemma CommentsPlaced()
    ensures |COMMENTS.cols| == 15 && forall j :: 0 <= j < 15 ==> Place(Comments, COMMENTS.cols[j]) == j
  {
  }

  lemma CommentsMatched()
    ensures |COMMENTS.cols| == |COMMENTS.retrieve| == 15
    ensures forall j :: 0 <= j < 15 && COMMENTS.retrieve[j].Col? ==> COMMENTS.retrieve[j].c == COMMENTS.cols[j]
  {
  }

  lemma CommentsAligned()
    ensures Registered(COMMENTS)
  {
    hide Aligned, Place;
    CommentsPlaced();
    CommentsMatched();
    PlacesDistinct(COMMENTS);
  }

  lemma CommentsCarried()
    ensures forall c :: c in {ChannelId, PostId, CommentId, UserId, LikeCount} ==> Carried(COMMENTS, c)
  {
    assert COMMENTS.retrieve[0] == Col(ChannelId);
    assert COMMENTS.retrieve[1] == Col(PostId);
    assert COMMENTS.retrieve[2] == Col(CommentId);
    assert COMMENTS.retrieve[4] == Col(UserId);
    assert COMMENTS.retrieve[7] == Col(LikeCount);
  }

  lemma UsersPlaced(now: Value)
    ensures |UsersOp(now).cols| == 8 && forall j :: 0 <= j < 8 ==> Place(Users, UsersOp(now).cols[j]) == j
  {
  }

  lemma UsersMatched(now: Value)
    ensures |UsersOp(now).cols| == |UsersOp(now).retrieve| == 8
    ensures forall j :: 0 <= j < 8 && UsersOp(now).retrieve[j].Col? ==>
            UsersOp(now).retrieve[j].c == UsersOp(now).cols[j]
  {
  }

  lemma UsersAligned(now: Value)
    ensures Registered(UsersOp(now))
  {
    hide Aligned, Place;
    UsersPlaced(now);
    UsersMatched(now);
    PlacesDistinct(UsersOp(now));
  }

  lemma SubscriptionsPlaced(now: Value)
    ensures |SubscriptionsOp(now).cols| == 5
    ensures forall j :: 0 <= j < 5 ==> Place(Subscriptions, SubscriptionsOp(now).cols[j]) == j
  {
  }

  lemma SubscriptionsMatched(now: Value)
    ensures |SubscriptionsOp(now).cols| == |SubscriptionsOp(now).retrieve| == 5
    ensures forall j :: 0 <= j < 5 && SubscriptionsOp(now).retrieve[j].Col? ==>
            SubscriptionsOp(now).retrieve[j].c == SubscriptionsOp(now).cols[j]
  {
  }

  lemma SubscriptionsAligned(now: Value)
    ensures Registered(SubscriptionsOp(now))
  {
    hide Aligned, Place;
    SubscriptionsPlaced(now);
    SubscriptionsMatched(now);
    PlacesDistinct(SubscriptionsOp(now));
  }

  lemma SubscriptionsCarried(now: Value)
    ensures forall c :: c in {UserId, ChannelId} ==> Carried(SubscriptionsOp(now), c)
  {
    assert SubscriptionsOp(now).retrieve[0] == Col(UserId);
    assert SubscriptionsOp(now).retrieve[1] == Col(ChannelId);
  }

  lemma LikesPlaced()
    ensures |LIKES.cols| == 7 && forall j :: 0 <= j < 7 ==> Place(Likes, LIKES.cols[j]) == j
  {
  }

  lemma LikesMatched()
    ensures |LIKES.cols| == |LIKES.retrieve| == 7
    ensures forall j :: 0 <= j < 7 && LIKES.retrieve[j].Col? ==> LIKES.retrieve[j].c == LIKES.cols[j]
  {
  }

  lemma LikesAligned()
    ensures Registered(LIKES)
  {
    hide Aligned, Place;
    LikesPlaced();
    LikesMatched();
    PlacesDistinct(LIKES);
  }

  lemma LikesCarried()
    ensures forall c :: c in {ChannelId, PostId, CommentId, UserId} ==> Carried(LIKES, c)
  {
    assert LIKES.retrieve[0] == Col(ChannelId);
    assert LIKES.retrieve[1] == Col(PostId);
    assert LIKES.retrieve[2] == Col(CommentId);
    assert LIKES.retrieve[3] == Col(UserId);
  }

  lemma RegistryFits(now: Value)
    ensures DistinctIds(Registry(now))
    ensures forall i :: 0 <= i < 9 ==> Registered(Registry(now)[i]) && (Registry(now)[i].backup <==> i < 6)
  {
    hide Aligned;
    ChannelsAligned();
    PostsAligned();
    CommentsAligned();
    UsersAligned(now);
    SubscriptionsAligned(now);
    LikesAligned();
  }

  // A table registered without a backup and not taken for current keeps the service from
  // starting, unless it does not exist yet.
  lemma NoBackupNoStart(s: Schema, now: Value, looks: seq<Look>, faults: seq<bool>, i: nat)
    requires Proper(s) && |looks| == 9 && 6 <= i < 9 && Judged(s, Registry(now)[i], looks[i]).Older?
    ensures RunOps(s, Registry(now), looks, 0, faults).None?
  {
    hide RunOps;
    RegistryFits(now);
    RunOpsExactly(s, Registry(now), looks, 0, faults);
    assert !Ready(s, Registry(now)[i], Older);
  }

  // Start-up as it is, under any look-ups and faults: a success keeps the meaning of every
  // registered table. With complete look-ups, starting again changes nothing, whenever
  // that is and whatever its faults.
  lemma StartUpKeepsMeaning(s: Schema, now: Value, looks: seq<Look>, faults: seq<bool>, i: nat)
    requires Proper(s) && |looks| == 9 && i < 9 && RunOps(s, Registry(now), looks, 0, faults).Some?
    ensures var s', op := RunOps(s, Registry(now), looks, 0, faults).value, Registry(now)[i];
            Proper(s') && Outcome(s, s', op, Judged(s, op, looks[i]))
  {
    hide RunOps, Registered, Outcome;
    RegistryFits(now);
    MigrationKeepsMeaning(s, Registry(now), looks, 0, faults, i);
  }

  lemma StartUpAgain(s: Schema, now: Value, later: Value, looks: seq<Look>, looks': seq<Look>, faults: seq<bool>,
      faults': seq<bool>)
    requires Proper(s) && |looks| == |looks'| == 9 && RunOps(s, Registry(now), looks, 0, faults).Some?
    requires forall i :: 0 <= i < 9 ==> Complete(s, Registry(now)[i], looks[i])
    ensures var s' := RunOps(s, Registry(now), looks, 0, faults).value;
            Proper(s') && ((forall i :: 0 <= i < 9 ==> Complete(s', Registry(later)[i], looks'[i])) ==>
                             RunOps(s', Registry(later), looks', 0, faults') == Some(s'))
  {
    hide RunOps, Registered, Complete;
    RegistryFits(now);
    MigrationIsIdempotent(s, Registry(now), Registry(later), looks, looks', 0, faults, faults');
  }

  // A service started on this version, with one channel that takes tips.
  function Tipped(now: Value): Schema {
    var row := [Num(1), Num(0), Num(0), Str("news"), Str(""), Num(1), Num(0), Num(0), NA, Str("tips"), NA, NA, BLANK];
    var channels := map[Newest(Channels) := Table(CHANNELS.cols, [row])];
    var others := map[
      Newest(Posts) := Table(POSTS.cols, []), Newest(Comments) := Table(COMMENTS.cols, []),
      Newest(Users) := Table(UsersOp(now).cols, []), Newest(Subscriptions) := Table(SubscriptionsOp(now).cols, []),
      Newest(Likes) := Table(LIKES.cols, []), Newest(ReportedComments) := Table(REPORTED_COMMENTS.cols, []),
      Newest(Tipping) := Table(TIPPING.cols, []), Newest(Notification) := Table(NOTIFICATION.cols, [])];
    Schema(others + channels, IndexesOf(CHANNELS) + IndexesOf(POSTS) + IndexesOf(COMMENTS))
  }

  // The next start reads no column of the channels table, and all of the others.
  function FirstUnread(): seq<Look> {
    seq(9, i => Look(true, true, if i == 0 then 0 else 15))
  }

  lemma TippedTables(now: Value, i: nat)
    requires i < 9
    ensures var s, op := Tipped(now), Registry(now)[i];
            && Newest(op.id) in s.tables && s.tables[Newest(op.id)].cols == op.cols
            && (i > 0 ==> s.tables[Newest(op.id)].rows == []) && Backup(op.id) !in s.tables
  {
  }

  lemma TippedProper(now: Value)
    ensures Proper(Tipped(now)) && Newest(Channels) in Tipped(now).tables
    ensures var t := Tipped(now).tables[Newest(Channels)];
            && t.cols == CHANNELS.cols && |t.rows| == 1 && |t.rows[0]| == 13 && t.rows[0][9] == Str("tips")
  {
  }

  lemma TippedCurrent(now: Value, i: nat)
    requires i < 9
    ensures var s, op := Tipped(now), Registry(now)[i];
            && Checked(s, op) == Current
            && Judged(s, op, FirstUnread()[i]) == (if i == 0 then Older else Current)
            && Ready(s, op, Judged(s, op, FirstUnread()[i]))
  {
    hide Tipped;
    TippedTables(now, i);
    RegistrySizes(now, i);
    if i == 0 {
      TippedIndexes(now);
      ChannelsMatched();
    }
  }

  lemma RegistrySizes(now: Value, i: nat)
    requires i < 9
    ensures 2 < Registry(now)[i].itemNum == |Registry(now)[i].cols| <= 15
  {
  }

  lemma TippedIndexes(now: Value)
    ensures IndexesOf(CHANNELS) <= Tipped(now).indexes
  {
  }

  // That start succeeds, and the tip methods are gone.
  lemma MisreadLosesTips(now: Value)
    ensures var s := Tipped(now);
            && Proper(s) && (forall i :: 0 <= i < 9 ==> Checked(s, Registry(now)[i]) == Current)
            && var r := RunOps(s, Registry(now), FirstUnread(), 0, []);
            && r.Some? && Newest(Channels) in r.value.tables && WellFormed(r.value.tables[Newest(Channels)])
            && |r.value.tables[Newest(Channels)].rows| == 1
            && r.value.tables[Newest(Channels)].cols == CHANNELS.cols
            && r.value.tables[Newest(Channels)].rows[0][9] == NA != s.tables[Newest(Channels)].rows[0][9]
  {
    hide Tipped, RunOps, Registered, Judged, Ready, Checked, FirstUnread;
    var s, ops, looks := Tipped(now), Registry(now), FirstUnread();
    TippedProper(now);
    RegistryFits(now);
    LooksCount();
    forall i | 0 <= i < 9
      ensures Checked(s, ops[i]) == Current && Ready(s, ops[i], Judged(s, ops[i], looks[i]))
    {
      TippedCurrent(now, i);
    }
    RunOpsExactly(s, ops, looks, 0, []);
    RunOpsEffect(s, ops, looks, 0, [], 0);
    TippedCurrent(now, 0);
    TipsBlanked(s);
  }

  lemma LooksCount()
    ensures |FirstUnread()| == 9
  {
  }

  lemma TipsBlanked(s: Schema)
    requires Proper(s) && Ready(s, CHANNELS, Older) && |s.tables[Newest(Channels)].rows| == 1
    ensures var t := Upgraded(s, CHANNELS, Older).tables[Newest(Channels)];
            t.cols == CHANNELS.cols && |t.rows| == 1 && |t.rows[0]| == 13 && t.rows[0][9] == NA
  {
    ChannelsMatched();
    assert CHANNELS.retrieve[9] == Const(NA);
  }
}
