/** The two tables the importer writes, and what its statements do to them. */
module SqlDatabase {
  import opened Prelude
  import Json

  /** A value of a column. */
  datatype Sql =
    | SqlNull
    | SqlBool(b: bool)
    | SqlInt(n: int)
    | SqlText(s: string)
    | SqlJson(v: Json.Value)

  /** The columns of `chat_gw.tools` an import sets. */
  datatype Columns = Columns(
    displayName: Sql, description: string, category: Sql, dispatcher: Sql, config: Sql,
    authMode: Sql, secretEnvName: Sql, authHeader: Sql, authPrefix: Sql,
    inputSchema: Sql, outputSchema: Sql)

  /** A row of `chat_gw.tools`; `enabled` and `version` have defaults and belong to the admin. */
  datatype Row = Row(id: nat, columns: Columns, enabled: bool, version: int)

  /** Tools by their unique name, role grants by tool id, and the next serial. */
  datatype Db = Db(tools: map<string, Row>, grants: set<(nat, string)>, nextId: nat)

  /** Ids are unique and below the serial; every grant refers to a tool. */
  ghost predicate Valid(db: Db) {
    && (forall n | n in db.tools :: db.tools[n].id < db.nextId)
    && (forall m, n | m in db.tools && n in db.tools :: db.tools[m].id == db.tools[n].id ==> m == n)
    && (forall g | g in db.grants :: exists n :: n in db.tools && db.tools[n].id == g.0)
  }

  datatype Statement =
    | Begin
    | Commit
    | Upsert(name: string, columns: Columns)
    | ClearGrants(names: seq<string>)
    | AddGrants(name: string, roles: seq<string>)

  function Ids(db: Db, names: seq<string>): set<nat> {
    set n | n in names && n in db.tools :: db.tools[n].id
  }

  /** One data statement. The serial is consumed by an upsert even when the row exists. */
  function Execute(db: Db, s: Statement): Db {
    match s
    case Upsert(name, columns) =>
      var row := if name in db.tools then db.tools[name].(columns := columns)
                 else Row(db.nextId, columns, true, 1);
      db.(tools := db.tools[name := row], nextId := db.nextId + 1)
    case ClearGrants(names) =>
      var gone := Ids(db, names);
      db.(grants := set g | g in db.grants && g.0 !in gone)
    case AddGrants(name, roles) =>
      if name in db.tools then
        db.(grants := db.grants + set r | r in roles :: (db.tools[name].id, r))
      else db
    case Begin => db
    case Commit => db
  }

  /** A connection: what others see, and the open transaction if there is one. */
  datatype Session = Session(committed: Db, work: Option<Db>)

  function Step(c: Session, s: Statement): Session {
    match s
    case Begin => if c.work.Some? then c else c.(work := Some(c.committed))
    case Commit => if c.work.Some? then Session(c.work.value, None) else c
    case _ => if c.work.Some? then c.(work := Some(Execute(c.work.value, s)))
              else c.(committed := Execute(c.committed, s))
  }

  function Run(c: Session, script: seq<Statement>): Session
    decreases |script|
  {
    if script == [] then c else Run(Step(c, script[0]), script[1..])
  }

  function ExecuteAll(db: Db, script: seq<Statement>): Db
    decreases |script|
  {
    if script == [] then db else ExecuteAll(Execute(db, script[0]), script[1..])
  }

  predicate IsData(s: Statement) {
    !s.Begin? && !s.Commit?
  }

  lemma {:induction false} RunConcat(c: Session, a: seq<Statement>, b: seq<Statement>)
    ensures Run(c, a + b) == Run(Run(c, a), b)
    decreases |a|
  {
    if a == [] {
      assert a + b == b;
    } else {
      assert (a + b)[0] == a[0] && (a + b)[1..] == a[1..] + b;
      RunConcat(Step(c, a[0]), a[1..], b);
    }
  }

  lemma {:induction false} ExecuteConcat(db: Db, a: seq<Statement>, b: seq<Statement>)
    ensures ExecuteAll(db, a + b) == ExecuteAll(ExecuteAll(db, a), b)
    decreases |a|
  {
    if a == [] {
      assert a + b == b;
    } else {
      assert (a + b)[0] == a[0] && (a + b)[1..] == a[1..] + b;
      ExecuteConcat(Execute(db, a[0]), a[1..], b);
    }
  }

  /** Inside a transaction nothing is visible. */
  lemma {:induction false} RunInTransaction(c: Session, script: seq<Statement>)
    requires c.work.Some?
    requires forall s | s in script :: IsData(s)
    ensures Run(c, script) == Session(c.committed, Some(ExecuteAll(c.work.value, script)))
    decreases |script|
  {
    if script != [] {
      assert script[0] in script;
      forall s | s in script[1..] ensures IsData(s) { assert s in script; }
      RunInTransaction(Step(c, script[0]), script[1..]);
    }
  }

  lemma ExecuteKeepsValid(db: Db, s: Statement)
    requires Valid(db)
    ensures Valid(Execute(db, s))
  {
    var after := Execute(db, s);
    forall g | g in after.grants ensures exists n :: n in after.tools && after.tools[n].id == g.0 {
      if g in db.grants {
        var n :| n in db.tools && db.tools[n].id == g.0;
        assert n in after.tools && after.tools[n].id == g.0;
      }
    }
  }
}
