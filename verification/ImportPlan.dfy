/** The script an import runs, and what running it does to the database. */
module ImportPlan {
  import opened Prelude
  import opened SqlDatabase

  /** One tool of an accepted spec: its row and the roles it ends up with. */
  datatype ToolPlan = ToolPlan(name: string, columns: Columns, roles: seq<string>)

  function Names(plans: seq<ToolPlan>): seq<string> {
    seq(|plans|, i requires 0 <= i < |plans| => plans[i].name)
  }

  function Upserts(plans: seq<ToolPlan>): seq<Statement> {
    seq(|plans|, i requires 0 <= i < |plans| => Upsert(plans[i].name, plans[i].columns))
  }

  function Grants(plans: seq<ToolPlan>): seq<Statement> {
    seq(|plans|, i requires 0 <= i < |plans| => AddGrants(plans[i].name, plans[i].roles))
  }

  function Body(plans: seq<ToolPlan>): seq<Statement> {
    Upserts(plans) + [ClearGrants(Names(plans))] + Grants(plans)
  }

  function Script(plans: seq<ToolPlan>): seq<Statement> {
    [Begin] + Body(plans) + [Commit]
  }

  ghost predicate Distinct(plans: seq<ToolPlan>) {
    forall i, j | 0 <= i < j < |plans| :: plans[i].name != plans[j].name
  }

  ghost predicate Named(plans: seq<ToolPlan>, name: string) {
    exists i :: 0 <= i < |plans| && plans[i].name == name
  }

  ghost predicate HasRole(db: Db, name: string, role: string) {
    name in db.tools && (db.tools[name].id, role) in db.grants
  }

  /** The row of an imported tool: new columns; identity, `enabled` and `version` as before. */
  ghost predicate RowImported(before: Db, after: Db, p: ToolPlan) {
    && p.name in after.tools
    && after.tools[p.name].columns == p.columns
    && (if p.name in before.tools
        then after.tools[p.name] == before.tools[p.name].(columns := p.columns)
        else after.tools[p.name].enabled && after.tools[p.name].version == 1
             && before.nextId <= after.tools[p.name].id)
  }

  /** What an import promises, tool by tool and role by role. */
  ghost predicate Imported(before: Db, after: Db, plans: seq<ToolPlan>) {
    && Valid(after)
    && (forall i | 0 <= i < |plans| :: RowImported(before, after, plans[i]))
    && (forall i, r | 0 <= i < |plans| :: HasRole(after, plans[i].name, r) <==> r in plans[i].roles)
    && (forall n :: n in after.tools <==> n in before.tools || Named(plans, n))
    && (forall n | n in before.tools && !Named(plans, n) :: after.tools[n] == before.tools[n])
    && (forall n, r | n in before.tools && !Named(plans, n) :: HasRole(after, n, r) <==> HasRole(before, n, r))
  }

  // ---------- The three phases ----------

  lemma NamedSnoc(init: seq<ToolPlan>, p: ToolPlan)
    ensures forall n :: Named(init + [p], n) <==> Named(init, n) || n == p.name
  {
    var plans := init + [p];
    assert plans[|init|].name == p.name;
    forall n | Named(init, n) ensures Named(plans, n) {
      var i :| 0 <= i < |init| && init[i].name == n;
      assert plans[i].name == n;
    }
  }

  ghost predicate Upserted(before: Db, after: Db, plans: seq<ToolPlan>) {
    && Valid(after) && after.grants == before.grants && before.nextId <= after.nextId
    && (forall i | 0 <= i < |plans| :: RowImported(before, after, plans[i]))
    && (forall n :: n in after.tools <==> n in before.tools || Named(plans, n))
    && (forall n | n in before.tools && !Named(plans, n) :: after.tools[n] == before.tools[n])
  }

  lemma UpsertStep(db: Db, mid: Db, init: seq<ToolPlan>, p: ToolPlan)
    requires Upserted(db, mid, init) && !Named(init, p.name)
    ensures Upserted(db, Execute(mid, Upsert(p.name, p.columns)), init + [p])
  {
    var plans, after := init + [p], Execute(mid, Upsert(p.name, p.columns));
    ExecuteKeepsValid(mid, Upsert(p.name, p.columns));
    NamedSnoc(init, p);
    forall i | 0 <= i < |plans| ensures RowImported(db, after, plans[i]) {
      if i < |init| {
        assert RowImported(db, mid, init[i]) && init[i].name != p.name;
      }
    }
  }

  lemma DistinctInit(plans: seq<ToolPlan>, k: nat)
    requires Distinct(plans) && |plans| == k + 1
    ensures Distinct(plans[..k]) && !Named(plans[..k], plans[k].name)
    ensures plans[..k] + [plans[k]] == plans
    ensures Upserts(plans) == Upserts(plans[..k]) + [Upsert(plans[k].name, plans[k].columns)]
    ensures Grants(plans) == Grants(plans[..k]) + [AddGrants(plans[k].name, plans[k].roles)]
  {
  }

  lemma {:induction false} UpsertsPhase(db: Db, plans: seq<ToolPlan>)
    requires Valid(db) && Distinct(plans)
    ensures Upserted(db, ExecuteAll(db, Upserts(plans)), plans)
    decreases |plans|
  {
    if plans == [] {
      assert Upserts(plans) == [];
    } else {
      var k := |plans| - 1;
      var init, p := plans[..k], plans[k];
      DistinctInit(plans, k);
      UpsertsPhase(db, init);
      ExecuteLast(db, Upserts(init), Upsert(p.name, p.columns));
      UpsertStep(db, ExecuteAll(db, Upserts(init)), init, p);
    }
  }

  lemma ExecuteLast(db: Db, a: seq<Statement>, s: Statement)
    ensures ExecuteAll(db, a + [s]) == Execute(ExecuteAll(db, a), s)
  {
    ExecuteConcat(db, a, [s]);
    var mid := ExecuteAll(db, a);
    assert ExecuteAll(mid, [s]) == ExecuteAll(Execute(mid, s), [s][1..]);
  }

  /** Clearing removes every grant of the named tools and no other. */
  lemma ClearPhase(db: Db, names: seq<string>)
    requires Valid(db)
    ensures var after := Execute(db, ClearGrants(names));
      && Valid(after) && after.tools == db.tools
      && forall n, r :: HasRole(after, n, r) <==> HasRole(db, n, r) && n !in names
  {
  }

  ghost predicate Granted(before: Db, after: Db, plans: seq<ToolPlan>) {
    && Valid(after) && after.tools == before.tools
    && (forall i, r | 0 <= i < |plans| :: HasRole(after, plans[i].name, r)
          <==> HasRole(before, plans[i].name, r) || r in plans[i].roles)
    && (forall n, r | !Named(plans, n) :: HasRole(after, n, r) <==> HasRole(before, n, r))
  }

  lemma GrantStep(db: Db, mid: Db, init: seq<ToolPlan>, p: ToolPlan)
    requires Granted(db, mid, init) && !Named(init, p.name) && p.name in db.tools
    ensures Granted(db, Execute(mid, AddGrants(p.name, p.roles)), init + [p])
  {
    var plans, after := init + [p], Execute(mid, AddGrants(p.name, p.roles));
    ExecuteKeepsValid(mid, AddGrants(p.name, p.roles));
    NamedSnoc(init, p);
    forall i, r | 0 <= i < |plans|
      ensures HasRole(after, plans[i].name, r) <==> HasRole(db, plans[i].name, r) || r in plans[i].roles
    {
      if i < |init| { assert plans[i] == init[i] && init[i].name != p.name; }
    }
  }

  lemma {:induction false} GrantsPhase(db: Db, plans: seq<ToolPlan>)
    requires Valid(db) && Distinct(plans)
    requires forall i | 0 <= i < |plans| :: plans[i].name in db.tools
    ensures Granted(db, ExecuteAll(db, Grants(plans)), plans)
    decreases |plans|
  {
    if plans == [] {
      assert Grants(plans) == [];
    } else {
      var k := |plans| - 1;
      var init, p := plans[..k], plans[k];
      DistinctInit(plans, k);
      GrantsPhase(db, init);
      ExecuteLast(db, Grants(init), AddGrants(p.name, p.roles));
      GrantStep(db, ExecuteAll(db, Grants(init)), init, p);
    }
  }

  lemma NamesAreNamed(plans: seq<ToolPlan>)
    ensures forall n :: n in Names(plans) <==> Named(plans, n)
  {
    forall n ensures n in Names(plans) <==> Named(plans, n) {
      if n in Names(plans) {
        var i :| 0 <= i < |plans| && Names(plans)[i] == n;
        assert plans[i].name == n;
      }
      if Named(plans, n) {
        var i :| 0 <= i < |plans| && plans[i].name == n;
        assert Names(plans)[i] == n;
      }
    }
  }

  lemma PhasesImport(db: Db, rows: Db, cleared: Db, after: Db, plans: seq<ToolPlan>)
    requires Upserted(db, rows, plans) && Granted(cleared, after, plans)
    requires cleared.tools == rows.tools
    requires forall n, r :: HasRole(cleared, n, r) <==> HasRole(rows, n, r) && !Named(plans, n)
    ensures Imported(db, after, plans)
  {
  }

  /** Running the statements between BEGIN and COMMIT is a correct import. */
  lemma BodyImports(db: Db, plans: seq<ToolPlan>)
    requires Valid(db) && Distinct(plans)
    ensures Imported(db, ExecuteAll(db, Body(plans)), plans)
  {
    var rows := ExecuteAll(db, Upserts(plans));
    UpsertsPhase(db, plans);
    var clear := ClearGrants(Names(plans));
    var cleared := Execute(rows, clear);
    ClearPhase(rows, Names(plans));
    NamesAreNamed(plans);
    forall i | 0 <= i < |plans| ensures plans[i].name in cleared.tools {
      assert RowImported(db, rows, plans[i]);
    }
    GrantsPhase(cleared, plans);
    ExecuteLast(db, Upserts(plans), clear);
    ExecuteConcat(db, Upserts(plans) + [clear], Grants(plans));
    PhasesImport(db, rows, cleared, ExecuteAll(cleared, Grants(plans)), plans);
  }

  /** The whole script commits the import, and until COMMIT nobody sees any of it. */
  lemma ScriptCommitsOrNothing(db: Db, plans: seq<ToolPlan>, k: nat)
    requires Valid(db) && Distinct(plans)
    requires k <= |Script(plans)|
    ensures var c := Run(Session(db, None), Script(plans)[..k]);
      if k < |Script(plans)| then c.committed == db
      else c.work.None? && Imported(db, c.committed, plans)
  {
    var body, script := Body(plans), Script(plans);
    var start := Session(db, Some(db));
    assert forall s | s in body :: IsData(s);
    if k == 0 {
    } else if k < |script| {
      assert script[..k] == [Begin] + body[..k - 1];
      RunConcat(Session(db, None), [Begin], body[..k - 1]);
      assert Run(Session(db, None), [Begin]) == start;
      RunInTransaction(start, body[..k - 1]);
    } else {
      assert script[..k] == [Begin] + (body + [Commit]);
      RunConcat(Session(db, None), [Begin], body + [Commit]);
      assert Run(Session(db, None), [Begin]) == start;
      RunConcat(start, body, [Commit]);
      RunInTransaction(start, body);
      var open := Run(start, body);
      assert Run(open, [Commit]) == Step(open, Commit);
      BodyImports(db, plans);
    }
  }

  /** A second import changes no tool row and no (tool, role) pair. */
  lemma SecondImportChangesNothing(db: Db, once: Db, twice: Db, plans: seq<ToolPlan>)
    requires Imported(db, once, plans) && Imported(once, twice, plans)
    ensures twice.tools == once.tools
    ensures twice.grants == once.grants
  {
    forall n ensures n in twice.tools <==> n in once.tools {}
    forall n | n in once.tools ensures twice.tools[n] == once.tools[n] {
      if Named(plans, n) {
        var i :| 0 <= i < |plans| && plans[i].name == n;
        assert RowImported(db, once, plans[i]) && RowImported(once, twice, plans[i]);
      }
    }
    assert twice.tools == once.tools;
    forall n, r | n in once.tools ensures HasRole(twice, n, r) <==> HasRole(once, n, r) {
      if Named(plans, n) {
        var i :| 0 <= i < |plans| && plans[i].name == n;
      }
    }
    GrantsFollowRoles(once, twice);
    GrantsFollowRoles(twice, once);
  }

  lemma GrantsFollowRoles(a: Db, b: Db)
    requires Valid(a) && a.tools == b.tools
    requires forall n, r | n in a.tools :: HasRole(a, n, r) ==> HasRole(b, n, r)
    ensures a.grants <= b.grants
  {
    forall g | g in a.grants ensures g in b.grants {
      var n :| n in a.tools && a.tools[n].id == g.0;
      assert HasRole(a, n, g.1);
    }
  }
}
