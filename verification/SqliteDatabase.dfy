/** The driver object, whose `depth` and `savepointCounter` change around every call. */
module SqliteDatabase {
  import opened Wrappers
  import Spec = Transactions

  class SqliteDatabase<D, W> {
    const schema: Spec.Schema<D, W>
    var engine: Spec.Engine<D>
    var depth: int
    var savepointCounter: nat

    ghost function Now(): Spec.Driver<D>
      reads this
    {
      Spec.Driver(engine, depth, savepointCounter)
    }

    constructor (schema: Spec.Schema<D, W>, data: D)
      ensures this.schema == schema && Now() == Spec.Driver(Spec.Engine(data, None, []), 0, 0)
    {
      this.schema := schema;
      engine := Spec.Engine(data, None, []);
      depth, savepointCounter := 0, 0;
    }

    method ExecuteSync(c: Spec.Command) returns (threw: bool)
      modifies this
      ensures (Now(), threw) == Spec.Do(schema, old(Now()), c)
    {
      var r := Spec.Execute(schema, engine, c);
      if r.None? { return true; }
      engine := r.value;
      return false;
    }

    /** Runs a caller's code, which may call `Transaction` again. */
    method Call(p: Spec.Program<W>) returns (threw: bool)
      modifies this
      ensures (Now(), threw) == Spec.Run(schema, p, old(Now()))
      ensures Spec.Consistent(old(Now())) ==>
        && (engine.data, threw) == Spec.Meaning(schema, p, old(engine.data), old(depth) > 0)
        && Spec.SameNesting(old(Now()), Now()) && Spec.Consistent(Now())
      decreases p, 1
    {
      if Spec.Consistent(Now()) { Spec.RunIsMeaning(schema, p, Now()); }
      match p {
        case Skip => return false;
        case Throw => return true;
        case Write(w) =>
          var r := schema.apply(engine.data, w);
          if r.None? { return true; }
          engine := engine.(data := r.value);
          return false;
        case Seq(a, b) =>
          threw := Call(a);
          if threw { return true; }
          threw := Call(b);
        case Catch(a) =>
          var _ := Call(a);
          return false;
        case Transaction(a) => threw := Transaction(a);
      }
    }

    method Transaction(body: Spec.Program<W>) returns (threw: bool)
      modifies this
      ensures (Now(), threw) == Spec.Run(schema, Spec.Transaction(body), old(Now()))
      decreases body, 2
    {
      hide Spec.OpenNested, Spec.CloseNested, Spec.OpenOutermost, Spec.CloseOutermost;
      if depth > 0 {
        var name := savepointCounter + 1;
        threw := EnterSavepoint();
        if threw { return; }
        threw := Call(body);
        threw := LeaveSavepoint(threw, name);
      } else {
        threw := Enter();
        if threw { return; }
        threw := Call(body);
        threw := Leave(threw);
      }
    }

    method EnterSavepoint() returns (threw: bool)
      modifies this
      ensures (Now(), threw) == Spec.OpenNested(schema, old(Now()))
    {
      hide Spec.Execute;
      savepointCounter := savepointCounter + 1;
      threw := ExecuteSync(Spec.SavepointAs(savepointCounter));
      if threw { return; }
      depth := depth + 1;
    }

    /** The `try`, `catch` and `finally` around a nested call. */
    method LeaveSavepoint(bodyThrew: bool, name: nat) returns (threw: bool)
      modifies this
      ensures (Now(), threw) == Spec.CloseNested(schema, old(Now()), bodyThrew, name)
    {
      hide Spec.Execute, Spec.Do;
      threw := bodyThrew;
      if !threw { threw := ExecuteSync(Spec.Release(name)); }
      if threw { Undo(name); }
      depth := depth - 1;
    }

    method Undo(name: nat)
      modifies this
      ensures Now() == Spec.Undo(schema, old(Now()), name)
    {
      hide Spec.Execute, Spec.Do;
      var stuck := ExecuteSync(Spec.RollbackTo(name));
      if !stuck { stuck := ExecuteSync(Spec.Release(name)); }
    }

    method Enter() returns (threw: bool)
      modifies this
      ensures (Now(), threw) == Spec.OpenOutermost(schema, old(Now()))
    {
      hide Spec.Execute, Spec.Do;
      threw := ExecuteSync(Spec.Begin);
      if threw { return; }
      depth := depth + 1;
    }

    /** The same around the outermost call. */
    method Leave(bodyThrew: bool) returns (threw: bool)
      modifies this
      ensures (Now(), threw) == Spec.CloseOutermost(schema, old(Now()), bodyThrew)
    {
      hide Spec.Execute, Spec.Do;
      threw := bodyThrew;
      if !threw { threw := ExecuteSync(Spec.Commit); }
      if threw { var _ := ExecuteSync(Spec.Rollback); }
      depth := depth - 1;
    }
  }
}
