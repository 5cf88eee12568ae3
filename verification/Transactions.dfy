/**
  Nested transactions over an engine that knows BEGIN, COMMIT, ROLLBACK and named
  savepoints: the commands the driver issues, and the all-or-nothing meaning they amount to.
 */
module Transactions {
  import opened Wrappers

  /** `apply` runs a statement or refuses it, changing nothing; `commits` is the check a COMMIT may fail. */
  datatype Schema<!D, !W> = Schema(apply: (D, W) -> Option<D>, commits: D -> bool)

  /** What a caller can do inside `transaction(fn)`. */
  datatype Program<W> =
    | Skip
    | Write(statement: W)
    | Throw
    | Seq(first: Program<W>, second: Program<W>)
    | Catch(attempt: Program<W>)
    | Transaction(body: Program<W>)

  // -- reference meaning -----------------------------------------------------

  /** Data afterwards, and whether it threw.  `inner` says a transaction is already open. */
  function Meaning<D, W>(s: Schema<D, W>, p: Program<W>, d: D, inner: bool): (D, bool) {
    match p
    case Skip => (d, false)
    case Throw => (d, true)
    case Write(w) => (match s.apply(d, w) case Some(d') => (d', false) case None => (d, true))
    case Seq(a, b) =>
      var (d1, threw) := Meaning(s, a, d, inner);
      if threw then (d1, true) else Meaning(s, b, d1, inner)
    case Catch(a) => (Meaning(s, a, d, inner).0, false)
    case Transaction(a) =>
      var (d1, threw) := Meaning(s, a, d, true);
      if threw || (!inner && !s.commits(d1)) then (d, true) else (d1, false)
  }

  // -- the engine ------------------------------------------------------------

  datatype Savepoint<+D> = Savepoint(name: nat, data: D)

  /** `base` is the data a ROLLBACK returns to while a transaction is open. */
  datatype Engine<+D> = Engine(data: D, base: Option<D>, savepoints: seq<Savepoint<D>>)

  datatype Command = Begin | Commit | Rollback | SavepointAs(name: nat) | Release(name: nat) | RollbackTo(name: nat)

  /** Index of the newest savepoint of that name. */
  function Find<D>(savepoints: seq<Savepoint<D>>, name: nat): (i: int)
    ensures -1 <= i < |savepoints|
    ensures i >= 0 ==> savepoints[i].name == name
    ensures forall j :: i < j < |savepoints| ==> savepoints[j].name != name
    decreases |savepoints|
  {
    if savepoints == [] then -1
    else if savepoints[|savepoints| - 1].name == name then |savepoints| - 1
    else Find(savepoints[..|savepoints| - 1], name)
  }

  /** The engine after a command, or None when it refuses. */
  function Execute<D, W>(s: Schema<D, W>, e: Engine<D>, c: Command): Option<Engine<D>> {
    match c
    case Begin => if e.base.Some? then None else Some(Engine(e.data, Some(e.data), []))
    case Commit => if e.base.None? || !s.commits(e.data) then None else Some(Engine(e.data, None, []))
    case Rollback => if e.base.None? then None else Some(Engine(e.base.value, None, []))
    case SavepointAs(name) => Some(e.(savepoints := e.savepoints + [Savepoint(name, e.data)]))
    case Release(name) =>
      var i := Find(e.savepoints, name);
      if i < 0 then None else Some(e.(savepoints := e.savepoints[..i]))
    case RollbackTo(name) =>
      var i := Find(e.savepoints, name);
      if i < 0 then None else Some(e.(data := e.savepoints[i].data, savepoints := e.savepoints[..i + 1]))
  }

  // -- the driver ------------------------------------------------------------

  datatype Driver<+D> = Driver(engine: Engine<D>, depth: int, savepointCounter: nat)

  /** A command that refuses throws. */
  function Do<D, W>(s: Schema<D, W>, v: Driver<D>, c: Command): (Driver<D>, bool) {
    match Execute(s, v.engine, c)
    case None => (v, true)
    case Some(e) => (v.(engine := e), false)
  }

  /** The `catch` of a nested call: back to the savepoint, then drop it, stopping if a command throws. */
  function Undo<D, W>(s: Schema<D, W>, v: Driver<D>, name: nat): Driver<D> {
    var (v1, threw) := Do(s, v, RollbackTo(name));
    if threw then v1 else Do(s, v1, Release(name)).0
  }

  /** Into a savepoint of a fresh name; one command that may throw. */
  function OpenNested<D, W>(s: Schema<D, W>, v: Driver<D>): (Driver<D>, bool) {
    var name := v.savepointCounter + 1;
    var (v1, refused) := Do(s, v.(savepointCounter := name), SavepointAs(name));
    if refused then (v1, true) else (v1.(depth := v1.depth + 1), false)
  }

  /** Out of it: release, or on any throw undo; `finally` lowers the depth either way. */
  function CloseNested<D, W>(s: Schema<D, W>, v: Driver<D>, threw: bool, name: nat): (Driver<D>, bool) {
    var (v1, failed) := if threw then (v, true) else Do(s, v, Release(name));
    var v2 := if failed then Undo(s, v1, name) else v1;
    (v2.(depth := v2.depth - 1), failed)
  }

  function OpenOutermost<D, W>(s: Schema<D, W>, v: Driver<D>): (Driver<D>, bool) {
    var (v1, refused) := Do(s, v, Begin);
    if refused then (v1, true) else (v1.(depth := v1.depth + 1), false)
  }

  function CloseOutermost<D, W>(s: Schema<D, W>, v: Driver<D>, threw: bool): (Driver<D>, bool) {
    var (v1, failed) := if threw then (v, true) else Do(s, v, Commit);
    var v2 := if failed then Do(s, v1, Rollback).0 else v1;
    (v2.(depth := v2.depth - 1), failed)
  }

  function Run<D, W>(s: Schema<D, W>, p: Program<W>, v: Driver<D>): (Driver<D>, bool)
    decreases p
  {
    match p
    case Skip => (v, false)
    case Throw => (v, true)
    case Write(w) =>
      (match s.apply(v.engine.data, w)
       case Some(d) => (v.(engine := v.engine.(data := d)), false)
       case None => (v, true))
    case Seq(a, b) =>
      var (v1, threw) := Run(s, a, v);
      if threw then (v1, true) else Run(s, b, v1)
    case Catch(a) => (Run(s, a, v).0, false)
    case Transaction(a) =>
      if v.depth > 0 then
        var (v1, refused) := OpenNested(s, v);
        if refused then (v1, true)
        else
          var (v2, threw) := Run(s, a, v1);
          CloseNested(s, v2, threw, v.savepointCounter + 1)
      else
        var (v1, refused) := OpenOutermost(s, v);
        if refused then (v1, true)
        else
          var (v2, threw) := Run(s, a, v1);
          CloseOutermost(s, v2, threw)
  }

  // -- the theorem -----------------------------------------------------------

  /** Open transactions and depth agree, and no open savepoint bears a name yet to be given. */
  ghost predicate Consistent<D>(v: Driver<D>) {
    && v.depth >= 0
    && (v.depth > 0 <==> v.engine.base.Some?)
    && (v.depth == 0 ==> v.engine.savepoints == [])
    && forall i :: 0 <= i < |v.engine.savepoints| ==> v.engine.savepoints[i].name <= v.savepointCounter
  }

  /** Same depth, same open transaction, same savepoints: only data and the counter may differ. */
  ghost predicate SameNesting<D>(v: Driver<D>, v': Driver<D>) {
    && v'.depth == v.depth && v'.engine.base == v.engine.base && v'.engine.savepoints == v.engine.savepoints
    && v'.savepointCounter >= v.savepointCounter
  }

  lemma FindNewest<D>(savepoints: seq<Savepoint<D>>, top: Savepoint<D>)
    ensures Find(savepoints + [top], top.name) == |savepoints|
  {
  }

  /** `v2` is `v` with one more savepoint and level, holding what `v`'s data was. */
  ghost predicate Above<D>(v: Driver<D>, v2: Driver<D>, name: nat) {
    && v2.engine.savepoints == v.engine.savepoints + [Savepoint(name, v.engine.data)]
    && v2.engine.base == v.engine.base && v2.depth == v.depth + 1
    && v2.savepointCounter >= name > v.savepointCounter
  }

  lemma OpensAbove<D, W>(s: Schema<D, W>, v: Driver<D>)
    requires Consistent(v) && v.depth > 0
    ensures
      var (v1, refused) := OpenNested(s, v);
      !refused && Above(v, v1, v.savepointCounter + 1) && v1.engine.data == v.engine.data && Consistent(v1)
  {
  }

  lemma StaysAbove<D>(v: Driver<D>, v1: Driver<D>, v2: Driver<D>, name: nat)
    requires Above(v, v1, name) && SameNesting(v1, v2)
    ensures Above(v, v2, name)
  {
  }

  /** Closing the level keeps the data on success and brings `v`'s back otherwise. */
  lemma ClosesBack<D, W>(s: Schema<D, W>, v: Driver<D>, v2: Driver<D>, threw: bool, name: nat)
    requires Consistent(v) && v.depth > 0 && Above(v, v2, name)
    ensures
      var (v3, failed) := CloseNested(s, v2, threw, name);
      && failed == threw && v3.engine.data == (if threw then v.engine.data else v2.engine.data)
      && SameNesting(v, v3) && Consistent(v3)
  {
    hide Find;
    var mine := v.engine.savepoints;
    FindNewest(mine, Savepoint(name, v.engine.data));
    assert v2.engine.savepoints[..|mine| + 1] == v2.engine.savepoints;
    assert v2.engine.savepoints[..|mine|] == mine;
  }

  /**
    Nested transactions are nested all-or-nothing: whatever tree of writes, throws, catches
    and transaction calls runs, the commands leave the data, and throw, exactly as the
    recursive meaning says, return depth to its entry value and leave no savepoint open.
   */
  lemma {:induction false} RunIsMeaning<D, W>(s: Schema<D, W>, p: Program<W>, v: Driver<D>)
    requires Consistent(v)
    ensures
      var (v', threw) := Run(s, p, v);
      && (v'.engine.data, threw) == Meaning(s, p, v.engine.data, v.depth > 0)
      && SameNesting(v, v') && Consistent(v')
    decreases p, 0
  {
    hide Consistent, SameNesting, OpenNested, CloseNested, OpenOutermost, CloseOutermost;
    match p
    case Skip => Unchanged(v, v);
    case Throw => Unchanged(v, v);
    case Write(w) =>
      if s.apply(v.engine.data, w).Some? {
        Unchanged(v, v.(engine := v.engine.(data := s.apply(v.engine.data, w).value)));
      } else {
        Unchanged(v, v);
      }
    case Seq(a, b) =>
      RunIsMeaning(s, a, v);
      var (v1, threw) := Run(s, a, v);
      SameDepth(v, v1);
      if !threw {
        RunIsMeaning(s, b, v1);
        Transitive(v, v1, Run(s, b, v1).0);
      }
    case Catch(a) => RunIsMeaning(s, a, v);
    case Transaction(a) =>
      DepthNotNegative(v);
      if v.depth > 0 {
        NestedIsMeaning(s, a, v);
      } else {
        OutermostIsMeaning(s, a, v);
      }
  }

  lemma Unchanged<D>(v: Driver<D>, v': Driver<D>)
    requires Consistent(v) && v' == v.(engine := v.engine.(data := v'.engine.data))
    ensures SameNesting(v, v') && Consistent(v')
  {
  }

  lemma DepthNotNegative<D>(v: Driver<D>)
    requires Consistent(v)
    ensures v.depth >= 0
  {
  }

  lemma SameDepth<D>(v: Driver<D>, v': Driver<D>)
    requires SameNesting(v, v')
    ensures v'.depth == v.depth
  {
  }

  lemma Transitive<D>(a: Driver<D>, b: Driver<D>, c: Driver<D>)
    requires SameNesting(a, b) && SameNesting(b, c)
    ensures SameNesting(a, c)
  {
  }

  lemma NestedIsMeaning<D, W>(s: Schema<D, W>, a: Program<W>, v: Driver<D>)
    requires Consistent(v) && v.depth > 0
    ensures
      var (v', threw) := Run(s, Transaction(a), v);
      && (v'.engine.data, threw) == Meaning(s, Transaction(a), v.engine.data, true)
      && SameNesting(v, v') && Consistent(v')
    decreases a, 1
  {
    hide OpenNested, CloseNested, Consistent, SameNesting;
    var name := v.savepointCounter + 1;
    OpensAbove(s, v);
    var v1 := OpenNested(s, v).0;
    RunIsMeaning(s, a, v1);
    var (v2, threw) := Run(s, a, v1);
    StaysAbove(v, v1, v2, name);
    ClosesBack(s, v, v2, threw, name);
  }

  lemma OpensOutermost<D, W>(s: Schema<D, W>, v: Driver<D>)
    requires Consistent(v) && v.depth == 0
    ensures
      var (v1, refused) := OpenOutermost(s, v);
      && !refused && Consistent(v1) && v1.depth == 1 && v1.savepointCounter == v.savepointCounter
      && v1.engine == Engine(v.engine.data, Some(v.engine.data), [])
  {
  }

  lemma ClosesOutermost<D, W>(s: Schema<D, W>, v: Driver<D>, v1: Driver<D>, v2: Driver<D>, threw: bool)
    requires Consistent(v) && v.depth == 0 && SameNesting(v1, v2)
    requires v1.depth == 1 && v1.savepointCounter == v.savepointCounter
        && v1.engine == Engine(v.engine.data, Some(v.engine.data), [])
    ensures
      var (v3, failed) := CloseOutermost(s, v2, threw);
      && failed == (threw || !s.commits(v2.engine.data))
      && v3.engine.data == (if failed then v.engine.data else v2.engine.data)
      && SameNesting(v, v3) && Consistent(v3)
  {
  }

  lemma OutermostIsMeaning<D, W>(s: Schema<D, W>, a: Program<W>, v: Driver<D>)
    requires Consistent(v) && v.depth == 0
    ensures
      var (v', threw) := Run(s, Transaction(a), v);
      && (v'.engine.data, threw) == Meaning(s, Transaction(a), v.engine.data, false)
      && SameNesting(v, v') && Consistent(v')
    decreases a, 1
  {
    hide OpenOutermost, CloseOutermost, Consistent, SameNesting;
    OpensOutermost(s, v);
    var v1 := OpenOutermost(s, v).0;
    RunIsMeaning(s, a, v1);
    var (v2, threw) := Run(s, a, v1);
    ClosesOutermost(s, v, v1, v2, threw);
  }

  /** A transaction that throws has changed nothing, however deep it was and whatever it caught. */
  lemma AllOrNothing<D, W>(s: Schema<D, W>, body: Program<W>, d: D)
    ensures
      var v := Driver(Engine(d, None, []), 0, 0);
      var (v', threw) := Run(s, Transaction(body), v);
      && (threw ==> v'.engine.data == d)
      && (!threw <==> !Meaning(s, body, d, true).1 && s.commits(Meaning(s, body, d, true).0))
      && (!threw ==> v'.engine.data == Meaning(s, body, d, true).0)
      && v'.depth == 0 && v'.engine.base.None? && v'.engine.savepoints == []
  {
    hide Run;
    var v := Driver(Engine(d, None, []), 0, 0);
    assert Consistent(v);
    RunIsMeaning(s, Transaction(body), v);
  }
}
