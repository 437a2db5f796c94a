/**
 * Invocations of the migration command as a state machine over the schema and the recorded checkpoint.
 */
module Migrations {
  import opened Common
  import opened Migrate

  /** `executed` is a history variable: the migrations whose up script has run and not been undone. */
  datatype Db<S> = Db(schema: S, checkpoint: string, executed: set<int>)

  datatype Invocation = Invocation(flags: Flags, interrupted: bool)

  /** The migration directory: the stems of the two kinds of file and what a file does to a schema. */
  datatype Project<!S> = Project(ups: seq<string>, downs: seq<string>, run: (string, S) -> Option<S>)
  {
    function Files(direction: Direction): seq<string> {
      FilesOf(if direction.Up? then ups else downs, direction)
    }
  }

  function Track(all: seq<string>, direction: Direction, executed: set<int>, files: seq<string>): set<int>
    decreases |files|
  {
    if files == [] then executed
    else
      var n := |files| - 1;
      var front, i := Track(all, direction, executed, files[..n]), IndexOf(all, files[n]);
      if direction.Up? then front + {i} else front - {i}
  }

  function DirectionOf(flags: Flags): Direction {
    if flags.latest || flags.steps > 0 then Up else Down
  }

  function PlanFor<S>(p: Project<S>, db: Db<S>, flags: Flags): Plan {
    PlanOf(p.Files(DirectionOf(flags)), DirectionOf(flags), db.checkpoint, flags)
  }

  /** The invocation gets to its commit; every other one ends with an error and changes nothing. */
  predicate Commits<S>(p: Project<S>, db: Db<S>, i: Invocation) {
    && (i.flags.steps != 0 || i.flags.zero || i.flags.latest)
    && !(db.checkpoint == "" && DirectionOf(i.flags).Down?)
    && PlanFor(p, db, i.flags).files != [] && !i.interrupted
    && Exec(p.run, PlanFor(p, db, i.flags).files, db.schema).Some?
  }

  /** One invocation of the command. */
  function Invoke<S>(p: Project<S>, db: Db<S>, i: Invocation): Db<S> {
    if !Commits(p, db, i) then db
    else
      var plan, direction := PlanFor(p, db, i.flags), DirectionOf(i.flags);
      Db(Exec(p.run, plan.files, db.schema).value, plan.checkpoint, Track(p.Files(direction), direction, db.executed, plan.files))
  }

  function InvokeAll<S>(p: Project<S>, db: Db<S>, calls: seq<Invocation>): Db<S>
    decreases |calls|
  {
    if calls == [] then db else Invoke(p, InvokeAll(p, db, calls[..|calls| - 1]), calls[|calls| - 1])
  }

  // ---- the command as a program ----

  class Command<S(!new)> {
    var schema: S
    var name: string
    ghost var executed: set<int>

    ghost function State(): Db<S>
      reads this
    {
      Db(schema, name, executed)
    }

    constructor (schema: S)
      ensures State() == Db(schema, "", {})
    {
      this.schema, name, executed := schema, "", {};
    }

    /** `executeMigrations`: all files and the checkpoint in one transaction, or nothing. */
    method ExecuteMigrations(p: Project<S>, direction: Direction, migrations: seq<string>, newCheckpoint: string, interrupted: bool)
      returns (ok: bool)
      modifies this
      ensures ok <==> migrations != [] && !interrupted && Exec(p.run, migrations, old(schema)).Some?
      ensures !ok ==> State() == old(State())
      ensures ok ==> State() == Db(Exec(p.run, migrations, old(schema)).value, newCheckpoint,
                                   Track(p.Files(direction), direction, old(executed), migrations))
    {
      if |migrations| == 0 {
        return false;
      }
      var before := schema;
      for i := 0 to |migrations|
        invariant Exec(p.run, migrations[..i], before) == Some(schema)
        invariant name == old(name) && executed == old(executed)
      {
        var next := p.run(migrations[i], schema);
        assert migrations[..i + 1][..i] == migrations[..i];
        if next.None? {
          ExecFails(p.run, migrations, i + 1, before);
          schema := before;
          return false;
        }
        schema := next.value;
      }
      assert migrations[..|migrations|] == migrations;
      if interrupted {
        schema := before;
        return false;
      }
      name := newCheckpoint;
      executed := Track(p.Files(direction), direction, executed, migrations);
      ok := true;
    }

    /** `main`: the direction, the plan, the run. */
    method Execute(p: Project<S>, i: Invocation) returns (ok: bool)
      modifies this
      ensures ok <==> Commits(p, old(State()), i)
      ensures State() == Invoke(p, old(State()), i)
    {
      var flags := i.flags;
      if !(flags.steps != 0 || flags.zero || flags.latest) {
        return false;
      }
      var direction := if flags.latest || flags.steps > 0 then Up else Down;
      if name == "" && direction == Down {
        return false;
      }
      var newCheckpoint, prepared := PrepareMigrations(p.Files(direction), direction, name, flags);
      ok := ExecuteMigrations(p, direction, prepared, newCheckpoint, i.interrupted);
    }
  }

  lemma {:induction false} ExecFails<S>(run: (string, S) -> Option<S>, files: seq<string>, n: nat, s: S)
    requires n <= |files| && Exec(run, files[..n], s).None?
    ensures Exec(run, files, s).None?
  {
    assert files == files[..n] + files[n..];
    ExecConcat(run, files[..n], files[n..], s);
  }

  // ---- the invariant ----

  function First(k: nat): (s: set<int>)
    ensures forall i: int :: i in s <==> 0 <= i < k
  {
    if k == 0 then {} else First(k - 1) + {k - 1}
  }

  /** Exactly the first `k` migrations have been executed, from the empty schema `s0`, and recorded. */
  ghost predicate AtPrefix<S>(p: Project<S>, s0: S, db: Db<S>, k: nat) {
    && k <= |p.ups| && db.checkpoint == CheckpointAt(p.ups, k) && db.executed == First(k)
    && Exec(p.run, FilesOf(p.ups, Up)[..k], s0) == Some(db.schema)
  }

  ghost predicate Consistent<S>(p: Project<S>, s0: S, db: Db<S>) {
    exists k :: AtPrefix(p, s0, db, k)
  }

  ghost predicate Sound<S(!new)>(p: Project<S>) {
    Matching(p.ups, p.downs) && Undoes(p.run, p.ups, p.downs)
  }

  lemma {:induction false} TrackUp(ups: seq<string>, downs: seq<string>, k: nat, j: nat)
    requires Matching(ups, downs) && k <= j <= |ups|
    ensures Track(FilesOf(ups, Up), Up, First(k), FilesOf(ups, Up)[k..j]) == First(j)
    decreases j
  {
    hide Matching;
    var all := FilesOf(ups, Up);
    if k < j {
      TrackUp(ups, downs, k, j - 1);
      IndexOfUp(ups, downs, j - 1);
      assert all[k..j][..j - k - 1] == all[k..j - 1];
    }
  }

  lemma {:induction false} TrackDown(ups: seq<string>, downs: seq<string>, j: nat, k: nat)
    requires Matching(ups, downs) && j <= k <= |downs|
    ensures Track(FilesOf(downs, Down), Down, First(k), Reversed(FilesOf(downs, Down)[j..k])) == First(j)
    decreases k - j
  {
    hide Matching;
    Sizes(ups, downs);
    var all := FilesOf(downs, Down);
    if j < k {
      TrackDown(ups, downs, j + 1, k);
      IndexOfDown(ups, downs, j);
      assert Reversed(all[j..k])[..k - j - 1] == Reversed(all[j + 1..k]);
    }
  }

  // ---- one invocation ----

  /** Going up from prefix `k`: the next migrations, all or none. */
  lemma UpOutcome<S(!new)>(p: Project<S>, s0: S, db: Db<S>, k: nat, i: Invocation)
    requires Sound(p) && AtPrefix(p, s0, db, k) && DirectionOf(i.flags).Up?
    ensures var files, j := FilesOf(p.ups, Up), k + Count(|p.ups| - k, i.flags.steps);
            && (Commits(p, db, i) <==> k < |p.ups| && !i.interrupted && Exec(p.run, files[..j], s0).Some?)
            && (Commits(p, db, i) ==>
                  && Invoke(p, db, i).checkpoint == (if i.flags.zero then "" else CheckpointAt(p.ups, j))
                  && Invoke(p, db, i).executed == First(j)
                  && Exec(p.run, files[..j], s0) == Some(Invoke(p, db, i).schema))
  {
    hide Matching, PlanOf, Exec, Undoes, FilesOf, Track;
    var files, j := FilesOf(p.ups, Up), k + Count(|p.ups| - k, i.flags.steps);
    PlanUp(p.ups, p.downs, k, i.flags);
    if k < |p.ups| {
      ExecConcat(p.run, files[..k], files[k..j], s0);
      assert files[..k] + files[k..j] == files[..j];
      TrackUp(p.ups, p.downs, k, j);
    }
  }

  /** Going down from prefix `k` always goes through, and ends at an earlier prefix. */
  lemma DownOutcome<S(!new)>(p: Project<S>, s0: S, db: Db<S>, k: nat, i: Invocation)
    requires Sound(p) && AtPrefix(p, s0, db, k) && DirectionOf(i.flags).Down?
    ensures Commits(p, db, i) <==> (i.flags.steps != 0 || i.flags.zero) && k > 0 && !i.interrupted
    ensures Commits(p, db, i) ==>
              var j := k - Count(k, i.flags.steps);
              && Invoke(p, db, i).checkpoint == (if i.flags.zero then "" else CheckpointAt(p.ups, j))
              && Invoke(p, db, i).executed == First(j)
              && Exec(p.run, FilesOf(p.ups, Up)[..j], s0) == Some(Invoke(p, db, i).schema)
  {
    hide Matching, PlanOf, Exec, FilesOf, Track, Undoes;
    NonEmptyStem(p.ups, p.downs, k);
    if k > 0 {
      var j := k - Count(k, i.flags.steps);
      PlanDown(p.ups, p.downs, k, i.flags);
      TrackDown(p.ups, p.downs, j, k);
      UndoSlice(p, s0, j, k);
    }
  }

  lemma NonEmptyStem(ups: seq<string>, downs: seq<string>, k: nat)
    requires Matching(ups, downs) && k <= |ups|
    ensures |downs| == |ups|
    ensures CheckpointAt(ups, k) == "" <==> k == 0
  {
  }

  lemma UndoSlice<S(!new)>(p: Project<S>, s0: S, j: nat, k: nat)
    requires Sound(p) && j <= k <= |p.ups| && Exec(p.run, FilesOf(p.ups, Up)[..k], s0).Some?
    ensures |p.downs| == |p.ups| && Exec(p.run, FilesOf(p.ups, Up)[..j], s0).Some?
    ensures Exec(p.run, Reversed(FilesOf(p.downs, Down)[j..k]), Exec(p.run, FilesOf(p.ups, Up)[..k], s0).value)
         == Exec(p.run, FilesOf(p.ups, Up)[..j], s0)
  {
    hide Exec;
    var files := FilesOf(p.ups, Up);
    assert files[..k] == files[..j] + files[j..k];
    ExecConcat(p.run, files[..j], files[j..k], s0);
    FilesOfSlice(p.ups, Up, j, k);
    FilesOfSlice(p.downs, Down, j, k);
    assert Undoes(p.run, p.ups[j..k], p.downs[j..k]) by {
      assert forall i :: 0 <= i < k - j ==> p.ups[j..k][i] == p.ups[j + i] && p.downs[j..k][i] == p.downs[j + i];
    }
    ExecUndo(p.run, p.ups[j..k], p.downs[j..k], Exec(p.run, files[..j], s0).value);
  }

  // ---- the invariant over whole runs ----

  /**
   * After an invocation the database is at a prefix again, exactly unless it committed under --zero
   * without undoing everything: the planner records an empty checkpoint for a partial or an upward run.
   */
  lemma InvokeConsistentIff<S(!new)>(p: Project<S>, s0: S, db: Db<S>, k: nat, i: Invocation)
    requires Sound(p) && AtPrefix(p, s0, db, k)
    ensures Consistent(p, s0, Invoke(p, db, i)) <==>
            Commits(p, db, i) && i.flags.zero ==> !i.flags.latest && i.flags.steps <= 0 && (i.flags.steps == 0 || k <= -i.flags.steps)
  {
    hide Matching, Exec, FilesOf, Undoes, Commits, Invoke, First;
    var db' := Invoke(p, db, i);
    if !Commits(p, db, i) {
      NotCommitted(p, db, i);
      assert AtPrefix(p, s0, db', k);
    } else {
      var up := DirectionOf(i.flags).Up?;
      var j := if up then k + Count(|p.ups| - k, i.flags.steps) else k - Count(k, i.flags.steps);
      if up {
        UpOutcome(p, s0, db, k, i);
      } else {
        DownOutcome(p, s0, db, k, i);
      }
      AtPrefixIff(p, s0, db', j, i.flags.zero);
    }
  }

  lemma NotCommitted<S>(p: Project<S>, db: Db<S>, i: Invocation)
    requires !Commits(p, db, i)
    ensures Invoke(p, db, i) == db
  {
  }

  lemma AtPrefixIff<S(!new)>(p: Project<S>, s0: S, db: Db<S>, j: nat, zero: bool)
    requires Sound(p) && j <= |p.ups| && db.executed == First(j) && Exec(p.run, FilesOf(p.ups, Up)[..j], s0) == Some(db.schema)
    requires db.checkpoint == if zero then "" else CheckpointAt(p.ups, j)
    ensures Consistent(p, s0, db) <==> !zero || j == 0
  {
    hide Exec, Undoes, Matching;
    if !zero || j == 0 {
      assert AtPrefix(p, s0, db, j);
    }
    assert 0 in First(j) <==> 0 < j;
    forall k | AtPrefix(p, s0, db, k)
      ensures !zero || j == 0
    {
      NonEmptyStem(p.ups, p.downs, k);
    }
  }

  /** --zero is used alone. */
  predicate Plain(flags: Flags) {
    flags.zero ==> !flags.latest && flags.steps == 0
  }

  /**
   * After any sequence of plain invocations, failed and interrupted ones included, the executed
   * migrations are the prefix the checkpoint names and the schema is what its up scripts make.
   */
  lemma {:induction false} RunsConsistent<S(!new)>(p: Project<S>, s0: S, calls: seq<Invocation>)
    requires Sound(p) && forall i :: 0 <= i < |calls| ==> Plain(calls[i].flags)
    ensures Consistent(p, s0, InvokeAll(p, Db(s0, "", {}), calls))
    decreases |calls|
  {
    hide Sound, Invoke, Commits;
    if calls == [] {
      assert AtPrefix(p, s0, Db(s0, "", {}), 0);
    } else {
      var n := |calls| - 1;
      RunsConsistent(p, s0, calls[..n]);
      var db := InvokeAll(p, Db(s0, "", {}), calls[..n]);
      var k :| AtPrefix(p, s0, db, k);
      InvokeConsistentIff(p, s0, db, k, calls[n]);
      assert Plain(calls[n].flags);
    }
  }

  // ---- up and down undo each other, steps add up ----

  lemma PrefixUnique<S>(p: Project<S>, s0: S, a: Db<S>, b: Db<S>, k: nat)
    requires AtPrefix(p, s0, a, k) && AtPrefix(p, s0, b, k)
    ensures a == b
  {
  }

  function Steps(n: int): Invocation {
    Invocation(Flags(false, false, n), false)
  }

  /** An up run and the down run of as many files give back the very database. */
  lemma UpThenDown<S(!new)>(p: Project<S>, s0: S, db: Db<S>, k: nat, a: int, m: int)
    requires Sound(p) && AtPrefix(p, s0, db, k) && a > 0 && Commits(p, db, Steps(a))
    requires m == Min(|p.ups| - k, a)
    ensures Invoke(p, Invoke(p, db, Steps(a)), Steps(-m)) == db
  {
    hide Sound, Invoke, Commits, AtPrefix;
    CommittedUp(p, s0, db, k, a);
    var up := Invoke(p, db, Steps(a));
    DownSteps(p, s0, up, k + m, m);
    PrefixUnique(p, s0, db, Invoke(p, up, Steps(-m)), k);
  }

  lemma CommittedUp<S(!new)>(p: Project<S>, s0: S, db: Db<S>, k: nat, a: int)
    requires Sound(p) && AtPrefix(p, s0, db, k) && a > 0 && Commits(p, db, Steps(a))
    ensures k < |p.ups| && AtPrefix(p, s0, Invoke(p, db, Steps(a)), k + Min(|p.ups| - k, a))
  {
    hide Sound, Invoke, Commits, First, Exec, FilesOf;
    UpOutcome(p, s0, db, k, Steps(a));
  }

  /** A down run and the up run of as many files give back the very database, and neither can fail. */
  lemma DownThenUp<S(!new)>(p: Project<S>, s0: S, db: Db<S>, k: nat, a: int)
    requires Sound(p) && AtPrefix(p, s0, db, k) && a > 0
    ensures Invoke(p, Invoke(p, db, Steps(-a)), Steps(Min(k, a))) == db
  {
    hide Sound, Invoke, Commits, First, Exec, FilesOf;
    DownOutcome(p, s0, db, k, Steps(-a));
    if k == 0 {
      NotCommitted(p, db, Steps(-a));
      NoFlags(p, db);
    } else {
      var m: int := Min(k, a);
      var down := Invoke(p, db, Steps(-a));
      assert AtPrefix(p, s0, down, k - m);
      UpOutcome(p, s0, down, k - m, Steps(m));
      PrefixUnique(p, s0, db, Invoke(p, down, Steps(m)), k);
    }
  }

  lemma NoFlags<S>(p: Project<S>, db: Db<S>)
    ensures Invoke(p, db, Steps(0)) == db
  {
  }

  /** `a` steps and then `b` are `a + b` steps; upwards, when the long run does not fail. */
  lemma StepsAdd<S(!new)>(p: Project<S>, s0: S, db: Db<S>, k: nat, a: int, b: int)
    requires Sound(p) && AtPrefix(p, s0, db, k) && a > 0 && b > 0
    ensures Invoke(p, Invoke(p, db, Steps(-a)), Steps(-b)) == Invoke(p, db, Steps(-a - b))
    ensures Commits(p, db, Steps(a + b)) ==> Invoke(p, Invoke(p, db, Steps(a)), Steps(b)) == Invoke(p, db, Steps(a + b))
  {
    hide Sound, Invoke, Commits;
    DownSteps(p, s0, db, k, a);
    DownSteps(p, s0, Invoke(p, db, Steps(-a)), k - Min(k, a), b);
    DownSteps(p, s0, db, k, a + b);
    PrefixUnique(p, s0, Invoke(p, Invoke(p, db, Steps(-a)), Steps(-b)), Invoke(p, db, Steps(-a - b)), k - Min(k, a + b));
    if Commits(p, db, Steps(a + b)) {
      UpOutcome(p, s0, db, k, Steps(a + b));
      var n := |p.ups|;
      UpSteps(p, s0, db, k, a, Min(n, k + a + b));
      UpSteps(p, s0, Invoke(p, db, Steps(a)), Min(n, k + a), b, Min(n, k + a + b));
      UpSteps(p, s0, db, k, a + b, Min(n, k + a + b));
      PrefixUnique(p, s0, Invoke(p, Invoke(p, db, Steps(a)), Steps(b)), Invoke(p, db, Steps(a + b)), Min(n, k + a + b));
    }
  }

  lemma DownSteps<S(!new)>(p: Project<S>, s0: S, db: Db<S>, k: nat, a: int)
    requires Sound(p) && AtPrefix(p, s0, db, k) && a > 0
    ensures AtPrefix(p, s0, Invoke(p, db, Steps(-a)), k - Min(k, a))
  {
    hide Sound, Invoke, Commits, First, Exec, FilesOf;
    DownOutcome(p, s0, db, k, Steps(-a));
    if k == 0 {
      NotCommitted(p, db, Steps(-a));
    }
  }

  /** When the first `j` migrations can be executed, so can fewer. */
  lemma UpSteps<S(!new)>(p: Project<S>, s0: S, db: Db<S>, k: nat, a: int, j: nat)
    requires Sound(p) && AtPrefix(p, s0, db, k) && a > 0
    requires Min(|p.ups|, k + a) <= j <= |p.ups| && Exec(p.run, FilesOf(p.ups, Up)[..j], s0).Some?
    ensures AtPrefix(p, s0, Invoke(p, db, Steps(a)), Min(|p.ups|, k + a))
  {
    hide Sound, Invoke, Commits, First, FilesOf;
    var files, m := FilesOf(p.ups, Up), Min(|p.ups|, k + a);
    assert files[..j] == files[..m] + files[m..j];
    ExecConcat(p.run, files[..m], files[m..j], s0);
    hide Exec;
    UpOutcome(p, s0, db, k, Steps(a));
    if k == |p.ups| {
      NotCommitted(p, db, Steps(a));
    }
  }

  /** --latest alone executes everything that is left, --zero alone undoes everything, no flag does nothing. */
  lemma LatestAndZero<S(!new)>(p: Project<S>, s0: S, db: Db<S>, k: nat)
    requires Sound(p) && AtPrefix(p, s0, db, k)
    ensures var latest := Invoke(p, db, Invocation(Flags(true, false, 0), false));
            if Exec(p.run, FilesOf(p.ups, Up), s0).Some? then AtPrefix(p, s0, latest, |p.ups|) else latest == db
    ensures AtPrefix(p, s0, Invoke(p, db, Invocation(Flags(false, true, 0), false)), 0)
    ensures Invoke(p, db, Invocation(Flags(false, false, 0), false)) == db
  {
    hide Sound, Invoke, Commits, First, Exec, PlanFor;
    var latest, zero := Invocation(Flags(true, false, 0), false), Invocation(Flags(false, true, 0), false);
    assert FilesOf(p.ups, Up)[..|p.ups|] == FilesOf(p.ups, Up);
    UpOutcome(p, s0, db, k, latest);
    if !Commits(p, db, latest) {
      NotCommitted(p, db, latest);
    }
    DownOutcome(p, s0, db, k, zero);
    if !Commits(p, db, zero) {
      NotCommitted(p, db, zero);
    }
    NoFlags(p, db);
  }
}
