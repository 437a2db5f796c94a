/**
 * The migration planner and runner: which files an invocation executes, which checkpoint it records,
 * and that over whole runs the schema is the one the checkpoint stands for.
 */
module Migrate {
  import opened Common

  datatype Direction = Up | Down

  datatype Flags = Flags(latest: bool, zero: bool, steps: int)

  predicate HasPrefix(s: string, prefix: string) {
    |prefix| <= |s| && s[..|prefix|] == prefix
  }

  /** `strings.Split(name, ".")[0]`. */
  function Stem(name: string): (r: string)
    ensures '.' !in r && HasPrefix(name, r)
    ensures |r| < |name| ==> name[|r|] == '.'
  {
    if name == "" || name[0] == '.' then "" else [name[0]] + Stem(name[1..])
  }

  function Reversed<T>(s: seq<T>): (r: seq<T>)
    ensures |r| == |s| && forall i :: 0 <= i < |s| ==> r[i] == s[|s| - 1 - i]
  {
    seq(|s|, i requires 0 <= i < |s| => s[|s| - 1 - i])
  }

  /** The first file that starts with `prefix`; the number of files when none does. */
  function FirstWith(files: seq<string>, prefix: string): (i: nat)
    ensures i <= |files|
    ensures i < |files| ==> HasPrefix(files[i], prefix)
    ensures forall j :: 0 <= j < i ==> !HasPrefix(files[j], prefix)
  {
    if files == [] || HasPrefix(files[0], prefix) then 0 else 1 + FirstWith(files[1..], prefix)
  }

  /** The first position of `file`; the number of files when it is not there. */
  function IndexOf(files: seq<string>, file: string): (i: nat)
    ensures i <= |files|
    ensures i < |files| ==> files[i] == file
    ensures forall j :: 0 <= j < i ==> files[j] != file
  {
    if files == [] || files[0] == file then 0 else 1 + IndexOf(files[1..], file)
  }

  function Abs(x: int): nat {
    if x < 0 then -x else x
  }

  function Min(a: nat, b: nat): nat {
    if a < b then a else b
  }

  // ---- the planner ----

  /** The files still to run in a direction, in the order they would run. */
  function Remaining(files: seq<string>, direction: Direction, checkpoint: string): seq<string> {
    var ordered := if direction.Down? then Reversed(files) else files;
    if checkpoint == "" then ordered
    else
      var i := FirstWith(ordered, checkpoint);
      if i == |ordered| then ordered else ordered[i + if direction.Up? then 1 else 0..]
  }

  function Limited(files: seq<string>, steps: int): seq<string> {
    if steps == 0 then files else files[..Min(|files|, Abs(steps))]
  }

  datatype Plan = Plan(checkpoint: string, files: seq<string>)

  function PlanOf(files: seq<string>, direction: Direction, checkpoint: string, flags: Flags): Plan {
    var chosen := Limited(Remaining(files, direction, checkpoint), flags.steps);
    if chosen == [] then Plan("", [])
    else
      var last := chosen[|chosen| - 1];
      var i := IndexOf(files, last);
      Plan(if flags.zero then "" else if direction.Up? then Stem(last) else if i == 0 || i == |files| then "" else Stem(files[i - 1]),
           chosen)
  }

  /** `prepareMigrations`: a copy, reversed and resliced until the files to execute are left. */
  method PrepareMigrations(migrations: seq<string>, direction: Direction, checkpoint: string, flags: Flags)
    returns (newCheckpoint: string, executable: seq<string>)
    ensures Plan(newCheckpoint, executable) == PlanOf(migrations, direction, checkpoint, flags)
  {
    hide IndexOf, FirstWith, Stem, Remaining;
    executable := NotExecuted(migrations, direction, checkpoint);
    if |executable| == 0 {
      return "", [];
    }
    if flags.steps != 0 {
      executable := executable[..Min(|executable|, Abs(flags.steps))];
    }
    newCheckpoint := NewCheckpoint(migrations, direction, executable, flags.zero);
  }

  /** The checkpoint after `executable`, the stem of a file name. */
  method NewCheckpoint(migrations: seq<string>, direction: Direction, executable: seq<string>, zero: bool) returns (r: string)
    requires executable != []
    ensures var last := executable[|executable| - 1];
            var i := IndexOf(migrations, last);
            r == if zero then "" else if direction.Up? then Stem(last)
                 else if i == 0 || i == |migrations| then "" else Stem(migrations[i - 1])
  {
    var name := "";
    var last := executable[|executable| - 1];
    if zero {
      name := "";
    } else if direction == Down {
      var idx := IndexOf(migrations, last);
      if 0 < idx < |migrations| {
        name := migrations[idx - 1];
      }
    } else {
      name := last;
    }
    r := Stem(name);
  }

  /** The files from the checkpoint on, in the order they would run. */
  method NotExecuted(migrations: seq<string>, direction: Direction, checkpoint: string) returns (executable: seq<string>)
    ensures executable == Remaining(migrations, direction, checkpoint)
  {
    hide FirstWith;
    executable := Ordered(migrations, direction);
    if checkpoint != "" {
      var idx := FirstMatch(executable, checkpoint);
      if idx > -1 {
        if direction == Up {
          idx := idx + 1;
        }
        executable := executable[idx..];
      }
    }
  }

  method Ordered(migrations: seq<string>, direction: Direction) returns (executable: seq<string>)
    ensures executable == if direction.Down? then Reversed(migrations) else migrations
  {
    var copied := new string[|migrations|](i requires 0 <= i < |migrations| => migrations[i]);
    assert copied[..] == migrations;
    if direction == Down {
      ReverseFiles(copied);
    }
    executable := copied[..];
  }

  method ReverseFiles(a: array<string>)
    modifies a
    ensures a[..] == Reversed(old(a[..]))
  {
    var n := a.Length;
    for i := 0 to n / 2
      invariant forall k :: 0 <= k < i ==> a[k] == old(a[n - 1 - k]) && a[n - 1 - k] == old(a[k])
      invariant forall k :: i <= k < n - i ==> a[k] == old(a[k])
    {
      a[i], a[n - 1 - i] := a[n - 1 - i], a[i];
    }
    assert forall k :: 0 <= k < n ==> a[..][k] == old(a[..])[n - 1 - k];
  }

  method FirstMatch(files: seq<string>, prefix: string) returns (idx: int)
    ensures idx == if FirstWith(files, prefix) == |files| then -1 else FirstWith(files, prefix)
  {
    for i := 0 to |files|
      invariant forall j :: 0 <= j < i ==> !HasPrefix(files[j], prefix)
    {
      if HasPrefix(files[i], prefix) {
        return i;
      }
    }
    idx := -1;
  }

  // ---- lists of migrations ----

  const UP := ".up.sql"
  const DOWN := ".down.sql"

  function FilesOf(stems: seq<string>, direction: Direction): (files: seq<string>)
    ensures |files| == |stems|
  {
    seq(|stems|, i requires 0 <= i < |stems| => stems[i] + if direction.Up? then UP else DOWN)
  }

  /** The checkpoint recorded when the first `k` migrations have been executed. */
  function CheckpointAt(ups: seq<string>, k: nat): string
    requires k <= |ups|
  {
    if k == 0 then "" else ups[k - 1]
  }

  /**
   * What the two file lists must satisfy: stems have no dot and are not empty, every search by prefix
   * meets the file it is meant for first, and the stems of the two lists agree, but for the last
   * migration, whose up stem may instead match no down file at all.
   */
  predicate Matching(ups: seq<string>, downs: seq<string>) {
    && |ups| == |downs|
    && (forall i :: 0 <= i < |ups| ==> ups[i] != "" && '.' !in ups[i] && '.' !in downs[i])
    && (forall i, j :: 0 <= i < j < |ups| ==> !HasPrefix(ups[i], ups[j]) && !HasPrefix(downs[j], ups[i]))
    && (forall i :: 0 <= i < |ups| - 1 ==> ups[i] == downs[i])
    && (forall j :: 0 <= j < |ups| && HasPrefix(downs[j], ups[|ups| - 1]) ==> downs[|ups| - 1] == ups[|ups| - 1])
    && forall i, j :: 0 <= i < j < |downs| ==> downs[i] != downs[j]
  }

  const REPOSITORY_UPS := ["00_setup", "01_user", "02_txs", "03_user_txs"]
  const REPOSITORY_DOWNS := ["00_setup", "01_user", "02_txs", "03_user_tsx"]

  /** The repository's own lists, whose last stems differ, qualify. */
  lemma RepositoryMatches()
    ensures Matching(REPOSITORY_UPS, REPOSITORY_DOWNS)
  {
    hide HasPrefix;
    var ups, downs := REPOSITORY_UPS, REPOSITORY_DOWNS;
    RepositoryNames();
    forall i, j | 0 <= i < 4 && 0 <= j < 4 && ups[i][1] != ups[j][1]
      ensures !HasPrefix(ups[i], ups[j]) && !HasPrefix(downs[i], ups[j]) && downs[i] != downs[j]
    {
      OtherChar(ups[i], ups[j], 1);
      OtherChar(downs[i], ups[j], 1);
    }
    OtherChar(downs[3], ups[3], 9);
  }

  /** With them the names are those of the files in the directory. */
  lemma RepositoryFiles()
    ensures FilesOf(REPOSITORY_UPS, Up) == ["00_setup.up.sql", "01_user.up.sql", "02_txs.up.sql", "03_user_txs.up.sql"]
    ensures FilesOf(REPOSITORY_DOWNS, Down) == ["00_setup.down.sql", "01_user.down.sql", "02_txs.down.sql", "03_user_tsx.down.sql"]
  {
    var ups, downs := REPOSITORY_UPS, REPOSITORY_DOWNS;
    assert ups[0] + UP == "00_setup.up.sql" && ups[1] + UP == "01_user.up.sql";
    assert ups[2] + UP == "02_txs.up.sql" && ups[3] + UP == "03_user_txs.up.sql";
    assert downs[0] + DOWN == "00_setup.down.sql" && downs[1] + DOWN == "01_user.down.sql";
    assert downs[2] + DOWN == "02_txs.down.sql" && downs[3] + DOWN == "03_user_tsx.down.sql";
  }

  lemma RepositoryNames()
    ensures forall i :: 0 <= i < 4 ==> |REPOSITORY_UPS[i]| > 1 && '.' !in REPOSITORY_UPS[i]
    ensures forall i :: 0 <= i < 4 ==> |REPOSITORY_DOWNS[i]| > 1 && '.' !in REPOSITORY_DOWNS[i]
    ensures forall i :: 0 <= i < 4 ==> REPOSITORY_DOWNS[i][1] == REPOSITORY_UPS[i][1]
    ensures forall i, j :: 0 <= i < j < 4 ==> REPOSITORY_UPS[i][1] != REPOSITORY_UPS[j][1]
    ensures forall i :: 0 <= i < 3 ==> REPOSITORY_UPS[i] == REPOSITORY_DOWNS[i]
  {
  }

  lemma OtherChar(s: string, prefix: string, k: nat)
    requires k < |s| && k < |prefix| && s[k] != prefix[k]
    ensures !HasPrefix(s, prefix) && s != prefix
  {
    assert |prefix| <= |s| ==> s[..|prefix|][k] == s[k];
  }

  /** A search by a stem without a dot does not see the extension. */
  lemma FilePrefix(stem: string, extension: string, prefix: string)
    requires '.' !in prefix && extension != "" && extension[0] == '.'
    ensures HasPrefix(stem + extension, prefix) <==> HasPrefix(stem, prefix)
  {
    var file := stem + extension;
    if |prefix| > |stem| {
      assert file[|stem|] == '.' && prefix[|stem|] in prefix;
    }
    if |prefix| <= |stem| {
      assert file[..|prefix|] == stem[..|prefix|];
    }
  }

  lemma {:induction false} StemOf(stem: string, extension: string)
    requires '.' !in stem && extension != "" && extension[0] == '.'
    ensures Stem(stem + extension) == stem
  {
    var file := stem + extension;
    if stem == "" {
      assert file[0] == '.';
    } else {
      assert file[1..] == stem[1..] + extension;
      assert file[0] == stem[0] && stem[0] in stem;
      StemOf(stem[1..], extension);
      assert stem == [stem[0]] + stem[1..];
    }
  }

  // ---- the plan in closed form ----

  function Count(available: nat, steps: int): nat {
    if steps == 0 then available else Min(available, Abs(steps))
  }

  /** An up plan is the next files after the checkpoint, in order. */
  lemma PlanUp(ups: seq<string>, downs: seq<string>, k: nat, flags: Flags)
    requires Matching(ups, downs) && k <= |ups|
    ensures var files, m := FilesOf(ups, Up), Count(|ups| - k, flags.steps);
            PlanOf(files, Up, CheckpointAt(ups, k), flags) ==
            if k == |ups| then Plan("", []) else Plan(if flags.zero then "" else ups[k + m - 1], files[k..k + m])
  {
    hide Matching, FirstWith, Remaining, IndexOf, Stem, FilesOf, HasPrefix;
    var files := FilesOf(ups, Up);
    RemainingUp(ups, downs, k);
    if k < |ups| {
      var m := Count(|ups| - k, flags.steps);
      assert files[k..][..m] == files[k..k + m];
      assert Limited(files[k..], flags.steps) == files[k..k + m];
      LastStem(ups, downs, k + m);
    }
  }

  lemma LastStem(ups: seq<string>, downs: seq<string>, k: nat)
    requires Matching(ups, downs) && 0 < k <= |ups|
    ensures Stem(FilesOf(ups, Up)[k - 1]) == ups[k - 1]
  {
    UpSearch(ups, downs, k);
    StemOf(ups[k - 1], UP);
  }

  lemma RemainingUp(ups: seq<string>, downs: seq<string>, k: nat)
    requires Matching(ups, downs) && k <= |ups|
    ensures Remaining(FilesOf(ups, Up), Up, CheckpointAt(ups, k)) == FilesOf(ups, Up)[k..]
  {
    hide Matching;
    if k > 0 {
      var files, c := FilesOf(ups, Up), ups[k - 1];
      UpSearch(ups, downs, k);
      forall i | 0 <= i < k
        ensures HasPrefix(files[i], c) <==> i == k - 1
      {
        FilePrefix(ups[i], UP, c);
      }
      assert HasPrefix(files[k - 1], c);
      var first := FirstWith(files, c);
      assert first <= k - 1;
      assert HasPrefix(files[first], c);
    }
  }

  lemma UpSearch(ups: seq<string>, downs: seq<string>, k: nat)
    requires Matching(ups, downs) && 0 < k <= |ups|
    ensures ups[k - 1] != "" && '.' !in ups[k - 1]
    ensures forall i :: 0 <= i < k ==> (HasPrefix(ups[i], ups[k - 1]) <==> i == k - 1)
  {
  }

  /** A down plan is the executed files from the checkpoint back, newest first. */
  lemma PlanDown(ups: seq<string>, downs: seq<string>, k: nat, flags: Flags)
    requires Matching(ups, downs) && 0 < k <= |ups|
    ensures var files, m := FilesOf(downs, Down), Count(k, flags.steps);
            PlanOf(files, Down, CheckpointAt(ups, k), flags) ==
            Plan(if flags.zero then "" else CheckpointAt(ups, k - m), Reversed(files[k - m..k]))
  {
    hide Matching, Remaining, FirstWith, HasPrefix;
    var files, n, m := FilesOf(downs, Down), |ups|, Count(k, flags.steps);
    RemainingDown(ups, downs, k);
    var chosen := Reversed(files[k - m..k]);
    assert Reversed(files[..k])[..m] == chosen;
    assert chosen[m - 1] == files[k - m];
    IndexOfDown(ups, downs, k - m);
    if k > m {
      LowerStems(ups, downs, k - m - 1);
      StemOf(downs[k - m - 1], DOWN);
    }
  }

  lemma RemainingDown(ups: seq<string>, downs: seq<string>, k: nat)
    requires Matching(ups, downs) && 0 < k <= |ups|
    ensures |downs| == |ups|
    ensures Remaining(FilesOf(downs, Down), Down, CheckpointAt(ups, k)) == Reversed(FilesOf(downs, Down)[..k])
  {
    hide Matching;
    DownSearch(ups, downs, k);
    var files, n, c := FilesOf(downs, Down), |ups|, ups[k - 1];
    var ordered := Reversed(files);
    forall j | 0 <= j < n
      ensures HasPrefix(ordered[j], c) <==> HasPrefix(downs[n - 1 - j], c)
    {
      FilePrefix(downs[n - 1 - j], DOWN, c);
    }
    hide HasPrefix;
    if HasPrefix(downs[k - 1], c) {
      assert HasPrefix(ordered[n - k], c);
      assert FirstWith(ordered, c) == n - k;
    } else {
      assert FirstWith(ordered, c) == n;
    }
    assert ordered[n - k..] == Reversed(files[..k]);
  }

  /** Searching back from the newest file, migration `k - 1` is met first, or `k` is all and nothing is met. */
  lemma DownSearch(ups: seq<string>, downs: seq<string>, k: nat)
    requires Matching(ups, downs) && 0 < k <= |ups|
    ensures |downs| == |ups| && ups[k - 1] != "" && '.' !in ups[k - 1]
    ensures forall i :: k <= i < |ups| ==> !HasPrefix(downs[i], ups[k - 1])
    ensures !HasPrefix(downs[k - 1], ups[k - 1]) ==> k == |ups| && forall i :: 0 <= i < |ups| ==> !HasPrefix(downs[i], ups[k - 1])
  {
    if downs[k - 1] == ups[k - 1] {
      assert HasPrefix(ups[k - 1], ups[k - 1]);
    }
  }

  lemma IndexOfDown(ups: seq<string>, downs: seq<string>, i: nat)
    requires Matching(ups, downs) && i < |ups|
    ensures |downs| == |ups| && IndexOf(FilesOf(downs, Down), FilesOf(downs, Down)[i]) == i
  {
    var files := FilesOf(downs, Down);
    forall j | 0 <= j < i
      ensures files[j] != files[i]
    {
      StemOf(downs[i], DOWN);
      StemOf(downs[j], DOWN);
    }
  }

  lemma IndexOfUp(ups: seq<string>, downs: seq<string>, i: nat)
    requires Matching(ups, downs) && i < |ups|
    ensures IndexOf(FilesOf(ups, Up), FilesOf(ups, Up)[i]) == i
  {
    var files := FilesOf(ups, Up);
    forall j | 0 <= j < i
      ensures files[j] != files[i]
    {
      StemOf(ups[i], UP);
      StemOf(ups[j], UP);
      assert !HasPrefix(ups[j], ups[i]);
    }
  }

  lemma LowerStems(ups: seq<string>, downs: seq<string>, i: nat)
    requires Matching(ups, downs) && i < |ups| - 1
    ensures |downs| == |ups| && downs[i] == ups[i] && '.' !in downs[i]
  {
  }

  /** An up plan of `a` steps followed by one of `b` is the plan of `a + b`. */
  lemma UpStepsCompose(ups: seq<string>, downs: seq<string>, k: nat, a: int, b: int)
    requires Matching(ups, downs) && k <= |ups| && a > 0 && b > 0
    ensures var files, k' := FilesOf(ups, Up), Min(|ups|, k + a);
            PlanOf(files, Up, CheckpointAt(ups, k), Flags(false, false, a)).files
            + PlanOf(files, Up, CheckpointAt(ups, k'), Flags(false, false, b)).files
            == PlanOf(files, Up, CheckpointAt(ups, k), Flags(false, false, a + b)).files
  {
    hide Matching, PlanOf, FilesOf;
    PlanUp(ups, downs, k, Flags(false, false, a));
    PlanUp(ups, downs, Min(|ups|, k + a), Flags(false, false, b));
    PlanUp(ups, downs, k, Flags(false, false, a + b));
    SliceSplit(FilesOf(ups, Up), k, Min(|ups|, k + a), Min(|ups|, k + a + b));
  }

  /** The same downwards, as long as the first plan leaves something to undo. */
  lemma DownStepsCompose(ups: seq<string>, downs: seq<string>, k: nat, a: int, b: int)
    requires Matching(ups, downs) && 0 < a < k <= |ups| && b > 0
    ensures var files, c := FilesOf(downs, Down), CheckpointAt(ups, k);
            var first := PlanOf(files, Down, c, Flags(false, false, -a));
            first.files + PlanOf(files, Down, first.checkpoint, Flags(false, false, -b)).files
            == PlanOf(files, Down, c, Flags(false, false, -a - b)).files
  {
    hide Matching, PlanOf, FilesOf, Reversed;
    Sizes(ups, downs);
    PlanDown(ups, downs, k, Flags(false, false, -a));
    PlanDown(ups, downs, k - a, Flags(false, false, -b));
    PlanDown(ups, downs, k, Flags(false, false, -a - b));
    ReversedSplit(FilesOf(downs, Down), k - Min(k, a + b), k - a, k);
  }

  lemma Sizes(ups: seq<string>, downs: seq<string>)
    requires Matching(ups, downs)
    ensures |FilesOf(ups, Up)| == |FilesOf(downs, Down)| == |ups| == |downs|
  {
  }

  lemma SliceSplit<T>(s: seq<T>, i: nat, j: nat, k: nat)
    requires i <= j <= k <= |s|
    ensures s[i..j] + s[j..k] == s[i..k]
  {
  }

  lemma ReversedSplit<T>(s: seq<T>, i: nat, j: nat, k: nat)
    requires i <= j <= k <= |s|
    ensures Reversed(s[j..k]) + Reversed(s[i..j]) == Reversed(s[i..k])
  {
  }

  /** An up plan of `m` files and the down plan of `m` from where it ends visit the same migrations, reversed. */
  lemma UpThenDownPlans(ups: seq<string>, downs: seq<string>, k: nat, a: int)
    requires Matching(ups, downs) && k < |ups| && a > 0
    ensures var m: int := Min(|ups| - k, a);
            var up := PlanOf(FilesOf(ups, Up), Up, CheckpointAt(ups, k), Flags(false, false, a));
            var down := PlanOf(FilesOf(downs, Down), Down, up.checkpoint, Flags(false, false, -m));
            && down.checkpoint == CheckpointAt(ups, k)
            && up.files == FilesOf(ups[k..k + m], Up) && down.files == Reversed(FilesOf(downs[k..k + m], Down))
  {
    hide PlanOf, Matching, Reversed, FilesOf;
    Sizes(ups, downs);
    var m: int := Min(|ups| - k, a);
    PlanUp(ups, downs, k, Flags(false, false, a));
    PlanDown(ups, downs, k + m, Flags(false, false, -m));
    FilesOfSlice(ups, Up, k, k + m);
    FilesOfSlice(downs, Down, k, k + m);
  }

  lemma FilesOfSlice(stems: seq<string>, direction: Direction, i: nat, j: nat)
    requires i <= j <= |stems|
    ensures FilesOf(stems, direction)[i..j] == FilesOf(stems[i..j], direction)
  {
  }

  // ---- running ----

  /** The files of a plan in one database transaction; None when one of them fails. */
  function Exec<S>(run: (string, S) -> Option<S>, files: seq<string>, s: S): Option<S>
    decreases |files|
  {
    if files == [] then Some(s)
    else
      var front := Exec(run, files[..|files| - 1], s);
      if front.None? then None else run(files[|files| - 1], front.value)
  }

  lemma {:induction false} ExecConcat<S>(run: (string, S) -> Option<S>, a: seq<string>, b: seq<string>, s: S)
    ensures Exec(run, a + b, s) == (var m := Exec(run, a, s); if m.None? then None else Exec(run, b, m.value))
    decreases |b|
  {
    if b == [] {
      assert a + b == a;
    } else {
      assert (a + b)[..|a + b| - 1] == a + b[..|b| - 1];
      ExecConcat(run, a, b[..|b| - 1], s);
    }
  }

  /** Every down script undoes its up script. */
  ghost predicate Undoes<S(!new)>(run: (string, S) -> Option<S>, ups: seq<string>, downs: seq<string>) {
    |ups| == |downs| &&
    forall i, s :: 0 <= i < |ups| && run(ups[i] + UP, s).Some? ==> run(downs[i] + DOWN, run(ups[i] + UP, s).value) == Some(s)
  }

  /** The down files in reverse bring back the schema the up files started from. */
  lemma {:induction false} ExecUndo<S(!new)>(run: (string, S) -> Option<S>, ups: seq<string>, downs: seq<string>, s: S)
    requires Undoes(run, ups, downs)
    requires Exec(run, FilesOf(ups, Up), s).Some?
    ensures Exec(run, Reversed(FilesOf(downs, Down)), Exec(run, FilesOf(ups, Up), s).value) == Some(s)
    decreases |ups|
  {
    if ups != [] {
      var n := |ups| - 1;
      var upFiles, downFiles := FilesOf(ups, Up), FilesOf(downs, Down);
      assert upFiles[..n] == FilesOf(ups[..n], Up);
      ExecUndo(run, ups[..n], downs[..n], s);
      var last := [downs[n] + DOWN];
      assert Reversed(downFiles) == last + Reversed(FilesOf(downs[..n], Down));
      ExecConcat(run, last, Reversed(FilesOf(downs[..n], Down)), Exec(run, upFiles, s).value);
      assert last[..0] == [];
    }
  }
}
