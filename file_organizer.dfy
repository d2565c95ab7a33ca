/** The planning core of the file organizer: which regular files of a
    directory go to which category folder, under which name, and the
    per-category counts it reports.

    The directory is abstract. A listing is a sequence of items (the order
    of `iterdir`); a sub-directory carries the set of names it holds. Each
    regular file name comes split into stem and suffix, as pathlib splits
    it. Whether a move raises is an oracle: `moveFails(i)` says whether the
    move of the i-th regular file fails. */
module FileOrganizer {
  import opened Results
  import opened Decimal
  import opened FileCategories

  /** The statistics key under which failed moves are counted. */
  const Errors: string := "Errors"

  /** A file name as pathlib splits it: the name is stem + suffix. */
  datatype FileName = FileName(stem: string, suffix: string)
  {
    function Name(): string { stem + suffix }
  }

  datatype Item =
    | RegularFile(file: FileName)
    | Folder(name: string, contents: set<string>)
    | OtherItem(name: string)   // anything that is neither a regular file nor a directory

  function ItemName(item: Item): string
  {
    match item
    case RegularFile(f) => f.Name()
    case Folder(n, _) => n
    case OtherItem(n) => n
  }

  /** What the given path turns out to be. */
  datatype Target = Missing | NotADirectory | Directory(items: seq<Item>)

  datatype OrganizeError =
    | InvalidDirectory               // the ValueError of a missing or non-directory path
    | FolderBlocked(category: string) // mkdir fails: a non-directory already has the category's name

  /** An entry of `files_to_organize`. */
  datatype Planned = Planned(file: FileName, category: string)

  /** A completed move: the file, its category folder and the name it got there. */
  datatype Move = Move(file: FileName, category: string, destination: string)

  /** The returned statistics, with the moves made and the final contents of
      the category folders. */
  datatype Report = Report(stats: map<string, nat>, moves: seq<Move>, folders: map<string, set<string>>)

  function Category(f: FileName): string
  {
    IdentifyFileType(f.suffix)
  }

  /** The regular files of a listing, in listing order. */
  function RegularFiles(items: seq<Item>): seq<FileName>
  {
    if items == [] then []
    else
      var last := items[|items| - 1];
      RegularFiles(items[..|items| - 1]) + (if last.RegularFile? then [last.file] else [])
  }

  /** A name is among the regular files exactly when the listing holds it
      as a regular file. */
  lemma {:induction false} RegularFilesMembers(items: seq<Item>)
    ensures forall f :: f in RegularFiles(items) <==> RegularFile(f) in items
  {
    if items != [] {
      var last := items[|items| - 1];
      RegularFilesMembers(items[..|items| - 1]);
      assert items == items[..|items| - 1] + [last];
    }
  }

  /** One more item of the listing adds its file when it is a regular file. */
  lemma RegularFilesSnoc(items: seq<Item>, k: nat)
    requires k < |items|
    ensures RegularFiles(items[..k + 1])
         == RegularFiles(items[..k]) + (if items[k].RegularFile? then [items[k].file] else [])
  {
    assert items[..k + 1][..k] == items[..k];
  }

  /** Each file paired with its category. */
  function Classify(files: seq<FileName>): seq<Planned>
  {
    seq(|files|, i requires 0 <= i < |files| => Planned(files[i], Category(files[i])))
  }

  /** The categories of a list of files. */
  function CategoriesOf(files: seq<FileName>): set<string>
  {
    set f | f in files :: Category(f)
  }

  /** The plan lists every collected file once, in listing order, under a
      category of the table that is not "Errors"; the categories it uses are
      exactly the categories needed. */
  lemma ClassifiedPlan(files: seq<FileName>)
    ensures |Classify(files)| == |files|
    ensures forall i :: 0 <= i < |files| ==> Classify(files)[i].file == files[i]
    ensures forall i :: 0 <= i < |files| ==> Classify(files)[i].category == IdentifyFileType(files[i].suffix)
    ensures forall p :: p in Classify(files) ==> p.category in CategoryNames() && p.category != Errors
    ensures (set p | p in Classify(files) :: p.category) == CategoriesOf(files)
  {
    var plan := Classify(files);
    ErrorsIsNoCategory();
    forall c | c in CategoriesOf(files) ensures c in (set p | p in plan :: p.category) {
      var f :| f in files && Category(f) == c;
      var i :| 0 <= i < |files| && files[i] == f;
      assert plan[i] in plan;
    }
  }

  /** One more file adds its classification to the plan and its category to
      the categories needed. */
  lemma ClassifySnoc(files: seq<FileName>, f: FileName)
    ensures Classify(files + [f]) == Classify(files) + [Planned(f, Category(f))]
    ensures CategoriesOf(files + [f]) == CategoriesOf(files) + {Category(f)}
  {
  }

  /** What a directory entry of a given name is, before anything is created. */
  datatype FolderState = Absent | ExistingFolder(contents: set<string>) | Occupied

  function FolderStateOf(items: seq<Item>, name: string): FolderState
  {
    if items == [] then Absent
    else if ItemName(items[0]) == name then
      (if items[0].Folder? then ExistingFolder(items[0].contents) else Occupied)
    else FolderStateOf(items[1..], name)
  }

  /** The names already in the folder of a category before the run. */
  function InitialContents(items: seq<Item>, category: string): set<string>
  {
    match FolderStateOf(items, category)
    case ExistingFolder(contents) => contents
    case _ => {}
  }

  /** Some needed category folder cannot be created. */
  ghost predicate Blocked(items: seq<Item>)
  {
    exists c :: c in CategoriesOf(RegularFiles(items)) && FolderStateOf(items, c) == Occupied
  }

  // ---------------------------------------------------------------------------
  // Collision renaming

  /** `f"{base_name}_{counter}{extension}"`. */
  function Numbered(f: FileName, k: nat): string
  {
    f.stem + "_" + DecimalString(k) + f.suffix
  }

  /** The name the rename loop holds after `k` rounds: the original name for
      k = 0, the k-th numbered name after that. */
  function Candidate(f: FileName, k: nat): string
  {
    if k == 0 then f.Name() else Numbered(f, k)
  }

  lemma CandidateInjective(f: FileName, a: nat, b: nat)
    requires Candidate(f, a) == Candidate(f, b)
    ensures a == b
  {
    var p := |f.stem| + 1;
    CandidateLength(f, a);
    CandidateLength(f, b);
    if a > 0 && b > 0 {
      var x := Candidate(f, a);
      assert |DecimalString(a)| == |DecimalString(b)|;
      assert x[p..p + |DecimalString(a)|] == DecimalString(a);
      assert x[p..p + |DecimalString(b)|] == DecimalString(b);
      DecimalStringInjective(a, b);
    }
  }

  lemma CandidateLength(f: FileName, k: nat)
    ensures |Candidate(f, k)| == |f.stem| + |f.suffix| + (if k == 0 then 0 else 1 + |DecimalString(k)|)
  {
  }

  /** The names tried before round `k`. */
  function CandidatesBelow(f: FileName, k: nat): set<string>
  {
    if k == 0 then {} else CandidatesBelow(f, k - 1) + {Candidate(f, k - 1)}
  }

  lemma {:induction false} CandidateNotBelow(f: FileName, k: nat, m: nat)
    requires k <= m
    ensures Candidate(f, m) !in CandidatesBelow(f, k)
  {
    if k > 0 {
      CandidateNotBelow(f, k - 1, m);
      if Candidate(f, m) == Candidate(f, k - 1) {
        CandidateInjective(f, m, k - 1);
      }
    }
  }

  /** `name` is what the organizer picks for `f` in a folder holding `folder`:
      the original name when it is free, otherwise the numbered name with the
      smallest counter k >= 1 that is free. */
  ghost predicate IsFreshChoice(folder: set<string>, f: FileName, name: string)
  {
    && name !in folder
    && (f.Name() !in folder ==> name == f.Name())
    && (f.Name() in folder ==>
          exists k: nat :: k >= 1 && name == Numbered(f, k)
                           && forall j: nat :: 1 <= j < k ==> Numbered(f, j) in folder)
  }

  /** At most one name satisfies the rule. */
  lemma FreshChoiceUnique(folder: set<string>, f: FileName, a: string, b: string)
    requires IsFreshChoice(folder, f, a) && IsFreshChoice(folder, f, b)
    ensures a == b
  {
    if f.Name() in folder {
      var ka: nat :| ka >= 1 && a == Numbered(f, ka) && forall j: nat :: 1 <= j < ka ==> Numbered(f, j) in folder;
      var kb: nat :| kb >= 1 && b == Numbered(f, kb) && forall j: nat :: 1 <= j < kb ==> Numbered(f, j) in folder;
      assert ka < kb ==> Numbered(f, ka) in folder;
      assert kb < ka ==> Numbered(f, kb) in folder;
    }
  }

  /** The renaming rule as a function: the original name when it is free,
      otherwise the first free numbered name. */
  function FreshName(folder: set<string>, f: FileName): (name: string)
    ensures IsFreshChoice(folder, f, name)
  {
    if f.Name() !in folder then f.Name()
    else NumberedFrom(folder, f, 1)
  }

  /** The first free numbered name with counter `k` or above, when every
      name tried before `k` is taken. Each round removes one more name of
      the finite folder from those not yet tried. */
  function NumberedFrom(folder: set<string>, f: FileName, k: nat): (name: string)
    requires 1 <= k && CandidatesBelow(f, k) <= folder
    requires forall j: nat :: 1 <= j < k ==> Numbered(f, j) in folder
    ensures name !in folder
    ensures exists n: nat :: n >= k && name == Numbered(f, n)
                            && forall j: nat :: 1 <= j < n ==> Numbered(f, j) in folder
    decreases folder - CandidatesBelow(f, k)
  {
    if Numbered(f, k) !in folder then Numbered(f, k)
    else
      CandidateNotBelow(f, k, k);
      NumberedFrom(folder, f, k + 1)
  }

  /** The destination-name loop of `organize_files`. It ends because each
      round tries a name not tried before and present in the finite folder. */
  method ChooseDestination(folder: set<string>, f: FileName) returns (name: string)
    ensures IsFreshChoice(folder, f, name)
    ensures name == FreshName(folder, f)
  {
    name := f.Name();
    if name in folder {
      var counter: nat := 1;
      ghost var tried: set<string> := {};
      while name in folder
        invariant counter >= 1
        invariant name == Candidate(f, counter - 1)
        invariant counter == 1 ==> name in folder
        invariant tried == CandidatesBelow(f, counter - 1)
        invariant tried <= folder
        invariant forall j: nat :: 1 <= j < counter - 1 ==> Numbered(f, j) in folder
        decreases folder - tried
      {
        CandidateNotBelow(f, counter - 1, counter - 1);
        tried := tried + {name};
        name := Numbered(f, counter);
        counter := counter + 1;
      }
      assert name == Numbered(f, counter - 1);
    }
    FreshChoiceUnique(folder, f, name, FreshName(folder, f));
  }

  // ---------------------------------------------------------------------------
  // Statistics

  /** No category is called "Errors", so failures never mix with moves. */
  lemma ErrorsIsNoCategory()
    ensures Errors !in CategoryNames()
  {
    assert CategoryNames() == ["Images", "Videos", "Audio", "Documents", "Archives", "Code",
                               "Executables", "Spreadsheets", "Presentations", "Others"];
  }

  /** `stats[key]` of a defaultdict(int). */
  function Count(stats: map<string, nat>, key: string): nat
  {
    if key in stats then stats[key] else 0
  }

  /** `stats[key] += 1` on a defaultdict(int). */
  function Bump(stats: map<string, nat>, key: string): map<string, nat>
  {
    stats[key := Count(stats, key) + 1]
  }

  /** `sum(stats.values())`. */
  ghost function Total(stats: map<string, nat>): nat
    decreases |stats|
  {
    if stats == map[] then 0
    else
      assert stats.Keys != {};
      var key :| key in stats;
      assert |stats - {key}| < |stats| by {
        assert (stats - {key}).Keys == stats.Keys - {key};
      }
      stats[key] + Total(stats - {key})
  }

  /** The sum does not depend on which key is taken first. */
  lemma {:induction false} TotalRemove(stats: map<string, nat>, key: string)
    requires key in stats
    ensures Total(stats) == stats[key] + Total(stats - {key})
    decreases |stats|
  {
    var k :| k in stats && Total(stats) == stats[k] + Total(stats - {k});
    if k != key {
      assert |stats - {k}| < |stats| by {
        assert (stats - {k}).Keys == stats.Keys - {k};
      }
      assert |stats - {key}| < |stats| by {
        assert (stats - {key}).Keys == stats.Keys - {key};
      }
      TotalRemove(stats - {k}, key);
      TotalRemove(stats - {key}, k);
      assert stats - {k} - {key} == stats - {key} - {k};
    }
  }

  /** Each increment adds exactly one to the sum of the counts. */
  lemma TotalBump(stats: map<string, nat>, key: string)
    ensures Total(Bump(stats, key)) == Total(stats) + 1
  {
    var bumped := Bump(stats, key);
    TotalRemove(bumped, key);
    if key in stats {
      TotalRemove(stats, key);
      assert bumped - {key} == stats - {key};
    } else {
      assert bumped - {key} == stats;
    }
  }

  /** The number of moves into the folder of `category`. */
  function MovedTo(moves: seq<Move>, category: string): nat
  {
    if moves == [] then 0
    else MovedTo(moves[..|moves| - 1], category) + (if moves[|moves| - 1].category == category then 1 else 0)
  }

  /** The names given to the files moved into the folder of `category`. */
  function Destinations(moves: seq<Move>, category: string): set<string>
  {
    if moves == [] then {}
    else
      var last := moves[|moves| - 1];
      Destinations(moves[..|moves| - 1], category) + (if last.category == category then {last.destination} else {})
  }

  /** The number of the first `n` moves that fail. */
  function Failures(moveFails: nat -> bool, n: nat): nat
  {
    if n == 0 then 0 else Failures(moveFails, n - 1) + (if moveFails(n - 1) then 1 else 0)
  }

  /** The names in the folder of `category`; none when it has no folder. */
  function Contents(folders: map<string, set<string>>, category: string): set<string>
  {
    if category in folders then folders[category] else {}
  }

  /** The category folders after the given moves, starting from `initial`. */
  function FoldersAfter(initial: map<string, set<string>>, moves: seq<Move>): map<string, set<string>>
  {
    if moves == [] then initial
    else
      var before := FoldersAfter(initial, moves[..|moves| - 1]);
      var last := moves[|moves| - 1];
      before[last.category := Contents(before, last.category) + {last.destination}]
  }

  /** Each folder ends with its contents before the moves plus the names the
      moves into it were given. */
  lemma {:induction false} FoldersAfterContents(initial: map<string, set<string>>, moves: seq<Move>, category: string)
    ensures Contents(FoldersAfter(initial, moves), category) == Contents(initial, category) + Destinations(moves, category)
  {
    if moves != [] {
      FoldersAfterContents(initial, moves[..|moves| - 1], category);
    }
  }

  /** Every move picked its name by the renaming rule against its folder as
      it stood at that moment. */
  ghost predicate FreshMoves(initial: map<string, set<string>>, moves: seq<Move>)
  {
    moves == [] ||
      var before := moves[..|moves| - 1];
      var last := moves[|moves| - 1];
      FreshMoves(initial, before)
      && last.destination == FreshName(Contents(FoldersAfter(initial, before), last.category), last.file)
  }

  /** The t-th move picked its name against its folder after the moves before it. */
  lemma {:induction false} FreshMovesAt(initial: map<string, set<string>>, moves: seq<Move>, t: nat)
    requires FreshMoves(initial, moves) && t < |moves|
    ensures moves[t].destination == FreshName(Contents(FoldersAfter(initial, moves[..t]), moves[t].category), moves[t].file)
  {
    var before := moves[..|moves| - 1];
    if t < |before| {
      FreshMovesAt(initial, before, t);
      assert before[..t] == moves[..t];
    }
  }

  /** The t-th move picked its name against what its folder held before the
      moves plus the names the moves before it put there. */
  lemma FreshNameAt(initial: map<string, set<string>>, moves: seq<Move>, t: nat)
    requires FreshMoves(initial, moves) && t < |moves|
    ensures moves[t].destination
         == FreshName(Contents(initial, moves[t].category) + Destinations(moves[..t], moves[t].category), moves[t].file)
  {
    FreshMovesAt(initial, moves, t);
    FoldersAfterContents(initial, moves[..t], moves[t].category);
  }

  /** The name of every move is among the destinations of its folder. */
  lemma {:induction false} DestinationsHas(moves: seq<Move>, t: nat)
    requires t < |moves|
    ensures moves[t].destination in Destinations(moves, moves[t].category)
  {
    if t < |moves| - 1 {
      DestinationsHas(moves[..|moves| - 1], t);
    }
  }

  /** No move overwrites anything: no destination was in its folder before
      the run, and no two moves into one folder get the same name. */
  lemma {:induction false} FreshMovesNeverCollide(initial: map<string, set<string>>, moves: seq<Move>)
    requires FreshMoves(initial, moves)
    ensures forall t :: 0 <= t < |moves| ==> moves[t].destination !in Contents(initial, moves[t].category)
    ensures forall t, u :: 0 <= t < u < |moves| && moves[t].category == moves[u].category ==>
      moves[t].destination != moves[u].destination
  {
    if moves != [] {
      var before := moves[..|moves| - 1];
      var last := moves[|moves| - 1];
      FreshMovesNeverCollide(initial, before);
      var folder := Contents(FoldersAfter(initial, before), last.category);
      assert last.destination !in folder;
      FoldersAfterContents(initial, before, last.category);
      assert last.destination !in Destinations(before, last.category);
      forall t | 0 <= t < |moves| ensures moves[t].destination !in Contents(initial, moves[t].category) {
        if t < |before| { assert moves[t] == before[t]; }
      }
      forall t, u | 0 <= t < u < |moves| && moves[t].category == moves[u].category
        ensures moves[t].destination != moves[u].destination
      {
        assert moves[t] == before[t];
        if u < |before| {
          assert moves[u] == before[u];
        } else {
          DestinationsHas(before, t);
        }
      }
    }
  }

  /** The statistics agree with the first `i` move attempts: every key has
      a positive count, the counts sum to `i`, "Errors" counts the failed
      attempts and every other key counts the moves into its folder. */
  ghost predicate StatsAgree(stats: map<string, nat>, moves: seq<Move>, moveFails: nat -> bool, i: nat)
  {
    && (forall k :: k in stats ==> stats[k] > 0)
    && Total(stats) == i
    && Count(stats, Errors) == Failures(moveFails, i)
    && (forall c :: c != Errors ==> Count(stats, c) == MovedTo(moves, c))
  }

  /** A failed move adds one to "Errors" and nothing else. */
  lemma StatsAfterFailure(stats: map<string, nat>, moves: seq<Move>, moveFails: nat -> bool, i: nat)
    requires StatsAgree(stats, moves, moveFails, i) && moveFails(i)
    ensures StatsAgree(Bump(stats, Errors), moves, moveFails, i + 1)
  {
    TotalBump(stats, Errors);
  }

  /** A successful move adds one to its category and nothing else. */
  lemma StatsAfterMove(stats: map<string, nat>, moves: seq<Move>, moveFails: nat -> bool, i: nat, m: Move)
    requires StatsAgree(stats, moves, moveFails, i) && !moveFails(i)
    requires m.category != Errors
    ensures StatsAgree(Bump(stats, m.category), moves + [m], moveFails, i + 1)
  {
    TotalBump(stats, m.category);
    assert (moves + [m])[..|moves|] == moves;
  }

  /** One round of the move loop, as a function of the report so far: a
      failed move counts under "Errors"; otherwise the file gets the fresh
      name in its category folder and its category is counted. */
  function Step(report: Report, planned: Planned, failed: bool): Report
  {
    if failed then report.(stats := Bump(report.stats, Errors))
    else
      var move := LastMove(report, planned);
      Report(Bump(report.stats, planned.category),
             report.moves + [move],
             report.folders[planned.category := Contents(report.folders, planned.category) + {move.destination}])
  }

  /** The move a successful round makes: the file goes under the fresh name
      in its category folder. */
  function LastMove(report: Report, planned: Planned): Move
  {
    Move(planned.file, planned.category, FreshName(Contents(report.folders, planned.category), planned.file))
  }

  /** The report after the first `n` rounds of the move loop over `plan`,
      starting from the folders `initial`. */
  function MoveAll(plan: seq<Planned>, initial: map<string, set<string>>, moveFails: nat -> bool, n: nat): Report
    requires n <= |plan|
  {
    if n == 0 then Report(map[], [], initial)
    else Step(MoveAll(plan, initial, moveFails, n - 1), plan[n - 1], moveFails(n - 1))
  }

  /** The entries among the first `n` of the plan whose move does not fail. */
  function Succeeded(plan: seq<Planned>, moveFails: nat -> bool, n: nat): seq<Planned>
    requires n <= |plan|
  {
    if n == 0 then []
    else Succeeded(plan, moveFails, n - 1) + (if moveFails(n - 1) then [] else [plan[n - 1]])
  }

  /** Every attempt either fails or succeeds, and what succeeds comes from the plan. */
  lemma {:induction false} SucceededFromPlan(plan: seq<Planned>, moveFails: nat -> bool, n: nat)
    requires n <= |plan|
    ensures |Succeeded(plan, moveFails, n)| + Failures(moveFails, n) == n
    ensures forall t :: 0 <= t < |Succeeded(plan, moveFails, n)| ==> Succeeded(plan, moveFails, n)[t] in plan
  {
    if n > 0 {
      SucceededFromPlan(plan, moveFails, n - 1);
    }
  }

  /** The plan can be carried out: every planned category has a folder and
      none is called "Errors". */
  ghost predicate Feasible(plan: seq<Planned>, initial: map<string, set<string>>)
  {
    forall j :: 0 <= j < |plan| ==> plan[j].category in initial && plan[j].category != Errors
  }

  /** The moves made are the planned entries whose move does not fail, in
      plan order. */
  lemma {:induction false} MoveAllMoves(plan: seq<Planned>, initial: map<string, set<string>>,
                                        moveFails: nat -> bool, n: nat)
    requires n <= |plan|
    ensures |MoveAll(plan, initial, moveFails, n).moves| == |Succeeded(plan, moveFails, n)|
    ensures forall t :: 0 <= t < |MoveAll(plan, initial, moveFails, n).moves| ==>
      var m := MoveAll(plan, initial, moveFails, n).moves[t];
      Planned(m.file, m.category) == Succeeded(plan, moveFails, n)[t]
  {
    if n > 0 {
      MoveAllMoves(plan, initial, moveFails, n - 1);
    }
  }

  /** A round keeps the folders in step with the moves. */
  lemma StepFolders(initial: map<string, set<string>>, before: Report, planned: Planned, failed: bool)
    requires before.folders == FoldersAfter(initial, before.moves)
    ensures Step(before, planned, failed).folders == FoldersAfter(initial, Step(before, planned, failed).moves)
  {
    if !failed {
      var moves := before.moves + [LastMove(before, planned)];
      assert moves[..|moves| - 1] == before.moves;
    }
  }

  /** The folders are always those the moves made so far produce. */
  lemma {:induction false} MoveAllFolders(plan: seq<Planned>, initial: map<string, set<string>>,
                                          moveFails: nat -> bool, n: nat)
    requires n <= |plan|
    ensures MoveAll(plan, initial, moveFails, n).folders == FoldersAfter(initial, MoveAll(plan, initial, moveFails, n).moves)
  {
    if n > 0 {
      MoveAllFolders(plan, initial, moveFails, n - 1);
      StepFolders(initial, MoveAll(plan, initial, moveFails, n - 1), plan[n - 1], moveFails(n - 1));
    }
  }

  /** Under a feasible plan the move loop adds no folder. */
  lemma {:induction false} MoveAllKeys(plan: seq<Planned>, initial: map<string, set<string>>,
                                       moveFails: nat -> bool, n: nat)
    requires Feasible(plan, initial) && n <= |plan|
    ensures MoveAll(plan, initial, moveFails, n).folders.Keys == initial.Keys
  {
    if n > 0 {
      MoveAllKeys(plan, initial, moveFails, n - 1);
    }
  }

  /** Under a feasible plan every move goes into a folder that was there
      before the loop. */
  lemma {:induction false} MoveAllCategories(plan: seq<Planned>, initial: map<string, set<string>>,
                                             moveFails: nat -> bool, n: nat)
    requires Feasible(plan, initial) && n <= |plan|
    ensures forall t :: 0 <= t < |MoveAll(plan, initial, moveFails, n).moves| ==>
      MoveAll(plan, initial, moveFails, n).moves[t].category in initial
  {
    if n > 0 {
      MoveAllCategories(plan, initial, moveFails, n - 1);
    }
  }

  /** Under a feasible plan the statistics agree with the attempts made. */
  lemma {:induction false} MoveAllStats(plan: seq<Planned>, initial: map<string, set<string>>,
                                        moveFails: nat -> bool, n: nat)
    requires Feasible(plan, initial) && n <= |plan|
    ensures StatsAgree(MoveAll(plan, initial, moveFails, n).stats, MoveAll(plan, initial, moveFails, n).moves, moveFails, n)
  {
    if n == 0 {
      assert Total(map[]) == 0;
    } else {
      MoveAllStats(plan, initial, moveFails, n - 1);
      var before := MoveAll(plan, initial, moveFails, n - 1);
      if moveFails(n - 1) {
        StatsAfterFailure(before.stats, before.moves, moveFails, n - 1);
      } else {
        var moves := MoveAll(plan, initial, moveFails, n).moves;
        StatsAfterMove(before.stats, before.moves, moveFails, n - 1, moves[|moves| - 1]);
      }
    }
  }

  /** A round keeps every move's name fresh, given folders in step with the moves. */
  lemma StepFresh(initial: map<string, set<string>>, before: Report, planned: Planned, failed: bool)
    requires FreshMoves(initial, before.moves)
    requires before.folders == FoldersAfter(initial, before.moves)
    ensures FreshMoves(initial, Step(before, planned, failed).moves)
  {
    if !failed {
      var moves := before.moves + [LastMove(before, planned)];
      assert moves[..|moves| - 1] == before.moves;
    }
  }

  /** Every move of the loop picks its name by the renaming rule. */
  lemma {:induction false} MoveAllFresh(plan: seq<Planned>, initial: map<string, set<string>>,
                                        moveFails: nat -> bool, n: nat)
    requires n <= |plan|
    ensures FreshMoves(initial, MoveAll(plan, initial, moveFails, n).moves)
  {
    if n > 0 {
      MoveAllFresh(plan, initial, moveFails, n - 1);
      MoveAllFolders(plan, initial, moveFails, n - 1);
      StepFresh(initial, MoveAll(plan, initial, moveFails, n - 1), plan[n - 1], moveFails(n - 1));
    }
  }

  /** The category folders as they stand before any move: one per category
      of a regular file, holding what that entry held. */
  function InitialFolders(items: seq<Item>): (initial: map<string, set<string>>)
    ensures initial.Keys == CategoriesOf(RegularFiles(items))
  {
    map c | c in CategoriesOf(RegularFiles(items)) :: InitialContents(items, c)
  }

  /** What a successful run of `organize_files` reports: all rounds of the
      move loop over the classified regular files, from the folders as they
      stood before. */
  function Run(items: seq<Item>, moveFails: nat -> bool): Report
  {
    var files := RegularFiles(items);
    MoveAll(Classify(files), InitialFolders(items), moveFails, |files|)
  }

  /** Every planned category has a folder and none is "Errors". */
  lemma ClassifiedIsFeasible(items: seq<Item>)
    ensures Feasible(Classify(RegularFiles(items)), InitialFolders(items))
  {
    var files := RegularFiles(items);
    var plan := Classify(files);
    ErrorsIsNoCategory();
    forall j | 0 <= j < |plan| ensures plan[j].category in InitialFolders(items) && plan[j].category != Errors {
      assert files[j] in files;
    }
  }

  /** After a run, every moved file is a regular file of the listing, moved
      into the folder of its own category, and the files moved are as many
      as the attempts that did not fail. */
  lemma RunMovesClassified(items: seq<Item>, moveFails: nat -> bool)
    ensures |Run(items, moveFails).moves| + Failures(moveFails, |RegularFiles(items)|) == |RegularFiles(items)|
    ensures forall t :: 0 <= t < |Run(items, moveFails).moves| ==>
      var m := Run(items, moveFails).moves[t];
      m.file in RegularFiles(items) && m.category == Category(m.file)
  {
    var files := RegularFiles(items);
    var plan := Classify(files);
    var n := |files|;
    var moves := Run(items, moveFails).moves;
    MoveAllMoves(plan, InitialFolders(items), moveFails, n);
    SucceededFromPlan(plan, moveFails, n);
    forall t | 0 <= t < |moves| ensures moves[t].file in files && moves[t].category == Category(moves[t].file) {
      var j :| 0 <= j < |plan| && plan[j] == Succeeded(plan, moveFails, n)[t];
      assert files[j] in files;
    }
  }

  /** After a run there is one folder per category found, holding what it
      held before plus the names of the files moved into it. */
  lemma RunFolders(items: seq<Item>, moveFails: nat -> bool)
    ensures Run(items, moveFails).folders.Keys == CategoriesOf(RegularFiles(items))
    ensures forall c :: c in Run(items, moveFails).folders ==>
      Run(items, moveFails).folders[c] == InitialContents(items, c) + Destinations(Run(items, moveFails).moves, c)
  {
    var files := RegularFiles(items);
    var plan := Classify(files);
    var initial := InitialFolders(items);
    var report := Run(items, moveFails);
    ClassifiedIsFeasible(items);
    MoveAllKeys(plan, initial, moveFails, |files|);
    MoveAllFolders(plan, initial, moveFails, |files|);
    forall c | c in report.folders ensures report.folders[c] == InitialContents(items, c) + Destinations(report.moves, c) {
      FoldersAfterContents(initial, report.moves, c);
    }
  }

  /** Each file of a run gets its name by the renaming rule (`FreshName`,
      whose contract is `IsFreshChoice`) against its folder as it stood at
      that moment: what the folder held before the run
      plus the names of the files moved into it earlier. */
  lemma RunFreshNames(items: seq<Item>, moveFails: nat -> bool)
    ensures forall t :: 0 <= t < |Run(items, moveFails).moves| ==>
      var m := Run(items, moveFails).moves[t];
      m.destination == FreshName(InitialContents(items, m.category) + Destinations(Run(items, moveFails).moves[..t], m.category),
                                 m.file)
  {
    var files := RegularFiles(items);
    var plan := Classify(files);
    var initial := InitialFolders(items);
    var moves := Run(items, moveFails).moves;
    ClassifiedIsFeasible(items);
    MoveAllCategories(plan, initial, moveFails, |files|);
    MoveAllFresh(plan, initial, moveFails, |files|);
    forall t | 0 <= t < |moves| {
      FreshNameAt(initial, moves, t);
    }
  }

  /** A run overwrites nothing: no file lands on a name its folder held
      before, and no two files land on the same name in one folder. */
  lemma RunNoOverwrite(items: seq<Item>, moveFails: nat -> bool)
    ensures forall t :: 0 <= t < |Run(items, moveFails).moves| ==>
      Run(items, moveFails).moves[t].destination !in InitialContents(items, Run(items, moveFails).moves[t].category)
    ensures forall t, u :: 0 <= t < u < |Run(items, moveFails).moves|
                           && Run(items, moveFails).moves[t].category == Run(items, moveFails).moves[u].category ==>
      Run(items, moveFails).moves[t].destination != Run(items, moveFails).moves[u].destination
  {
    var files := RegularFiles(items);
    var plan := Classify(files);
    var initial := InitialFolders(items);
    ClassifiedIsFeasible(items);
    var moves := Run(items, moveFails).moves;
    MoveAllCategories(plan, initial, moveFails, |files|);
    MoveAllFresh(plan, initial, moveFails, |files|);
    FreshMovesNeverCollide(initial, moves);
    forall t | 0 <= t < |moves| ensures moves[t].destination !in InitialContents(items, moves[t].category) {
      assert moves[t].category in initial;
      assert Contents(initial, moves[t].category) == InitialContents(items, moves[t].category);
    }
  }

  /** After a run the counts add up to the number of regular files, with
      the failed moves under "Errors" and each category counting the files
      moved into its folder. */
  lemma RunCounts(items: seq<Item>, moveFails: nat -> bool)
    ensures Total(Run(items, moveFails).stats) == |RegularFiles(items)|
    ensures Count(Run(items, moveFails).stats, Errors) == Failures(moveFails, |RegularFiles(items)|)
    ensures forall c :: c != Errors ==> Count(Run(items, moveFails).stats, c) == MovedTo(Run(items, moveFails).moves, c)
    ensures forall c :: c in Run(items, moveFails).stats ==> Run(items, moveFails).stats[c] > 0
  {
    var files := RegularFiles(items);
    ClassifiedIsFeasible(items);
    MoveAllStats(Classify(files), InitialFolders(items), moveFails, |files|);
  }

  // ---------------------------------------------------------------------------
  // The run

  /** The first loop of `organize_files`: every regular file with its
      category, and the set of categories needed. */
  method CollectFiles(items: seq<Item>) returns (plan: seq<Planned>, needed: set<string>)
    ensures plan == Classify(RegularFiles(items))
    ensures needed == CategoriesOf(RegularFiles(items))
  {
    plan := [];
    needed := {};
    var k := 0;
    while k < |items|
      invariant 0 <= k <= |items|
      invariant plan == Classify(RegularFiles(items[..k]))
      invariant needed == CategoriesOf(RegularFiles(items[..k]))
    {
      RegularFilesSnoc(items, k);
      if items[k].RegularFile? {
        var f := items[k].file;
        var category := IdentifyFileType(f.suffix);
        ClassifySnoc(RegularFiles(items[..k]), f);
        plan := plan + [Planned(f, category)];
        needed := needed + {category};
      }
      k := k + 1;
    }
    assert items[..|items|] == items;
  }

  /** `create_category_folders`: each needed folder is created or already
      exists; a non-directory of that name makes mkdir raise. */
  method CreateCategoryFolders(items: seq<Item>, needed: set<string>)
    returns (r: Result<map<string, set<string>>, OrganizeError>)
    ensures r.Failure? <==> exists c :: c in needed && FolderStateOf(items, c) == Occupied
    ensures r.Failure? ==> r.error.FolderBlocked? && r.error.category in needed
                           && FolderStateOf(items, r.error.category) == Occupied
    ensures r.Success? ==> r.value == map c | c in needed :: InitialContents(items, c)
  {
    var folders: map<string, set<string>> := map[];
    var todo := needed;
    while todo != {}
      invariant todo <= needed
      invariant folders.Keys == needed - todo
      invariant forall c :: c in folders ==> FolderStateOf(items, c) != Occupied
      invariant forall c :: c in folders ==> folders[c] == InitialContents(items, c)
      decreases todo
    {
      var c :| c in todo;
      match FolderStateOf(items, c) {
        case Occupied =>
          return Failure(FolderBlocked(c));
        case Absent =>
          folders := folders[c := {}];
        case ExistingFolder(contents) =>
          folders := folders[c := contents];
      }
      todo := todo - {c};
    }
    return Success(folders);
  }

  /** One round of the move loop: pick the destination name, then either
      the move fails and counts under "Errors", or the file lands under that
      name and its category is counted. */
  method MoveOne(report: Report, planned: Planned, failed: bool) returns (after: Report)
    requires planned.category in report.folders
    ensures after == Step(report, planned, failed)
    ensures after.folders.Keys == report.folders.Keys
  {
    var folder := report.folders[planned.category];
    var name := ChooseDestination(folder, planned.file);
    if failed {
      after := report.(stats := Bump(report.stats, Errors));
    } else {
      after := Report(Bump(report.stats, planned.category),
                      report.moves + [Move(planned.file, planned.category, name)],
                      report.folders[planned.category := folder + {name}]);
    }
  }

  /** The move loop of `organize_files`. */
  method MoveFiles(plan: seq<Planned>, initial: map<string, set<string>>, moveFails: nat -> bool)
    returns (report: Report)
    requires Feasible(plan, initial)
    ensures report == MoveAll(plan, initial, moveFails, |plan|)
  {
    report := Report(map[], [], initial);
    var i := 0;
    while i < |plan|
      invariant 0 <= i <= |plan|
      invariant report.folders.Keys == initial.Keys
      invariant report == MoveAll(plan, initial, moveFails, i)
    {
      report := MoveOne(report, plan[i], moveFails(i));
      i := i + 1;
    }
  }

  /** `organize_files`: validate the path, plan the files, create the
      folders, then move each file under a free name, counting successes per
      category and failures under "Errors". */
  method OrganizeFiles(target: Target, moveFails: nat -> bool) returns (r: Result<Report, OrganizeError>)
    ensures r == Failure(InvalidDirectory) <==> !target.Directory?
    ensures target.Directory? ==> (r.Failure? <==> Blocked(target.items))
    ensures r.Failure? && r.error.FolderBlocked? ==>
      target.Directory? && r.error.category in CategoriesOf(RegularFiles(target.items))
      && FolderStateOf(target.items, r.error.category) == Occupied
    ensures r.Success? ==> target.Directory? && r.value == Run(target.items, moveFails)
  {
    if !target.Directory? {
      return Failure(InvalidDirectory);
    }
    var items := target.items;
    var plan, needed := CollectFiles(items);
    var created := CreateCategoryFolders(items, needed);
    if created.Failure? {
      return Failure(created.error);
    }
    assert created.value == InitialFolders(items);
    ClassifiedIsFeasible(items);
    assert |plan| == |RegularFiles(items)|;
    var report := MoveFiles(plan, created.value, moveFails);
    return Success(report);
  }
}
