/**
  * The start menu's project store (`StartMenu`): the projects directory, modelled as a map from
  * file name to sealed file contents, and the list of projects shown, newest first. Sealing
  * stands for the program's symmetric encryption; all the model keeps of it is that opening a
  * sealed text gives the text back and that a file sealed some other way does not open.
  */
module Store {
  import opened Wrappers
  import opened Text
  import opened DiaFormat
  import opened DiaLaws
  import opened DiaDocument
  import opened Diagram

  /** The contents of a project file: a sealed `.dia` text, or bytes the program's key does not open. */
  datatype Blob = Sealed(text: string) | Unreadable

  /** `encrypt_data`. */
  function Encrypt(text: string): (b: Blob)
    ensures Decrypt(b) == Some(text)
  {
    Sealed(text)
  }

  /** `decrypt_data`: the text, or `None` when the file does not open. */
  function Decrypt(b: Blob): Option<string> {
    match b
    case Sealed(text) => Some(text)
    case Unreadable => None
  }

  /** The name of a project's file, `f"{project.name}.dia"`. */
  function FileName(name: string): (file: string)
    ensures EndsWith(file, ".dia")
    ensures |file| == |name| + 4 && file[..|name|] == name
  {
    name + ".dia"
  }

  /** Two projects share a file exactly when they share a name. */
  lemma FileNameInjective(a: string, b: string)
    ensures FileName(a) == FileName(b) <==> a == b
  {
    if FileName(a) == FileName(b) {
      assert a == FileName(a)[..|a|] == FileName(b)[..|b|] == b;
    }
  }

  // ---------------------------------------------------------------------------
  // Loading

  /** Python's `a < b` on strings: by code point, a proper prefix before the longer string. */
  predicate Below(a: string, b: string) {
    if a == [] then b != []
    else if b == [] then false
    else a[0] < b[0] || (a[0] == b[0] && Below(a[1..], b[1..]))
  }

  lemma {:induction false} BelowAsymmetric(a: string, b: string)
    requires Below(a, b)
    ensures !Below(b, a)
  {
    if a != [] && b != [] && a[0] == b[0] {
      BelowAsymmetric(a[1..], b[1..]);
    }
  }

  /** "Not before" is transitive. */
  lemma {:induction false} NotBelowTransitive(a: string, b: string, c: string)
    requires !Below(a, b) && !Below(b, c)
    ensures !Below(a, c)
  {
    if a != [] && b != [] && c != [] && a[0] == b[0] == c[0] {
      NotBelowTransitive(a[1..], b[1..], c[1..]);
    }
  }

  /** `sort(key=modified, reverse=True)`'s order: no project modified earlier than one after it. */
  predicate NewestFirst(ps: seq<Project>) {
    forall i, j | 0 <= i < j < |ps| :: !Below(ps[i].modified, ps[j].modified)
  }

  /**
    * What loading makes of one directory entry: the project a fresh `DiagramProject` reads from the
    * decrypted text, or nothing for a file that is not `.dia`, missing, undecryptable, empty or
    * rejected by the reader.
    */
  function LoadEntry(files: map<string, Blob>, file: string, now: string): (r: seq<Project>)
    ensures |r| <= 1
    ensures r != [] <==>
      && file in files && EndsWith(file, ".dia")
      && Decrypt(files[file]).Some? && Decrypt(files[file]).value != []
      && Parse(Decrypt(files[file]).value, now).Some?
    ensures r != [] ==> r == [Parse(Decrypt(files[file]).value, now).value]
  {
    if !EndsWith(file, ".dia") || file !in files then []
    else
      match Decrypt(files[file])
      case None => []
      case Some(text) =>
        if text == [] then []
        else
          match Parse(text, now)
          case None => []
          case Some(q) => [q]
  }

  /**
    * The projects `load_projects` finds in the directory, in the order of the listing `files`:
    * each `.dia` file that opens to a non-empty text which a fresh project reads successfully.
    */
  function Loadable(files: map<string, Blob>, listing: seq<string>, now: string): (r: seq<Project>)
    ensures |r| <= |listing|
  {
    if listing == [] then []
    else Loadable(files, listing[..|listing| - 1], now) + LoadEntry(files, listing[|listing| - 1], now)
  }

  /** What the first `m` entries of the listing yield comes first among what the whole listing yields. */
  lemma {:induction false} LoadablePrefix(files: map<string, Blob>, listing: seq<string>, m: nat, now: string)
    requires m <= |listing|
    ensures Loadable(files, listing[..m], now) <= Loadable(files, listing, now)
  {
    if m < |listing| {
      var init := listing[..|listing| - 1];
      LoadablePrefix(files, init, m, now);
      assert init[..m] == listing[..m];
    } else {
      assert listing[..m] == listing;
    }
  }

  /** A written document is never empty. */
  lemma WrittenNotEmpty(p: Project)
    ensures ToDia(p) != []
  {
    var lines := RenderLines(p);
    assert lines[0] == Header;
    assert |lines| >= 2;
    assert Join(lines, '\n') == lines[0] + ['\n'] + Join(lines[1..], '\n');
  }

  /** A saved project's file loads as that project, field for field. */
  lemma SavedFileLoads(files: map<string, Blob>, p: Project, now: string)
    requires WellFormed(p)
    requires FileName(p.name) in files && files[FileName(p.name)] == Encrypt(ToDia(p))
    ensures LoadEntry(files, FileName(p.name), now) == [p]
  {
    WrittenNotEmpty(p);
    RoundTrip(p, now);
  }

  /** A project one listed file loads as is among the projects the whole listing loads. */
  lemma ListedEntryLoads(files: map<string, Blob>, listing: seq<string>, k: nat, q: Project, now: string)
    requires k < |listing| && LoadEntry(files, listing[k], now) == [q]
    ensures q in Loadable(files, listing, now)
  {
    LoadableSnoc(files, listing, k, now);
    LoadablePrefix(files, listing, k + 1, now);
    InPrefix(Loadable(files, listing[..k + 1], now), Loadable(files, listing, now), q);
  }

  lemma InPrefix<T>(a: seq<T>, b: seq<T>, x: T)
    requires a <= b && x in a
    ensures x in b
  {
    var i :| 0 <= i < |a| && a[i] == x;
    assert b[i] == x;
  }

  /** A saved project is among the projects the next `load_projects` finds. */
  lemma SavedProjectLoads(files: map<string, Blob>, listing: seq<string>, p: Project, now: string)
    requires WellFormed(p)
    requires FileName(p.name) in listing && FileName(p.name) in files && files[FileName(p.name)] == Encrypt(ToDia(p))
    ensures p in Loadable(files, listing, now)
  {
    var k :| 0 <= k < |listing| && listing[k] == FileName(p.name);
    SavedFileLoads(files, p, now);
    ListedEntryLoads(files, listing, k, p, now);
  }

  /** The current state of each project of a list. */
  function Snapshots(ps: seq<DiagramProject>): (r: seq<Project>)
    reads ps
    ensures |r| == |ps|
  {
    if ps == [] then [] else Snapshots(ps[..|ps| - 1]) + [ps[|ps| - 1].Snapshot()]
  }

  lemma {:induction false} SnapshotsAt(ps: seq<DiagramProject>, k: nat)
    requires k < |ps|
    ensures Snapshots(ps)[k] == ps[k].Snapshot()
  {
    var m := |ps| - 1;
    if k < m {
      SnapshotsAt(ps[..m], k);
    }
  }

  /** The projects of a list of loaded entries, each a project and the state it was read into. */
  function Projects(entries: seq<(DiagramProject, Project)>): (r: seq<DiagramProject>)
    ensures |r| == |entries|
    ensures forall k | 0 <= k < |r| :: r[k] == entries[k].0
  {
    seq(|entries|, k requires 0 <= k < |entries| => entries[k].0)
  }

  /** The states of a list of loaded entries. */
  function States<T>(entries: seq<(T, Project)>): (r: seq<Project>)
    ensures |r| == |entries|
    ensures forall k | 0 <= k < |r| :: r[k] == entries[k].1
  {
    seq(|entries|, k requires 0 <= k < |entries| => entries[k].1)
  }

  lemma StatesAppend<T>(a: seq<(T, Project)>, b: seq<(T, Project)>)
    ensures States(a + b) == States(a) + States(b)
  {
  }

  lemma LoadableSnoc(files: map<string, Blob>, listing: seq<string>, i: nat, now: string)
    requires i < |listing|
    ensures Loadable(files, listing[..i + 1], now) == Loadable(files, listing[..i], now) + LoadEntry(files, listing[i], now)
  {
    assert listing[..i + 1][..i] == listing[..i];
  }

  lemma StatesSnoc<T>(entries: seq<(T, Project)>, e: (T, Project))
    ensures States(entries + [e]) == States(entries) + [e.1]
  {
  }

  lemma StatesInsert<T>(entries: seq<(T, Project)>, pos: nat, e: (T, Project))
    requires pos <= |entries|
    ensures States(entries[..pos] + [e] + entries[pos..]) == States(entries)[..pos] + [e.1] + States(entries)[pos..]
  {
  }

  /** Entries whose states are the current states of their projects show those states. */
  /** Where the `k`-th element of a reordering of `a` stands in `a`. */
  lemma Position<T>(a: seq<T>, b: seq<T>, k: nat) returns (j: nat)
    requires multiset(b) == multiset(a) && k < |b|
    ensures j < |a| && a[j] == b[k]
  {
    assert b[k] in multiset(a);
    j :| j < |a| && a[j] == b[k];
  }

  lemma SnapshotsOfEntries(entries: seq<(DiagramProject, Project)>)
    requires forall k | 0 <= k < |entries| :: entries[k].0.Snapshot() == entries[k].1
    ensures Snapshots(Projects(entries)) == States(entries)
  {
    var ps := Projects(entries);
    forall k | 0 <= k < |entries| ensures Snapshots(ps)[k] == States(entries)[k] {
      SnapshotsAt(ps, k);
    }
  }

  /**
    * `projects.sort(key=lambda x: x.modified, reverse=True)`, by insertion into a new list: each
    * entry goes after every entry modified no earlier than it, so entries modified at the same
    * time keep their order.
    */
  method SortNewestFirst<T>(entries: seq<(T, Project)>) returns (sorted: seq<(T, Project)>)
    ensures multiset(sorted) == multiset(entries)
    ensures multiset(States(sorted)) == multiset(States(entries))
    ensures NewestFirst(States(sorted))
  {
    sorted := [];
    var i := 0;
    while i < |entries|
      invariant 0 <= i <= |entries|
      invariant multiset(sorted) == multiset(entries[..i])
      invariant multiset(States(sorted)) == multiset(States(entries[..i]))
      invariant NewestFirst(States(sorted))
    {
      var e := entries[i];
      ghost var states := States(sorted);
      var pos := 0;
      while pos < |sorted| && !Below(sorted[pos].1.modified, e.1.modified)
        invariant 0 <= pos <= |sorted|
        invariant forall k | 0 <= k < pos :: !Below(states[k].modified, e.1.modified)
      {
        pos := pos + 1;
      }
      InsertKeepsOrder(states, pos, e.1);
      StatesInsert(sorted, pos, e);
      InsertMultiset(sorted, pos, e);
      InsertMultiset(states, pos, e.1);
      StatesSnoc(entries[..i], e);
      assert entries[..i + 1] == entries[..i] + [e];
      sorted := sorted[..pos] + [e] + sorted[pos..];
      i := i + 1;
    }
    assert entries[..i] == entries;
  }

  lemma InsertMultiset<T>(s: seq<T>, pos: nat, x: T)
    requires pos <= |s|
    ensures multiset(s[..pos] + [x] + s[pos..]) == multiset(s) + multiset{x}
  {
    assert s == s[..pos] + s[pos..];
  }

  /** Inserting `x` after the projects modified no earlier than it, and before one modified earlier, keeps the order. */
  lemma InsertKeepsOrder(ps: seq<Project>, pos: nat, x: Project)
    requires NewestFirst(ps) && pos <= |ps|
    requires forall k | 0 <= k < pos :: !Below(ps[k].modified, x.modified)
    requires pos < |ps| ==> Below(ps[pos].modified, x.modified)
    ensures NewestFirst(ps[..pos] + [x] + ps[pos..])
  {
    var r := ps[..pos] + [x] + ps[pos..];
    if pos < |ps| {
      BelowAsymmetric(ps[pos].modified, x.modified);
    }
    forall i, j | 0 <= i < j < |r| ensures !Below(r[i].modified, r[j].modified) {
      if i < pos && j == pos {
      } else if i == pos && j > pos + 1 {
        NotBelowTransitive(x.modified, ps[pos].modified, ps[j - 1].modified);
      } else if i < pos && j > pos {
        assert r[i] == ps[i] && r[j] == ps[j - 1];
      } else if i > pos {
        assert r[i] == ps[i - 1] && r[j] == ps[j - 1];
      }
    }
  }

  class ProjectStore {
    /** The projects directory: each file's name and contents. */
    var files: map<string, Blob>
    /** `self.projects`, the list the start menu shows. */
    var projects: seq<DiagramProject>

    /** The start menu opening on a directory whose entries, in `os.listdir` order, are `listing`. */
    constructor (files: map<string, Blob>, listing: seq<string>, now: string)
      ensures this.files == files
      ensures NewestFirst(Snapshots(projects))
      ensures multiset(Snapshots(projects)) == multiset(Loadable(files, listing, now))
    {
      this.files := files;
      new;
      LoadProjects(listing, now);
    }

    /**
      * `self.projects = self.load_projects()`: each loadable file read into a new project, then
      * the list sorted by modification time, newest first.
      */
    method LoadProjects(listing: seq<string>, now: string)
      modifies this
      ensures files == old(files)
      ensures forall p | p in projects :: fresh(p)
      ensures NewestFirst(Snapshots(projects))
      ensures multiset(Snapshots(projects)) == multiset(Loadable(files, listing, now))
    {
      var found := ReadDirectory(listing, now);
      var sorted := SortNewestFirst(found);
      projects := Projects(sorted);
      forall k | 0 <= k < |sorted| ensures fresh(sorted[k].0) && sorted[k].0.Snapshot() == sorted[k].1 {
        var j := Position(found, sorted, k);
      }
      SnapshotsOfEntries(sorted);
    }

    /** The loop of `load_projects`: the listed files read in turn, each into a new project. */
    method ReadDirectory(listing: seq<string>, now: string) returns (found: seq<(DiagramProject, Project)>)
      ensures forall k | 0 <= k < |found| :: fresh(found[k].0) && found[k].0.Snapshot() == found[k].1
      ensures States(found) == Loadable(files, listing, now)
    {
      found := [];
      var i := 0;
      while i < |listing|
        invariant 0 <= i <= |listing|
        invariant forall k | 0 <= k < |found| :: fresh(found[k].0) && found[k].0.Snapshot() == found[k].1
        invariant States(found) == Loadable(files, listing[..i], now)
      {
        var entry := ReadFile(listing[i], now);
        LoadableSnoc(files, listing, i, now);
        StatesAppend(found, entry);
        found := found + entry;
        i := i + 1;
      }
      assert listing[..i] == listing;
    }

    /** One listed file: read into a new project if it is a `.dia` file that opens to a text the project reads. */
    method ReadFile(file: string, now: string) returns (entry: seq<(DiagramProject, Project)>)
      ensures forall k | 0 <= k < |entry| :: fresh(entry[k].0) && entry[k].0.Snapshot() == entry[k].1
      ensures States(entry) == LoadEntry(files, file, now)
    {
      entry := [];
      if EndsWith(file, ".dia") && file in files {
        var text := Decrypt(files[file]);
        if text.Some? && text.value != [] {
          var project := new DiagramProject("New Project", now);
          var ok := project.FromDiaFormat(text.value);
          if ok {
            entry := [(project, project.Snapshot())];
          }
        }
      }
    }

    /**
      * `save_project`: the modification time is set to `now`, and the project's document, sealed,
      * is written to the file of its name. The list of projects is left alone.
      */
    method SaveProject(project: DiagramProject, now: string)
      modifies this, project
      ensures project.Snapshot() == old(project.Snapshot()).(modified := now)
      ensures files == old(files)[FileName(project.name) := Encrypt(ToDia(project.Snapshot()))]
      ensures projects == old(projects)
    {
      project.modified := now;
      var text := project.ToDiaFormat();
      files := files[FileName(project.name) := Encrypt(text)];
    }

    /**
      * `rename_project` with the rename dialog's entry text, or `None` when it is cancelled. A
      * name that is blank once stripped is not accepted by the dialog, and nothing changes. Otherwise
      * the old file is removed, the stripped name is set and the project saved under it.
      */
    method RenameProject(project: DiagramProject, entry: Option<string>, now: string)
      modifies this, project
      ensures entry.None? || Strip(entry.value) == [] ==>
        project.Snapshot() == old(project.Snapshot()) && files == old(files)
      ensures entry.Some? && Strip(entry.value) != [] ==>
        && project.Snapshot() == old(project.Snapshot()).(name := Strip(entry.value), modified := now)
        && files == (old(files) - {FileName(old(project.name))})[FileName(project.name) := Encrypt(ToDia(project.Snapshot()))]
        && (FileName(old(project.name)) in files <==> project.name == old(project.name))
      ensures projects == old(projects)
    {
      if entry.None? {
        return;
      }
      var newName := Strip(entry.value);
      if newName == [] {
        return;
      }
      ghost var oldName := project.name;
      files := files - {FileName(project.name)};
      StripTrimmed(newName);
      project.name := Strip(newName);
      project.modified := now;
      SaveProject(project, now);
      FileNameInjective(oldName, newName);
    }

    /**
      * `delete_project` once the user has answered the confirmation (`confirmed`): every listed
      * project of that name is dropped from the list, and the file of that name is removed.
      */
    method DeleteProject(project: DiagramProject, confirmed: bool)
      modifies this
      ensures !confirmed ==> files == old(files) && projects == old(projects)
      ensures confirmed ==> files == old(files) - {FileName(project.name)}
      ensures confirmed ==> projects == Remaining(old(projects), project.name)
    {
      if !confirmed {
        return;
      }
      var kept: seq<DiagramProject> := [];
      var i := 0;
      while i < |projects|
        invariant 0 <= i <= |projects|
        invariant kept == Remaining(projects[..i], project.name)
      {
        assert projects[..i + 1][..i] == projects[..i];
        if projects[i].name != project.name {
          kept := kept + [projects[i]];
        }
        i := i + 1;
      }
      assert projects[..i] == projects;
      projects := kept;
      files := files - {FileName(project.name)};
    }
  }

  /** `[p for p in ps if p.name != name]`; `RemainingStates` says what it keeps, in what order. */
  function Remaining(ps: seq<DiagramProject>, name: string): (r: seq<DiagramProject>)
    reads ps
    ensures forall p | p in r :: p in ps && p.name != name
    ensures forall p | p in ps && p.name != name :: p in r
    ensures |r| <= |ps|
  {
    if ps == [] then []
    else
      var init := Remaining(ps[..|ps| - 1], name);
      var last := ps[|ps| - 1];
      assert forall p | p in ps :: p in ps[..|ps| - 1] || p == last;
      if last.name != name then init + [last] else init
  }

  /** `[q for q in states if q.name != name]` on project states: each state of another name, as often as it occurs. */
  function Kept(states: seq<Project>, name: string): (r: seq<Project>)
    ensures forall q | q in r :: q.name != name
    ensures forall q :: multiset(r)[q] == if q.name != name then multiset(states)[q] else 0
  {
    if states == [] then []
    else
      var init := states[..|states| - 1];
      var last := states[|states| - 1];
      assert states == init + [last];
      if last.name != name then Kept(init, name) + [last] else Kept(init, name)
  }

  /** The projects `delete_project` keeps have, in order, the states `Kept` keeps. */
  lemma {:induction false} RemainingStates(ps: seq<DiagramProject>, name: string)
    ensures Snapshots(Remaining(ps, name)) == Kept(Snapshots(ps), name)
  {
    if ps != [] {
      var init := ps[..|ps| - 1];
      RemainingStates(init, name);
      var states := Snapshots(ps);
      assert states[..|states| - 1] == Snapshots(init);
      if ps[|ps| - 1].name != name {
        SnapshotsSnoc(Remaining(init, name), ps[|ps| - 1]);
      }
    }
  }

  lemma SnapshotsSnoc(ps: seq<DiagramProject>, x: DiagramProject)
    ensures Snapshots(ps + [x]) == Snapshots(ps) + [x.Snapshot()]
  {
    assert (ps + [x])[..|ps|] == ps;
  }

  /** Dropping projects keeps the newest-first order of the rest. */
  lemma {:induction false} KeptNewestFirst(states: seq<Project>, name: string)
    requires NewestFirst(states)
    ensures NewestFirst(Kept(states, name))
  {
    if states != [] {
      var init := states[..|states| - 1];
      var last := states[|states| - 1];
      KeptNewestFirst(init, name);
      if last.name != name {
        var r := Kept(init, name);
        forall q | q in r ensures !Below(q.modified, last.modified) {
          assert multiset(r)[q] > 0;
          var i :| 0 <= i < |init| && init[i] == q;
          assert states[i] == q;
        }
        NewestFirstSnoc(r, last);
      }
    }
  }

  lemma NewestFirstSnoc(r: seq<Project>, x: Project)
    requires NewestFirst(r)
    requires forall q | q in r :: !Below(q.modified, x.modified)
    ensures NewestFirst(r + [x])
  {
    forall i, j | 0 <= i < j < |r| + 1 ensures !Below((r + [x])[i].modified, (r + [x])[j].modified) {
      assert (r + [x])[i] == r[i];
    }
  }
}
