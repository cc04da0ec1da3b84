/** The installers as transactions: back up the managed files, apply a plan whose
    every step may fail half-way, and on failure put everything back. */
module Installer {
  import opened JsMap

  type Path = string
  type Name = string
  datatype File = File(content: string, mode: int)

  /** `link` is the managed symlink, if it exists; `backups` the new backup directory. */
  datatype World = World(files: map<Path, File>, link: Option<Path>, active: bool, enabled: bool,
                         backups: map<Name, File>)

  datatype Action =
    | Write(path: Path, content: string)
    | Chmod(path: Path, mode: int)
    | Unlink
    | Symlink(target: Path)
    | Restart
    | Enable
    // Commands and file operations that leave the managed state alone.
    | Check

  /** A step succeeds, fails without effect, or fails half-way: a torn write
      leaves anything or nothing in the file's place, a torn restart a stopped
      service, a torn enable an enabled one. */
  datatype Outcome = Done | NotDone | Torn(left: Option<File>)

  /** How the exception handler treats the link. */
  datatype LinkPolicy = RestoreTarget | RemoveIfNew

  function PutFile(w: World, p: Path, f: Option<File>): World {
    w.(files := if f.None? then w.files - {p} else w.files[p := f.value])
  }

  function FileAt(w: World, p: Path): Option<File> { if p in w.files then Some(w.files[p]) else None }

  function Perform(w: World, a: Action, o: Outcome): World {
    match a
    case Write(p, content) =>
      if o.Done? then PutFile(w, p, Some(File(content, if p in w.files then w.files[p].mode else 0x1A4)))
      else if o.Torn? then PutFile(w, p, o.left) else w
    case Chmod(p, mode) => if o.Done? && p in w.files then PutFile(w, p, Some(w.files[p].(mode := mode))) else w
    case Unlink => if o.Done? then w.(link := None) else w
    case Symlink(t) => if o.Done? then w.(link := Some(t)) else w
    case Restart => if o.Done? then w.(active := true) else if o.Torn? then w.(active := false) else w
    case Enable => if o.NotDone? then w else w.(enabled := true)
    case Check => w
  }

  /** The steps up to and including the first one that fails. */
  function Apply(w: World, plan: seq<Action>, os: seq<Outcome>): World
    requires |os| == |plan|
    decreases plan
  {
    if plan == [] then w
    else if !os[0].Done? then Perform(w, plan[0], os[0])
    else Apply(Perform(w, plan[0], os[0]), plan[1..], os[1..])
  }

  predicate Succeeds(os: seq<Outcome>) { forall o :: o in os ==> o.Done? }

  /** `previous` and the copies. */
  function Backup(w: World, paths: seq<Path>, names: seq<Name>): World
    requires |names| == |paths|
    decreases paths
  {
    if paths == [] then w
    else Backup(if paths[0] in w.files then w.(backups := w.backups[names[0] := w.files[paths[0]]]) else w,
                paths[1..], names[1..])
  }

  /** `before` are the files as they were when `previous` was filled. */
  function Restore(w: World, before: set<Path>, paths: seq<Path>, names: seq<Name>): World
    requires |names| == |paths| && forall i :: 0 <= i < |paths| && paths[i] in before ==> names[i] in w.backups
    decreases paths
  {
    if paths == [] then w
    else Restore(PutFile(w, paths[0], if paths[0] in before then Some(w.backups[names[0]]) else None),
                 before, paths[1..], names[1..])
  }

  class Host {
    var files: map<Path, File>
    var link: Option<Path>
    var active: bool
    var enabled: bool
    var backups: map<Name, File>

    function Now(): World reads this { World(files, link, active, enabled, backups) }

    constructor (w: World)
      ensures Now() == w
    {
      files, link, active, enabled, backups := w.files, w.link, w.active, w.enabled, w.backups;
    }

    method DoAction(a: Action, o: Outcome)
      modifies this
      ensures Now() == Perform(old(Now()), a, o)
    {
      match a {
        case Write(p, content) =>
          if o.Done? { files := files[p := File(content, if p in files then files[p].mode else 0x1A4)]; }
          else if o.Torn? { files := if o.left.None? then files - {p} else files[p := o.left.value]; }
        case Chmod(p, mode) => if o.Done? && p in files { files := files[p := files[p].(mode := mode)]; }
        case Unlink => if o.Done? { link := None; }
        case Symlink(t) => if o.Done? { link := Some(t); }
        case Restart => if o.Done? { active := true; } else if o.Torn? { active := false; }
        case Enable => if !o.NotDone? { enabled := true; }
        case Check =>
      }
    }

    method MakeBackup(paths: seq<Path>, names: seq<Name>)
      requires |names| == |paths|
      modifies `backups
      ensures Now() == Backup(old(Now()), paths, names)
    {
      for i := 0 to |paths|
        invariant Backup(Now(), paths[i..], names[i..]) == Backup(old(Now()), paths, names)
      {
        assert paths[i..][1..] == paths[i + 1..] && names[i..][1..] == names[i + 1..];
        if paths[i] in files { backups := backups[names[i] := files[paths[i]]]; }
      }
    }

    /** The `try` block: ok is false when a step raised. */
    method ApplyPlan(plan: seq<Action>, os: seq<Outcome>) returns (ok: bool)
      requires |os| == |plan|
      modifies this
      ensures Now() == Apply(old(Now()), plan, os) && ok == Succeeds(os)
    {
      for i := 0 to |plan|
        invariant Apply(Now(), plan[i..], os[i..]) == Apply(old(Now()), plan, os)
        invariant Succeeds(os[..i])
      {
        assert plan[i..][1..] == plan[i + 1..] && os[i..][1..] == os[i + 1..];
        assert os[..i + 1] == os[..i] + [os[i]];
        DoAction(plan[i], os[i]);
        if !os[i].Done? { return false; }
      }
      assert os[..|os|] == os;
      return true;
    }

    method RestoreFiles(before: set<Path>, paths: seq<Path>, names: seq<Name>)
      requires |names| == |paths| && forall i :: 0 <= i < |paths| && paths[i] in before ==> names[i] in backups
      modifies `files
      ensures Now() == Restore(old(Now()), before, paths, names)
    {
      for i := 0 to |paths|
        invariant Restore(Now(), before, paths[i..], names[i..]) == Restore(old(Now()), before, paths, names)
      {
        assert paths[i..][1..] == paths[i + 1..] && names[i..][1..] == names[i + 1..];
        if paths[i] in before { files := files[paths[i] := backups[names[i]]]; }
        else { files := files - {paths[i]}; }
      }
    }

    /** Backup, apply, and on failure restore. The restore commands themselves
        succeed. */
    method Install(paths: seq<Path>, names: seq<Name>, plan: seq<Action>, os: seq<Outcome>, policy: LinkPolicy)
      returns (ok: bool)
      requires |os| == |plan| && Naming(paths, names) && Within(plan, paths)
      requires backups == map[]
      requires policy.RemoveIfNew? && link.Some? ==> KeepsLink(plan)
      requires policy.RemoveIfNew? ==> KeepsService(plan)
      modifies this
      ensures ok == Succeeds(os)
      ensures !ok ==> Now() == old(Now()).(backups := backups)
      ensures ok ==> Now() == Apply(old(Now()), plan, os).(backups := backups)
      ensures ok ==> forall p :: p !in paths ==> FileAt(Now(), p) == old(FileAt(Now(), p))
    {
      ghost var w0 := Now();
      var before, oldLink, wasActive, wasEnabled := files.Keys, link, active, enabled;
      MakeBackup(paths, names);
      ghost var w1 := Now();
      BackupFacts(w0, paths, names);
      ok := ApplyPlan(plan, os);
      ghost var w2 := Now();
      ApplyFacts(w1, plan, os, paths);
      ApplyIgnoresBackups(w0, w1.backups, plan, os);
      if ok { return; }
      if policy.RestoreTarget? {
        active := false;
        link := None;
        if oldLink.Some? { link := oldLink; }
      } else if oldLink.None? {
        link := None;
      }
      RestoreAll(Now(), w0.files, paths, names);
      RestoreFiles(before, paths, names);
      if policy.RestoreTarget? {
        if !wasEnabled { enabled := false; }
        if wasActive { active := true; }
      }
      assert files == w0.files;
    }
  }

  // ------------------------------------------------------------------ proof

  /** Two paths share a backup name only if they are the same path. */
  predicate Naming(paths: seq<Path>, names: seq<Name>) {
    |names| == |paths|
    && forall i, j :: 0 <= i < |names| && 0 <= j < |names| && names[i] == names[j] ==> paths[i] == paths[j]
  }

  /** The plan touches no file but the managed ones. */
  predicate Within(plan: seq<Action>, paths: seq<Path>) {
    forall a :: a in plan ==> (a.Write? || a.Chmod? ==> a.path in paths)
  }

  predicate KeepsLink(plan: seq<Action>) { forall a :: a in plan ==> !a.Unlink? && !a.Symlink? }

  predicate KeepsService(plan: seq<Action>) { forall a :: a in plan ==> !a.Restart? && !a.Enable? }

  lemma {:induction false} BackupGrows(w: World, paths: seq<Path>, names: seq<Name>, n: Name, f: File)
    requires |names| == |paths|
    requires forall i :: 0 <= i < |paths| && names[i] == n ==> FileAt(w, paths[i]) == Some(f)
    requires n in w.backups && w.backups[n] == f
    ensures n in Backup(w, paths, names).backups && Backup(w, paths, names).backups[n] == f
    decreases paths
  {
    if paths != [] {
      var w' := if paths[0] in w.files then w.(backups := w.backups[names[0] := w.files[paths[0]]]) else w;
      forall i | 0 <= i < |paths[1..]| && names[1..][i] == n ensures FileAt(w', paths[1..][i]) == Some(f) {
        assert names[i + 1] == n;
      }
      BackupGrows(w', paths[1..], names[1..], n, f);
    }
  }

  lemma {:induction false} BackupKeepsRest(w: World, paths: seq<Path>, names: seq<Name>)
    requires |names| == |paths|
    ensures Backup(w, paths, names) == w.(backups := Backup(w, paths, names).backups)
    decreases paths
  {
    if paths != [] {
      BackupKeepsRest(if paths[0] in w.files then w.(backups := w.backups[names[0] := w.files[paths[0]]]) else w,
                      paths[1..], names[1..]);
    }
  }

  /** Every managed file that existed has a faithful copy, and nothing else of
      the world changed. */
  lemma {:induction false} BackupFacts(w: World, paths: seq<Path>, names: seq<Name>)
    requires Naming(paths, names)
    ensures var z := Backup(w, paths, names);
      z == w.(backups := z.backups)
      && forall i :: 0 <= i < |paths| && paths[i] in w.files ==>
         names[i] in z.backups && z.backups[names[i]] == w.files[paths[i]]
    decreases paths
  {
    BackupKeepsRest(w, paths, names);
    if paths != [] {
      var w' := if paths[0] in w.files then w.(backups := w.backups[names[0] := w.files[paths[0]]]) else w;
      assert forall i :: 0 <= i < |paths[1..]| ==> paths[1..][i] == paths[i + 1] && names[1..][i] == names[i + 1];
      assert Naming(paths[1..], names[1..]);
      BackupFacts(w', paths[1..], names[1..]);
      var z := Backup(w, paths, names);
      if paths[0] in w.files { BackupGrows(w', paths[1..], names[1..], names[0], w.files[paths[0]]); }
      forall i | 0 <= i < |paths| && paths[i] in w.files
        ensures names[i] in z.backups && z.backups[names[i]] == w.files[paths[i]]
      {
        if i > 0 { assert paths[1..][i - 1] == paths[i] && names[1..][i - 1] == names[i]; }
      }
    }
  }

  /** Applying a plan, however far it gets, changes managed files, the link and
      the service only, and never disables the service. */
  lemma {:induction false} ApplyFacts(w: World, plan: seq<Action>, os: seq<Outcome>, paths: seq<Path>)
    requires |os| == |plan| && Within(plan, paths)
    ensures var z := Apply(w, plan, os);
      z.backups == w.backups
      && (forall p :: p !in paths ==> FileAt(z, p) == FileAt(w, p))
      && (w.enabled ==> z.enabled)
      && (KeepsLink(plan) ==> z.link == w.link)
      && (KeepsService(plan) ==> z.active == w.active && z.enabled == w.enabled)
    decreases plan
  {
    if plan != [] {
      assert plan[0] in plan && forall a :: a in plan[1..] ==> a in plan;
      if os[0].Done? { ApplyFacts(Perform(w, plan[0], os[0]), plan[1..], os[1..], paths); }
    }
  }

  lemma PerformIgnoresBackups(w: World, b: map<Name, File>, a: Action, o: Outcome)
    ensures Perform(w.(backups := b), a, o) == Perform(w, a, o).(backups := b)
  {}

  lemma {:induction false} ApplyIgnoresBackups(w: World, b: map<Name, File>, plan: seq<Action>, os: seq<Outcome>)
    requires |os| == |plan|
    ensures Apply(w.(backups := b), plan, os) == Apply(w, plan, os).(backups := b)
    decreases plan
  {
    if plan != [] {
      PerformIgnoresBackups(w, b, plan[0], os[0]);
      if os[0].Done? { ApplyIgnoresBackups(Perform(w, plan[0], os[0]), b, plan[1..], os[1..]); }
    }
  }

  function Was(was: map<Path, File>, p: Path): Option<File> { if p in was then Some(was[p]) else None }

  /** Restoring brings back each managed file, or its absence. */
  lemma {:induction false} RestoreFacts(w: World, was: map<Path, File>, paths: seq<Path>, names: seq<Name>)
    requires |names| == |paths|
    requires forall i :: 0 <= i < |paths| && paths[i] in was ==>
      names[i] in w.backups && w.backups[names[i]] == was[paths[i]]
    ensures var z := Restore(w, was.Keys, paths, names);
      z == w.(files := z.files) && forall p :: FileAt(z, p) == if p in paths then Was(was, p) else FileAt(w, p)
    decreases paths
  {
    if paths != [] {
      var w' := PutFile(w, paths[0], if paths[0] in was then Some(w.backups[names[0]]) else None);
      assert paths == [paths[0]] + paths[1..];
      assert forall i :: 0 <= i < |paths[1..]| ==> paths[1..][i] == paths[i + 1] && names[1..][i] == names[i + 1];
      RestoreFacts(w', was, paths[1..], names[1..]);
      assert forall p :: FileAt(w', p) == if p == paths[0] then Was(was, p) else FileAt(w, p);
    }
  }

  /** If nothing else was touched, exactly the files there were. */
  lemma RestoreAll(w: World, was: map<Path, File>, paths: seq<Path>, names: seq<Name>)
    requires |names| == |paths|
    requires forall i :: 0 <= i < |paths| && paths[i] in was ==>
      names[i] in w.backups && w.backups[names[i]] == was[paths[i]]
    requires forall p :: p !in paths ==> FileAt(w, p) == Was(was, p)
    ensures Restore(w, was.Keys, paths, names) == w.(files := was)
  {
    RestoreFacts(w, was, paths, names);
    SameFiles(Restore(w, was.Keys, paths, names), was);
  }

  lemma SameFiles(z: World, was: map<Path, File>)
    requires forall p :: FileAt(z, p) == Was(was, p)
    ensures z.files == was
  {
    forall p ensures p in z.files <==> p in was { assert FileAt(z, p) == Was(was, p); }
    forall p | p in was ensures z.files[p] == was[p] { assert FileAt(z, p) == Was(was, p); }
  }

  // -------------------------------------------------------- the two scripts

  /** Where install-apps.py puts its four files and its release, and what is in them. */
  datatype Bundle = Bundle(site: Path, snippet: Path, unit: Path, env: Path, release: Path,
                           siteText: string, snippetText: string, unitText: string, envText: string)

  /** install-apps.py: unit, environment, snippet and site, a release link, and
      the app service. */
  function AppsPlan(b: Bundle, hadLink: bool): seq<Action> {
    [Check, Check] + (if hadLink then [Unlink] else []) + [Symlink(b.release), Check,
     Write(b.env, b.envText), Chmod(b.env, 0x180), Write(b.unit, b.unitText),
     Write(b.snippet, b.snippetText), Write(b.site, b.siteText), Check, Check, Restart, Check, Check, Enable, Check]
  }

  /** install-vps.py: the public site, the renewal hook, and the enabling link. */
  function VpsPlan(site: Path, hook: Path, hadLink: bool, needsCertificate: bool,
                   http: string, full: string, hookText: string): seq<Action> {
    [Check] + (if hadLink then [] else [Symlink(site)])
    + (if needsCertificate then [Write(site, http), Check, Check] else [])
    + [Check, Check, Write(site, full), Check, Check, Write(hook, hookText), Chmod(hook, 0x1ED)]
  }

  /** Backups are numbered, so any list of paths is named well, repeated or not;
      the plan stays within it. */
  lemma AppsPlanFits(b: Bundle, hadLink: bool)
    ensures var paths := [b.site, b.snippet, b.unit, b.env];
      Naming(paths, ["0", "1", "2", "3"]) && Within(AppsPlan(b, hadLink), paths)
  {
    assert ["0", "1", "2", "3"][0][0] == '0' && ["0", "1", "2", "3"][1][0] == '1'
      && ["0", "1", "2", "3"][2][0] == '2' && ["0", "1", "2", "3"][3][0] == '3';
  }

  /** Backups are named after the files, which suffices because the two names differ. */
  lemma VpsPlanFits(site: Path, hook: Path, siteName: Name, hookName: Name, hadLink: bool, needsCertificate: bool,
                    http: string, full: string, hookText: string)
    requires siteName != hookName
    ensures Naming([site, hook], [siteName, hookName])
    ensures var plan := VpsPlan(site, hook, hadLink, needsCertificate, http, full, hookText);
      Within(plan, [site, hook]) && KeepsService(plan) && (hadLink ==> KeepsLink(plan))
  {}

  // ------------------------------------------------------ a successful plan

  lemma {:induction false} ApplySplit(w: World, a: seq<Action>, b: seq<Action>, os: seq<Outcome>)
    requires |os| == |a| + |b| && Succeeds(os)
    ensures Succeeds(os[..|a|]) && Succeeds(os[|a|..])
    ensures Apply(w, a + b, os) == Apply(Apply(w, a, os[..|a|]), b, os[|a|..])
    decreases a
  {
    if a == [] {
      assert a + b == b && os[0..] == os;
    } else {
      assert os[0] in os && forall o :: o in os[1..] ==> o in os;
      ApplySplit(Perform(w, a[0], os[0]), a[1..], b, os[1..]);
      assert (a + b)[1..] == a[1..] + b && os[..|a|][1..] == os[1..][..|a| - 1] && os[1..][|a| - 1..] == os[|a|..];
    }
  }

  /** The first step that fails is the last that is taken: what follows it in the plan
      leaves no trace. */
  lemma {:induction false} FailureEndsPlan(w: World, plan: seq<Action>, os: seq<Outcome>, k: nat)
    requires |os| == |plan| && k < |plan| && Succeeds(os[..k]) && !os[k].Done?
    ensures Apply(w, plan, os) == Perform(Apply(w, plan[..k], os[..k]), plan[k], os[k])
    decreases plan
  {
    if k > 0 {
      assert os[..k][0] == os[0] && os[0] in os[..k] && forall o :: o in os[1..][..k - 1] ==> o in os[..k];
      FailureEndsPlan(Perform(w, plan[0], os[0]), plan[1..], os[1..], k - 1);
      assert plan[..k][1..] == plan[1..][..k - 1] && os[..k][1..] == os[1..][..k - 1];
    }
  }

  predicate Writes(a: Action, p: Path) { a.Write? && a.path == p }

  predicate SetsMode(a: Action, p: Path) { a.Chmod? && a.path == p }

  predicate SetsLink(a: Action) { a.Unlink? || a.Symlink? }

  predicate NeverWrites(plan: seq<Action>, p: Path) { forall i :: 0 <= i < |plan| ==> !Writes(plan[i], p) }

  predicate NeverSetsMode(plan: seq<Action>, p: Path) { forall i :: 0 <= i < |plan| ==> !SetsMode(plan[i], p) }

  predicate NeverSetsLink(plan: seq<Action>) { forall i :: 0 <= i < |plan| ==> !SetsLink(plan[i]) }

  /** Steps that do not concern something leave it alone. */
  lemma {:induction false} Untouched(w: World, plan: seq<Action>, os: seq<Outcome>, p: Path)
    requires |os| == |plan| && Succeeds(os)
    ensures var z := Apply(w, plan, os);
      (p in w.files ==> p in z.files)
      && (p in w.files && NeverWrites(plan, p) ==> z.files[p].content == w.files[p].content)
      && (p in w.files && NeverSetsMode(plan, p) ==> z.files[p].mode == w.files[p].mode)
      && (NeverSetsLink(plan) ==> z.link == w.link)
      && (w.active ==> z.active) && (w.enabled ==> z.enabled)
    decreases plan
  {
    if plan != [] {
      assert plan[0] in plan && os[0] in os && forall o :: o in os[1..] ==> o in os;
      OneUntouched(w, plan[0], p);
      Untouched(Perform(w, plan[0], Done), plan[1..], os[1..], p);
    }
  }

  lemma OneUntouched(w: World, a: Action, p: Path)
    ensures var z := Perform(w, a, Done);
      (p in w.files ==> p in z.files)
      && (p in w.files && !Writes(a, p) ==> z.files[p].content == w.files[p].content)
      && (p in w.files && !SetsMode(a, p) ==> z.files[p].mode == w.files[p].mode)
      && (!SetsLink(a) ==> z.link == w.link) && (w.active ==> z.active) && (w.enabled ==> z.enabled)
  {}

  /** After a plan of which every step succeeds: a file has the content last written
      to it and the mode last given to it, the link leads where it was last set to,
      a restarted service runs and an enabled one is enabled. */
  lemma StepTakesEffect(w: World, plan: seq<Action>, os: seq<Outcome>, k: nat)
    requires |os| == |plan| && Succeeds(os) && k < |plan|
    ensures var a, z := plan[k], Apply(w, plan, os);
      (a.Write? && NeverWrites(plan[k + 1..], a.path) ==> a.path in z.files && z.files[a.path].content == a.content)
      && (a.Chmod? && NeverSetsMode(plan[k + 1..], a.path)
          && (a.path in w.files || exists j :: 0 <= j < k && Writes(plan[j], a.path)) ==>
            a.path in z.files && z.files[a.path].mode == a.mode)
      && (a.Symlink? && NeverSetsLink(plan[k + 1..]) ==> z.link == Some(a.target))
      && (a.Unlink? && NeverSetsLink(plan[k + 1..]) ==> z.link == None)
      && (a.Restart? ==> z.active) && (a.Enable? ==> z.enabled)
  {
    hide NeverWrites, NeverSetsMode, NeverSetsLink, Perform;
    var before, rest, a := plan[..k], plan[k..], plan[k];
    assert plan == before + rest && rest[1..] == plan[k + 1..] && os[k] in os && os[k..][1..] == os[k + 1..];
    ApplySplit(w, before, rest, os);
    var w1 := Apply(w, before, os[..k]);
    assert forall o :: o in os[k + 1..] ==> o in os;
    assert Apply(w, plan, os) == Apply(Perform(w1, a, Done), plan[k + 1..], os[k + 1..]);
    if a.Chmod? && (a.path in w.files || exists j :: 0 <= j < k && Writes(plan[j], a.path)) {
      assert a.path in w.files || exists j :: 0 <= j < k && Writes(before[j], a.path);
      WrittenExists(w, before, os[..k], a.path);
    }
    Performed(w1, a);
    Untouched(Perform(w1, a, Done), plan[k + 1..], os[k + 1..], if a.Write? || a.Chmod? then a.path else "");
  }

  lemma Performed(w: World, a: Action)
    ensures var z := Perform(w, a, Done);
      (a.Write? ==> a.path in z.files && z.files[a.path].content == a.content)
      && (a.Chmod? && a.path in w.files ==> a.path in z.files && z.files[a.path].mode == a.mode)
      && (a.Symlink? ==> z.link == Some(a.target)) && (a.Unlink? ==> z.link == None)
      && (a.Restart? ==> z.active) && (a.Enable? ==> z.enabled)
  {}

  lemma {:induction false} WrittenExists(w: World, plan: seq<Action>, os: seq<Outcome>, p: Path)
    requires |os| == |plan| && Succeeds(os)
    requires p in w.files || exists j :: 0 <= j < |plan| && Writes(plan[j], p)
    ensures p in Apply(w, plan, os).files
    decreases plan
  {
    if p in w.files {
      Untouched(w, plan, os, p);
    } else {
      assert os[0] in os && forall o :: o in os[1..] ==> o in os;
      var j :| 0 <= j < |plan| && Writes(plan[j], p);
      assert j > 0 ==> Writes(plan[1..][j - 1], p);
      WrittenExists(Perform(w, plan[0], Done), plan[1..], os[1..], p);
    }
  }

  /** The steps of install-apps.py from the release link on. */
  function AppsTail(b: Bundle): seq<Action> {
    [Symlink(b.release), Check, Write(b.env, b.envText), Chmod(b.env, 0x180), Write(b.unit, b.unitText),
     Write(b.snippet, b.snippetText), Write(b.site, b.siteText), Check, Check, Restart, Check, Check, Enable, Check]
  }

  // What the tail of install-apps.py leaves behind, one thing after the other.

  lemma AppsEnv(w: World, os: seq<Outcome>, b: Bundle)
    requires b.env != b.snippet && b.env != b.unit && b.env != b.site && |os| == 14 && Succeeds(os)
    ensures var z := Apply(w, AppsTail(b), os); b.env in z.files && z.files[b.env] == File(b.envText, 0x180)
  {
    hide Apply, Perform;
    assert Writes(AppsTail(b)[2], b.env);
    StepTakesEffect(w, AppsTail(b), os, 2);
    StepTakesEffect(w, AppsTail(b), os, 3);
  }

  lemma AppsUnit(w: World, os: seq<Outcome>, b: Bundle)
    requires b.unit != b.snippet && b.unit != b.site && |os| == 14 && Succeeds(os)
    ensures var z := Apply(w, AppsTail(b), os); b.unit in z.files && z.files[b.unit].content == b.unitText
  {
    hide Apply, Perform;
    StepTakesEffect(w, AppsTail(b), os, 4);
  }

  lemma AppsSnippet(w: World, os: seq<Outcome>, b: Bundle)
    requires b.snippet != b.site && |os| == 14 && Succeeds(os)
    ensures var z := Apply(w, AppsTail(b), os); b.snippet in z.files && z.files[b.snippet].content == b.snippetText
  {
    hide Apply, Perform;
    StepTakesEffect(w, AppsTail(b), os, 5);
  }

  lemma AppsSite(w: World, os: seq<Outcome>, b: Bundle)
    requires |os| == 14 && Succeeds(os)
    ensures var z := Apply(w, AppsTail(b), os); b.site in z.files && z.files[b.site].content == b.siteText
  {
    hide Apply, Perform;
    StepTakesEffect(w, AppsTail(b), os, 6);
  }

  lemma AppsLink(w: World, os: seq<Outcome>, b: Bundle)
    requires |os| == 14 && Succeeds(os)
    ensures var z := Apply(w, AppsTail(b), os); z.link == Some(b.release)
  {
    hide Apply, Perform;
    StepTakesEffect(w, AppsTail(b), os, 0);
  }

  lemma AppsService(w: World, os: seq<Outcome>, b: Bundle)
    requires |os| == 14 && Succeeds(os)
    ensures var z := Apply(w, AppsTail(b), os); z.active && z.enabled
  {
    hide Apply, Perform, NeverWrites, NeverSetsMode, NeverSetsLink;
    StepTakesEffect(w, AppsTail(b), os, 9);
    StepTakesEffect(w, AppsTail(b), os, 12);
  }

  /** What a successful install-apps.py leaves behind. */
  lemma AppsInstalled(w: World, os: seq<Outcome>, b: Bundle, hadLink: bool)
    requires b.site !in {b.snippet, b.unit, b.env} && b.snippet !in {b.unit, b.env} && b.unit != b.env
    requires |os| == |AppsPlan(b, hadLink)| && Succeeds(os)
    ensures var z := Apply(w, AppsPlan(b, hadLink), os);
      z.link == Some(b.release) && z.active && z.enabled
      && b.env in z.files && z.files[b.env] == File(b.envText, 0x180)
      && b.unit in z.files && z.files[b.unit].content == b.unitText
      && b.snippet in z.files && z.files[b.snippet].content == b.snippetText
      && b.site in z.files && z.files[b.site].content == b.siteText
  {
    hide Apply, Perform;
    var front := [Check, Check] + if hadLink then [Unlink] else [];
    var tail := AppsTail(b);
    assert AppsPlan(b, hadLink) == front + tail;
    ApplySplit(w, front, tail, os);
    var w1, os1 := Apply(w, front, os[..|front|]), os[|front|..];
    AppsEnv(w1, os1, b);
    AppsUnit(w1, os1, b);
    AppsSnippet(w1, os1, b);
    AppsSite(w1, os1, b);
    AppsLink(w1, os1, b);
    AppsService(w1, os1, b);
  }

  lemma VpsFiles(w: World, os: seq<Outcome>, front: seq<Action>, site: Path, hook: Path, full: string, hookText: string)
    requires site != hook && |os| == |front| + 5 && Succeeds(os)
    ensures var z := Apply(w, front + [Write(site, full), Check, Check, Write(hook, hookText), Chmod(hook, 0x1ED)], os);
      site in z.files && z.files[site].content == full && hook in z.files && z.files[hook] == File(hookText, 0x1ED)
  {
    hide Apply, Perform;
    var n, plan := |front|, front + [Write(site, full), Check, Check, Write(hook, hookText), Chmod(hook, 0x1ED)];
    assert plan[n + 1..] == [Check, Check, Write(hook, hookText), Chmod(hook, 0x1ED)];
    assert plan[n + 4..] == [Chmod(hook, 0x1ED)] && plan[n + 5..] == [] && Writes(plan[n + 3], hook);
    StepTakesEffect(w, plan, os, n);
    StepTakesEffect(w, plan, os, n + 3);
    StepTakesEffect(w, plan, os, n + 4);
  }

  /** What a successful install-vps.py leaves behind. */
  lemma VpsInstalled(w: World, os: seq<Outcome>, site: Path, hook: Path, hadLink: bool, needsCertificate: bool,
                     http: string, full: string, hookText: string)
    requires site != hook
    requires |os| == |VpsPlan(site, hook, hadLink, needsCertificate, http, full, hookText)| && Succeeds(os)
    ensures var z := Apply(w, VpsPlan(site, hook, hadLink, needsCertificate, http, full, hookText), os);
      z.link == (if hadLink then w.link else Some(site)) && z.active == w.active && z.enabled == w.enabled
      && site in z.files && z.files[site].content == full
      && hook in z.files && z.files[hook] == File(hookText, 0x1ED)
  {
    hide Apply, Perform;
    var plan := VpsPlan(site, hook, hadLink, needsCertificate, http, full, hookText);
    var cert := if needsCertificate then [Write(site, http), Check, Check] else [];
    var tail := [Write(site, full), Check, Check, Write(hook, hookText), Chmod(hook, 0x1ED)];
    var front := [Check] + (if hadLink then [] else [Symlink(site)]) + cert + [Check, Check];
    assert plan == front + tail;
    VpsFiles(w, os, front, site, hook, full, hookText);
    if !hadLink { StepTakesEffect(w, plan, os, 1); }
    VpsPlanFits(site, hook, "site", "hook", hadLink, needsCertificate, http, full, hookText);
    ApplyFacts(w, plan, os, [site, hook]);
  }
}
