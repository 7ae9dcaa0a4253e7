/**
 * The activity monitor (src/activity_monitor.py): it samples the terminal's
 * context (working directory, git state, recently modified files), decides
 * whether it changed materially since the last record it stored, and stores
 * at most one development-activity record per sample.
 */
module ActivityMonitor {
  import opened Wrappers
  import opened Json
  import opened PyText
  import opened MemoryStore
  import opened Mem0Client

  /** The status-derived git summary of the working directory. */
  datatype GitInfo = GitInfo(branch: string, lastCommit: string, isDirty: bool, modifiedFiles: nat)

  /**
   * One terminal context. Recent files are relative paths, written as their
   * components; `git` is absent outside a repository or when a probe fails.
   */
  datatype Snapshot = Snapshot(
    cwd: string,
    project: string,
    timestamp: string,
    user: string,
    shell: string,
    recentFiles: seq<seq<string>>,
    git: Option<GitInfo>,
    virtualEnv: Option<string>,
    nodeProject: bool,
    pythonProject: bool)

  /** A directory tree as `os.walk` sees it: a file's mtime is None when it cannot be read. */
  datatype Node =
    | File(name: string, mtime: Option<int>)
    | Dir(name: string, readable: bool, entries: seq<Node>)

  /**
   * Everything a sample reads from outside: the working directory and its
   * tree, environment variables, marker files, the three git outputs (None
   * when the command fails), the clock as text and in seconds.
   */
  datatype Environment = Environment(
    cwd: string,
    tree: Node,
    user: Option<string>,
    shell: Option<string>,
    virtualEnv: Option<string>,
    hasPackageJson: bool,
    hasRequirements: bool,
    hasPyproject: bool,
    gitBranch: Option<string>,
    gitCommit: Option<string>,
    gitStatus: Option<string>,
    clock: string,
    now: int)

  /**
   * `get_git_info` from the outputs of `rev-parse`, `log -1` and `status
   * --porcelain`: any failed command gives `{}` (None); otherwise the tree is
   * dirty exactly when the stripped status is non-empty, and the count of
   * modified files is its number of lines, which is zero exactly when clean.
   */
  function GitInfoFrom(branch: Option<string>, commit: Option<string>, status: Option<string>): (g: Option<GitInfo>)
    ensures g.None? <==> branch.None? || commit.None? || status.None?
    ensures g.Some? ==> g.value.branch == Strip(branch.value) && g.value.lastCommit == Strip(commit.value)
    ensures g.Some? ==> (g.value.isDirty <==> exists i :: 0 <= i < |status.value| && !IsSpace(status.value[i]))
    ensures g.Some? ==> (g.value.modifiedFiles == 0 <==> !g.value.isDirty)
    ensures g.Some? ==> g.value.modifiedFiles <= |status.value|
    ensures g.Some? ==> g.value.modifiedFiles == (if Strip(status.value) == [] then 0 else |SplitLines(Strip(status.value))|)
    ensures g.Some? && g.value.isDirty ==> g.value.modifiedFiles == Breaks(Strip(status.value)) + 1
  {
    if branch.None? || commit.None? || status.None? then None
    else
      var st := Strip(status.value);
      SplitLinesCount(st);
      Some(GitInfo(Strip(branch.value), Strip(commit.value), |st| > 0, if st != [] then |SplitLines(st)| else 0))
  }

  /** `name.startswith('.')`. */
  predicate Hidden(name: string)
  {
    |name| > 0 && name[0] == '.'
  }

  /** No component of the path is hidden. */
  predicate Visible(p: seq<string>)
  {
    forall i :: 0 <= i < |p| ==> !Hidden(p[i])
  }

  /** Files modified less than an hour before `now`. */
  const RecentWindow: int := 3600

  /** The entry `e` as a file kept by the walk: visible, with an mtime less than an hour before `now`. */
  function FreshFile(e: Node, now: int): seq<seq<string>>
  {
    match e
    case File(name, Some(m)) => if !Hidden(name) && now - m < RecentWindow then [[name]] else []
    case _ => []
  }

  /** The files among the first `k` entries of a listing that are kept, in listing order. */
  function FreshFiles(entries: seq<Node>, k: nat, now: int): seq<seq<string>>
    requires k <= |entries|
  {
    if k == 0 then [] else FreshFiles(entries, k - 1, now) + FreshFile(entries[k - 1], now)
  }

  /** The paths `ps` below the directory `name`. */
  function Under(name: string, ps: seq<seq<string>>): (r: seq<seq<string>>)
    ensures |r| == |ps|
    ensures forall i :: 0 <= i < |ps| ==> r[i] == [name] + ps[i]
  {
    seq(|ps|, i requires 0 <= i < |ps| => [name] + ps[i])
  }

  /**
   * The recent files below directory `d`, in `os.walk` order (top-down):
   * the directory's own files first, then each non-hidden subdirectory in
   * listing order. An unreadable directory yields nothing.
   */
  function Walk(d: Node, now: int): seq<seq<string>>
    requires d.Dir?
    decreases d, |d.entries| + 2
  {
    if !d.readable then [] else FreshFiles(d.entries, |d.entries|, now) + SubWalks(d, |d.entries|, now)
  }

  /** The entry `e` as a subdirectory the walk descends into: its recent files, below its name. */
  function SubWalk(e: Node, now: int): seq<seq<string>>
    decreases e, if e.Dir? then |e.entries| + 3 else 0
  {
    if e.Dir? && !Hidden(e.name) then Under(e.name, Walk(e, now)) else []
  }

  /** The walks of the first `k` entries of `d` that are non-hidden subdirectories. */
  function SubWalks(d: Node, k: nat, now: int): seq<seq<string>>
    requires d.Dir? && k <= |d.entries|
    decreases d, k
  {
    if k == 0 then [] else SubWalks(d, k - 1, now) + SubWalk(d.entries[k - 1], now)
  }

  /**
   * The tree `d` holds a file at relative path `p` whose mtime is `m`, and
   * every directory on the way to it can be listed.
   */
  ghost predicate FileAt(d: Node, p: seq<string>, m: int)
    decreases d
  {
    && d.Dir?
    && d.readable
    && |p| >= 1
    && exists k :: 0 <= k < |d.entries| &&
         ((|p| == 1 && d.entries[k] == File(p[0], Some(m))) ||
          (|p| > 1 && d.entries[k].Dir? && d.entries[k].name == p[0] && FileAt(d.entries[k], p[1..], m)))
  }

  /** `p` is a visible path to a file of `d` modified less than an hour before `now`. */
  ghost predicate RecentFileOf(d: Node, p: seq<string>, now: int)
  {
    Visible(p) && exists m :: FileAt(d, p, m) && now - m < RecentWindow
  }

  /** A kept file of a listing is a visible file of it, modified within the hour. */
  lemma {:induction false} FreshFilesSound(d: Node, k: nat, now: int, p: seq<string>)
    requires d.Dir? && d.readable && k <= |d.entries|
    requires p in FreshFiles(d.entries, k, now)
    ensures RecentFileOf(d, p, now)
    decreases k
  {
    if p in FreshFiles(d.entries, k - 1, now) {
      FreshFilesSound(d, k - 1, now, p);
    } else {
      var m := d.entries[k - 1].mtime.value;
      assert d.entries[k - 1] == File(p[0], Some(m));
      assert FileAt(d, p, m);
    }
  }

  /**
   * Every path the walk reports is visible component by component and names a
   * file of the tree modified less than an hour before `now`.
   */
  lemma {:induction false} WalkSound(d: Node, now: int, p: seq<string>)
    requires d.Dir? && p in Walk(d, now)
    ensures RecentFileOf(d, p, now)
    decreases d, |d.entries| + 2
  {
    if p in FreshFiles(d.entries, |d.entries|, now) {
      FreshFilesSound(d, |d.entries|, now, p);
    } else {
      SubWalksSound(d, |d.entries|, now, p);
    }
  }

  lemma {:induction false} SubWalksSound(d: Node, k: nat, now: int, p: seq<string>)
    requires d.Dir? && d.readable && k <= |d.entries| && p in SubWalks(d, k, now)
    ensures RecentFileOf(d, p, now)
    decreases d, k
  {
    if p in SubWalks(d, k - 1, now) {
      SubWalksSound(d, k - 1, now, p);
    } else {
      var sub := d.entries[k - 1];
      var below := Walk(sub, now);
      var i :| 0 <= i < |below| && p == [sub.name] + below[i];
      assert p[1..] == below[i];
      WalkSound(sub, now, below[i]);
      var m :| FileAt(sub, below[i], m) && now - m < RecentWindow;
      assert FileAt(d, p, m);
    }
  }

  /**
   * Every visible path to a file of the tree modified less than an hour
   * before `now` is reported by the walk.
   */
  lemma {:induction false} WalkComplete(d: Node, now: int, p: seq<string>)
    requires d.Dir? && RecentFileOf(d, p, now)
    ensures p in Walk(d, now)
    decreases d
  {
    var m :| FileAt(d, p, m) && now - m < RecentWindow;
    var k :| 0 <= k < |d.entries| &&
             ((|p| == 1 && d.entries[k] == File(p[0], Some(m))) ||
              (|p| > 1 && d.entries[k].Dir? && d.entries[k].name == p[0] && FileAt(d.entries[k], p[1..], m)));
    if |p| == 1 {
      assert p == [p[0]];
      FreshFilesHas(d.entries, k, |d.entries|, now, p);
    } else {
      var sub := d.entries[k];
      assert !Hidden(p[0]);
      assert RecentFileOf(sub, p[1..], now) by {
        assert Visible(p[1..]) by {
          forall i | 0 <= i < |p[1..]| ensures !Hidden(p[1..][i]) {
            assert p[1..][i] == p[i + 1];
          }
        }
      }
      WalkComplete(sub, now, p[1..]);
      var below := Walk(sub, now);
      var i :| 0 <= i < |below| && below[i] == p[1..];
      assert Under(sub.name, below)[i] == p;
      SubWalksHas(d, k, |d.entries|, now, p);
    }
  }

  /** A file kept from entry `k` is among the kept files of any longer prefix of the listing. */
  lemma {:induction false} FreshFilesHas(entries: seq<Node>, k: nat, n: nat, now: int, p: seq<string>)
    requires k < n <= |entries| && p in FreshFile(entries[k], now)
    ensures p in FreshFiles(entries, n, now)
    decreases n
  {
    if k < n - 1 {
      FreshFilesHas(entries, k, n - 1, now, p);
    }
  }

  /** A path found below entry `k` is among the walks of any longer prefix of the listing. */
  lemma {:induction false} SubWalksHas(d: Node, k: nat, n: nat, now: int, p: seq<string>)
    requires d.Dir? && k < n <= |d.entries| && p in SubWalk(d.entries[k], now)
    ensures p in SubWalks(d, n, now)
    decreases n
  {
    if k < n - 1 {
      SubWalksHas(d, k, n - 1, now, p);
    }
  }

  /** `os.walk` and its loops over one directory, recursing into each non-hidden subdirectory. */
  method CollectRecent(d: Node, now: int) returns (found: seq<seq<string>>)
    requires d.Dir?
    ensures found == Walk(d, now)
    decreases d, |d.entries| + 2
  {
    if !d.readable {
      return [];
    }
    found := [];
    for i := 0 to |d.entries|
      invariant found == FreshFiles(d.entries, i, now)
    {
      match d.entries[i] {
        case File(name, mtime) =>
          if !Hidden(name) && mtime.Some? && now - mtime.value < RecentWindow {
            found := found + [[name]];
          }
        case Dir(_, _, _) =>
      }
    }
    ghost var files := found;
    for i := 0 to |d.entries|
      invariant found == files + SubWalks(d, i, now)
    {
      match d.entries[i] {
        case Dir(name, _, _) =>
          if !Hidden(name) {
            var below := CollectRecent(d.entries[i], now);
            found := found + Under(name, below);
          }
        case File(_, _) =>
      }
    }
  }

  /** The cap of `recent_files[:10]`. */
  const MaxRecent: nat := 10

  /** `get_open_files`: the first ten recent files in walk order (not sorted by mtime). */
  function RecentFiles(env: Environment): seq<seq<string>>
  {
    if env.tree.Dir? then
      var all := Walk(env.tree, env.now);
      if |all| <= MaxRecent then all else all[..MaxRecent]
    else []
  }

  method GetOpenFiles(env: Environment) returns (files: seq<seq<string>>)
    ensures files == RecentFiles(env)
  {
    if !env.tree.Dir? {
      return [];
    }
    var all := CollectRecent(env.tree, env.now);
    files := if |all| <= MaxRecent then all else all[..MaxRecent];
  }

  /**
   * At most ten files, each a visible path to a file of the working tree
   * modified less than an hour ago, and in walk order: a prefix of the walk.
   */
  lemma RecentFilesSound(env: Environment)
    ensures |RecentFiles(env)| <= MaxRecent
    ensures env.tree.Dir? ==> RecentFiles(env) <= Walk(env.tree, env.now)
    ensures env.tree.Dir? ==> |RecentFiles(env)| == if |Walk(env.tree, env.now)| <= MaxRecent then |Walk(env.tree, env.now)| else MaxRecent
    ensures forall p :: p in RecentFiles(env) ==> RecentFileOf(env.tree, p, env.now)
  {
    if env.tree.Dir? {
      var all := Walk(env.tree, env.now);
      var r := RecentFiles(env);
      assert r == all || r == all[..MaxRecent];
      assert r <= all;
      forall p | p in r
        ensures RecentFileOf(env.tree, p, env.now)
      {
        var i :| 0 <= i < |r| && r[i] == p;
        assert all[i] == p;
        WalkSound(env.tree, env.now, p);
      }
    }
  }

  /**
   * When the walk finds at most ten files, every visible path to a file of
   * the working tree modified less than an hour ago is among them.
   */
  lemma RecentFilesComplete(env: Environment, p: seq<string>)
    requires env.tree.Dir? && |Walk(env.tree, env.now)| <= MaxRecent
    requires RecentFileOf(env.tree, p, env.now)
    ensures p in RecentFiles(env)
  {
    WalkComplete(env.tree, env.now, p);
  }

  /** `os.getenv(name, "unknown")`. */
  function EnvOr(v: Option<string>, default: string): string
  {
    if v.Some? then v.value else default
  }

  /** `get_terminal_context` over the recent files found. */
  function ContextOf(env: Environment, recent: seq<seq<string>>): (s: Snapshot)
    ensures s.git.None? <==> env.gitBranch.None? || env.gitCommit.None? || env.gitStatus.None?
    ensures s.virtualEnv.Some? <==> env.virtualEnv.Some? && env.virtualEnv.value != ""
    ensures s.recentFiles == recent && s.cwd == env.cwd
  {
    Snapshot(env.cwd, Basename(env.cwd), env.clock, EnvOr(env.user, "unknown"), EnvOr(env.shell, "unknown"),
             recent, GitInfoFrom(env.gitBranch, env.gitCommit, env.gitStatus),
             if env.virtualEnv.Some? && env.virtualEnv.value != "" then Some(Basename(env.virtualEnv.value)) else None,
             env.hasPackageJson, env.hasRequirements || env.hasPyproject)
  }

  /** The context one sample of `env` produces. */
  function Sample(env: Environment): Snapshot
  {
    ContextOf(env, RecentFiles(env))
  }

  method GetTerminalContext(env: Environment) returns (context: Snapshot)
    ensures context == Sample(env)
  {
    var recent := GetOpenFiles(env);
    context := ContextOf(env, recent);
  }

  /** `current.get("git", {}).get("branch")`. */
  function Branch(s: Snapshot): Option<string>
  {
    if s.git.Some? then Some(s.git.value.branch) else None
  }

  /** `current.get("git", {}).get("is_dirty")`. */
  function Dirty(s: Snapshot): Option<bool>
  {
    if s.git.Some? then Some(s.git.value.isDirty) else None
  }

  /** `set(current.get("recent_files", []))`. */
  function FileSet(s: Snapshot): set<seq<string>>
  {
    set p | p in s.recentFiles
  }

  /**
   * `has_activity_changed`: true when nothing was stored yet; otherwise true
   * exactly when the directory, the branch, the set of recent files or the
   * dirty flag differs.
   */
  function HasActivityChanged(last: Option<Snapshot>, current: Snapshot): bool
  {
    if last.None? then true
    else
      var l := last.value;
      current.cwd != l.cwd || Branch(current) != Branch(l) || FileSet(current) != FileSet(l) || Dirty(current) != Dirty(l)
  }

  /** With nothing stored, every snapshot is a change. */
  lemma ChangedWhenNothingStored(s: Snapshot)
    ensures HasActivityChanged(None, s)
  {
  }

  /** A snapshot is never a change against itself, nor against a reordering of its recent files. */
  lemma UnchangedWhenReordered(s: Snapshot, files: seq<seq<string>>)
    requires multiset(files) == multiset(s.recentFiles)
    ensures !HasActivityChanged(Some(s), s)
    ensures !HasActivityChanged(Some(s), s.(recentFiles := files))
  {
    forall p | p in files ensures p in s.recentFiles {
      assert p in multiset(files);
    }
    forall p | p in s.recentFiles ensures p in files {
      assert p in multiset(s.recentFiles);
    }
  }

  /**
   * Snapshots that differ only in the timestamp, the last commit, the count of
   * modified files, the user, the shell, the virtual environment or the
   * project flags are not a change.
   */
  lemma ImmaterialFieldsIgnored(a: Snapshot, b: Snapshot)
    requires a.cwd == b.cwd && a.recentFiles == b.recentFiles
    requires a.git.None? <==> b.git.None?
    requires a.git.Some? ==> a.git.value.branch == b.git.value.branch && a.git.value.isDirty == b.git.value.isDirty
    ensures !HasActivityChanged(Some(a), b)
  {
  }

  /** A repository appearing or disappearing is a change. */
  lemma GitAppearingIsChange(a: Snapshot, b: Snapshot)
    requires a.git.None? != b.git.None?
    ensures HasActivityChanged(Some(a), b)
  {
  }

  /** The record `sync_activity` stores for a context. */
  function ActivityRecord(s: Snapshot): (r: Record)
    ensures r.userId == UserScope && Kind(r) == Str("development_activity")
    ensures Get(r.metadata, "project", Null) == Str(s.project)
    ensures Get(r.metadata, "git_branch", Null) == if s.git.Some? then Str(s.git.value.branch) else Null
  {
    var recent := if |s.recentFiles| <= 5 then s.recentFiles else s.recentFiles[..5];
    Record(ActivityNote(s.project, s.cwd, Branch(s), recent, Dirty(s) == Some(true), s.timestamp), UserScope,
           map["type" := Str("development_activity"), "source" := Str("activity_monitor"), "project" := Str(s.project),
               "git_branch" := (if s.git.Some? then Str(s.git.value.branch) else Null), "timestamp" := Str(s.timestamp)])
  }

  /** What one `sync_activity` did: the stored context afterwards, and the records it sent. */
  datatype Tick = Tick(last: Option<Snapshot>, sent: seq<Record>)

  /**
   * `sync_activity` given the sampled context and the store's next call
   * number: no change sends nothing; a change sends one record, and the
   * context is remembered only when the store accepted it.
   */
  function SyncTick(last: Option<Snapshot>, context: Snapshot, at: nat, down: set<nat>): Tick
  {
    if !HasActivityChanged(last, context) then Tick(last, [])
    else if at in down then Tick(last, [ActivityRecord(context)])
    else Tick(Some(context), [ActivityRecord(context)])
  }

  /**
   * At most one write per call, none without a change; the stored context is
   * replaced only after a successful write, and then by the new context.
   */
  lemma SyncTickWrites(last: Option<Snapshot>, context: Snapshot, at: nat, down: set<nat>)
    ensures var t := SyncTick(last, context, at, down);
            && |t.sent| <= 1
            && (|t.sent| == 1 <==> HasActivityChanged(last, context))
            && (t.last != last ==> t.last == Some(context) && |t.sent| == 1 && at !in down)
            && (at in down ==> t.last == last)
  {
  }

  /** The first `n` of successive contexts, one `sync_activity` each, the first call being number `at`. */
  function SyncTicks(last: Option<Snapshot>, contexts: seq<Snapshot>, n: nat, at: nat, down: set<nat>): (t: Tick)
    requires n <= |contexts|
    ensures |t.sent| <= n
  {
    if n == 0 then Tick(last, [])
    else
      var prev := SyncTicks(last, contexts, n - 1, at, down);
      var next := SyncTick(prev.last, contexts[n - 1], at + |prev.sent|, down);
      SyncTickWrites(prev.last, contexts[n - 1], at + |prev.sent|, down);
      Tick(next.last, prev.sent + next.sent)
  }

  /** The contexts sampled from successive environments. */
  function Samples(envs: seq<Environment>): (cs: seq<Snapshot>)
    ensures |cs| == |envs|
    ensures forall i :: 0 <= i < |envs| ==> cs[i] == Sample(envs[i])
  {
    seq(|envs|, i requires 0 <= i < |envs| => Sample(envs[i]))
  }

  /** Two snapshots agree on everything `has_activity_changed` compares. */
  predicate SameActivity(a: Snapshot, b: Snapshot)
  {
    a.cwd == b.cwd && Branch(a) == Branch(b) && FileSet(a) == FileSet(b) && Dirty(a) == Dirty(b)
  }

  /**
   * Successive samples that agree with the first on the directory, the
   * branch, the set of recent files and the dirty flag (their timestamps and
   * every other field may differ) write once at most: once if the first
   * differs from what was stored, the store accepting every call. The stored
   * context is then the first sample.
   */
  lemma SteadyContextWritesOnce(last: Option<Snapshot>, cs: seq<Snapshot>, at: nat, down: set<nat>)
    requires |cs| >= 1
    requires forall i :: 0 <= i < |cs| ==> SameActivity(cs[0], cs[i])
    requires forall k :: at <= k < at + |cs| ==> k !in down
    ensures var t := SyncTicks(last, cs, |cs|, at, down);
            && |t.sent| == (if HasActivityChanged(last, cs[0]) then 1 else 0)
            && t.last == (if HasActivityChanged(last, cs[0]) then Some(cs[0]) else last)
  {
    SteadyPrefix(last, cs, |cs|, at, down);
  }

  lemma {:induction false} SteadyPrefix(last: Option<Snapshot>, cs: seq<Snapshot>, k: nat, at: nat, down: set<nat>)
    requires 1 <= k <= |cs|
    requires forall i :: 0 <= i < |cs| ==> SameActivity(cs[0], cs[i])
    requires forall j :: at <= j < at + |cs| ==> j !in down
    ensures var t := SyncTicks(last, cs, k, at, down);
            && |t.sent| == (if HasActivityChanged(last, cs[0]) then 1 else 0)
            && t.last == (if HasActivityChanged(last, cs[0]) then Some(cs[0]) else last)
    decreases k
  {
    if k > 1 {
      SteadyPrefix(last, cs, k - 1, at, down);
      assert SameActivity(cs[0], cs[k - 1]);
      if last.Some? && !HasActivityChanged(last, cs[0]) {
        assert SameActivity(last.value, cs[0]);
      }
    }
  }

  /** One more `sync_activity` extends the fold by its tick, calls and stored context alike. */
  lemma SyncTicksStep(last0: Option<Snapshot>, contexts: seq<Snapshot>, n: nat, start: seq<Call>,
                      before: seq<Call>, after: seq<Call>, last: Option<Snapshot>, last': Option<Snapshot>, down: set<nat>)
    requires n < |contexts|
    requires var t := SyncTicks(last0, contexts, n, |start|, down); before == start + AddCalls(t.sent) && last == t.last
    requires var u := SyncTick(last, contexts[n], |before|, down); after == before + AddCalls(u.sent) && last' == u.last
    ensures var t := SyncTicks(last0, contexts, n + 1, |start|, down); after == start + AddCalls(t.sent) && last' == t.last
  {
    var t := SyncTicks(last0, contexts, n, |start|, down);
    var u := SyncTick(last, contexts[n], |before|, down);
    assert SyncTicks(last0, contexts, n + 1, |start|, down) == Tick(u.last, t.sent + u.sent);
    CallsCompose(start, before, after, t.sent, u.sent);
  }

  class Monitor {
    const client: UtlyzeClient
    const watchInterval: int
    /** The context last stored; None is the empty dict the monitor starts with. */
    var lastActivity: Option<Snapshot>
    var running: bool
    /** The background threads started so far. */
    var threads: nat

    constructor (client: UtlyzeClient, watchInterval: int)
      ensures this.client == client && this.watchInterval == watchInterval
      ensures lastActivity.None? && !running && threads == 0
    {
      this.client := client;
      this.watchInterval := watchInterval;
      lastActivity := None;
      running := false;
      threads := 0;
    }

    /** `sync_activity`: sample, compare, write at most once; store errors are logged and swallowed. */
    method SyncActivity(env: Environment) returns (ghost sampled: Snapshot)
      requires client.store.Valid()
      modifies this`lastActivity, client.store
      ensures client.store.Valid()
      ensures sampled == Sample(env)
      ensures var t := SyncTick(old(lastActivity), sampled, |old(client.store.calls)|, client.store.down);
              lastActivity == t.last && client.store.calls == old(client.store.calls) + AddCalls(t.sent)
    {
      var context := GetTerminalContext(env);
      sampled := context;
      SyncContext(context);
    }

    /** The part of `sync_activity` after sampling: compare with the stored context and write on a change. */
    method SyncContext(context: Snapshot)
      requires client.store.Valid()
      modifies this`lastActivity, client.store
      ensures client.store.Valid()
      ensures var t := SyncTick(old(lastActivity), context, |old(client.store.calls)|, client.store.down);
              lastActivity == t.last && client.store.calls == old(client.store.calls) + AddCalls(t.sent)
    {
      if !HasActivityChanged(lastActivity, context) {
        return;
      }
      ExecuteOne(ActivityRecord(context), |client.store.calls|, client.store.down);
      var out := client.store.Add(ActivityRecord(context));
      if out.Pass? {
        lastActivity := Some(context);
      }
    }

    /** `run_once`. */
    method RunOnce(env: Environment) returns (ghost sampled: Snapshot)
      requires client.store.Valid()
      modifies this`lastActivity, client.store
      ensures client.store.Valid()
      ensures sampled == Sample(env)
      ensures var t := SyncTick(old(lastActivity), sampled, |old(client.store.calls)|, client.store.down);
              lastActivity == t.last && client.store.calls == old(client.store.calls) + AddCalls(t.sent)
    {
      sampled := SyncActivity(env);
    }

    /**
     * `monitor_loop` while `running`, over the environments seen at each
     * wake-up (the sleep between them is left out).
     */
    method MonitorLoop(envs: seq<Environment>)
      requires client.store.Valid()
      modifies this`lastActivity, client.store
      ensures client.store.Valid()
      ensures var t := if running then SyncTicks(old(lastActivity), Samples(envs), |envs|, |old(client.store.calls)|, client.store.down)
                       else Tick(old(lastActivity), []);
              lastActivity == t.last && client.store.calls == old(client.store.calls) + AddCalls(t.sent)
    {
      if !running {
        return;
      }
      ghost var last0 := lastActivity;
      ghost var at0 := |client.store.calls|;
      ghost var contexts := Samples(envs);
      for i := 0 to |envs|
        invariant client.store.Valid()
        invariant var t := SyncTicks(last0, contexts, i, at0, client.store.down);
                  lastActivity == t.last && client.store.calls == old(client.store.calls) + AddCalls(t.sent)
      {
        ghost var before := client.store.calls;
        ghost var lastBefore := lastActivity;
        ghost var context := SyncActivity(envs[i]);
        assert context == contexts[i];
        SyncTicksStep(last0, contexts, i, old(client.store.calls), before, client.store.calls,
                      lastBefore, lastActivity, client.store.down);
      }
    }

    /** `start`: a second start while running is refused with a warning and starts nothing. */
    method Start()
      modifies this`running, this`threads
      ensures running
      ensures threads == if old(running) then old(threads) else old(threads) + 1
    {
      if running {
        return;
      }
      running := true;
      threads := threads + 1;
    }

    /** `stop`. */
    method Stop()
      modifies this`running
      ensures !running
    {
      running := false;
    }
  }
}
