/** The store layer of mind/db.py: the commit-on-success unit of work (`db_conn`), the
    probing policy that finds and loads the sqlite-vec extension (`_load_sqlite_vec`), and
    the idempotent schema script (`create_schema`). */
module Db {
  import opened Basics
  import opened Seqs
  import opened Text

  // ---------------------------------------------------------------------------
  // db_conn: one unit of work
  // ---------------------------------------------------------------------------

  /** How the body of a `with db_conn() as conn:` block ended. */
  datatype Exit<+E> = Completed | Raised(error: E)

  /** The state the database holds once a `db_conn` block that started from `before` and
      built `working` with its writes has ended with `exit`. `commit()` runs only after the
      body completed; on an exception the connection is closed without committing, which
      discards every write the body made. */
  function Persisted<S, E>(before: S, working: S, exit: Exit<E>): (after: S)
    ensures exit.Completed? ==> after == working
    ensures exit.Raised? ==> after == before
  {
    match exit
    case Completed => working
    case Raised(_) => before
  }

  /** Each block commits on its own: a block that raises after an earlier block completed
      discards only its own writes, and the earlier block's writes persist. */
  lemma EarlierCommitSurvives<S, E>(before: S, first: S, partial: S, e: E)
    ensures Persisted(Persisted(before, first, Exit<E>.Completed), partial, Raised(e)) == first
  {
  }

  // ---------------------------------------------------------------------------
  // _load_sqlite_vec: probing candidate library paths and entry points
  // ---------------------------------------------------------------------------

  /** What `conn.load_extension(path)` does: load, or raise `TypeError` (a build that wants
      another signature), or raise `sqlite3.OperationalError` with a message. */
  datatype DirectOutcome = DirectLoaded | DirectTypeError | DirectFailed(message: string)

  /** What `SELECT load_extension(path, entry)` does: load, or raise `OperationalError`. */
  datatype EntryOutcome = EntryLoaded | EntryFailed(message: string)

  /** The environment the probe runs in: which paths exist on the filesystem and what each
      load attempt does. These are oracles; the model assumes they do not change while probing. */
  datatype Loader = Loader(
    pathExists: string -> bool,
    loadDirect: string -> DirectOutcome,
    loadEntry: (string, string) -> EntryOutcome)

  /** The entry points tried through SQL, in the fixed order of mind/db.py. */
  const EntryPoints: seq<string> :=
    ["sqlite3_extension_init", "sqlite3_vec_init", "sqlite3_vec0_init", "sqlite3_sqlitevec_init"]

  /** The way a load succeeded. */
  datatype Via = Direct | EntryPoint(name: string)

  /** One failed attempt, as recorded in `tried`. */
  datatype Attempt = DirectAttempt(path: string, error: string) | EntryAttempt(path: string, entry: string, error: string)

  /** The text appended to `tried` for an attempt: it starts with the path, ends with the
      error message and has the arrow " -> " between them. */
  function Render(a: Attempt): (r: string)
    ensures r == a.path + (if a.EntryAttempt? then " (" + a.entry + ")" else "") + " -> " + a.error
    ensures a.path <= r && '>' in r
    ensures |a.error| <= |r| && r[|r| - |a.error|..] == a.error
  {
    match a
    case DirectAttempt(p, e) => p + " -> " + e
    case EntryAttempt(p, entry, e) => p + " (" + entry + ") -> " + e
  }

  /** Trying one existing path: a success, or the attempts that failed, in order. */
  datatype PathProbe = Succeeded(via: Via) | Failed(attempts: seq<Attempt>)

  /** The failed attempts `recorded` first, then whatever `rest` did. */
  function Prepend(recorded: seq<Attempt>, rest: PathProbe): PathProbe {
    match rest
    case Succeeded(v) => Succeeded(v)
    case Failed(a) => Failed(recorded + a)
  }

  /** The SQL entry points `entries` tried on `path` in order until one loads. */
  function ProbeEntries(path: string, entries: seq<string>, env: Loader): (r: PathProbe)
    ensures r.Failed? ==> |r.attempts| == |entries|
    ensures r.Succeeded? ==> r.via.EntryPoint? && r.via.name in entries
    ensures r.Succeeded? ==> env.loadEntry(path, r.via.name).EntryLoaded?
  {
    if entries == [] then Failed([])
    else
      match env.loadEntry(path, entries[0])
      case EntryLoaded => Succeeded(EntryPoint(entries[0]))
      case EntryFailed(e) => Prepend([EntryAttempt(path, entries[0], e)], ProbeEntries(path, entries[1..], env))
  }

  /** A failed probe tried every entry point, in order, each of which failed, and recorded
      each one's error under its own name. */
  lemma {:induction false} AllEntriesFailed(path: string, entries: seq<string>, env: Loader)
    requires ProbeEntries(path, entries, env).Failed?
    ensures forall i :: 0 <= i < |entries| ==>
      env.loadEntry(path, entries[i]).EntryFailed? &&
      ProbeEntries(path, entries, env).attempts[i] == EntryAttempt(path, entries[i], env.loadEntry(path, entries[i]).message)
  {
    if entries != [] {
      var rest := ProbeEntries(path, entries[1..], env);
      AllEntriesFailed(path, entries[1..], env);
      forall i | 1 <= i < |entries|
        ensures ProbeEntries(path, entries, env).attempts[i] == rest.attempts[i - 1]
      {
      }
      assert forall i :: 1 <= i < |entries| ==> entries[i] == entries[1..][i - 1];
    }
  }

  /** The entry points are tried in order: the first one that loads is the one reported,
      whatever the later ones would do. */
  lemma {:induction false} FirstEntryWins(path: string, entries: seq<string>, k: nat, env: Loader)
    requires k < |entries|
    requires forall j :: 0 <= j < k ==> env.loadEntry(path, entries[j]).EntryFailed?
    requires env.loadEntry(path, entries[k]).EntryLoaded?
    ensures ProbeEntries(path, entries, env) == Succeeded(EntryPoint(entries[k]))
  {
    if k > 0 {
      assert env.loadEntry(path, entries[0]).EntryFailed?;
      FirstEntryWins(path, entries[1..], k - 1, env);
    }
  }

  /** Everything tried on one existing path: the direct API first, then the entry points.
      A `TypeError` from the direct API is not recorded; it only falls through. */
  function ProbePath(path: string, env: Loader): (r: PathProbe)
    ensures r.Failed? ==> |EntryPoints| <= |r.attempts| <= |EntryPoints| + 1
    ensures env.loadDirect(path).DirectLoaded? ==> r == Succeeded(Direct)
    ensures env.loadDirect(path).DirectTypeError? ==> r == ProbeEntries(path, EntryPoints, env)
    ensures env.loadDirect(path).DirectFailed? ==>
      (r.Succeeded? <==> ProbeEntries(path, EntryPoints, env).Succeeded?) &&
      (r.Succeeded? ==> r == ProbeEntries(path, EntryPoints, env)) &&
      (r.Failed? ==> r.attempts == [DirectAttempt(path, env.loadDirect(path).message)] + ProbeEntries(path, EntryPoints, env).attempts)
  {
    match env.loadDirect(path)
    case DirectLoaded => Succeeded(Direct)
    case DirectTypeError => ProbeEntries(path, EntryPoints, env)
    case DirectFailed(e) => Prepend([DirectAttempt(path, e)], ProbeEntries(path, EntryPoints, env))
  }

  /** The outcome of probing a list of paths. */
  datatype Probe = Loaded(path: string, via: Via) | NotLoaded(tried: seq<Attempt>)

  /** Probing `first`'s paths and then, unless one loaded, `second`'s. */
  function Continue(first: Probe, second: Probe): Probe {
    if first.Loaded? then first
    else if second.Loaded? then second
    else NotLoaded(first.tried + second.tried)
  }

  function Single(path: string, env: Loader): Probe {
    match ProbePath(path, env)
    case Succeeded(v) => Loaded(path, v)
    case Failed(a) => NotLoaded(a)
  }

  /** The reference policy: try the paths in order, stop at the first that loads, and
      otherwise collect every failed attempt in the order it was made. */
  function ProbeAll(paths: seq<string>, env: Loader): Probe {
    if paths == [] then NotLoaded([]) else Continue(Single(paths[0], env), ProbeAll(paths[1..], env))
  }

  /** The paths that are probed at all: each distinct candidate once, in list order, and
      only if it exists. */
  function Probed(candidates: seq<string>, env: Loader): seq<string> {
    Filter(Dedup(candidates), env.pathExists)
  }

  /** What `_load_sqlite_vec` ends with: a loaded extension, the `OperationalError` it raises
      (with the message and the `from last_err` cause), or the `ValueError` that
      `Path.with_suffix` raises for a base path with an empty final component. */
  datatype LoadResult =
    | LoadedFrom(path: string, via: Via)
    | LoadFailed(message: string, cause: Option<string>)
    | EmptyName(base: string)

  /** The rendered attempts, in order. */
  function Rendered(tried: seq<Attempt>): (r: seq<string>)
    ensures |r| == |tried|
    ensures forall i :: 0 <= i < |tried| ==> r[i] == Render(tried[i])
  {
    seq(|tried|, i requires 0 <= i < |tried| => Render(tried[i]))
  }

  lemma ArrowInPrefix(a: string, b: string)
    requires a <= b && '>' in a
    ensures '>' in b
  {
    var k :| 0 <= k < |a| && a[k] == '>';
    assert b[k] == '>';
  }

  lemma NoArrowInNothingFound()
    ensures '>' !in "no candidate paths found"
  {
  }

  /** The part of the message after "Tried: ": the recorded attempts, rendered and separated
      by "; ", or "no candidate paths found" exactly when nothing was recorded. */
  function Details(tried: seq<Attempt>): (d: string)
    ensures d == "no candidate paths found" <==> tried == []
    ensures tried != [] ==> Render(tried[0]) <= d
    ensures forall i :: 0 <= i < |tried| ==> Contains(d, Render(tried[i]))
  {
    if tried == [] then "no candidate paths found"
    else
      var pieces := Rendered(tried);
      var d := Join(pieces, "; ");
      ArrowInPrefix(pieces[0], d);
      NoArrowInNothingFound();
      JoinContainsAll(pieces, "; ");
      d
  }

  /** The error of the last recorded attempt, which is what `last_err` holds. */
  function LastError(tried: seq<Attempt>): Option<string> {
    if tried == [] then None else Some(tried[|tried| - 1].error)
  }

  /** The text of the `OperationalError`: a fixed lead followed by the details. */
  function FailureMessage(tried: seq<Attempt>): string {
    "Could not load sqlite-vec. Tried: " + Details(tried)
  }

  /** A success is reported with its path and route; a failure becomes the `OperationalError`
      whose cause is the last recorded error, or no cause when nothing was tried. */
  function Report(p: Probe): (r: LoadResult)
    ensures p.Loaded? <==> r.LoadedFrom?
    ensures r.LoadedFrom? ==> r.path == p.path && r.via == p.via
    ensures p.NotLoaded? ==> r.LoadFailed? && (r.cause.None? <==> p.tried == [])
    ensures p.NotLoaded? && p.tried != [] ==> r.cause == Some(p.tried[|p.tried| - 1].error)
    ensures p.NotLoaded? ==> r.message == FailureMessage(p.tried)
  {
    if p.Loaded? then LoadedFrom(p.path, p.via)
    else LoadFailed(FailureMessage(p.tried), LastError(p.tried))
  }

  lemma ContinueAssociative(x: Probe, y: Probe, z: Probe)
    ensures Continue(Continue(x, y), z) == Continue(x, Continue(y, z))
  {
    if !x.Loaded? && !y.Loaded? && !z.Loaded? {
      assert (x.tried + y.tried) + z.tried == x.tried + (y.tried + z.tried);
    }
  }

  /** Probing a concatenation probes the first part, then the second. */
  lemma {:induction false} ProbeAllConcat(a: seq<string>, b: seq<string>, env: Loader)
    ensures ProbeAll(a + b, env) == Continue(ProbeAll(a, env), ProbeAll(b, env))
  {
    if a == [] {
      assert a + b == b;
      var pb := ProbeAll(b, env);
      if pb.NotLoaded? { assert [] + pb.tried == pb.tried; }
    } else {
      assert (a + b)[1..] == a[1..] + b;
      ProbeAllConcat(a[1..], b, env);
      ContinueAssociative(Single(a[0], env), ProbeAll(a[1..], env), ProbeAll(b, env));
    }
  }

  /** The step of the candidate loop at position `i`. */
  lemma ProbedStep(candidates: seq<string>, i: nat, env: Loader)
    requires i < |candidates|
    ensures var p := candidates[i];
      ProbeAll(Probed(candidates[..i + 1], env), env) ==
        if p in candidates[..i] || !env.pathExists(p) then ProbeAll(Probed(candidates[..i], env), env)
        else Continue(ProbeAll(Probed(candidates[..i], env), env), Single(p, env))
  {
    var p := candidates[i];
    assert candidates[..i + 1] == candidates[..i] + [p];
    DedupSnoc(candidates[..i], p);
    var d := Dedup(candidates[..i]);
    if p !in candidates[..i] {
      FilterSingle(p, env.pathExists);
      FilterConcat(d, [p], env.pathExists);
      ProbeAllConcat(Filter(d, env.pathExists), Filter([p], env.pathExists), env);
      if env.pathExists(p) {
        var s := Single(p, env);
        if s.NotLoaded? { assert s.tried + [] == s.tried; }
      } else {
        assert Filter(d, env.pathExists) + [] == Filter(d, env.pathExists);
        var q := ProbeAll(Filter(d, env.pathExists), env);
        if q.NotLoaded? { assert q.tried + [] == q.tried; }
      }
    }
  }

  /** Once a prefix of the candidates has loaded, the later candidates are irrelevant. */
  lemma StopsAtFirstSuccess(candidates: seq<string>, i: nat, env: Loader)
    requires i <= |candidates|
    requires ProbeAll(Probed(candidates[..i], env), env).Loaded?
    ensures ProbeAll(Probed(candidates, env), env) == ProbeAll(Probed(candidates[..i], env), env)
  {
    var d, full := Dedup(candidates[..i]), Dedup(candidates);
    DedupPrefix(candidates, i);
    var tail := full[|d|..];
    PrefixThenRest(d, full);
    var keep := env.pathExists;
    FilterConcat(d, tail, keep);
    assert Probed(candidates, env) == Filter(d, keep) + Filter(tail, keep);
    ProbeAllConcat(Filter(d, keep), Filter(tail, keep), env);
  }

  /** One failed entry point moves from the remaining entries to the recorded attempts. */
  lemma EntryStep(path: string, entries: seq<string>, k: nat, env: Loader, recorded: seq<Attempt>)
    requires k < |entries| && env.loadEntry(path, entries[k]).EntryFailed?
    ensures Prepend(recorded, ProbeEntries(path, entries[k..], env))
         == Prepend(recorded + [EntryAttempt(path, entries[k], env.loadEntry(path, entries[k]).message)],
                    ProbeEntries(path, entries[k + 1..], env))
  {
    assert entries[k..][1..] == entries[k + 1..];
    var rest := ProbeEntries(path, entries[k + 1..], env);
    if rest.Failed? {
      var a := EntryAttempt(path, entries[k], env.loadEntry(path, entries[k]).message);
      assert recorded + ([a] + rest.attempts) == (recorded + [a]) + rest.attempts;
    }
  }

  /** The entry-point loop on one path: each name in order until one loads; every failure
      is appended to `tried` and remembered as the last error. */
  method TryEntries(path: string, env: Loader, tried0: seq<Attempt>, lastErr0: Option<string>)
    returns (via: Option<Via>, tried: seq<Attempt>, lastErr: Option<string>)
    requires lastErr0 == LastError(tried0)
    ensures via.Some? ==> ProbeEntries(path, EntryPoints, env) == Succeeded(via.value)
    ensures via.None? ==> tried0 <= tried && ProbeEntries(path, EntryPoints, env) == Failed(tried[|tried0|..])
    ensures lastErr == LastError(tried)
  {
    tried, lastErr := tried0, lastErr0;
    assert EntryPoints[0..] == EntryPoints;
    assert tried[|tried0|..] == [];
    var k := 0;
    while k < |EntryPoints|
      invariant k <= |EntryPoints|
      invariant tried0 <= tried
      invariant lastErr == LastError(tried)
      invariant ProbeEntries(path, EntryPoints, env) == Prepend(tried[|tried0|..], ProbeEntries(path, EntryPoints[k..], env))
    {
      var entry := EntryPoints[k];
      var outcome := env.loadEntry(path, entry);
      if outcome.EntryLoaded? {
        return Some(EntryPoint(entry)), tried, lastErr;
      }
      EntryStep(path, EntryPoints, k, env, tried[|tried0|..]);
      var attempt := EntryAttempt(path, entry, outcome.message);
      assert (tried + [attempt])[|tried0|..] == tried[|tried0|..] + [attempt];
      tried := tried + [attempt];
      lastErr := Some(outcome.message);
      k := k + 1;
    }
    via := None;
  }

  /** The attempts on one existing path, the body of the candidate loop: the direct API,
      then the entry points. */
  method TryPath(path: string, env: Loader, tried0: seq<Attempt>, lastErr0: Option<string>)
    returns (via: Option<Via>, tried: seq<Attempt>, lastErr: Option<string>)
    requires lastErr0 == LastError(tried0)
    ensures via.Some? ==> ProbePath(path, env) == Succeeded(via.value)
    ensures via.None? ==> tried0 <= tried && ProbePath(path, env) == Failed(tried[|tried0|..])
    ensures lastErr == LastError(tried)
  {
    var direct := env.loadDirect(path);
    if direct.DirectLoaded? {
      return Some(Direct), tried0, lastErr0;
    }
    var t, e := tried0, lastErr0;
    if direct.DirectFailed? {
      t := tried0 + [DirectAttempt(path, direct.message)];
      e := Some(direct.message);
    }
    via, tried, lastErr := TryEntries(path, env, t, e);
    if via.None? {
      assert tried[|tried0|..] == t[|tried0|..] + tried[|t|..];
    }
  }

  /** The candidate at `i` is new, exists and loads: probing ends there. */
  lemma LoadsAt(candidates: seq<string>, i: nat, env: Loader, tried: seq<Attempt>, via: Via)
    requires i < |candidates| && candidates[i] !in candidates[..i] && env.pathExists(candidates[i])
    requires ProbeAll(Probed(candidates[..i], env), env) == NotLoaded(tried)
    requires ProbePath(candidates[i], env) == Succeeded(via)
    ensures ProbeAll(Probed(candidates, env), env) == Loaded(candidates[i], via)
  {
    ProbedStep(candidates, i, env);
    StopsAtFirstSuccess(candidates, i + 1, env);
  }

  /** The candidate at `i` is new, exists and fails: its attempts follow the earlier ones. */
  lemma FailsAt(candidates: seq<string>, i: nat, env: Loader, tried: seq<Attempt>, attempts: seq<Attempt>)
    requires i < |candidates| && candidates[i] !in candidates[..i] && env.pathExists(candidates[i])
    requires ProbeAll(Probed(candidates[..i], env), env) == NotLoaded(tried)
    requires ProbePath(candidates[i], env) == Failed(attempts)
    ensures ProbeAll(Probed(candidates[..i + 1], env), env) == NotLoaded(tried + attempts)
  {
    ProbedStep(candidates, i, env);
  }

  /** One turn of the candidate loop: skip a seen or missing path, otherwise try it. */
  method ProbeNext(candidates: seq<string>, i: nat, seen: bool, env: Loader, tried0: seq<Attempt>, lastErr0: Option<string>)
    returns (via: Option<Via>, tried: seq<Attempt>, lastErr: Option<string>)
    requires i < |candidates| && seen == (candidates[i] in candidates[..i])
    requires ProbeAll(Probed(candidates[..i], env), env) == NotLoaded(tried0)
    requires lastErr0 == LastError(tried0)
    ensures via.Some? ==> ProbeAll(Probed(candidates, env), env) == Loaded(candidates[i], via.value)
    ensures via.None? ==> ProbeAll(Probed(candidates[..i + 1], env), env) == NotLoaded(tried)
    ensures lastErr == LastError(tried)
  {
    var path := candidates[i];
    if seen || !env.pathExists(path) {
      ProbedStep(candidates, i, env);
      return None, tried0, lastErr0;
    }
    via, tried, lastErr := TryPath(path, env, tried0, lastErr0);
    if via.Some? {
      LoadsAt(candidates, i, env, tried0, via.value);
    } else {
      FailsAt(candidates, i, env, tried0, tried[|tried0|..]);
      assert tried0 + tried[|tried0|..] == tried;
    }
  }

  /** The loop of `_load_sqlite_vec` over an already computed candidate list. */
  method ProbeCandidates(candidates: seq<string>, env: Loader) returns (r: LoadResult)
    ensures r == Report(ProbeAll(Probed(candidates, env), env))
  {
    var tried: seq<Attempt> := [];
    var lastErr: Option<string> := None;
    var seen: set<string> := {};
    var i := 0;
    while i < |candidates|
      invariant i <= |candidates|
      invariant forall p :: p in seen <==> p in candidates[..i]
      invariant ProbeAll(Probed(candidates[..i], env), env) == NotLoaded(tried)
      invariant lastErr == LastError(tried)
    {
      var path := candidates[i];
      var via;
      via, tried, lastErr := ProbeNext(candidates, i, path in seen, env, tried, lastErr);
      if via.Some? {
        return LoadedFrom(path, via.value);
      }
      seen := seen + {path};
      assert candidates[..i + 1] == candidates[..i] + [path];
      i := i + 1;
    }
    assert candidates[..i] == candidates;
    ghost var outcome := ProbeAll(Probed(candidates, env), env);
    assert outcome == NotLoaded(tried);
    r := Report(NotLoaded(tried));
  }

  // Properties of the probing policy

  /** A success is a path of the list on which an attempt loaded. */
  lemma {:induction false} LoadedIsProbed(paths: seq<string>, env: Loader)
    requires ProbeAll(paths, env).Loaded?
    ensures ProbeAll(paths, env).path in paths
    ensures ProbePath(ProbeAll(paths, env).path, env) == Succeeded(ProbeAll(paths, env).via)
  {
    if Single(paths[0], env).NotLoaded? {
      LoadedIsProbed(paths[1..], env);
    }
  }

  /** The first path that loads is the one reported; no later path matters. */
  lemma {:induction false} FirstSuccessWins(paths: seq<string>, k: nat, env: Loader)
    requires k < |paths|
    requires forall j :: 0 <= j < k ==> ProbePath(paths[j], env).Failed?
    requires ProbePath(paths[k], env).Succeeded?
    ensures ProbeAll(paths, env) == Loaded(paths[k], ProbePath(paths[k], env).via)
  {
    if k > 0 {
      FirstSuccessWins(paths[1..], k - 1, env);
    }
  }

  /** The extension that is loaded comes from an existing candidate, by the reported route. */
  lemma LoadedCandidate(candidates: seq<string>, env: Loader)
    requires ProbeAll(Probed(candidates, env), env).Loaded?
    ensures var p := ProbeAll(Probed(candidates, env), env);
      p.path in candidates && env.pathExists(p.path) && ProbePath(p.path, env) == Succeeded(p.via)
  {
    LoadedIsProbed(Probed(candidates, env), env);
    FilterMembers(Dedup(candidates), env.pathExists);
  }

  /** Nothing loads exactly when every path fails, and then some attempt was recorded
      unless there was no path at all. */
  lemma {:induction false} AllFail(paths: seq<string>, env: Loader)
    ensures ProbeAll(paths, env).NotLoaded? <==> forall j :: 0 <= j < |paths| ==> ProbePath(paths[j], env).Failed?
    ensures ProbeAll(paths, env).NotLoaded? ==> (ProbeAll(paths, env).tried == [] <==> paths == [])
  {
    if paths != [] {
      AllFail(paths[1..], env);
      assert forall j :: 1 <= j < |paths| ==> paths[j] == paths[1..][j - 1];
    }
  }

  /** No candidate path exists exactly when probing records nothing, which is when the
      error says "no candidate paths found". */
  lemma NoCandidateFound(candidates: seq<string>, env: Loader)
    ensures ProbeAll(Probed(candidates, env), env) == NotLoaded([])
        <==> forall i :: 0 <= i < |candidates| ==> !env.pathExists(candidates[i])
  {
    var d := Dedup(candidates);
    FilterEmpty(d, env.pathExists);
    AllFail(Probed(candidates, env), env);
    if forall i :: 0 <= i < |candidates| ==> !env.pathExists(candidates[i]) {
      forall j | 0 <= j < |d| ensures !env.pathExists(d[j]) {
        var i :| 0 <= i < |candidates| && candidates[i] == d[j];
      }
    } else {
      var i :| 0 <= i < |candidates| && env.pathExists(candidates[i]);
      assert candidates[i] in d;
      var j :| 0 <= j < |d| && d[j] == candidates[i];
    }
  }

  // ---------------------------------------------------------------------------
  // The candidate list (pathlib on already normalised POSIX path text)
  // ---------------------------------------------------------------------------

  function LastIndexOf(s: string, c: char): (i: int)
    ensures -1 <= i < |s|
    ensures i >= 0 ==> s[i] == c
    ensures forall j :: i < j < |s| ==> s[j] != c
  {
    if s == [] then -1 else if s[|s| - 1] == c then |s| - 1 else LastIndexOf(s[..|s| - 1], c)
  }

  /** `Path(p).name`: the final component. */
  function Name(p: string): string {
    p[LastIndexOf(p, '/') + 1..]
  }

  /** The text before the final component, up to and including its slash. */
  function Dir(p: string): string {
    p[..LastIndexOf(p, '/') + 1]
  }

  /** `PurePath.suffix` of a name: from its last dot, unless that dot starts or ends the name. */
  function Suffix(name: string): (r: string)
    ensures |r| <= |name| && r == name[|name| - |r|..]
  {
    var i := LastIndexOf(name, '.');
    if 0 < i < |name| - 1 then name[i..] else ""
  }

  /** `PurePath.stem` of a name: the name without its suffix. */
  function Stem(name: string): string {
    name[..|name| - |Suffix(name)|]
  }

  /** A character absent from the tail does not move the last occurrence. */
  lemma {:induction false} LastIndexOfAppend(a: string, b: string, c: char)
    requires c !in b
    ensures LastIndexOf(a + b, c) == LastIndexOf(a, c)
  {
    if b != [] {
      assert (a + b)[..|a + b| - 1] == a + b[..|b| - 1];
      LastIndexOfAppend(a, b[..|b| - 1], c);
    } else {
      assert a + b == a;
    }
  }

  /** The directory part ends at its own last slash. */
  lemma LastIndexOfDir(p: string)
    ensures LastIndexOf(Dir(p), '/') == |Dir(p)| - 1
  {
    var i := LastIndexOf(p, '/');
    if i >= 0 {
      assert Dir(p)[..|Dir(p)| - 1] == p[..i];
    }
  }

  /** Appending slash-free text after a trailing slash makes it the final component. */
  lemma SplitAtLastSlash(d: string, tail: string)
    requires LastIndexOf(d, '/') == |d| - 1 && '/' !in tail
    ensures Dir(d + tail) == d && Name(d + tail) == tail
  {
    LastIndexOfAppend(d, tail, '/');
    assert (d + tail)[..|d|] == d && (d + tail)[|d|..] == tail;
  }

  /** `Path(p).with_suffix(suffix)`; Python raises `ValueError` when the name is empty. The
      directory is kept and the new final component is the old stem followed by the suffix. */
  function WithSuffix(p: string, suffix: string): (r: string)
    requires Name(p) != "" && '/' !in suffix
    ensures Dir(p) <= r
    ensures Dir(r) == Dir(p) && Name(r) == Stem(Name(p)) + suffix
  {
    var tail := Stem(Name(p)) + suffix;
    assert '/' !in Name(p);
    LastIndexOfDir(p);
    SplitAtLastSlash(Dir(p), tail);
    Dir(p) + tail
  }

  /** `Path(dir) / rel` for a relative `rel`: `dir`, then exactly one slash unless `dir` is
      empty or already ends with one, then `rel`. */
  function JoinPath(dir: string, rel: string): (r: string)
    ensures dir <= r && |dir| + |rel| <= |r| <= |dir| + 1 + |rel|
    ensures r[|r| - |rel|..] == rel
    ensures dir != "" ==> r[|r| - |rel| - 1] == '/'
  {
    if dir == "" then rel else if dir[|dir| - 1] == '/' then dir + rel else dir + "/" + rel
  }

  /** The ten candidates of mind/db.py, from the configured path `base` and the home directory. */
  function Candidates(base: string, home: string): (c: seq<string>)
    requires Name(base) != ""
    ensures |c| == 10
  {
    [ base, WithSuffix(base, ""), WithSuffix(base, ".so"), WithSuffix(base, ".dylib"),
      "/usr/local/lib/vec0", "/usr/local/lib/vec0.so", "/usr/local/lib/sqlite-vec/vec0.so",
      "/usr/lib/sqlite3/vec0.so",
      JoinPath(home, ".local/lib/vec0.so"), JoinPath(home, ".local/lib/sqlite-vec/vec0.so") ]
  }

  /** A base whose name has no suffix is its own `with_suffix("")`: the second candidate
      repeats the first, and the `seen` set is what keeps it from being probed twice. */
  lemma PlainNameRepeats(base: string)
    requires Name(base) != "" && Suffix(Name(base)) == ""
    ensures WithSuffix(base, "") == base
  {
    var name := Name(base);
    assert Stem(name) == name;
    assert Dir(base) + name == base;
  }

  /** `_load_sqlite_vec`: build the candidates, then probe them. */
  method LoadSqliteVec(base: string, home: string, env: Loader) returns (r: LoadResult)
    ensures Name(base) == "" ==> r == EmptyName(base)
    ensures Name(base) != "" ==> r == Report(ProbeAll(Probed(Candidates(base, home), env), env))
    ensures r.LoadedFrom? ==> r.path in Candidates(base, home) && env.pathExists(r.path)
    ensures r.LoadedFrom? ==> ProbePath(r.path, env) == Succeeded(r.via)
  {
    if Name(base) == "" {
      return EmptyName(base);
    }
    r := ProbeCandidates(Candidates(base, home), env);
    if r.LoadedFrom? {
      LoadedCandidate(Candidates(base, home), env);
    }
  }

  // ---------------------------------------------------------------------------
  // create_schema
  // ---------------------------------------------------------------------------

  datatype Column = Column(name: string, notNull: bool, unique: bool, primaryKey: bool)

  datatype SchemaObject =
    | Table(columns: seq<Column>)
    | VirtualTable(usingModule: string, dimension: nat)
    | Index(table: string, column: string)

  /** `CREATE ... [IF NOT EXISTS] name ...`; tables and indexes share one namespace. */
  datatype Statement = Create(name: string, definition: SchemaObject, ifNotExists: bool)

  type Schema = map<string, SchemaObject>

  /** A plain CREATE of an existing name fails; with IF NOT EXISTS it does nothing. */
  function Execute(s: Schema, st: Statement): Result<Schema, string> {
    if st.name !in s then Ok(s[st.name := st.definition])
    else if st.ifNotExists then Ok(s)
    else Err(st.name + " already exists")
  }

  /** `executescript`: the statements in order, stopping at the first error. */
  /** A script only adds objects: on success every existing object is still there unchanged
      and every name the script creates exists. */
  function ExecuteScript(s: Schema, script: seq<Statement>): (r: Result<Schema, string>)
    ensures r.Ok? ==> forall n :: n in s ==> n in r.value && r.value[n] == s[n]
    ensures r.Ok? ==> forall i :: 0 <= i < |script| ==> script[i].name in r.value
    decreases script
  {
    if script == [] then Ok(s)
    else match Execute(s, script[0])
      case Err(e) => Err(e)
      case Ok(s') => ExecuteScript(s', script[1..])
  }

  function Plain(name: string): Column { Column(name, false, false, false) }
  function Required(name: string): Column { Column(name, true, false, false) }

  const MemoriesColumns: seq<Column> := [
    Column("id", false, false, true),
    Column("uuid", true, true, false),
    Plain("user_id"), Plain("agent_id"), Plain("source"), Plain("type"),
    Required("text"),
    Plain("summary"), Plain("tags"), Plain("importance"), Plain("conversation_id"), Plain("cluster_id"),
    Required("created_at"), Required("updated_at"),
    Plain("last_accessed_at"), Plain("extra_json"), Plain("deleted_at")
  ]

  /** The script of `create_schema`; `dimension` is the configured embedding width. */
  function SchemaScript(dimension: nat): (sc: seq<Statement>)
    ensures Guarded(sc)
  {
    [ Create("memories", Table(MemoriesColumns), true),
      Create("vec_memories", VirtualTable("vec0", dimension), true),
      Create("clusters", Table([Column("id", false, false, true), Plain("label"), Plain("summary"),
                                Required("created_at"), Required("updated_at")]), true),
      Create("memory_relations", Table([Column("id", false, false, true), Required("from_id"), Required("to_id"),
                                        Required("kind"), Required("created_at")]), true),
      Create("idx_memories_cluster_id", Index("memories", "cluster_id"), true),
      Create("idx_memories_deleted_at", Index("memories", "deleted_at"), true) ]
  }

  /** `create_schema` never fails, keeps every existing object as it is and leaves the four
      tables and two indexes defined. */
  function CreateSchema(s: Schema, dimension: nat): (r: Result<Schema, string>)
    ensures r.Ok?
    ensures forall n :: n in s ==> n in r.value && r.value[n] == s[n]
    ensures {"memories", "vec_memories", "clusters", "memory_relations",
             "idx_memories_cluster_id", "idx_memories_deleted_at"} <= r.value.Keys
  {
    var sc := SchemaScript(dimension);
    GuardedScriptDefines(s, sc);
    var r := ExecuteScript(s, sc);
    assert sc[0].name in r.value && sc[1].name in r.value && sc[2].name in r.value;
    assert sc[3].name in r.value && sc[4].name in r.value && sc[5].name in r.value;
    r
  }

  predicate Guarded(script: seq<Statement>) {
    forall i :: 0 <= i < |script| ==> script[i].ifNotExists
  }

  /** A guarded script never fails, keeps every existing object and defines every name it mentions. */
  lemma {:induction false} GuardedScriptDefines(s: Schema, script: seq<Statement>)
    requires Guarded(script)
    ensures ExecuteScript(s, script).Ok?
    ensures forall n :: n in s ==> n in ExecuteScript(s, script).value && ExecuteScript(s, script).value[n] == s[n]
    ensures forall i :: 0 <= i < |script| ==> script[i].name in ExecuteScript(s, script).value
    decreases script
  {
    if script != [] {
      var s' := Execute(s, script[0]).value;
      assert Guarded(script[1..]);
      GuardedScriptDefines(s', script[1..]);
      assert forall i :: 1 <= i < |script| ==> script[i] == script[1..][i - 1];
    }
  }

  /** A guarded script over a schema that already has all its names changes nothing. */
  lemma {:induction false} GuardedScriptNoOp(s: Schema, script: seq<Statement>)
    requires Guarded(script)
    requires forall i :: 0 <= i < |script| ==> script[i].name in s
    ensures ExecuteScript(s, script) == Ok(s)
  {
    if script != [] {
      assert Guarded(script[1..]);
      GuardedScriptNoOp(s, script[1..]);
    }
  }

  /** Running a guarded script twice has the effect of running it once. */
  lemma GuardedScriptIdempotent(s: Schema, script: seq<Statement>)
    requires Guarded(script)
    ensures ExecuteScript(s, script).Ok?
    ensures ExecuteScript(ExecuteScript(s, script).value, script) == ExecuteScript(s, script)
  {
    GuardedScriptDefines(s, script);
    GuardedScriptNoOp(ExecuteScript(s, script).value, script);
  }

  /** `create_schema` never fails, and applying it again yields the same schema. */
  lemma CreateSchemaIdempotent(s: Schema, dimension: nat)
    ensures CreateSchema(s, dimension).Ok?
    ensures CreateSchema(CreateSchema(s, dimension).value, dimension) == CreateSchema(s, dimension)
  {
    GuardedScriptIdempotent(s, SchemaScript(dimension));
  }

  /** The schema an empty database holds after `create_schema`. */
  function FreshTables(dimension: nat): Schema {
    var sc := SchemaScript(dimension);
    map[sc[0].name := sc[0].definition, sc[1].name := sc[1].definition, sc[2].name := sc[2].definition,
        sc[3].name := sc[3].definition, sc[4].name := sc[4].definition, sc[5].name := sc[5].definition]
  }

  /** Running the script on an empty database, one statement at a time. */
  lemma FreshRun(dimension: nat)
    ensures CreateSchema(map[], dimension) == Ok(FreshTables(dimension))
  {
    var sc := SchemaScript(dimension);
    var s0: Schema := map[];
    var s1 := s0[sc[0].name := sc[0].definition];
    var s2 := s1[sc[1].name := sc[1].definition];
    var s3 := s2[sc[2].name := sc[2].definition];
    var s4 := s3[sc[3].name := sc[3].definition];
    var s5 := s4[sc[4].name := sc[4].definition];
    var s6 := s5[sc[5].name := sc[5].definition];
    assert ExecuteScript(s0, sc) == ExecuteScript(s1, sc[1..]);
    assert ExecuteScript(s1, sc[1..]) == ExecuteScript(s2, sc[2..]);
    assert ExecuteScript(s2, sc[2..]) == ExecuteScript(s3, sc[3..]);
    assert ExecuteScript(s3, sc[3..]) == ExecuteScript(s4, sc[4..]);
    assert ExecuteScript(s4, sc[4..]) == ExecuteScript(s5, sc[5..]);
    assert ExecuteScript(s5, sc[5..]) == ExecuteScript(s6, sc[6..]);
    assert sc[6..] == [];
    assert s6 == FreshTables(dimension);
  }

  /** On an empty database the script creates the four tables and two indexes, and the
      memories table carries the column constraints of mind/db.py: uuid UNIQUE NOT NULL;
      text, created_at and updated_at NOT NULL; id the primary key. */
  lemma FreshSchema(dimension: nat)
    ensures CreateSchema(map[], dimension).Ok?
    ensures CreateSchema(map[], dimension).value.Keys ==
      {"memories", "vec_memories", "clusters", "memory_relations", "idx_memories_cluster_id", "idx_memories_deleted_at"}
    ensures CreateSchema(map[], dimension).value["memories"] == Table(MemoriesColumns)
    ensures CreateSchema(map[], dimension).value["vec_memories"] == VirtualTable("vec0", dimension)
    ensures forall i :: 0 <= i < |MemoriesColumns| ==>
      (MemoriesColumns[i].notNull <==> MemoriesColumns[i].name in {"uuid", "text", "created_at", "updated_at"})
    ensures forall i :: 0 <= i < |MemoriesColumns| ==>
      (MemoriesColumns[i].unique <==> MemoriesColumns[i].name == "uuid")
  {
    FreshRun(dimension);
  }
}
