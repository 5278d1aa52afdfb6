/** Documentation writes of many people at once: the per-table lock and the ownership rule, step by step. */
module DocumentationProtocol {
  import Connections
  import opened Documentation
  import opened Runs
  import opened Text
  import opened Wrappers

  // ----- the ownership rule -----

  datatype Person = Person(groups: seq<string>, isAdmin: bool)

  /** Group names compare exactly, or after a leading slash. */
  predicate InGroup(groups: seq<string>, wanted: string) {
    exists i :: 0 <= i < |groups| && (groups[i] == wanted || (groups[i] != "" && groups[i][0] == '/' && groups[i][1..] == wanted))
  }

  /** Somebody is in a group exactly when they list its name, with a slash in front or without one. */
  lemma InGroupExactly(groups: seq<string>, wanted: string)
    ensures InGroup(groups, wanted) <==> wanted in groups || "/" + wanted in groups
  {
    forall g: string ensures (g != "" && g[0] == '/' && g[1..] == wanted) <==> g == "/" + wanted {
      assert ("/" + wanted)[1..] == wanted;
      assert g != "" ==> g == [g[0]] + g[1..];
    }
  }

  predicate MayEdit(who: Person, owner: Option<string>) {
    who.isAdmin || owner.None? || InGroup(who.groups, owner.value)
  }

  predicate ClaimAllowed(who: Person, owner: Option<string>, requested: Option<Option<string>>) {
    || owner.Some? || who.isAdmin
    || (requested.Some? && requested.value.Some? && InGroup(who.groups, requested.value.value))
  }

  /** The rule at the moment a patch lands: the person is an administrator, or the table's owner is one of
      their groups, or it has no owner and this very patch makes one of their groups its owner. */
  predicate Authorised(who: Person, props: Properties, p: Patch) {
    var owner := TextOf(props, OWNER);
    || who.isAdmin
    || (owner.Some? && InGroup(who.groups, owner.value))
    || (owner.None? && OWNER in p.puts && OWNER !in p.drops && InGroup(who.groups, p.puts[OWNER]))
  }

  // ----- the writers -----

  datatype TableId = TableId(catalog: string, ns: string, name: string)

  /** The key the lock table uses. Two tables may share one; one table never has two. */
  function LockKey(t: TableId): string {
    t.catalog + "." + t.ns + "." + t.name
  }

  /** Tables whose names hold no point never share a key, in whatever catalogs they are. */
  lemma LockKeysDiffer(a: TableId, b: TableId)
    requires forall part :: part in [a.catalog, a.ns, a.name, b.catalog, b.ns, b.name] ==> Without(part, '.')
    requires LockKey(a) == LockKey(b)
    ensures a == b
  {
    KeyIsJoined(a);
    KeyIsJoined(b);
    SplitUndoesJoin([a.catalog, a.ns, a.name], '.');
    SplitUndoesJoin([b.catalog, b.ns, b.name], '.');
    assert [a.catalog, a.ns, a.name] == [b.catalog, b.ns, b.name];
    assert a.catalog == [a.catalog, a.ns, a.name][0] && a.ns == [a.catalog, a.ns, a.name][1] && a.name == [a.catalog, a.ns, a.name][2];
  }

  lemma KeyIsJoined(t: TableId)
    ensures LockKey(t) == JoinWith([t.catalog, t.ns, t.name], '.')
  {
    assert [t.catalog, t.ns, t.name][1..] == [t.ns, t.name] && [t.ns, t.name][1..] == [t.name];
    assert JoinWith([t.ns, t.name], '.') == t.ns + "." + JoinWith([t.name], '.');
    assert JoinWith([t.catalog, t.ns, t.name], '.') == t.catalog + "." + (t.ns + "." + t.name);
    Glue(t.catalog + ".", t.ns, ".");
    Glue(t.catalog + ".", t.ns + ".", t.name);
  }

  /** A documentation write carries a validated request; a column write comments a column by a statement. */
  datatype Kind = DocWrite(request: Request) | ColumnWrite

  /** From `Loading` to `Reloading` the writer holds the table's lock. */
  datatype Writer =
    | Queued(table: TableId, who: Person, kind: Kind)
    | Loading(table: TableId, who: Person, kind: Kind)
    | Committing(table: TableId, who: Person, request: Request, loaded: Properties, patch: Patch, tries: nat)
    | Commenting(table: TableId, who: Person)
    | Reloading(table: TableId, request: Request, loaded: Properties)
    | Done(answer: View, request: Request, before: View, timely: bool)
    | Ended

  /** One commit request that took effect at the catalog: whose, on what they had loaded, and on what it landed.
      It is timely when it landed while its writer was in the lock, and no late one had landed there before it. */
  datatype Commit = Commit(
    who: Person, request: Request, loaded: Properties, before: Properties, patch: Patch, timely: bool)

  /** A commit request that has not taken effect although its answer, or the wait for it, is over. It carries no
      requirement on the table, so it may still land at any time, or never. */
  datatype Late = Late(table: TableId, who: Person, request: Request, loaded: Properties, patch: Patch)

  /** One column statement sent to the engine, with the owner at that moment. */
  datatype Comment = Comment(who: Person, owner: Option<string>, timely: bool)

  /** `disturbed`: the writers in whose lock a late commit has landed. */
  datatype State = State(
    tables: map<TableId, Properties>,
    locks: map<string, nat>,
    writers: map<nat, Writer>,
    commits: seq<Commit>,
    comments: seq<Comment>,
    late: seq<Late>,
    disturbed: set<nat>)

  /** `Decline`: the column does not exist, or no description was sent, so there is no statement. `Land`: a
      commit request takes effect late. */
  datatype Step =
    | Begin(w: nat, table: TableId, who: Person, kind: Kind)
    | Acquire(w: nat)
    | Load(w: nat)
    | Post(w: nat, fate: Fate)
    | RunStatement(w: nat)
    | Decline(w: nat)
    | Reload(w: nat)
    | Land(i: nat)

  predicate HoldsLock(w: Writer) {
    w.Loading? || w.Committing? || w.Commenting? || w.Reloading?
  }

  function With(s: State, w: nat, writer: Writer): State {
    s.(writers := s.writers[w := writer])
  }

  /** The writer is through: its lock is free again. */
  function Release(s: State, w: nat, table: TableId, writer: Writer): State {
    With(s, w, writer).(locks := s.locks - {LockKey(table)})
  }

  ghost predicate Enabled(s: State, step: Step) {
    match step
    case Begin(w, _, _, kind) => w !in s.writers && (kind.DocWrite? ==> Validated(kind.request))
    case Acquire(w) => w in s.writers && s.writers[w].Queued? && LockKey(s.writers[w].table) !in s.locks
    case Load(w) => w in s.writers && s.writers[w].Loading?
    case Post(w, _) => w in s.writers && s.writers[w].Committing? && s.writers[w].table in s.tables
    case RunStatement(w) => w in s.writers && s.writers[w].Commenting? && s.writers[w].table in s.tables
    case Decline(w) => w in s.writers && s.writers[w].Commenting?
    case Reload(w) => w in s.writers && s.writers[w].Reloading? && s.writers[w].table in s.tables
    case Land(i) => i < |s.late| && s.late[i].table in s.tables
  }

  /** Load the table, ask the rule, and work out the patch; nothing to change ends the write here. */
  function DoLoad(s: State, w: nat, x: Writer): State
    requires x.Loading?
  {
    if x.table !in s.tables then Release(s, w, x.table, Ended)
    else
      var loaded := s.tables[x.table];
      var owner := TextOf(loaded, OWNER);
      if !MayEdit(x.who, owner) then Release(s, w, x.table, Ended)
      else match x.kind
        case ColumnWrite => With(s, w, Commenting(x.table, x.who))
        case DocWrite(request) =>
          var patch := Diff(ViewOf(loaded), request);
          if !ClaimAllowed(x.who, owner, request.owner) then Release(s, w, x.table, Ended)
          else if patch.changed == [] then Release(s, w, x.table, Done(ViewOf(loaded), request, ViewOf(loaded), true))
          else With(s, w, Committing(x.table, x.who, request, loaded, patch, 0))
  }

  /** One of up to three commit requests. */
  function DoPost(s: State, w: nat, x: Writer, fate: Fate): State
    requires x.Committing? && x.table in s.tables
  {
    var applied := fate.status.Success? || fate.applied;
    var t := if !applied then s.(late := s.late + [Late(x.table, x.who, x.request, x.loaded, x.patch)])
      else s.(tables := s.tables[x.table := ApplyPatch(s.tables[x.table], x.patch)],
              commits := s.commits + [Commit(x.who, x.request, x.loaded, s.tables[x.table], x.patch, w !in s.disturbed)]);
    if fate.status.Success? then With(t, w, Reloading(x.table, x.request, x.loaded))
    else if fate.status.Contended? && x.tries + 1 < ATTEMPTS then With(t, w, x.(tries := x.tries + 1))
    else Release(t, w, x.table, Ended)
  }

  /** Whoever holds the lock of the table is disturbed. */
  function DoLand(s: State, i: nat): State
    requires i < |s.late| && s.late[i].table in s.tables
  {
    var l := s.late[i];
    var key := LockKey(l.table);
    s.(tables := s.tables[l.table := ApplyPatch(s.tables[l.table], l.patch)],
       commits := s.commits + [Commit(l.who, l.request, l.loaded, s.tables[l.table], l.patch, false)],
       late := s.late[..i] + s.late[i + 1..],
       disturbed := if key in s.locks then s.disturbed + {s.locks[key]} else s.disturbed)
  }

  ghost function Do(s: State, step: Step): State
    requires Enabled(s, step)
  {
    match step
    case Begin(w, table, who, kind) => With(s, w, Queued(table, who, kind))
    case Acquire(w) =>
      var x := s.writers[w];
      With(s, w, Loading(x.table, x.who, x.kind)).(locks := s.locks[LockKey(x.table) := w])
    case Load(w) => DoLoad(s, w, s.writers[w])
    case Post(w, fate) => DoPost(s, w, s.writers[w], fate)
    case RunStatement(w) =>
      var x := s.writers[w];
      Release(s, w, x.table, Ended).(comments := s.comments + [Comment(x.who, TextOf(s.tables[x.table], OWNER), w !in s.disturbed)])
    case Decline(w) => Release(s, w, s.writers[w].table, Ended)
    case Reload(w) =>
      var x := s.writers[w];
      Release(s, w, x.table, Done(ViewOf(s.tables[x.table]), x.request, ViewOf(x.loaded), w !in s.disturbed))
    case Land(i) => DoLand(s, i)
  }

  // ----- the invariant -----

  /** A patch worked out under the rule from what was loaded. */
  ghost predicate Ruled(who: Person, request: Request, loaded: Properties, patch: Patch) {
    && patch == Diff(ViewOf(loaded), request)
    && MayEdit(who, TextOf(loaded, OWNER)) && ClaimAllowed(who, TextOf(loaded, OWNER), request.owner)
  }

  /** What a writer inside the lock relies on, unless disturbed: the table is as it was loaded, or as its own
      patch left it. */
  ghost predicate WriterOk(s: State, w: nat, x: Writer) {
    && (HoldsLock(x) ==> LockKey(x.table) in s.locks && s.locks[LockKey(x.table)] == w)
    && (match x
        case Queued(_, _, DocWrite(request)) => Validated(request)
        case Loading(_, _, DocWrite(request)) => Validated(request)
        case Committing(table, who, request, loaded, patch, tries) =>
          && Validated(request) && Ruled(who, request, loaded, patch) && table in s.tables
          && (w !in s.disturbed ==> s.tables[table] == loaded || s.tables[table] == ApplyPatch(loaded, patch))
        case Commenting(table, who) =>
          && table in s.tables
          && (w !in s.disturbed ==> MayEdit(who, TextOf(s.tables[table], OWNER)))
        case Reloading(table, request, loaded) =>
          && Validated(request) && table in s.tables
          && (w !in s.disturbed ==> s.tables[table] == ApplyPatch(loaded, Diff(ViewOf(loaded), request)))
        case Done(answer, request, before, timely) => timely ==> answer == Overlay(before, request)
        case _ => true)
  }

  /** A commit carries the patch of a write that passed the rule on what was loaded; a timely one lands there or
      on its own outcome. */
  ghost predicate CommitOk(c: Commit) {
    && Ruled(c.who, c.request, c.loaded, c.patch)
    && (c.timely ==> c.before == c.loaded || c.before == ApplyPatch(c.loaded, c.patch))
  }

  ghost predicate CommentOk(c: Comment) {
    c.timely ==> MayEdit(c.who, c.owner)
  }

  /** The records of what took effect, and of what may yet. */
  ghost predicate RecordsOk(commits: seq<Commit>, comments: seq<Comment>, late: seq<Late>) {
    && (forall i :: 0 <= i < |commits| ==> CommitOk(commits[i]))
    && (forall i :: 0 <= i < |comments| ==> CommentOk(comments[i]))
    && (forall i :: 0 <= i < |late| ==> Ruled(late[i].who, late[i].request, late[i].loaded, late[i].patch))
  }

  /** The lock with this key belongs to a writer that is inside it. */
  ghost predicate Held(s: State, key: string, w: nat) {
    w in s.writers && HoldsLock(s.writers[w]) && LockKey(s.writers[w].table) == key
  }

  ghost predicate Inv(s: State) {
    && (forall w :: w in s.writers ==> WriterOk(s, w, s.writers[w]))
    && (forall k :: k in s.locks ==> Held(s, k, s.locks[k]))
    && s.disturbed <= s.writers.Keys
    && RecordsOk(s.commits, s.comments, s.late)
  }

  /** The two checks on the loaded table pass exactly for the writers who are authorised for the patch there. */
  lemma RuleIsAuthority(who: Person, loaded: Properties, request: Request)
    ensures MayEdit(who, TextOf(loaded, OWNER)) && ClaimAllowed(who, TextOf(loaded, OWNER), request.owner)
       <==> Authorised(who, loaded, Diff(ViewOf(loaded), request))
  {
    DiffEffects(ViewOf(loaded), request);
  }

  /** Whom a request leaves in charge: it does not speak of the owner, or it names one of the writer's groups. */
  predicate StaysInCharge(who: Person, request: Request) {
    request.owner.None? || (request.owner.value.Some? && InGroup(who.groups, request.owner.value.value))
  }

  /** When the same patch is authorised on the table it has already made: the writer is an administrator or
      the request left them in charge, or it changes nothing at all. */
  lemma RepostAuthorisedExactly(who: Person, loaded: Properties, request: Request)
    requires MayEdit(who, TextOf(loaded, OWNER)) && ClaimAllowed(who, TextOf(loaded, OWNER), request.owner)
    ensures var p := Diff(ViewOf(loaded), request);
      Authorised(who, ApplyPatch(loaded, p), p) <==> ApplyPatch(loaded, p) == loaded || who.isAdmin || StaysInCharge(who, request)
  {
    var p := Diff(ViewOf(loaded), request);
    DiffEffects(ViewOf(loaded), request);
    RuleIsAuthority(who, loaded, request);
    AppliedText(loaded, p, OWNER);
  }

  lemma OtherWriter(s: State, t: State, v: nat, x: Writer, table: TableId)
    requires WriterOk(s, v, x) && t.disturbed == s.disturbed
    requires LockKey(table) in s.locks ==> s.locks[LockKey(table)] != v
    requires t.locks - {LockKey(table)} == s.locks - {LockKey(table)}
    requires forall k :: k in s.tables ==> k in t.tables && (k != table ==> t.tables[k] == s.tables[k])
    ensures WriterOk(t, v, x)
  {
    hide Ruled, ApplyPatch, Diff, ViewOf, MayEdit, TextOf, Validated, Overlay;
    if HoldsLock(x) {
      assert LockKey(x.table) in s.locks - {LockKey(table)};
    }
  }

  /** A step of the writer that holds, takes or gives back a lock leaves every other writer's ground alone. */
  lemma WriterStep(s: State, t: State, w: nat, table: TableId, x: Writer)
    requires Inv(s)
    requires t.writers == s.writers[w := x] && WriterOk(t, w, x)
    requires w in s.writers && !s.writers[w].Done? && !s.writers[w].Ended? && s.writers[w].table == table
    requires LockKey(table) in s.locks ==> s.locks[LockKey(table)] == w
    requires HoldsLock(x) ==> x.table == table && t.locks == s.locks[LockKey(table) := w]
    requires !HoldsLock(x) ==> t.locks == s.locks - {LockKey(table)}
    requires forall k :: k in s.tables ==> k in t.tables && (k != table ==> t.tables[k] == s.tables[k])
    requires t.disturbed == s.disturbed && RecordsOk(t.commits, t.comments, t.late)
    ensures Inv(t)
  {
    hide RecordsOk, LockKey, WriterOk, HoldsLock;
    forall v | v in t.writers
      ensures WriterOk(t, v, t.writers[v])
    {
      if v != w {
        assert WriterOk(s, v, s.writers[v]);
        OtherWriter(s, t, v, s.writers[v], table);
      }
    }
    forall k | k in t.locks
      ensures Held(t, k, t.locks[k])
    {
      if k != LockKey(table) {
        assert Held(s, k, s.locks[k]);
      }
    }
    assert WriterOk(s, w, s.writers[w]);
  }

  lemma BeginKeeps(s: State, step: Step)
    requires Inv(s) && Enabled(s, step) && step.Begin?
    ensures Inv(Do(s, step))
  {
    var t := Do(s, step);
    forall v | v in t.writers
      ensures WriterOk(t, v, t.writers[v])
    {
      if v != step.w {
        assert WriterOk(s, v, s.writers[v]);
      }
    }
  }

  lemma AcquireKeeps(s: State, w: nat)
    requires Inv(s) && Enabled(s, Acquire(w))
    ensures Inv(Do(s, Acquire(w)))
  {
    var t := Do(s, Acquire(w));
    assert WriterOk(s, w, s.writers[w]);
    WriterStep(s, t, w, s.writers[w].table, t.writers[w]);
  }

  /** A load that ends the write at once: no such table, a refusal, or nothing to change. */
  lemma LoadEnds(s: State, w: nat, x: Writer)
    requires Inv(s) && w in s.writers && s.writers[w].Loading? && (x.Ended? || x.Done?) && WriterOk(s, w, x)
    ensures Inv(Release(s, w, s.writers[w].table, x))
  {
    hide RecordsOk, Ruled, Diff, ViewOf, ApplyPatch, Overlay, MayEdit, ClaimAllowed, Validated;
    HeldByWriter(s, w);
    WriterStep(s, Release(s, w, s.writers[w].table, x), w, s.writers[w].table, x);
  }

  /** A load that goes on inside the lock. */
  lemma LoadGoesOn(s: State, w: nat, x: Writer)
    requires Inv(s) && w in s.writers && s.writers[w].Loading? && (x.Committing? || x.Commenting?)
    requires x.table == s.writers[w].table && WriterOk(s, w, x)
    ensures Inv(With(s, w, x))
  {
    hide RecordsOk, Ruled, Diff, ViewOf, ApplyPatch, Overlay, MayEdit, ClaimAllowed, Validated;
    HeldByWriter(s, w);
    var table := s.writers[w].table;
    assert s.locks == s.locks[LockKey(table) := w];
    WriterStep(s, With(s, w, x), w, table, x);
  }

  lemma HeldByWriter(s: State, w: nat)
    requires Inv(s) && w in s.writers && HoldsLock(s.writers[w])
    ensures LockKey(s.writers[w].table) in s.locks && s.locks[LockKey(s.writers[w].table)] == w
  {
    assert WriterOk(s, w, s.writers[w]);
  }

  /** What the load of a documentation write leads to. */
  lemma LoadedDocKeeps(s: State, w: nat, request: Request)
    requires Inv(s) && Enabled(s, Load(w)) && s.writers[w].table in s.tables && s.writers[w].kind == DocWrite(request)
    ensures Inv(DoLoad(s, w, s.writers[w]))
  {
    hide Diff, ViewOf, ApplyPatch, Overlay;
    var x := s.writers[w];
    var loaded := s.tables[x.table];
    var patch := Diff(ViewOf(loaded), request);
    HeldByWriter(s, w);
    assert WriterOk(s, w, x) && Validated(request);
    NothingToCommitExactly(ViewOf(loaded), request);
    if !MayEdit(x.who, TextOf(loaded, OWNER)) || !ClaimAllowed(x.who, TextOf(loaded, OWNER), request.owner) {
      LoadEnds(s, w, Ended);
    } else if patch.changed == [] {
      LoadEnds(s, w, Done(ViewOf(loaded), request, ViewOf(loaded), true));
    } else {
      LoadGoesOn(s, w, Committing(x.table, x.who, request, loaded, patch, 0));
    }
  }

  lemma LoadKeeps(s: State, w: nat)
    requires Inv(s) && Enabled(s, Load(w))
    ensures Inv(Do(s, Load(w)))
  {
    hide RecordsOk, Diff, ViewOf, ApplyPatch, Overlay;
    var x := s.writers[w];
    HeldByWriter(s, w);
    if x.table !in s.tables {
      LoadEnds(s, w, Ended);
    } else if x.kind.DocWrite? {
      LoadedDocKeeps(s, w, x.kind.request);
    } else if !MayEdit(x.who, TextOf(s.tables[x.table], OWNER)) {
      LoadEnds(s, w, Ended);
    } else {
      LoadGoesOn(s, w, Commenting(x.table, x.who));
    }
  }

  /** Whichever of the writer's requests took effect before, one more leaves the patch applied once. */
  lemma PostLands(x: Writer, table: Properties)
    requires x.Committing? && (table == x.loaded || table == ApplyPatch(x.loaded, x.patch))
    ensures ApplyPatch(table, x.patch) == ApplyPatch(x.loaded, x.patch)
  {
    PatchIdempotent(x.loaded, x.patch);
  }

  /** A late commit disturbs the writer in the lock, and nobody else. */
  lemma LandKeeps(s: State, i: nat)
    requires Inv(s) && Enabled(s, Land(i))
    ensures Inv(Do(s, Land(i)))
  {
    hide Ruled, Validated, ApplyPatch, MayEdit, Overlay;
    var t, table := Do(s, Land(i)), s.late[i].table;
    forall v | v in t.writers
      ensures WriterOk(t, v, t.writers[v])
    {
      assert WriterOk(s, v, s.writers[v]);
    }
    forall k | k in t.locks
      ensures Held(t, k, t.locks[k])
    {
      assert Held(s, k, s.locks[k]);
    }
    forall j | 0 <= j < |t.late|
      ensures t.late[j] == s.late[if j < i then j else j + 1]
    {
    }
    assert RecordsOk(t.commits, t.comments, t.late);
  }

  /** The three ways a commit request ends for its writer. */
  ghost predicate AfterPost(x: Writer, y: Writer, applied: bool)
    requires x.Committing?
  {
    || (applied && y == Reloading(x.table, x.request, x.loaded))
    || y == x.(tries := x.tries + 1)
    || y == Ended
  }

  lemma PostFrame(s: State, t: State, w: nat, x: Writer, y: Writer, applied: bool)
    requires Inv(s) && w in s.writers && s.writers[w] == x && x.Committing? && x.table in s.tables
    requires AfterPost(x, y, applied) && t.writers == s.writers[w := y]
    requires t.locks == if y.Ended? then s.locks - {LockKey(x.table)} else s.locks
    requires t.comments == s.comments
    requires t.tables == if applied then s.tables[x.table := ApplyPatch(s.tables[x.table], x.patch)] else s.tables
    requires t.disturbed == s.disturbed
    requires t.commits ==
      if applied then s.commits + [Commit(x.who, x.request, x.loaded, s.tables[x.table], x.patch, w !in s.disturbed)] else s.commits
    requires t.late == if applied then s.late else s.late + [Late(x.table, x.who, x.request, x.loaded, x.patch)]
    ensures Inv(t)
  {
    hide Diff, ViewOf, Overlay, MayEdit, ClaimAllowed, Validated, TextOf;
    assert WriterOk(s, w, x);
    if w !in s.disturbed {
      PostLands(x, s.tables[x.table]);
    }
    assert WriterOk(t, w, y);
    assert RecordsOk(t.commits, t.comments, t.late);
    assert !y.Ended? ==> t.locks == s.locks[LockKey(x.table) := w];
    WriterStep(s, t, w, x.table, y);
  }

  lemma PostKeeps(s: State, w: nat, fate: Fate)
    requires Inv(s) && Enabled(s, Post(w, fate))
    ensures Inv(Do(s, Post(w, fate)))
  {
    hide Ruled, Diff, ViewOf, ApplyPatch, Validated, RecordsOk;
    var t := Do(s, Post(w, fate));
    PostFrame(s, t, w, s.writers[w], t.writers[w], fate.status.Success? || fate.applied);
  }

  lemma FinishedRecords(s: State, step: Step)
    requires Inv(s) && Enabled(s, step) && (step.RunStatement? || step.Decline? || step.Reload?)
    ensures var t := Do(s, step); RecordsOk(t.commits, t.comments, t.late)
  {
    assert WriterOk(s, step.w, s.writers[step.w]);
    hide Ruled, CommitOk;
  }

  lemma FinishKeeps(s: State, step: Step)
    requires Inv(s) && Enabled(s, step) && (step.RunStatement? || step.Decline? || step.Reload?)
    ensures Inv(Do(s, step))
  {
    var w := step.w;
    var x, t := s.writers[w], Do(s, step);
    assert WriterOk(s, w, x);
    hide Ruled, Diff, Overlay, RecordsOk;
    if step.Reload? && w !in s.disturbed {
      PatchMeansOverlay(x.loaded, x.request);
    }
    FinishedRecords(s, step);
    hide Inv;
    WriterStep(s, t, w, x.table, t.writers[w]);
  }

  /** Every step of every interleaving keeps the invariant. */
  lemma StepKeeps(s: State, step: Step)
    requires Inv(s) && Enabled(s, step)
    ensures Inv(Do(s, step))
  {
    match step
    case Begin(_, _, _, _) => BeginKeeps(s, step);
    case Acquire(w) => AcquireKeeps(s, w);
    case Load(w) => LoadKeeps(s, w);
    case Post(w, fate) => PostKeeps(s, w, fate);
    case RunStatement(_) => FinishKeeps(s, step);
    case Decline(_) => FinishKeeps(s, step);
    case Reload(_) => FinishKeeps(s, step);
    case Land(i) => LandKeeps(s, i);
  }

  // ----- whole runs -----

  ghost function Next(s: State, step: Step): Option<State> {
    if Enabled(s, step) then Some(Do(s, step)) else None
  }

  /** Any tables, no writers yet. */
  ghost function Initial(tables: map<TableId, Properties>): State {
    State(tables, map[], map[], [], [], [], {})
  }

  ghost predicate Reachable(s: State) {
    exists tables, steps :: Run(Next, Initial(tables), steps) == Some(s)
  }

  lemma EveryStepKeeps()
    ensures Kept(Next, Inv)
  {
    forall s, step | Inv(s) && Next(s, step).Some? ensures Inv(Next(s, step).value) {
      StepKeeps(s, step);
    }
  }

  lemma ReachableIsSound(s: State)
    requires Reachable(s)
    ensures Inv(s)
  {
    var tables, steps :| Run(Next, Initial(tables), steps) == Some(s);
    EveryStepKeeps();
    RunKeeps(Next, Inv, Initial(tables), steps);
  }

  /** The one commit that a step adds is what it does to the tables. */
  ghost predicate ChangedByCommit(s: State, t: State, table: TableId, c: Commit) {
    && table in s.tables && c.before == s.tables[table]
    && t.tables == s.tables[table := ApplyPatch(c.before, c.patch)] && t.commits == s.commits + [c]
  }

  /** A table changes only by a commit, and a commit is all that a step ever does to the tables. */
  lemma EveryChangeIsACommit(s: State, step: Step)
    requires Enabled(s, step)
    ensures || (Do(s, step).tables == s.tables && Do(s, step).commits == s.commits)
            || exists table, c :: ChangedByCommit(s, Do(s, step), table, c)
  {
    hide ApplyPatch, Diff, ViewOf;
    var t := Do(s, step);
    match step
    case Post(w, fate) =>
      var x := s.writers[w];
      if fate.status.Success? || fate.applied {
        assert ChangedByCommit(s, t, x.table, Commit(x.who, x.request, x.loaded, s.tables[x.table], x.patch, w !in s.disturbed));
      }
    case Land(i) =>
      var l := s.late[i];
      assert ChangedByCommit(s, t, l.table, Commit(l.who, l.request, l.loaded, s.tables[l.table], l.patch, false));
    case Load(w) => assert t.tables == s.tables && t.commits == s.commits;
    case _ =>
  }

  /** Every commit, late or not, was authorised on what its writer loaded. */
  lemma AuthorisedWhenDecided(s: State, i: nat)
    requires Reachable(s) && i < |s.commits|
    ensures var c := s.commits[i];
      c.patch == Diff(ViewOf(c.loaded), c.request) && Authorised(c.who, c.loaded, c.patch)
  {
    ReachableIsSound(s);
    var c := s.commits[i];
    assert CommitOk(c);
    RuleIsAuthority(c.who, c.loaded, c.request);
  }

  /** When a timely commit is authorised as the table stands at that very moment: it lands on the table
      as its writer loaded it, or the writer is an administrator, or the request leaves them in charge. */
  lemma AuthorisedExactly(s: State, i: nat)
    requires Reachable(s) && i < |s.commits| && s.commits[i].timely
    ensures var c := s.commits[i];
      Authorised(c.who, c.before, c.patch) <==> c.before == c.loaded || c.who.isAdmin || StaysInCharge(c.who, c.request)
  {
    ReachableIsSound(s);
    var c := s.commits[i];
    assert CommitOk(c);
    if c.before == c.loaded {
      RuleIsAuthority(c.who, c.loaded, c.request);
    } else {
      RepostAuthorisedExactly(c.who, c.loaded, c.request);
    }
  }

  /** So every timely commit that changes a table is authorised; an unauthorised one finds its work done. */
  lemma AuthorisedAtCommitTime(s: State, i: nat)
    requires Reachable(s) && i < |s.commits| && s.commits[i].timely
    ensures var c := s.commits[i];
      Authorised(c.who, c.before, c.patch) || (c.before == ApplyPatch(c.loaded, c.patch) && ApplyPatch(c.before, c.patch) == c.before)
  {
    AuthorisedExactly(s, i);
    var c := s.commits[i];
    ReachableIsSound(s);
    assert CommitOk(c);
    PatchIdempotent(c.loaded, c.patch);
  }

  /** Column statements of a non-administrator reach only ownerless tables and those of their groups. */
  lemma CommentsAreAllowed(s: State, i: nat)
    requires Reachable(s) && i < |s.comments| && s.comments[i].timely
    ensures MayEdit(s.comments[i].who, s.comments[i].owner)
  {
    ReachableIsSound(s);
    assert CommentOk(s.comments[i]);
  }

  /** A finished write answers with the loaded documentation overlaid by its request: nobody else's
      write came between, and none was lost. */
  lemma AnswerIsTheOverlay(s: State, w: nat)
    requires Reachable(s) && w in s.writers && s.writers[w].Done? && s.writers[w].timely
    ensures s.writers[w].answer == Overlay(s.writers[w].before, s.writers[w].request)
  {
    ReachableIsSound(s);
    assert WriterOk(s, w, s.writers[w]);
  }

  /** Two writers are never inside the lock of the same table. */
  lemma OneWriterPerTable(s: State, v: nat, w: nat)
    requires Reachable(s) && v in s.writers && w in s.writers
    requires HoldsLock(s.writers[v]) && HoldsLock(s.writers[w]) && s.writers[v].table == s.writers[w].table
    ensures v == w
  {
    ReachableIsSound(s);
    assert WriterOk(s, v, s.writers[v]) && WriterOk(s, w, s.writers[w]);
  }

  // ----- the runs that show the limits -----

  function Started(w: nat, table: TableId, who: Person, request: Request): seq<Step> {
    [Begin(w, table, who, DocWrite(request)), Acquire(w), Load(w)]
  }

  /** Where a write stands that has taken the lock and passed the rule, with something to change. */
  function AtCommit(s: State, w: nat, table: TableId, who: Person, request: Request): State
    requires table in s.tables
  {
    var loaded := s.tables[table];
    With(s.(locks := s.locks[LockKey(table) := w]), w,
         Committing(table, who, request, loaded, Diff(ViewOf(loaded), request), 0))
  }

  lemma ReachesCommit(s: State, w: nat, table: TableId, who: Person, request: Request)
    requires w !in s.writers && LockKey(table) !in s.locks && table in s.tables && Validated(request)
    requires MayEdit(who, TextOf(s.tables[table], OWNER)) && ClaimAllowed(who, TextOf(s.tables[table], OWNER), request.owner)
    requires Diff(ViewOf(s.tables[table]), request).changed != []
    ensures Run(Next, s, Started(w, table, who, request)) == Some(AtCommit(s, w, table, who, request))
  {
    hide Diff, ViewOf, Validated, MayEdit, ClaimAllowed;
    var steps := Started(w, table, who, request);
    var s1 := Do(s, steps[0]);
    var s2 := Do(s1, steps[1]);
    var s3 := Do(s2, steps[2]);
    assert s3.writers == s.writers[w := s3.writers[w]];
    RunStep(Next, s, steps);
    RunStep(Next, s1, steps[1..]);
    RunStep(Next, s2, steps[2..]);
    assert steps[3..] == [];
  }

  function Confirmed(w: nat): seq<Step> {
    [Post(w, Fate(Success, true)), Reload(w)]
  }

  /** What one write with nothing in its way does: the authorised patch is on the table, the answer is the loaded
      documentation overlaid by the request, the lock is free again, and nothing else has changed. */
  lemma DocWriteGoesThrough(s: State, w: nat, table: TableId, who: Person, request: Request)
    requires w !in s.writers && w !in s.disturbed && LockKey(table) !in s.locks && table in s.tables && Validated(request)
    requires var p := Diff(ViewOf(s.tables[table]), request); Authorised(who, s.tables[table], p) && p.changed != []
    ensures var loaded := s.tables[table];
      var p := Diff(ViewOf(loaded), request);
      Run(Next, s, Started(w, table, who, request) + Confirmed(w))
        == Some(s.(tables := s.tables[table := ApplyPatch(loaded, p)],
                   writers := s.writers[w := Done(Overlay(ViewOf(loaded), request), request, ViewOf(loaded), true)],
                   commits := s.commits + [Commit(who, request, loaded, loaded, p, true)]))
  {
    var loaded := s.tables[table];
    RuleIsAuthority(who, loaded, request);
    ReachesCommit(s, w, table, who, request);
    PatchMeansOverlay(loaded, request);
    hide Diff, ViewOf, ApplyPatch, Authorised, Overlay;
    hide Next, Run, Started, Confirmed, LockKey;
    var t := AtCommit(s, w, table, who, request);
    ConfirmedRun(t, w, table, who, request, loaded);
    RunConcat(Next, s, Started(w, table, who, request), Confirmed(w));
    assert t.locks - {LockKey(table)} == s.locks;
    Overwritten(s, w, t.writers[w], Done(Overlay(ViewOf(loaded), request), request, ViewOf(loaded), true));
  }

  lemma Overwritten(s: State, w: nat, x: Writer, y: Writer)
    ensures s.writers[w := x][w := y] == s.writers[w := y]
  {
  }

  lemma ConfirmedRun(s: State, w: nat, table: TableId, who: Person, request: Request, loaded: Properties)
    requires w in s.writers && w !in s.disturbed && table in s.tables && s.tables[table] == loaded
    requires s.writers[w] == Committing(table, who, request, loaded, Diff(ViewOf(loaded), request), 0)
    ensures var p := Diff(ViewOf(loaded), request);
      Run(Next, s, Confirmed(w))
        == Some(s.(tables := s.tables[table := ApplyPatch(loaded, p)], locks := s.locks - {LockKey(table)},
                   writers := s.writers[w := Done(ViewOf(ApplyPatch(loaded, p)), request, ViewOf(loaded), true)],
                   commits := s.commits + [Commit(who, request, loaded, loaded, p, true)]))
  {
    hide Diff, ViewOf, ApplyPatch;
    var steps := Confirmed(w);
    var s1 := Do(s, steps[0]);
    var s2 := Do(s1, steps[1]);
    assert s2.writers == s.writers[w := s2.writers[w]];
    RunStep(Next, s, steps);
    RunStep(Next, s1, steps[1..]);
    assert steps[2..] == [];
  }

  /** A write that is not authorised, or has nothing to change, ends inside the lock without a commit. */
  lemma DocWriteEndsEarly(s: State, w: nat, table: TableId, who: Person, request: Request)
    requires w !in s.writers && LockKey(table) !in s.locks && table in s.tables && Validated(request)
    ensures var loaded := s.tables[table];
      var p := Diff(ViewOf(loaded), request);
      var run := Run(Next, s, Started(w, table, who, request));
      && (!Authorised(who, loaded, p) ==> run == Some(With(s, w, Ended)))
      && (Authorised(who, loaded, p) && p.changed == [] ==>
            run == Some(With(s, w, Done(ViewOf(loaded), request, ViewOf(loaded), true))))
  {
    var loaded := s.tables[table];
    RuleIsAuthority(who, loaded, request);
    LoadRun(s, w, table, who, DocWrite(request));
    hide Diff, ViewOf, Authorised, MayEdit, ClaimAllowed, Next, Run, LockKey;
    var x := Loading(table, who, DocWrite(request));
    Overwritten(s, w, x, Ended);
    Overwritten(s, w, x, Done(ViewOf(loaded), request, ViewOf(loaded), true));
  }

  /** Up to the load: the writer has the lock, and what the load makes of it is the rest. */
  lemma LoadRun(s: State, w: nat, table: TableId, who: Person, kind: Kind)
    requires w !in s.writers && LockKey(table) !in s.locks && table in s.tables && (kind.DocWrite? ==> Validated(kind.request))
    ensures var t := s.(writers := s.writers[w := Loading(table, who, kind)], locks := s.locks[LockKey(table) := w]);
      Run(Next, s, [Begin(w, table, who, kind), Acquire(w), Load(w)]) == Some(DoLoad(t, w, t.writers[w]))
    ensures s.locks[LockKey(table) := w] - {LockKey(table)} == s.locks
  {
    hide DoLoad;
    var steps := [Begin(w, table, who, kind), Acquire(w), Load(w)];
    var s1 := Do(s, steps[0]);
    var s2 := Do(s1, steps[1]);
    assert s2.writers == s.writers[w := Loading(table, who, kind)];
    RunStep(Next, s, steps);
    RunStep(Next, s1, steps[1..]);
    RunStep(Next, s2, steps[2..]);
    assert steps[3..] == [];
  }

  lemma ColumnLoadRun(s: State, w: nat, table: TableId, who: Person)
    requires w !in s.writers && LockKey(table) !in s.locks && table in s.tables
    ensures Run(Next, s, [Begin(w, table, who, ColumnWrite), Acquire(w), Load(w)])
         == Some(if MayEdit(who, TextOf(s.tables[table], OWNER))
                 then With(s, w, Commenting(table, who)).(locks := s.locks[LockKey(table) := w])
                 else With(s, w, Ended))
  {
    LoadRun(s, w, table, who, ColumnWrite);
    hide Next, Run, LockKey, MayEdit, TextOf;
    var x := Loading(table, who, ColumnWrite);
    Overwritten(s, w, x, Ended);
    Overwritten(s, w, x, Commenting(table, who));
  }

  lemma StatementRun(s: State, w: nat, table: TableId, who: Person)
    requires w in s.writers && s.writers[w] == Commenting(table, who) && table in s.tables
    ensures Run(Next, s, [RunStatement(w)])
         == Some(With(s, w, Ended).(locks := s.locks - {LockKey(table)},
                                    comments := s.comments + [Comment(who, TextOf(s.tables[table], OWNER), w !in s.disturbed)]))
  {
    hide TextOf, LockKey;
    RunStep(Next, s, [RunStatement(w)]);
    assert [RunStatement(w)][1..] == [];
  }

  /** A column write runs its statement exactly for administrators, on tables without an owner, and for those in
      the owner group; it changes no property and leaves the lock free. */
  lemma ColumnWriteExactly(s: State, w: nat, table: TableId, who: Person)
    requires w !in s.writers && LockKey(table) !in s.locks && table in s.tables
    ensures var owner := TextOf(s.tables[table], OWNER);
      var begun := [Begin(w, table, who, ColumnWrite), Acquire(w), Load(w)];
      if who.isAdmin || owner.None? || owner.value in who.groups || "/" + owner.value in who.groups then
        Run(Next, s, begun + [RunStatement(w)])
          == Some(With(s, w, Ended).(comments := s.comments + [Comment(who, owner, w !in s.disturbed)]))
      else
        Run(Next, s, begun) == Some(With(s, w, Ended))
  {
    var owner := TextOf(s.tables[table], OWNER);
    var begun := [Begin(w, table, who, ColumnWrite), Acquire(w), Load(w)];
    if owner.Some? {
      InGroupExactly(who.groups, owner.value);
    }
    ColumnLoadRun(s, w, table, who);
    hide Next, Run, LockKey, TextOf, InGroup;
    if MayEdit(who, owner) {
      var t := Run(Next, s, begun).value;
      StatementRun(t, w, table, who);
      RunConcat(Next, s, begun, [RunStatement(w)]);
      Overwritten(s, w, t.writers[w], Ended);
      assert t.locks - {LockKey(table)} == s.locks;
    }
  }

  /** The third contended answer is the last one: the writer gives up and the lock is free. */
  lemma ThirdContentionEnds(s: State, w: nat, table: TableId, who: Person, request: Request, a: bool, b: bool, c: bool)
    requires w !in s.writers && LockKey(table) !in s.locks && table in s.tables && Validated(request)
    requires var p := Diff(ViewOf(s.tables[table]), request); Authorised(who, s.tables[table], p) && p.changed != []
    ensures var run := Run(Next, s, Started(w, table, who, request)
                                    + [Post(w, Fate(Contended, a)), Post(w, Fate(Contended, b)), Post(w, Fate(Contended, c))]);
      run.Some? && run.value.writers == s.writers[w := Ended] && run.value.locks == s.locks
  {
    RuleIsAuthority(who, s.tables[table], request);
    ReachesCommit(s, w, table, who, request);
    hide Diff, ViewOf, ApplyPatch, Authorised;
    var posts := [Post(w, Fate(Contended, a)), Post(w, Fate(Contended, b)), Post(w, Fate(Contended, c))];
    var s3 := AtCommit(s, w, table, who, request);
    ContendedRun(s3, w, table, posts);
    RunConcat(Next, s, Started(w, table, who, request), posts);
    assert s3.locks - {LockKey(table)} == s.locks;
    assert s3.writers[w := Ended] == s.writers[w := Ended];
  }

  lemma ContendedRun(s: State, w: nat, table: TableId, posts: seq<Step>)
    requires w in s.writers && table in s.tables && s.writers[w].Committing? && s.writers[w].table == table && s.writers[w].tries == 0
    requires |posts| == 3 && forall i :: 0 <= i < 3 ==> posts[i].Post? && posts[i].w == w && posts[i].fate.status.Contended?
    ensures Run(Next, s, posts).Some?
    ensures var t := Run(Next, s, posts).value; t.writers == s.writers[w := Ended] && t.locks == s.locks - {LockKey(table)}
  {
    hide ApplyPatch;
    var s1 := Do(s, posts[0]);
    assert s1.writers == s.writers[w := s.writers[w].(tries := 1)] && s1.locks == s.locks;
    var s2 := Do(s1, posts[1]);
    assert s2.writers == s.writers[w := s.writers[w].(tries := 2)] && s2.locks == s.locks;
    var s3 := Do(s2, posts[2]);
    assert s3.writers == s.writers[w := Ended];
    RunStep(Next, s, posts);
    RunStep(Next, s1, posts[1..]);
    RunStep(Next, s2, posts[2..]);
    assert posts[3..] == [];
  }

  /** A hand-over or a removal of the owner, posted twice: the first request takes effect and is answered as
      contended, the second lands on a table that is no longer the writer's. */
  function PostedTwice(w: nat, table: TableId, who: Person, request: Request): seq<Step> {
    Started(w, table, who, request) + [Post(w, Fate(Contended, true)), Post(w, Fate(Contended, true))]
  }

  ghost predicate GivesAway(mine: string, next: Option<string>) {
    next == None || (next.Some? && next.value != mine && Connections.GroupOk(next.value) && !InGroup([mine], next.value))
  }

  /** A writer who gives their own table away in this manner makes, with the second request, an unauthorised
      commit that changes nothing: for a new owner and for none. */
  lemma RepostedGiveAway(w: nat, table: TableId, mine: string, next: Option<string>)
    requires GivesAway(mine, next)
    ensures var who, before := Person([mine], false), map[OWNER := Plain(mine)];
      var request := Request(None, None, Some(next), None);
      var run := Run(Next, Initial(map[table := before]), PostedTwice(w, table, who, request));
      && run.Some? && |run.value.commits| == 2
      && Authorised(who, run.value.commits[0].before, run.value.commits[0].patch)
      && !Authorised(who, run.value.commits[1].before, run.value.commits[1].patch)
      && ApplyPatch(run.value.commits[1].before, run.value.commits[1].patch) == run.value.commits[1].before
  {
    var who, before := Person([mine], false), map[OWNER := Plain(mine)];
    var request := Request(None, None, Some(next), None);
    var posts, s0 := [Post(w, Fate(Contended, true)), Post(w, Fate(Contended, true))], Initial(map[table := before]);
    GiveAwayPatch(mine, next);
    var p := Diff(ViewOf(before), request);
    ReachesCommit(s0, w, table, who, request);
    hide Diff, ViewOf, ApplyPatch, Authorised;
    var s3 := AtCommit(s0, w, table, who, request);
    RunConcat(Next, s0, Started(w, table, who, request), posts);
    var s4 := Do(s3, posts[0]);
    assert s4.writers[w] == Committing(table, who, request, before, p, 1);
    var s5 := Do(s4, posts[1]);
    assert s5.commits == [Commit(who, request, before, before, p, true),
                          Commit(who, request, before, ApplyPatch(before, p), p, true)];
    RunStep(Next, s3, posts);
    RunStep(Next, s4, posts[1..]);
    assert posts[2..] == [];
  }

  lemma GiveAwayPatch(mine: string, next: Option<string>)
    requires GivesAway(mine, next)
    ensures var who, before := Person([mine], false), map[OWNER := Plain(mine)];
      var request := Request(None, None, Some(next), None);
      var p := Diff(ViewOf(before), request);
      && Validated(request) && p.changed != []
      && MayEdit(who, TextOf(before, OWNER)) && ClaimAllowed(who, TextOf(before, OWNER), request.owner)
      && Authorised(who, before, p) && !Authorised(who, ApplyPatch(before, p), p)
      && ApplyPatch(ApplyPatch(before, p), p) == ApplyPatch(before, p)
  {
    var who, before := Person([mine], false), map[OWNER := Plain(mine)];
    var request := Request(None, None, Some(next), None);
    var p := Diff(ViewOf(before), request);
    assert Acceptable(request) && request == Normalised(request);
    assert who.groups[0] == mine;
    DiffEffects(ViewOf(before), request);
    AppliedText(before, p, OWNER);
    RuleIsAuthority(who, before, request);
    RepostAuthorisedExactly(who, before, request);
    PatchIdempotent(before, p);
    ChangedNamesTheEffects(ViewOf(before), request);
  }

  /** A column write on a table without an owner goes through for anybody, of whatever groups, and claims
      nothing: the table has no owner afterwards either. */
  lemma ColumnWriteClaimsNothing(w: nat, table: TableId, props: Properties, who: Person)
    requires TextOf(props, OWNER).None?
    ensures var steps := [Begin(w, table, who, ColumnWrite), Acquire(w), Load(w), RunStatement(w)];
      var run := Run(Next, Initial(map[table := props]), steps);
      && run.Some? && run.value.comments == [Comment(who, None, true)] && run.value.tables == map[table := props]
  {
    var steps, s0 := [Begin(w, table, who, ColumnWrite), Acquire(w), Load(w), RunStatement(w)], Initial(map[table := props]);
    var s1 := Do(s0, steps[0]);
    var s2 := Do(s1, steps[1]);
    var s3 := Do(s2, steps[2]);
    assert s3.writers[w] == Commenting(table, who);
    RunStep(Next, s0, steps);
    RunStep(Next, s1, steps[1..]);
    RunStep(Next, s2, steps[2..]);
    RunStep(Next, s3, steps[3..]);
    assert steps[4..] == [];
  }

  // ----- a late commit -----

  /** A member of the owner group describes the table and gets no answer; an administrator hands the table to
      another group; then the first commit lands. */
  function GivenUp(table: TableId, who: Person, request: Request): seq<Step> {
    Started(0, table, who, request) + [Post(0, Fate(NoAnswer, false))]
  }

  function HandedOver(table: TableId, admin: Person, request: Request): seq<Step> {
    Started(1, table, admin, request) + [Post(1, Fate(Success, true))]
  }

  ghost predicate OtherGroup(mine: string, theirs: string) {
    mine != theirs && !InGroup([mine], theirs) && Connections.GroupOk(theirs)
  }

  function Describes(text: string): Request {
    Request(Some(Some(text)), None, None, None)
  }

  function HandsOver(theirs: string): Request {
    Request(None, None, Some(Some(theirs)), None)
  }

  lemma GivenUpRun(table: TableId, mine: string, text: string)
    requires Validated(Describes(text))
    ensures var who, before := Person([mine], false), map[OWNER := Plain(mine)];
      var p := Diff(ViewOf(before), Describes(text));
      Run(Next, Initial(map[table := before]), GivenUp(table, who, Describes(text)))
        == Some(State(map[table := before], map[], map[0 := Ended], [], [], [Late(table, who, Describes(text), before, p)], {}))
  {
    var who, before := Person([mine], false), map[OWNER := Plain(mine)];
    var p := Diff(ViewOf(before), Describes(text));
    var posts, s0 := [Post(0, Fate(NoAnswer, false))], Initial(map[table := before]);
    assert who.groups[0] == mine;
    ChangedNamesTheEffects(ViewOf(before), Describes(text));
    assert TextOf(before, COMMENT) == None by {
      KeysDiffer();
    }
    ReachesCommit(s0, 0, table, who, Describes(text));
    hide Diff, ViewOf;
    var s3 := AtCommit(s0, 0, table, who, Describes(text));
    RunConcat(Next, s0, Started(0, table, who, Describes(text)), posts);
    var s4 := Do(s3, posts[0]);
    assert s4.locks == map[] && s4.writers == map[0 := Ended] && s4.tables == map[table := before];
    assert s4.late == [Late(table, who, Describes(text), before, p)] && s4.commits == [] && s4.comments == [];
    RunStep(Next, s3, posts);
    assert posts[1..] == [];
  }

  lemma HandedOverRun(s: State, table: TableId, mine: string, theirs: string)
    requires OtherGroup(mine, theirs)
    requires s.tables == map[table := map[OWNER := Plain(mine)]] && s.locks == map[] && s.writers == map[0 := Ended]
    requires s.disturbed == {}
    ensures Run(Next, s, HandedOver(table, Person([], true), HandsOver(theirs))).Some?
    ensures var t := Run(Next, s, HandedOver(table, Person([], true), HandsOver(theirs))).value;
      t.tables == map[table := map[OWNER := Plain(theirs)]] && t.late == s.late && |t.commits| == |s.commits| + 1
  {
    var admin, before, request := Person([], true), map[OWNER := Plain(mine)], HandsOver(theirs);
    var posts, p := [Post(1, Fate(Success, true))], Diff(ViewOf(before), request);
    assert Acceptable(request) && request == Normalised(request);
    ChangedNamesTheEffects(ViewOf(before), request);
    HandedOverPatch(mine, theirs);
    ReachesCommit(s, 1, table, admin, request);
    hide Diff, ViewOf, ApplyPatch;
    var s3 := AtCommit(s, 1, table, admin, request);
    RunConcat(Next, s, Started(1, table, admin, request), posts);
    var s4 := Do(s3, posts[0]);
    assert s4.tables == map[table := ApplyPatch(before, p)];
    RunStep(Next, s3, posts);
    assert posts[1..] == [];
  }

  lemma HandedOverPatch(mine: string, theirs: string)
    requires mine != theirs
    ensures var before := map[OWNER := Plain(mine)];
      ApplyPatch(before, Diff(ViewOf(before), HandsOver(theirs))) == map[OWNER := Plain(theirs)]
  {
    var before := map[OWNER := Plain(mine)];
    assert Diff(ViewOf(before), HandsOver(theirs)) == Patch(map[OWNER := theirs], [], ["owner"]);
  }

  /** So a commit that lands after its writer has given up can change a table that the writer may no longer
      edit: for every two groups and every text. */
  lemma LateCommitIsUnauthorised(table: TableId, mine: string, theirs: string, text: string)
    requires OtherGroup(mine, theirs) && Validated(Describes(text))
    ensures var who, before := Person([mine], false), map[OWNER := Plain(mine)];
      var steps := GivenUp(table, who, Describes(text)) + HandedOver(table, Person([], true), HandsOver(theirs)) + [Land(0)];
      var run := Run(Next, Initial(map[table := before]), steps);
      && run.Some? && |run.value.commits| == 2
      && var c := run.value.commits[1];
      c.who == who && !c.timely && !Authorised(c.who, c.before, c.patch) && ApplyPatch(c.before, c.patch) != c.before
  {
    var who, admin, before := Person([mine], false), Person([], true), map[OWNER := Plain(mine)];
    var s0, first, second := Initial(map[table := before]), GivenUp(table, who, Describes(text)), HandedOver(table, admin, HandsOver(theirs));
    hide GivenUp, HandedOver, Diff, ViewOf, Authorised, ApplyPatch;
    GivenUpRun(table, mine, text);
    var s1 := Run(Next, s0, first).value;
    HandedOverRun(s1, table, mine, theirs);
    var s2 := Run(Next, s1, second).value;
    RunConcat(Next, s0, first, second);
    RunConcat(Next, s0, first + second, [Land(0)]);
    LandsLate(s2, Late(table, who, Describes(text), before, Diff(ViewOf(before), Describes(text))), map[OWNER := Plain(theirs)]);
    LateEffect(mine, theirs, text);
  }

  lemma LandsLate(s: State, l: Late, props: Properties)
    requires s.late == [l] && s.tables == map[l.table := props]
    ensures Run(Next, s, [Land(0)]).Some?
    ensures Run(Next, s, [Land(0)]).value.commits == s.commits + [Commit(l.who, l.request, l.loaded, props, l.patch, false)]
  {
    var steps := [Land(0)];
    RunStep(Next, s, steps);
    assert steps[1..] == [];
  }

  lemma LateEffect(mine: string, theirs: string, text: string)
    requires OtherGroup(mine, theirs)
    ensures var who, before, after := Person([mine], false), map[OWNER := Plain(mine)], map[OWNER := Plain(theirs)];
      var p := Diff(ViewOf(before), Describes(text));
      !Authorised(who, after, p) && ApplyPatch(after, p) != after
  {
    KeysDiffer();
    var before, after := map[OWNER := Plain(mine)], map[OWNER := Plain(theirs)];
    assert TextOf(before, COMMENT) == None;
    var p := Diff(ViewOf(before), Describes(text));
    assert p == Patch(map[COMMENT := text], [], ["description"]);
    assert COMMENT in ApplyPatch(after, p);
  }
}
