/**
 * Browse sessions (`BrowseSessionManager`, src/browse/session.ts): one record per session key, a promise
 * chain of tasks per record, lazy launch, the page table, close, idle sweep and dispose. A step is what
 * runs between two awaits; the environment chooses launch and page outcomes, cancellation and the clock.
 */
module Session {
  import opened BenchTypes
  import opened Sorting

  const MAIN := "main"

  /** A page name as the caller gave it: none, invalid, or normalised. */
  datatype PageArg = Default | Bad | Page(name: string)

  datatype Op =
    | Use(page: PageArg, operate: bool)  // run (operate) and ensure
    | Open(page: PageArg)
    | Select(page: PageArg)
    | ClosePage(page: PageArg)
    | Pages
    | Info                               // answers for a closed record too
    | CloseSession
    | Sweep
    | Dispose

  datatype Stage =
    | Waiting
    | Launching
    | Creating(name: string)
    | Operating(name: string)
    | Answering    // nothing left to change: a page driver closes, tab titles are read
    | ClosingPages
    | ClosingDriver
    | Settled(ok: bool)

  /** A task of the chain: it starts when the promise it was chained to has settled. */
  datatype Task = Task(op: Op, after: Option<nat>, stage: Stage)

  datatype Record = Record(
    key: string,
    driver: bool,
    pages: seq<string>,
    active: Option<string>,
    closed: bool,
    closer: Option<nat>,  // history: the task that closed it
    lastUsed: int,
    tasks: seq<Task>,
    tail: Option<nat>)

  datatype Input =
    | Begin(cancelled: bool, now: int, available: bool)
    | Launched(ok: bool, cancelledSince: bool)
    | Created(ok: bool)
    | Operated(pageClosed: bool)
    | Answered
    | PagesClosed
    | DriverClosed

  datatype Limits = Limits(maxPages: nat, idleTtlMs: int)

  function NewRecord(key: string, now: int): Record { Record(key, false, [], None, false, None, now, [], None) }

  /** `record.tail = record.tail.then(task)`: a rejected task settles the chain like any other. */
  function Enqueue(r: Record, op: Op): Record {
    r.(tasks := r.tasks + [Task(op, r.tail, Waiting)], tail := Some(|r.tasks|))
  }

  predicate MayBegin(r: Record, t: nat)
    requires t < |r.tasks|
  {
    && r.tasks[t].stage.Waiting?
    && (r.tasks[t].after.Some? ==> r.tasks[t].after.value < |r.tasks| && r.tasks[r.tasks[t].after.value].stage.Settled?)
  }

  function At(r: Record, t: nat, stage: Stage): Record
    requires t < |r.tasks|
  {
    r.(tasks := r.tasks[t := r.tasks[t].(stage := stage)])
  }

  function Without(pages: seq<string>, name: string): seq<string> {
    if pages == [] then []
    else
      var rest := Without(pages[..|pages| - 1], name);
      if pages[|pages| - 1] == name then rest else rest + [pages[|pages| - 1]]
  }

  /** The page that becomes active when the active one goes. */
  function Fallback(pages: seq<string>): Option<string> {
    if MAIN in pages then Some(MAIN) else if pages == [] then None else Some(pages[0])
  }

  function Forget(r: Record, name: string): Record {
    var rest := Without(r.pages, name);
    r.(pages := rest, active := if r.active == Some(name) then Fallback(rest) else r.active)
  }

  /** Resolving the page an operation binds to, once the driver runs. */
  function EnsurePage(r: Record, t: nat, page: PageArg, operate: bool, limits: Limits): Record
    requires t < |r.tasks|
  {
    var named := page.Page? && page.name in r.pages;
    var current := page.Default? && r.active.Some? && r.active.value in r.pages;
    var fallback := page.Default? && !current && MAIN in r.pages;
    var bound := if named then page.name else if current then r.active.value else MAIN;
    var binds := named || current || fallback;
    var creates := page.Default? && !binds && |r.pages| < limits.maxPages;
    At(r.(active := if binds then Some(bound) else r.active), t,
       if binds then (if operate then Operating(bound) else Answering) else if creates then Creating(MAIN) else Settled(false))
  }

  function OpenPage(r: Record, t: nat, page: PageArg, limits: Limits): Record
    requires t < |r.tasks|
  {
    var creates := page.Page? && page.name !in r.pages && |r.pages| < limits.maxPages;
    At(r, t, if creates then Creating(page.name) else Settled(false))
  }

  function WithDriver(r: Record, t: nat, cancelled: bool, limits: Limits): Record
    requires t < |r.tasks|
  {
    var op := r.tasks[t].op;
    if cancelled then At(r, t, Settled(false))
    else if op.Use? then EnsurePage(r, t, op.page, op.operate, limits)
    else if op.Open? then OpenPage(r, t, op.page, limits)
    else r
  }

  /** `closeRecord` up to its first await. */
  function CloseRecord(r: Record, t: nat): Record
    requires t < |r.tasks|
  {
    At(r.(closed := true, closer := if r.closed then r.closer else Some(t)), t, if r.closed then Settled(true) else ClosingPages)
  }

  function SelectPage(r: Record, t: nat, page: PageArg): Record
    requires t < |r.tasks|
  {
    var found := page.Page? && page.name in r.pages;
    At(r.(active := if found then Some(page.name) else r.active), t, if found then Answering else Settled(false))
  }

  function RemovePage(r: Record, t: nat, page: PageArg): Record
    requires t < |r.tasks|
  {
    var name := if page.Page? then page.name else if page.Default? && r.active.Some? then r.active.value else MAIN;
    if !page.Bad? && name in r.pages then At(Forget(r, name), t, Answering)
    else At(r, t, if page.Default? && r.pages == [] then Answering else Settled(false))
  }

  predicate NeedsOpen(op: Op) { op.Use? || op.Open? || op.Select? || op.ClosePage? || op.Pages? }

  predicate Uncancellable(op: Op) { op.Sweep? || op.Dispose? }

  /** A task starts: cancellation, the closed check, `touch`, and the work up to its first await. */
  function OnBegin(r: Record, t: nat, cancelled: bool, now: int, available: bool, limits: Limits): Record
    requires t < |r.tasks|
  {
    var op := r.tasks[t].op;
    if !MayBegin(r, t) then r
    else if (cancelled && !Uncancellable(op)) || (NeedsOpen(op) && r.closed) then At(r, t, Settled(false))
    else
      var touched := if op.CloseSession? || Uncancellable(op) then r else r.(lastUsed := now);
      match op
      case Use(_, _) => if r.driver then WithDriver(touched, t, false, limits) else At(touched, t, if available then Launching else Settled(false))
      case Open(_) => if r.driver then WithDriver(touched, t, false, limits) else At(touched, t, if available then Launching else Settled(false))
      case Select(page) => SelectPage(touched, t, page)
      case ClosePage(page) => RemovePage(touched, t, page)
      case Pages => At(touched, t, Answering)
      case Info => At(touched, t, Answering)
      case CloseSession => CloseRecord(r, t)
      case Sweep => if now - r.lastUsed < limits.idleTtlMs then At(r, t, Settled(false)) else CloseRecord(r, t)
      case Dispose => CloseRecord(r, t)
  }

  function OnLaunched(r: Record, t: nat, ok: bool, cancelled: bool, limits: Limits): Record
    requires t < |r.tasks|
  {
    if !r.tasks[t].stage.Launching? then r
    else if !ok then At(r, t, Settled(false))
    else WithDriver(r.(driver := true), t, cancelled, limits)
  }

  function OnCreated(r: Record, t: nat, ok: bool): Record
    requires t < |r.tasks|
  {
    var stage := r.tasks[t].stage;
    if !stage.Creating? then r
    else
      At(r.(pages := if ok then r.pages + [stage.name] else r.pages, active := if ok then Some(stage.name) else r.active), t,
         if ok && r.tasks[t].op.Use? && r.tasks[t].op.operate then Operating(stage.name) else if ok then Answering else Settled(false))
  }

  function OnOperated(r: Record, t: nat, pageClosed: bool): Record
    requires t < |r.tasks|
  {
    var stage := r.tasks[t].stage;
    if !stage.Operating? then r else At(if pageClosed then Forget(r, stage.name) else r, t, Settled(true))
  }

  function OnAnswered(r: Record, t: nat): Record
    requires t < |r.tasks|
  {
    if r.tasks[t].stage.Answering? then At(r, t, Settled(true)) else r
  }

  function OnPagesClosed(r: Record, t: nat): Record
    requires t < |r.tasks|
  {
    if !r.tasks[t].stage.ClosingPages? then r
    else At(r.(pages := [], active := None), t, if r.driver then ClosingDriver else Settled(true))
  }

  function OnDriverClosed(r: Record, t: nat): Record
    requires t < |r.tasks|
  {
    if !r.tasks[t].stage.ClosingDriver? then r else At(r.(driver := false), t, Settled(true))
  }

  function StepTask(r: Record, t: nat, input: Input, limits: Limits): Record
    requires t < |r.tasks|
  {
    match input
    case Begin(cancelled, now, available) => OnBegin(r, t, cancelled, now, available, limits)
    case Launched(ok, cancelled) => OnLaunched(r, t, ok, cancelled, limits)
    case Created(ok) => OnCreated(r, t, ok)
    case Operated(pageClosed) => OnOperated(r, t, pageClosed)
    case Answered => OnAnswered(r, t)
    case PagesClosed => OnPagesClosed(r, t)
    case DriverClosed => OnDriverClosed(r, t)
  }

  // ---------------------------------------------------------------- what one record keeps

  /** At most `maxPages` named pages; the active page names one of them, and is null exactly when there are none. */
  ghost predicate PageTable(r: Record, limits: Limits) {
    && |r.pages| <= limits.maxPages && Distinct(r.pages)
    && (r.active.None? <==> r.pages == [])
    && (r.active.Some? ==> r.active.value in r.pages)
  }

  /** Each task is chained to the one before it. */
  ghost predicate Chained(r: Record) {
    && r.tail == (if r.tasks == [] then None else Some(|r.tasks| - 1))
    && forall t :: 0 <= t < |r.tasks| ==> r.tasks[t].after == if t == 0 then None else Some(t - 1)
  }

  /** One at a time, first in first out: nothing starts before every earlier task has settled. */
  ghost predicate Serial(r: Record) {
    forall t, u :: 0 <= t < u < |r.tasks| && !r.tasks[u].stage.Waiting? ==> r.tasks[t].stage.Settled?
  }

  predicate Closing(s: Stage) { s.ClosingPages? || s.ClosingDriver? }

  /** Ops that only ever settle well by closing the record. */
  predicate Closes(op: Op) { op.CloseSession? || op.Sweep? || op.Dispose? }

  /** An operation works on the page it was asked for, which is the active one; a page is created under the name asked for. */
  predicate OnRightPage(r: Record, op: Op, stage: Stage) {
    && (stage.Operating? ==> r.active == Some(stage.name) && op.Use? && !op.page.Bad? && (op.page.Page? ==> stage.name == op.page.name))
    && (stage.Creating? && op.Use? ==> op.page.Default? && stage.name == MAIN)
    && (stage.Creating? && op.Open? ==> op.page == Page(stage.name))
  }

  ghost predicate TaskSound(r: Record, t: nat, limits: Limits)
    requires t < |r.tasks|
  {
    var stage := r.tasks[t].stage;
    && (stage.Launching? ==> !r.closed && !r.driver && (r.tasks[t].op.Use? || r.tasks[t].op.Open?))
    && (stage.Creating? ==> !r.closed && |r.pages| < limits.maxPages && stage.name !in r.pages && (r.tasks[t].op.Use? || r.tasks[t].op.Open?))
    && (stage.Operating? ==> !r.closed && stage.name in r.pages && r.tasks[t].op.Use?)
    && OnRightPage(r, r.tasks[t].op, stage)
    && (stage.Answering? ==> !Closes(r.tasks[t].op))
    && (Closing(stage) ==> r.closer == Some(t))
    && (stage.ClosingDriver? ==> r.pages == [])
    && (stage == Settled(true) && Closes(r.tasks[t].op) ==> r.closer.Some? && r.closer.value <= t)
    && (stage == Settled(false) ==> !r.tasks[t].op.Dispose?)
  }

  ghost predicate ClosedSound(r: Record) {
    && (r.closed <==> r.closer.Some?)
    && (r.closed ==> r.closer.value < |r.tasks| && !r.tasks[r.closer.value].stage.Waiting?)
    && (r.closed && r.tasks[r.closer.value].stage.Settled? ==> !r.driver && r.pages == [])
    && (r.closed && !r.tasks[r.closer.value].stage.Settled? ==> Closing(r.tasks[r.closer.value].stage))
  }

  ghost predicate RecordSound(r: Record, limits: Limits) {
    && PageTable(r, limits) && Chained(r) && Serial(r) && ClosedSound(r)
    && forall t :: 0 <= t < |r.tasks| ==> TaskSound(r, t, limits)
  }

  lemma {:induction false} WithoutMember(pages: seq<string>, name: string, x: string)
    ensures x in Without(pages, name) <==> x in pages && x != name
    ensures |Without(pages, name)| <= |pages|
  {
    if pages != [] {
      var init, last := pages[..|pages| - 1], pages[|pages| - 1];
      WithoutMember(init, name, x);
      assert pages == init + [last];
      assert x in pages <==> x in init || x == last;
    }
  }

  lemma {:induction false} WithoutDistinct(pages: seq<string>, name: string)
    requires Distinct(pages)
    ensures Distinct(Without(pages, name))
  {
    if pages != [] {
      var init, last := pages[..|pages| - 1], pages[|pages| - 1];
      WithoutDistinct(init, name);
      WithoutMember(init, name, last);
      assert last !in init;
    }
  }

  /** Forgetting a page hands the active role to another page, or to none when it was the last. */
  lemma ForgetSound(r: Record, name: string, limits: Limits)
    requires PageTable(r, limits)
    ensures PageTable(Forget(r, name), limits) && name !in Forget(r, name).pages
  {
    WithoutDistinct(r.pages, name);
    WithoutMember(r.pages, name, name);
    WithoutMember(r.pages, name, MAIN);
    if r.active.Some? { WithoutMember(r.pages, name, r.active.value); }
    if r.active.None? { assert Without(r.pages, name) == []; }
  }

  /** A step that touches one task, which was waiting its turn or already in progress. */
  ghost predicate Moved(r: Record, q: Record, t: nat) {
    && t < |r.tasks| == |q.tasks| && q.tail == r.tail && q.key == r.key
    && (forall u :: 0 <= u < |r.tasks| && u != t ==> q.tasks[u] == r.tasks[u])
    && q.tasks[t].op == r.tasks[t].op && q.tasks[t].after == r.tasks[t].after
    && !r.tasks[t].stage.Settled? && (r.tasks[t].stage.Waiting? ==> MayBegin(r, t)) && !q.tasks[t].stage.Waiting?
    && (r.closer.Some? ==> q.closer == r.closer)
  }

  /** Everything before a task that is in progress, or may begin, has settled. */
  lemma EarlierSettled(r: Record, t: nat)
    requires Chained(r) && Serial(r) && t < |r.tasks|
    requires r.tasks[t].stage.Waiting? ==> MayBegin(r, t)
    ensures forall u :: 0 <= u < t ==> r.tasks[u].stage.Settled?
  {
    forall u | 0 <= u < t ensures r.tasks[u].stage.Settled? {
      assert r.tasks[t].after == Some(t - 1);
      if r.tasks[t].stage.Waiting? && u < t - 1 {
        assert !r.tasks[t - 1].stage.Waiting?;
      }
    }
  }

  lemma LaterWaiting(r: Record, t: nat)
    requires Serial(r) && t < |r.tasks| && !r.tasks[t].stage.Settled?
    ensures forall u :: t < u < |r.tasks| ==> r.tasks[u].stage.Waiting?
  {}

  lemma MovedSerial(r: Record, q: Record, t: nat)
    requires Chained(r) && Serial(r) && Moved(r, q, t)
    ensures Chained(q) && Serial(q)
  {
    EarlierSettled(r, t);
    LaterWaiting(r, t);
  }

  lemma MovedSound(r: Record, q: Record, t: nat, limits: Limits)
    requires RecordSound(r, limits) && Moved(r, q, t)
    requires PageTable(q, limits) && ClosedSound(q) && TaskSound(q, t, limits)
    ensures RecordSound(q, limits)
  {
    MovedSerial(r, q, t);
    EarlierSettled(r, t);
    LaterWaiting(r, t);
    forall u | 0 <= u < |q.tasks| ensures TaskSound(q, u, limits) {
      if u != t { assert TaskSound(r, u, limits); }
    }
  }

  lemma EnqueueSound(r: Record, op: Op, limits: Limits)
    requires RecordSound(r, limits)
    ensures RecordSound(Enqueue(r, op), limits)
  {
    var q := Enqueue(r, op);
    assert forall u :: 0 <= u < |r.tasks| ==> q.tasks[u] == r.tasks[u];
    forall u | 0 <= u < |q.tasks| ensures TaskSound(q, u, limits) {
      if u < |r.tasks| { assert TaskSound(r, u, limits); }
    }
  }

  // ---------------------------------------------------------------- each step keeps it

  lemma EnsurePageSound(r: Record, q: Record, t: nat, page: PageArg, operate: bool, limits: Limits)
    requires RecordSound(r, limits) && t < |r.tasks| && !r.closed && r.tasks[t].op == Use(page, operate)
    requires !r.tasks[t].stage.Settled? && (r.tasks[t].stage.Waiting? ==> MayBegin(r, t))
    requires q.tasks == r.tasks && q.pages == r.pages && q.active == r.active && q.closed == r.closed && q.closer == r.closer
    requires q.tail == r.tail && q.key == r.key
    ensures RecordSound(EnsurePage(q, t, page, operate, limits), limits)
    // the `existingMain` branch is dead: an unusable active page means there are no pages at all
    ensures page.Default? && !(r.active.Some? && r.active.value in r.pages) ==> MAIN !in r.pages
  {
    var e := EnsurePage(q, t, page, operate, limits);
    MovedSound(r, e, t, limits);
  }

  lemma OpenPageSound(r: Record, q: Record, t: nat, page: PageArg, limits: Limits)
    requires RecordSound(r, limits) && t < |r.tasks| && !r.closed && r.tasks[t].op == Open(page)
    requires !r.tasks[t].stage.Settled? && (r.tasks[t].stage.Waiting? ==> MayBegin(r, t))
    requires q.tasks == r.tasks && q.pages == r.pages && q.active == r.active && q.closed == r.closed && q.closer == r.closer
    requires q.tail == r.tail && q.key == r.key
    ensures RecordSound(OpenPage(q, t, page, limits), limits)
  {
    MovedSound(r, OpenPage(q, t, page, limits), t, limits);
  }

  /** A task that settles without touching anything but clocks and the driver of an open record. */
  lemma SettledSound(r: Record, q: Record, t: nat, stage: Stage, limits: Limits)
    requires RecordSound(r, limits) && t < |r.tasks|
    requires !r.tasks[t].stage.Settled? && !Closing(r.tasks[t].stage) && (r.tasks[t].stage.Waiting? ==> MayBegin(r, t))
    requires q.tasks == r.tasks && PageTable(q, limits) && q.closed == r.closed && q.closer == r.closer
    requires q.tail == r.tail && q.key == r.key && (r.closed ==> q.driver == r.driver && q.pages == r.pages)
    requires stage == Settled(false) || ((stage == Settled(true) || stage.Answering?) && !Closes(r.tasks[t].op)) || (stage.Launching? && !r.closed && !q.driver && (r.tasks[t].op.Use? || r.tasks[t].op.Open?))
    requires stage == Settled(false) ==> !r.tasks[t].op.Dispose?
    ensures RecordSound(At(q, t, stage), limits)
  {
    assert r.closed ==> r.closer.value != t by {
      if r.closed { assert !r.tasks[r.closer.value].stage.Waiting?; }
    }
    MovedSound(r, At(q, t, stage), t, limits);
  }

  lemma CloseRecordSound(r: Record, t: nat, limits: Limits)
    requires RecordSound(r, limits) && t < |r.tasks| && r.tasks[t].stage.Waiting? && MayBegin(r, t) && Closes(r.tasks[t].op)
    ensures RecordSound(CloseRecord(r, t), limits)
  {
    EarlierSettled(r, t);
    LaterWaiting(r, t);
    MovedSound(r, CloseRecord(r, t), t, limits);
  }

  lemma ClosePageSound(r: Record, q: Record, t: nat, page: PageArg, limits: Limits)
    requires RecordSound(r, limits) && t < |r.tasks| && MayBegin(r, t) && !r.closed && r.tasks[t].op.ClosePage?
    requires q == r.(lastUsed := q.lastUsed)
    ensures RecordSound(RemovePage(q, t, page), limits)
  {
    var name := if page.Page? then page.name else if page.Default? && r.active.Some? then r.active.value else MAIN;
    ForgetSound(q, name, limits);
    if !page.Bad? && name in r.pages {
      SettledSound(r, Forget(q, name), t, Answering, limits);
    } else {
      SettledSound(r, q, t, if page.Default? && r.pages == [] then Answering else Settled(false), limits);
    }
  }

  lemma BeginSound(r: Record, t: nat, cancelled: bool, now: int, available: bool, limits: Limits)
    requires RecordSound(r, limits) && t < |r.tasks|
    ensures RecordSound(OnBegin(r, t, cancelled, now, available, limits), limits)
  {
    var op := r.tasks[t].op;
    if MayBegin(r, t) {
      if (cancelled && !Uncancellable(op)) || (NeedsOpen(op) && r.closed) {
        SettledSound(r, r, t, Settled(false), limits);
      } else {
        var touched := r.(lastUsed := now);
        match op
        case Use(page, operate) =>
          EnsurePageSound(r, touched, t, page, operate, limits);
          if !r.driver { SettledSound(r, touched, t, if available then Launching else Settled(false), limits); }
        case Open(page) =>
          OpenPageSound(r, touched, t, page, limits);
          if !r.driver { SettledSound(r, touched, t, if available then Launching else Settled(false), limits); }
        case Select(page) =>
          var found := page.Page? && page.name in r.pages;
          SettledSound(r, touched.(active := if found then Some(page.name) else r.active), t, if found then Answering else Settled(false), limits);
        case ClosePage(page) => ClosePageSound(r, touched, t, page, limits);
        case Pages => SettledSound(r, touched, t, Answering, limits);
        case Info => SettledSound(r, touched, t, Answering, limits);
        case CloseSession => CloseRecordSound(r, t, limits);
        case Sweep =>
          SettledSound(r, r, t, Settled(false), limits);
          CloseRecordSound(r, t, limits);
        case Dispose => CloseRecordSound(r, t, limits);
      }
    }
  }

  lemma LaunchedSound(r: Record, t: nat, ok: bool, cancelled: bool, limits: Limits)
    requires RecordSound(r, limits) && t < |r.tasks|
    ensures RecordSound(OnLaunched(r, t, ok, cancelled, limits), limits)
  {
    if r.tasks[t].stage.Launching? {
      assert TaskSound(r, t, limits);
      var up := r.(driver := true);
      SettledSound(r, r, t, Settled(false), limits);
      SettledSound(r, up, t, Settled(false), limits);
      match r.tasks[t].op
      case Use(page, operate) => EnsurePageSound(r, up, t, page, operate, limits);
      case Open(page) => OpenPageSound(r, up, t, page, limits);
    }
  }

  lemma CreatedSound(r: Record, t: nat, ok: bool, limits: Limits)
    requires RecordSound(r, limits) && t < |r.tasks|
    ensures RecordSound(OnCreated(r, t, ok), limits)
  {
    if r.tasks[t].stage.Creating? {
      assert TaskSound(r, t, limits);
      var q := OnCreated(r, t, ok);
      if !ok { SettledSound(r, r, t, Settled(false), limits); } else { CreatedPage(r, q, t, limits); }
    }
  }

  lemma CreatedPage(r: Record, q: Record, t: nat, limits: Limits)
    requires RecordSound(r, limits) && t < |r.tasks| && r.tasks[t].stage.Creating? && q == OnCreated(r, t, true)
    ensures RecordSound(q, limits)
  {
    assert TaskSound(r, t, limits);
    var name := r.tasks[t].stage.name;
    assert q.pages[|r.pages|] == name;
    MovedSound(r, q, t, limits);
  }

  lemma OperatedSound(r: Record, t: nat, pageClosed: bool, limits: Limits)
    requires RecordSound(r, limits) && t < |r.tasks|
    ensures RecordSound(OnOperated(r, t, pageClosed), limits)
  {
    if r.tasks[t].stage.Operating? {
      assert TaskSound(r, t, limits);
      ForgetSound(r, r.tasks[t].stage.name, limits);
      MovedSound(r, OnOperated(r, t, pageClosed), t, limits);
    }
  }

  lemma AnsweredSound(r: Record, t: nat, limits: Limits)
    requires RecordSound(r, limits) && t < |r.tasks|
    ensures RecordSound(OnAnswered(r, t), limits)
  {
    if r.tasks[t].stage.Answering? {
      assert TaskSound(r, t, limits);
      SettledSound(r, r, t, Settled(true), limits);
    }
  }

  lemma ClosingSound(r: Record, t: nat, limits: Limits)
    requires RecordSound(r, limits) && t < |r.tasks|
    ensures RecordSound(OnPagesClosed(r, t), limits) && RecordSound(OnDriverClosed(r, t), limits)
  {
    if r.tasks[t].stage.ClosingPages? {
      assert TaskSound(r, t, limits);
      MovedSound(r, OnPagesClosed(r, t), t, limits);
    } else if r.tasks[t].stage.ClosingDriver? {
      assert TaskSound(r, t, limits);
      MovedSound(r, OnDriverClosed(r, t), t, limits);
    }
  }

  /** Every step of every task keeps the page table, the chain and the closing discipline. */
  lemma StepTaskSound(r: Record, t: nat, input: Input, limits: Limits)
    requires RecordSound(r, limits) && t < |r.tasks|
    ensures RecordSound(StepTask(r, t, input, limits), limits)
  {
    match input
    case Begin(cancelled, now, available) => BeginSound(r, t, cancelled, now, available, limits);
    case Launched(ok, cancelled) => LaunchedSound(r, t, ok, cancelled, limits);
    case Created(ok) => CreatedSound(r, t, ok, limits);
    case Operated(pageClosed) => OperatedSound(r, t, pageClosed, limits);
    case Answered => AnsweredSound(r, t, limits);
    case PagesClosed => ClosingSound(r, t, limits);
    case DriverClosed => ClosingSound(r, t, limits);
  }

  // ---------------------------------------------------------------- what a step never undoes

  /** Tasks keep their operation and never wait again, settled tasks stay settled, a closed record stays closed and cannot launch. */
  ghost predicate Evolves(r: Record, q: Record) {
    && q.key == r.key && |r.tasks| <= |q.tasks|
    && (forall u :: 0 <= u < |r.tasks| ==> q.tasks[u].op == r.tasks[u].op)
    && (forall u :: 0 <= u < |r.tasks| && r.tasks[u].stage.Settled? ==> q.tasks[u] == r.tasks[u])
    && (forall u :: 0 <= u < |r.tasks| && !r.tasks[u].stage.Waiting? ==> !q.tasks[u].stage.Waiting?)
    && (r.closed ==> q.closed && (q.driver ==> r.driver))
  }

  lemma EnqueueEvolves(r: Record, op: Op)
    ensures Evolves(r, Enqueue(r, op))
    ensures Enqueue(r, op).driver == r.driver && Enqueue(r, op).closed == r.closed
    ensures |Enqueue(r, op).tasks| == |r.tasks| + 1 && Enqueue(r, op).tasks[|r.tasks|] == Task(op, r.tail, Waiting)
  {}

  /** Moving the task whose turn it is, on an otherwise later state of the record. */
  lemma AtEvolves(r: Record, q: Record, t: nat, stage: Stage)
    requires t < |r.tasks| && MayBegin(r, t) && !stage.Waiting? && q.tasks == r.tasks && q.key == r.key
    requires r.closed ==> q.closed && (q.driver ==> r.driver)
    ensures Evolves(r, At(q, t, stage))
  {}

  lemma BeginEvolves(r: Record, t: nat, cancelled: bool, now: int, available: bool, limits: Limits)
    requires t < |r.tasks|
    ensures Evolves(r, OnBegin(r, t, cancelled, now, available, limits))
  {
    if MayBegin(r, t) {
      var q := OnBegin(r, t, cancelled, now, available, limits);
      BeginMoves(r, t, cancelled, now, available, limits);
      AtEvolves(r, q.(tasks := r.tasks), t, q.tasks[t].stage);
      assert q == At(q.(tasks := r.tasks), t, q.tasks[t].stage);
    }
  }

  /** Whatever the operation, beginning it moves its task and nothing else in the chain. */
  lemma BeginMoves(r: Record, t: nat, cancelled: bool, now: int, available: bool, limits: Limits)
    requires t < |r.tasks| && MayBegin(r, t)
    ensures var q := OnBegin(r, t, cancelled, now, available, limits);
      && |q.tasks| == |r.tasks| && q.tasks == r.tasks[t := r.tasks[t].(stage := q.tasks[t].stage)] && !q.tasks[t].stage.Waiting?
      && q.key == r.key && q.driver == r.driver && (r.closed ==> q.closed)
  {
    match r.tasks[t].op
    case Use(_, _) =>
    case Open(_) =>
    case Select(_) =>
    case ClosePage(_) =>
    case Pages =>
    case Info =>
    case CloseSession =>
    case Sweep =>
    case Dispose =>
  }

  lemma LaunchedEvolves(r: Record, t: nat, ok: bool, cancelled: bool, limits: Limits)
    requires t < |r.tasks| && (r.tasks[t].stage.Launching? ==> !r.closed)
    ensures Evolves(r, OnLaunched(r, t, ok, cancelled, limits))
  {}

  lemma StepEvolves(r: Record, t: nat, input: Input, limits: Limits)
    requires RecordSound(r, limits) && t < |r.tasks|
    ensures Evolves(r, StepTask(r, t, input, limits))
  {
    assert TaskSound(r, t, limits);
    match input
    case Begin(cancelled, now, available) => BeginEvolves(r, t, cancelled, now, available, limits);
    case Launched(ok, cancelled) => LaunchedEvolves(r, t, ok, cancelled, limits);
    case Created(ok) =>
    case Operated(pageClosed) =>
    case Answered =>
    case PagesClosed =>
    case DriverClosed =>
  }

  /** Only an open record launches a browser. */
  lemma LaunchNeedsOpen(r: Record, t: nat, input: Input, limits: Limits)
    requires RecordSound(r, limits) && t < |r.tasks|
    ensures StepTask(r, t, input, limits).driver && !r.driver ==> !r.closed
  {
    StepEvolves(r, t, input, limits);
  }

  /** When a task that closes the record has settled well, the browser and the pages are gone. */
  lemma CloserReleased(r: Record, t: nat, limits: Limits)
    requires RecordSound(r, limits) && t < |r.tasks| && Closes(r.tasks[t].op) && r.tasks[t].stage == Settled(true)
    ensures r.closed && !r.driver && r.pages == []
  {
    assert TaskSound(r, t, limits);
  }

  lemma DisposeReleased(r: Record, t: nat, limits: Limits)
    requires RecordSound(r, limits) && t < |r.tasks| && r.tasks[t].op.Dispose? && r.tasks[t].stage.Settled?
    ensures r.closed && !r.driver && r.pages == []
  {
    assert TaskSound(r, t, limits);
    CloserReleased(r, t, limits);
  }
}
