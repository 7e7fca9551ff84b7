/** What each operation of a browse session does to its pages (src/browse/session.ts), said without the step functions. */
module SessionSteps {
  import opened BenchTypes
  import opened Session
  import opened Sorting

  predicate SameTable(r: Record, q: Record) { q.pages == r.pages && q.active == r.active }

  /** It begins, and nothing stands in its way. */
  predicate Starts(r: Record, t: nat, input: Input) {
    t < |r.tasks| && MayBegin(r, t) && input.Begin? && !input.cancelled && !(NeedsOpen(r.tasks[t].op) && r.closed)
  }

  /** The browser is there now: it was running when the task began, or it has just been launched for it. */
  predicate HasBrowser(r: Record, t: nat, input: Input) {
    (Starts(r, t, input) && r.driver) || (t < |r.tasks| && r.tasks[t].stage.Launching? && input == Launched(true, false))
  }

  /** The list without its one occurrence of `name`, in the same order. */
  ghost predicate OneLess(pages: seq<string>, rest: seq<string>, name: string) {
    exists k :: 0 <= k < |pages| && pages[k] == name && rest == pages[..k] + pages[k + 1..]
  }

  /** The active page after `name` went: the same one, or else "main", or else the first, or none. */
  predicate NextActive(before: Option<string>, name: string, rest: seq<string>, after: Option<string>) {
    if before != Some(name) then after == before
    else if MAIN in rest then after == Some(MAIN)
    else if rest == [] then after.None?
    else after == Some(rest[0])
  }

  lemma {:induction false} WithoutOther(pages: seq<string>, name: string)
    requires name !in pages
    ensures Without(pages, name) == pages
  {
    if pages != [] { WithoutOther(pages[..|pages| - 1], name); }
  }

  lemma {:induction false} WithoutOne(pages: seq<string>, name: string, k: nat)
    requires Distinct(pages) && k < |pages| && pages[k] == name
    ensures Without(pages, name) == pages[..k] + pages[k + 1..]
  {
    var init, last := pages[..|pages| - 1], pages[|pages| - 1];
    if k == |pages| - 1 {
      WithoutOther(init, name);
    } else {
      WithoutOne(init, name, k);
      assert init[..k] == pages[..k] && pages[k + 1..] == init[k + 1..] + [last];
    }
  }

  lemma ForgetMeans(r: Record, name: string)
    requires Distinct(r.pages) && name in r.pages
    ensures OneLess(r.pages, Forget(r, name).pages, name) && NextActive(r.active, name, Forget(r, name).pages, Forget(r, name).active)
  {
    var k :| 0 <= k < |r.pages| && r.pages[k] == name;
    WithoutOne(r.pages, name, k);
  }

  // ---------------------------------------------------------------- run and ensure

  /**
   * A page asked for by name is used and becomes active if it exists, and is refused otherwise; without a name the active
   * page is used, and "main" is created when there is none.
   */
  lemma UseMeans(r: Record, t: nat, input: Input, limits: Limits)
    requires RecordSound(r, limits) && HasBrowser(r, t, input) && r.tasks[t].op.Use?
    ensures
      var q, op := StepTask(r, t, input, limits), r.tasks[t].op;
      var stage := q.tasks[t].stage;
      && q.pages == r.pages && q.driver && q.closed == r.closed
      && match op.page
         case Bad => q.active == r.active && stage == Settled(false)
         case Page(name) =>
           if name in r.pages then q.active == Some(name) && stage == (if op.operate then Operating(name) else Answering)
           else q.active == r.active && stage == Settled(false)
         case Default =>
           && q.active == r.active
           && (r.pages != [] ==> r.active.Some? && r.active.value in r.pages && stage == (if op.operate then Operating(r.active.value) else Answering))
           && (r.pages == [] ==> stage == if limits.maxPages > 0 then Creating(MAIN) else Settled(false))
  {
    assert TaskSound(r, t, limits);
  }

  /** `newPage` creates exactly the page asked for, unless the name is bad or taken or there are too many pages. */
  lemma OpenMeans(r: Record, t: nat, input: Input, limits: Limits)
    requires RecordSound(r, limits) && HasBrowser(r, t, input) && r.tasks[t].op.Open?
    ensures
      var q, page := StepTask(r, t, input, limits), r.tasks[t].op.page;
      && SameTable(r, q) && q.driver
      && q.tasks[t].stage == if page.Page? && page.name !in r.pages && |r.pages| < limits.maxPages then Creating(page.name) else Settled(false)
  {
    assert TaskSound(r, t, limits);
  }

  /** A created page comes last and becomes active; a failure leaves the table alone. */
  lemma CreatedMeans(r: Record, t: nat, ok: bool, limits: Limits)
    requires t < |r.tasks| && r.tasks[t].stage.Creating?
    ensures
      var q, op, name := StepTask(r, t, Created(ok), limits), r.tasks[t].op, r.tasks[t].stage.name;
      && (ok ==> q.pages == r.pages + [name] && q.active == Some(name))
      && (!ok ==> SameTable(r, q))
      && q.tasks[t].stage == if !ok then Settled(false) else if op.Use? && op.operate then Operating(name) else Answering
  {}

  /** When the operation ends its page is forgotten only if it closed meanwhile. */
  lemma OperatedMeans(r: Record, t: nat, pageClosed: bool, limits: Limits)
    requires RecordSound(r, limits) && t < |r.tasks| && r.tasks[t].stage.Operating?
    ensures
      var q, name := StepTask(r, t, Operated(pageClosed), limits), r.tasks[t].stage.name;
      && q.tasks[t].stage == Settled(true)
      && (!pageClosed ==> SameTable(r, q))
      && (pageClosed ==> OneLess(r.pages, q.pages, name) && NextActive(r.active, name, q.pages, q.active))
  {
    assert TaskSound(r, t, limits);
    ForgetMeans(r, r.tasks[t].stage.name);
  }

  // ---------------------------------------------------------------- the other operations

  /** `selectPage` makes exactly the named page active. */
  lemma SelectMeans(r: Record, t: nat, input: Input, limits: Limits)
    requires Starts(r, t, input) && r.tasks[t].op.Select?
    ensures
      var q, page := StepTask(r, t, input, limits), r.tasks[t].op.page;
      && q.pages == r.pages
      && (if page.Page? && page.name in r.pages then q.active == Some(page.name) && q.tasks[t].stage.Answering?
          else q.active == r.active && q.tasks[t].stage == Settled(false))
  {}

  /** The page a close is meant for. */
  function Wanted(r: Record, page: PageArg): Option<string> {
    match page case Bad => None case Page(name) => Some(name) case Default => r.active
  }

  /** The page is gone, the others keep their order, and the active role is handed on. */
  ghost predicate PageGone(r: Record, q: Record, name: string) {
    OneLess(r.pages, q.pages, name) && NextActive(r.active, name, q.pages, q.active)
  }

  /** `closePage` removes exactly the page meant, if there is one; closing the active page of an empty session is no error. */
  lemma ClosePageMeans(r: Record, t: nat, input: Input, limits: Limits)
    requires RecordSound(r, limits) && Starts(r, t, input) && r.tasks[t].op.ClosePage?
    ensures
      var q, page := StepTask(r, t, input, limits), r.tasks[t].op.page;
      var name := Wanted(r, page);
      if name.Some? && name.value in r.pages then PageGone(r, q, name.value) && q.tasks[t].stage.Answering?
      else SameTable(r, q) && q.tasks[t].stage == if page.Default? && r.pages == [] then Answering else Settled(false)
  {
    var page := r.tasks[t].op.page;
    assert StepTask(r, t, input, limits) == RemovePage(r.(lastUsed := input.now), t, page);
    RemovePageMeans(r, r.(lastUsed := input.now), t, page);
  }

  lemma RemovePageMeans(r: Record, p: Record, t: nat, page: PageArg)
    requires t < |p.tasks| && Distinct(r.pages) && p.pages == r.pages && p.active == r.active
    requires (r.active.None? <==> r.pages == []) && (r.active.Some? ==> r.active.value in r.pages)
    ensures
      var q, name := RemovePage(p, t, page), Wanted(r, page);
      if name.Some? && name.value in r.pages then PageGone(r, q, name.value) && q.tasks[t].stage.Answering?
      else SameTable(r, q) && q.tasks[t].stage == if page.Default? && r.pages == [] then Answering else Settled(false)
  {
    var name := Wanted(r, page);
    if name.Some? && name.value in r.pages { ForgetMeans(p, name.value); }
  }

  /** `pages` and `info` look, and change nothing but the clock. */
  lemma LookMeans(r: Record, t: nat, input: Input, limits: Limits)
    requires Starts(r, t, input) && (r.tasks[t].op.Pages? || r.tasks[t].op.Info?)
    ensures StepTask(r, t, input, limits) == At(r.(lastUsed := input.now), t, Answering)
  {}

  // ---------------------------------------------------------------- starting, refusing and closing

  /** A task that was cancelled, or comes to a closed session, is refused and changes nothing. */
  lemma RefusedMeans(r: Record, t: nat, input: Input, limits: Limits)
    requires t < |r.tasks| && MayBegin(r, t) && input.Begin?
    requires (input.cancelled && !Uncancellable(r.tasks[t].op)) || (NeedsOpen(r.tasks[t].op) && r.closed)
    ensures StepTask(r, t, input, limits) == At(r, t, Settled(false))
  {}

  /** Without a browser one is launched, if the driver is available; a launch that fails ends the task. */
  lemma LaunchMeans(r: Record, t: nat, input: Input, limits: Limits)
    requires t < |r.tasks| && (r.tasks[t].op.Use? || r.tasks[t].op.Open?)
    ensures Starts(r, t, input) && !r.driver ==>
      StepTask(r, t, input, limits) == At(r.(lastUsed := input.now), t, if input.available then Launching else Settled(false))
    ensures r.tasks[t].stage.Launching? && input.Launched? && !input.ok ==> StepTask(r, t, input, limits) == At(r, t, Settled(false))
    ensures r.tasks[t].stage.Launching? && input == Launched(true, true) ==> StepTask(r, t, input, limits) == At(r.(driver := true), t, Settled(false))
  {}

  /** Closing marks the record at once; a sweep does so exactly when the session has been idle long enough. */
  lemma CloseMeans(r: Record, t: nat, input: Input, limits: Limits)
    requires t < |r.tasks| && MayBegin(r, t) && input.Begin? && Closes(r.tasks[t].op) && (input.cancelled ==> Uncancellable(r.tasks[t].op))
    ensures
      var q, op := StepTask(r, t, input, limits), r.tasks[t].op;
      var idle := op.Sweep? ==> input.now - r.lastUsed >= limits.idleTtlMs;
      && SameTable(r, q) && q.driver == r.driver && q.lastUsed == r.lastUsed
      && (q.closed <==> r.closed || idle)
      && q.tasks[t].stage == if !idle then Settled(false) else if r.closed then Settled(true) else ClosingPages
  {}

  /** Then the pages go, then the browser. */
  lemma ClosingMeans(r: Record, t: nat, limits: Limits)
    requires t < |r.tasks|
    ensures r.tasks[t].stage.ClosingPages? ==>
      var q := StepTask(r, t, PagesClosed, limits);
      q.pages == [] && q.active.None? && q.driver == r.driver && q.tasks[t].stage == if r.driver then ClosingDriver else Settled(true)
    ensures r.tasks[t].stage.ClosingDriver? ==>
      var q := StepTask(r, t, DriverClosed, limits);
      SameTable(r, q) && !q.driver && q.tasks[t].stage == Settled(true)
    ensures r.tasks[t].stage.Answering? ==> StepTask(r, t, Answered, limits) == At(r, t, Settled(true))
  {}

  /** Starting an ordinary operation is what keeps a session from being swept. */
  lemma TouchMeans(r: Record, t: nat, input: Input, limits: Limits)
    requires Starts(r, t, input) && !Closes(r.tasks[t].op)
    ensures StepTask(r, t, input, limits).lastUsed == input.now
  {
    match r.tasks[t].op
    case Use(_, _) =>
    case Open(_) =>
    case Select(_) =>
    case ClosePage(_) =>
    case Pages =>
    case Info =>
  }
}
