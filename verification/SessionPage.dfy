/** The lifetime of element refs on one page (`BrowseSessionPage`, src/browse/session.ts). */
module SessionPage {
  import opened BenchTypes

  datatype Target = RefTarget(ref: string) | OtherTarget

  /** How a driver call ends. */
  datatype Ending = Succeeds | Vanished | FailsOtherwise

  /** What can change which refs are usable, in the order it happened. */
  datatype Event =
    | Installed(refs: set<string>)  // a snapshot succeeded
    | NavigationStarted
    | NavigationEnded               // successful or not
    | ReportedStale(refs: set<string>)

  // ---------------------------------------------------------------- the contract

  predicate Ends(e: Event, ref: string) {
    e.Installed? || e.NavigationEnded? || (e.ReportedStale? && ref in e.refs)
  }

  /** The last snapshot installed the ref, and since then no navigation ended and nothing reported it stale. */
  ghost predicate Live(history: seq<Event>, ref: string) {
    exists i :: 0 <= i < |history| && history[i].Installed? && ref in history[i].refs
      && forall j :: i < j < |history| ==> !Ends(history[j], ref)
  }

  function After(before: set<string>, e: Event): set<string> {
    match e
    case Installed(refs) => refs
    case NavigationStarted => before
    case NavigationEnded => {}
    case ReportedStale(refs) => before - refs
  }

  /** The ref map the page keeps. */
  function Refs(history: seq<Event>): set<string> {
    if history == [] then {} else After(Refs(history[..|history| - 1]), history[|history| - 1])
  }

  /** The map holds exactly the live refs, whatever happened before. */
  lemma {:induction false} RefsAreLive(history: seq<Event>, ref: string)
    ensures ref in Refs(history) <==> Live(history, ref)
  {
    if history != [] {
      var init, e := history[..|history| - 1], history[|history| - 1];
      RefsAreLive(init, ref);
      if Live(init, ref) && !Ends(e, ref) {
        var i :| 0 <= i < |init| && init[i].Installed? && ref in init[i].refs && forall j :: i < j < |init| ==> !Ends(init[j], ref);
        assert history[i] == init[i] && forall j :: i < j < |history| ==> !Ends(history[j], ref);
      }
      if e.Installed? && ref in e.refs {
        assert history[|history| - 1].Installed?;
      }
      if Live(history, ref) && !e.Installed? {
        var i :| 0 <= i < |history| && history[i].Installed? && ref in history[i].refs && forall j :: i < j < |history| ==> !Ends(history[j], ref);
        assert i < |init| && init[i] == history[i];
        assert forall j :: i < j < |init| ==> init[j] == history[j];
        assert !Ends(history[|history| - 1], ref);
      }
    }
  }

  /** Navigations still under way. */
  function Pending(history: seq<Event>): int {
    if history == [] then 0
    else
      var e := history[|history| - 1];
      Pending(history[..|history| - 1]) + (if e.NavigationStarted? then 1 else if e.NavigationEnded? then -1 else 0)
  }

  /** A navigation ends only after it started. */
  ghost predicate Balanced(history: seq<Event>) {
    forall n :: 0 <= n <= |history| ==> Pending(history[..n]) >= 0
  }

  /** The last snapshot installed the ref, and since then no navigation was even attempted and nothing reported it stale. */
  ghost predicate Untouched(history: seq<Event>, ref: string) {
    exists i :: 0 <= i < |history| && history[i].Installed? && ref in history[i].refs
      && forall j :: i < j < |history| ==> !Ends(history[j], ref) && !history[j].NavigationStarted?
  }

  lemma {:induction false} PendingSince(history: seq<Event>, i: nat)
    requires i <= |history| && forall j :: i <= j < |history| ==> !history[j].NavigationEnded?
    ensures Pending(history) >= Pending(history[..i])
    ensures (exists j :: i <= j < |history| && history[j].NavigationStarted?) ==> Pending(history) > Pending(history[..i])
    decreases |history| - i
  {
    if i == |history| {
      assert history[..i] == history;
    } else {
      PendingSince(history, i + 1);
      assert history[..i + 1][..i] == history[..i];
    }
  }

  /** When no navigation is under way, a usable ref has seen none attempted since its snapshot, successful or not. */
  lemma QuietRefs(history: seq<Event>, ref: string)
    requires Balanced(history) && Pending(history) == 0 && ref in Refs(history)
    ensures Untouched(history, ref)
  {
    RefsAreLive(history, ref);
    var i :| 0 <= i < |history| && history[i].Installed? && ref in history[i].refs && forall j :: i < j < |history| ==> !Ends(history[j], ref);
    PendingSince(history, i + 1);
    assert Pending(history[..i + 1]) >= 0;
  }

  lemma BalancedStep(history: seq<Event>, e: Event)
    requires Balanced(history) && (e.NavigationEnded? ==> Pending(history) >= 1)
    ensures Balanced(history + [e])
    ensures Pending(history + [e]) == Pending(history) + (if e.NavigationStarted? then 1 else if e.NavigationEnded? then -1 else 0)
  {
    var all := history + [e];
    assert all[..|history|] == history && history[..|history|] == history;
    forall n | 0 <= n <= |all| ensures Pending(all[..n]) >= 0 {
      if n <= |history| { assert all[..n] == history[..n]; } else { assert all[..n] == all; }
    }
  }

  lemma RefsStep(history: seq<Event>, e: Event)
    ensures Refs(history + [e]) == After(Refs(history), e)
  {
    assert (history + [e])[..|history + [e]| - 1] == history;
  }

  // ---------------------------------------------------------------- the page

  function RefOf(t: Target): set<string> { if t.RefTarget? then {t.ref} else {} }

  /** The ref endpoints a drag failure names, or both when it names neither. */
  function Blamed(endpoints: set<string>, named: set<string>): set<string> {
    if endpoints * named == {} then endpoints else endpoints * named
  }

  class BrowseSessionPage {
    var refs: set<string>
    ghost var history: seq<Event>

    ghost predicate Valid()
      reads this
    {
      refs == Refs(history) && Balanced(history)
    }

    /** One more event, of which the map already holds the effect. */
    ghost method Note(e: Event)
      requires Balanced(history) && (e.NavigationEnded? ==> Pending(history) >= 1) && refs == After(Refs(history), e)
      modifies this`history
      ensures Valid() && history == old(history) + [e]
    {
      RefsStep(history, e);
      BalancedStep(history, e);
      history := history + [e];
    }

    constructor ()
      ensures Valid() && history == []
    {
      refs, history := {}, [];
    }

    /** A snapshot replaces the map with what it printed, falling back to the refs in its text. */
    method Snapshot(succeeds: bool, printed: set<string>, inText: set<string>)
      requires Valid()
      modifies this
      ensures Valid()
      ensures history == if succeeds then old(history) + [Installed(if printed == {} then inText else printed)] else old(history)
    {
      if !succeeds { return; }
      refs := if printed == {} then inText else printed;
      Note(Installed(refs));
    }

    /** goto, back, forward and reload up to their await: the map is still what it was. */
    method StartNavigation()
      requires Valid()
      modifies this
      ensures Valid() && refs == old(refs) && history == old(history) + [NavigationStarted]
    {
      Note(NavigationStarted);
    }

    /** Their finally block drops the map, whether the navigation succeeded or not. */
    method EndNavigation()
      requires Valid() && Pending(history) >= 1
      modifies this
      ensures Valid() && refs == {} && history == old(history) + [NavigationEnded]
    {
      refs := {};
      Note(NavigationEnded);
    }

    /** Before its await, an action takes its refs from the map: all of them, or it rejects without reaching the driver. */
    method Resolve(asked: set<string>, cancelled: bool) returns (reached: set<string>)
      requires Valid()
      ensures reached == if !cancelled && asked <= Refs(history) then asked else {}
      ensures forall r :: r in reached ==> Live(history, r) && (Pending(history) == 0 ==> Untouched(history, r))
    {
      if cancelled || !(asked <= refs) { return {}; }
      forall r | r in asked ensures Live(history, r) && (Pending(history) == 0 ==> Untouched(history, r)) {
        RefsAreLive(history, r);
        if Pending(history) == 0 { QuietRefs(history, r); }
      }
      return asked;
    }

    /** After its await, a failure that says an element is gone drops the refs it blames, whatever happened meanwhile. */
    method Settle(blamed: set<string>, ending: Ending)
      requires Valid()
      modifies this
      ensures Valid() && (blamed !! refs || !ending.Vanished?)
      ensures history == if blamed != {} && ending.Vanished? then old(history) + [ReportedStale(blamed)] else old(history)
    {
      if blamed != {} && ending == Vanished {
        refs := refs - blamed;
        Note(ReportedStale(blamed));
      }
    }

    /** click, fill, type, press, select, hover, upload and wait, with nothing between resolving and settling. */
    method TargetAction(target: Target, cancelled: bool, ending: Ending) returns (reached: set<string>)
      requires Valid()
      modifies this
      ensures Valid()
      ensures reached == if !cancelled && RefOf(target) <= Refs(old(history)) then RefOf(target) else {}
      ensures history == if reached != {} && ending.Vanished? then old(history) + [ReportedStale(reached)] else old(history)
    {
      reached := Resolve(RefOf(target), cancelled);
      Settle(reached, ending);
    }

    /** Both endpoints are resolved first; a failure that names an endpoint drops it, otherwise both. */
    method Drag(source: Target, target: Target, cancelled: bool, ending: Ending, named: set<string>) returns (reached: set<string>)
      requires Valid()
      modifies this
      ensures Valid()
      ensures reached == if !cancelled && RefOf(source) + RefOf(target) <= Refs(old(history)) then RefOf(source) + RefOf(target) else {}
      ensures history == if reached != {} && ending.Vanished? then old(history) + [ReportedStale(Blamed(reached, named))] else old(history)
    {
      reached := Resolve(RefOf(source) + RefOf(target), cancelled);
      Settle(Blamed(reached, named), ending);
    }

    /** A scroll resolves its target and its anchor; only one of them is blamed for a failure. */
    method Scroll(target: Option<Target>, at: Option<Target>, cancelled: bool, ending: Ending) returns (reached: set<string>)
      requires Valid()
      modifies this
      ensures Valid()
      ensures
        var asked := (if target.Some? then RefOf(target.value) else {}) + (if at.Some? then RefOf(at.value) else {});
        reached == if !cancelled && asked <= Refs(old(history)) then asked else {}
      ensures
        var blamed := if target.Some? then RefOf(target.value) else if at.Some? then RefOf(at.value) else {};
        history == if reached != {} && blamed != {} && ending.Vanished? then old(history) + [ReportedStale(blamed)] else old(history)
    {
      reached := Resolve((if target.Some? then RefOf(target.value) else {}) + (if at.Some? then RefOf(at.value) else {}), cancelled);
      if reached != {} { Settle(if target.Some? then RefOf(target.value) else if at.Some? then RefOf(at.value) else {}, ending); }
    }
  }
}
