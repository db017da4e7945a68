/**
 * The continuation that runs once the per-domain shield settings have loaded:
 * the selected tab's in-memory shield state, if still unset, takes the stored
 * record for its host, and the page is reloaded from origin.
 */
module Shields {
  import opened Wrappers

  /** A tab's shield state: not yet decided, or a set of per-shield overrides. */
  datatype ShieldState = NotSet | Set(overrides: map<string, bool>)

  /** What happens to a tab, in order. */
  datatype TabEvent = ShieldStateChanged(state: ShieldState) | ReloadedFromOrigin

  class Tab {
    var shieldState: ShieldState
    /** The normalized host of the web view's URL; None when there is no web view, URL or host. */
    var host: Option<string>
    var events: seq<TabEvent>

    constructor (state: ShieldState, host: Option<string>)
      ensures shieldState == state && this.host == host && events == []
    {
      shieldState := state;
      this.host := host;
      events := [];
    }
  }

  /** The record that replaces the tab's state, when one does. */
  function Replacement(state: ShieldState, host: Option<string>, perDomain: map<string, ShieldState>): (r: Option<ShieldState>)
    ensures r.Some? <==> state.NotSet? && host.Some? && host.value in perDomain
    ensures r.Some? ==> r.value == perDomain[host.value]
  {
    if state.NotSet? && host.Some? && host.value in perDomain then Some(perDomain[host.value]) else None
  }

  /** Number of reloads in an event log. */
  function Reloads(events: seq<TabEvent>): nat {
    if |events| == 0 then 0
    else (if events[0].ReloadedFromOrigin? then 1 else 0) + Reloads(events[1..])
  }

  lemma {:induction false} ReloadsAppend(a: seq<TabEvent>, b: seq<TabEvent>)
    ensures Reloads(a + b) == Reloads(a) + Reloads(b)
  {
    if |a| == 0 {
      assert a + b == b;
    } else {
      assert (a + b)[0] == a[0];
      assert (a + b)[1..] == a[1..] + b;
      ReloadsAppend(a[1..], b);
    }
  }

  /**
   * The settings-loaded continuation. With no selected tab nothing happens; otherwise
   * the state is replaced and then exactly one reload follows, or nothing changes.
   */
  method OnShieldsLoaded(selected: Tab?, perDomain: map<string, ShieldState>)
    modifies selected
    ensures selected != null ==> selected.host == old(selected.host)
    ensures selected != null ==>
      match Replacement(old(selected.shieldState), old(selected.host), perDomain)
      case None =>
        selected.shieldState == old(selected.shieldState) && selected.events == old(selected.events)
      case Some(stored) =>
        && selected.shieldState == stored
        && selected.events == old(selected.events) + [ShieldStateChanged(stored), ReloadedFromOrigin]
        && Reloads(selected.events) == Reloads(old(selected.events)) + 1
  {
    if selected == null {
      return;
    }
    match Replacement(selected.shieldState, selected.host, perDomain) {
      case None =>
      case Some(stored) =>
        selected.shieldState := stored;
        selected.events := selected.events + [ShieldStateChanged(stored)];
        selected.events := selected.events + [ReloadedFromOrigin];
        var added := [ShieldStateChanged(stored), ReloadedFromOrigin];
        assert Reloads(added) == 1 by {
          assert added[1..] == [ReloadedFromOrigin];
          assert Reloads([ReloadedFromOrigin]) == 1 by {
            assert [ReloadedFromOrigin][1..] == [];
          }
        }
        assert selected.events == old(selected.events) + added;
        ReloadsAppend(old(selected.events), added);
    }
  }

  /** A replaced state is no longer unset, unless the stored record itself is: a second pass changes nothing. */
  lemma ReplacementSettles(state: ShieldState, host: Option<string>, perDomain: map<string, ShieldState>)
    requires Replacement(state, host, perDomain).Some?
    requires Replacement(state, host, perDomain).value.Set?
    ensures Replacement(Replacement(state, host, perDomain).value, host, perDomain).None?
  {
  }

  /** A fresh tab through one settings-loaded pass: at most one reload, and one exactly when the state was replaced. */
  method ReconcileNewTab(state: ShieldState, host: Option<string>, perDomain: map<string, ShieldState>)
    returns (final: ShieldState, reloads: nat)
    ensures reloads <= 1
    ensures reloads == 1 <==> state.NotSet? && host.Some? && host.value in perDomain
    ensures final == if reloads == 1 then perDomain[host.value] else state
  {
    var tab := new Tab(state, host);
    OnShieldsLoaded(tab, perDomain);
    final := tab.shieldState;
    reloads := Reloads(tab.events);
  }
}
