/**
 The manager's tables told by the events of a run: which devices, workers and controllers they hold, and what the
 last request on each device was.
*/
module Requests {
  import opened Basics
  import opened History
  import opened SelectorModel
  import opened SelectorLaws
  import opened SelectorViews
  import opened ConnStats
  import opened ManagerModel
  import opened ManagerRuns
  import opened Selectability

  // ------------------------------------------------------------ devices

  /** Some worker of the device is in the manager's table. */
  ghost predicate HasWorkers(s: Sys, d: string) {
    exists w: Worker :: w.Worker? && w.deviceID == d && Tabled(s.m, w)
  }

  /** The event is one that brings device d into the table. */
  predicate Brings(e: Event, d: string) {
    || (e.DeviceJoins? && e.d == d && d != "" && e.origin != "")
    || (e.JoinBegins? && e.w.Worker? && e.w.deviceID == d && d != "" && e.w.id != "" && e.origin != "")
  }

  /** Every entry of the table of workers is under its worker's own ids. */
  predicate KeyedTable(s: Sys) {
    forall d :: d in s.m.workers ==> forall id :: id in s.m.workers[d] ==>
      s.m.workers[d][id].Worker? && s.m.workers[d][id].deviceID == d && s.m.workers[d][id].id == id
  }

  lemma TableHasWorkers(s: Sys, d: string)
    requires KeyedTable(s)
    ensures HasWorkers(s, d) <==> TableOf(s.m, d) != map[]
  {
    if TableOf(s.m, d) != map[] {
      var id :| id in TableOf(s.m, d);
      assert Tabled(s.m, s.m.workers[d][id]);
    }
  }

  lemma NextKeepsKeyed(s: Sys, e: Event)
    requires Inv(s.m.sel) && CanHappen(s, e) && KeyedTable(s)
    ensures KeyedTable(Next(s, e))
  {
    hide Inv, MayPick, WorkerAvailable, WorkerUnavailable, SetDisabled, RemoveIfDead, ForgetAll;
    if !e.JoinEnds? && !e.CloseEnds? && !e.Deletes? {
      WorkersUntouched(s, e);
    }
    hide OnDeviceJoins, OnDeviceCloses, OnTraffic, OnEnables, OnDisables, OnClaims, OnGivesBack, OnCompletes;
    hide OnJoinBegins, OnCloseBegins;
  }

  lemma WorkersUntouched(s: Sys, e: Event)
    requires Inv(s.m.sel) && CanHappen(s, e) && !e.JoinEnds? && !e.CloseEnds? && !e.Deletes?
    ensures Next(s, e).m.workers == s.m.workers
  {
    hide OnJoinEnds, OnCloseEnds, OnDeletes, Plus, Own, LogOf, Entry, CountedBy;
    hide Inv, MayPick, WorkerAvailable, WorkerUnavailable, SetEnabled, SetDisabled, ForgetAll, Selected;
  }

  /**
   A device comes into the table with its first registration, its own or a worker's, that is not refused for an empty
   name; and leaves it by a delete while it has neither a connection nor a worker in the table, and in no other way.
  */
  lemma DevicesComeAndGo(s: Sys, e: Event, d: string)
    requires Inv(s.m.sel) && CanHappen(s, e) && KeyedTable(s)
    ensures d !in s.m.devices ==> (d in Next(s, e).m.devices <==> Brings(e, d))
    ensures d in s.m.devices ==>
      (d !in Next(s, e).m.devices <==> e == Deletes(d) && s.m.devices[d].conn.None? && !HasWorkers(s, d))
  {
    TableHasWorkers(s, d);
    DevicesAfter(s, e);
    hide Next, CanHappen, Inv, HasWorkers, TableOf;
  }

  /** These alone change the table of devices. */
  predicate AboutDevices(e: Event) {
    e.JoinBegins? || e.DeviceJoins? || e.DeviceCloses? || e.Enables? || e.Disables? || e.Deletes?
  }

  lemma DevicesUntouched(s: Sys, e: Event)
    requires Inv(s.m.sel) && CanHappen(s, e) && !AboutDevices(e)
    ensures Next(s, e).m.devices == s.m.devices
  {
    hide OnJoinBegins, OnDeviceJoins, OnDeviceCloses, OnEnables, OnDisables, OnDeletes;
    hide Inv, MayPick, WorkerAvailable, WorkerUnavailable, ForgetAll, Selected, Handout, Own;
  }

  lemma DevicesAfter(s: Sys, e: Event)
    requires Inv(s.m.sel) && CanHappen(s, e)
    ensures var before, after := s.m.devices.Keys, Next(s, e).m.devices.Keys;
            if e.DeviceJoins? then after == before + (if e.d != "" && e.origin != "" then {e.d} else {})
            else if e.JoinBegins? then
              after == before + (if e.w.id != "" && e.w.deviceID != "" && e.origin != "" then {e.w.deviceID} else {})
            else if e.Deletes? then
              after == before - (if e.d in before && TableOf(s.m, e.d) == map[] && s.m.devices[e.d].conn.None?
                                 then {e.d} else {})
            else after == before
  {
    hide OnJoinEnds, OnCloseBegins, OnCloseEnds, OnTraffic, OnCompletes, OnGivesBack, OnClaims;
    hide Inv, MayPick, SetEnabled, SetDisabled, RemoveIfDead, Plus, CountedBy, LogOf, Entry, TableOf;
    if !AboutDevices(e) {
      DevicesUntouched(s, e);
      hide Next;
    }
  }

  /** A new device is on; a request is remembered, whether the device is connected or not. */
  predicate EnabledRight(s: Sys, e: Event, d: string, enabled: bool) {
    enabled == if d !in s.m.devices || e == Enables(d) then true else e != Disables(d) && s.m.devices[d].enabled
  }

  /** The last connection to join is the device's own until it is closed. */
  predicate ConnRight(s: Sys, e: Event, d: string, conn: Option<int>) {
    conn ==
      if e.DeviceJoins? && Brings(e, d) then Some(e.conn)
      else if d !in s.m.devices then None
      else if e.DeviceCloses? && e.conn in s.conns && s.conns[e.conn] == d && Current(s, d) == Some(e.conn) then None
      else s.m.devices[d].conn
  }

  /** The origin is that of the last connection to join, or of the worker the device came with. */
  predicate OriginRight(s: Sys, e: Event, d: string, origin: string) {
    if e.DeviceJoins? && Brings(e, d) then origin == e.origin
    else if d in s.m.devices then origin == s.m.devices[d].origin
    else e.JoinBegins? && origin == e.origin
  }

  /** What a device's entry says after an event: each part changes by the events that are about it, and no other. */
  predicate EntryRight(s: Sys, e: Event, d: string, dev: Device) {
    EnabledRight(s, e, d, dev.enabled) && ConnRight(s, e, d, dev.conn) && OriginRight(s, e, d, dev.origin)
  }

  lemma JoinSets(s: Sys, e: Event, d: string)
    requires Inv(s.m.sel) && e.DeviceJoins?
    ensures var s' := OnDeviceJoins(s, e.d, e.origin, e.conn, e.st);
            d in s'.m.devices ==> EntryRight(s, e, d, s'.m.devices[d])
  {
    if DeviceRefusal(e.d, e.origin).None? {
      RegisteredAtOnce(s.m, e.d, e.origin, e.conn, CountedBy(s, Current(s, e.d)));
    }
    hide Inv, Plus, DeviceRegistered, SetEnabled;
  }

  lemma CloseSets(s: Sys, e: Event, d: string)
    requires Inv(s.m.sel) && e.DeviceCloses? && e.conn in s.conns
    ensures var s' := OnDeviceCloses(s, e.conn);
            d in s'.m.devices ==> EntryRight(s, e, d, s'.m.devices[d])
  {
    hide Inv, Plus, SetDisabled;
  }

  lemma WorkerSets(s: Sys, e: Event, d: string)
    requires Inv(s.m.sel) && e.JoinBegins? && e.w.Worker?
    ensures var s' := OnJoinBegins(s, e.w, e.origin);
            d in s'.m.devices ==> EntryRight(s, e, d, s'.m.devices[d])
  {
    hide Inv, SetDisabled;
  }

  lemma RequestSets(s: Sys, e: Event, d: string)
    requires Inv(s.m.sel) && (e.Enables? || e.Disables? || e.Deletes?)
    ensures var s' := if e.Enables? then OnEnables(s, e.d)
                      else if e.Disables? then OnDisables(s, e.d)
                      else OnDeletes(s, e.d);
            d in s'.m.devices ==> EntryRight(s, e, d, s'.m.devices[d])
  {
    hide Inv, SetEnabled, SetDisabled, RemoveIfDead, DeletionRefusal;
    if e.Enables? {
      hide OnDisables, OnDeletes;
    } else if e.Disables? {
      hide OnEnables, OnDeletes;
    } else {
      hide OnEnables, OnDisables;
    }
  }

  lemma DeviceAfter(s: Sys, e: Event, d: string)
    requires Inv(s.m.sel) && CanHappen(s, e) && d in Next(s, e).m.devices
    ensures EntryRight(s, e, d, Next(s, e).m.devices[d])
  {
    if !AboutDevices(e) {
      DevicesUntouched(s, e);
      hide Next;
    } else {
      hide OnJoinBegins, OnDeviceJoins, OnDeviceCloses, OnEnables, OnDisables, OnDeletes;
      hide Inv, EntryRight;
      match e
      case JoinBegins(_, _) => WorkerSets(s, e, d);
      case DeviceJoins(_, _, _, _) => JoinSets(s, e, d);
      case DeviceCloses(_) => CloseSets(s, e, d);
      case _ => RequestSets(s, e, d);
    }
  }

  // ------------------------------------------------------------ requests

  /** The last enable or disable request on device d since it came into the table, if any: true for an enable. */
  ghost function LastRequest(s: Sys, es: seq<Event>, d: string, before: Option<bool>): Option<bool>
    requires Inv(s.m.sel) && CanRun(s, es)
    decreases |es|
  {
    if es == [] then before
    else LastRequest(Next(s, es[0]), es[1..], d, RequestNow(s, es[0], d, before))
  }

  /** A request on a device not in the table is refused. */
  function RequestNow(s: Sys, e: Event, d: string, before: Option<bool>): Option<bool> {
    if d !in s.m.devices then None
    else if e == Enables(d) then Some(true)
    else if e == Disables(d) then Some(false)
    else before
  }

  lemma {:induction false} RequestsAreRemembered(s: Sys, es: seq<Event>, d: string, before: Option<bool>)
    requires Inv(s.m.sel) && CanRun(s, es)
    requires d in s.m.devices ==> s.m.devices[d].enabled == (before != Some(false))
    ensures d in Run(s, es).m.devices ==>
              Run(s, es).m.devices[d].enabled == (LastRequest(s, es, d, before) != Some(false))
    decreases |es|
  {
    hide CanHappen, Next, ConnRight, OriginRight;
    if es != [] {
      var s' := Next(s, es[0]);
      if d in s'.m.devices {
        DeviceAfter(s, es[0], d);
      }
      RequestsAreRemembered(s', es[1..], d, RequestNow(s, es[0], d, before));
    }
  }

  /**
   Whether device d was switched on by request while it had no connection, after a request had switched it off, and
   has neither connected nor been switched off since.
  */
  ghost function OnMeanwhile(s: Sys, es: seq<Event>, d: string, last: Option<bool>, before: bool): bool
    requires Inv(s.m.sel) && CanRun(s, es)
    decreases |es|
  {
    if es == [] then before
    else
      OnMeanwhile(Next(s, es[0]), es[1..], d, RequestNow(s, es[0], d, last), OnMeanwhileNow(s, es[0], d, last, before))
  }

  predicate OnMeanwhileNow(s: Sys, e: Event, d: string, last: Option<bool>, before: bool) {
    && d in s.m.devices && e != Disables(d) && !(e.DeviceJoins? && Brings(e, d))
    && (before || (e == Enables(d) && last == Some(false) && Current(s, d).None?))
  }

  /** What an event does to the record of devices switched on meanwhile. */
  predicate FlippedNow(s: Sys, e: Event, d: string, flipped: bool) {
    flipped <==>
    && d in s.m.devices && e != Disables(d) && !(e.DeviceJoins? && Brings(e, d))
    && !(e == Deletes(d) && DeletionRefusal(s.m, d).None?)
    && (d in s.flipped || (e == Enables(d) && !s.m.devices[d].enabled && s.m.devices[d].conn.None?))
  }

  lemma FlippedUntouched(s: Sys, e: Event)
    requires Inv(s.m.sel) && CanHappen(s, e) && !e.DeviceJoins? && !e.Enables? && !e.Disables? && !e.Deletes?
    ensures Next(s, e).flipped == s.flipped
  {
    hide OnDeviceJoins, OnEnables, OnDisables, OnDeletes;
    hide Inv, MayPick, WorkerAvailable, WorkerUnavailable, ForgetAll, Selected, Handout, Own, CountedBy;
  }

  lemma FlippedByRequest(s: Sys, e: Event, d: string)
    requires Inv(s.m.sel) && (e.Enables? || e.Disables? || e.Deletes?) && Selectable(s)
    ensures var s' := if e.Enables? then OnEnables(s, e.d)
                      else if e.Disables? then OnDisables(s, e.d)
                      else OnDeletes(s, e.d);
            FlippedNow(s, e, d, d in s'.flipped)
  {
    if d in s.m.devices {
      assert SwitchedRight(s, d);
    }
    hide Selectable, Inv, SetEnabled, SetDisabled, RemoveIfDead, DeletionRefusal, Switch;
  }

  lemma FlippedAfter(s: Sys, e: Event, d: string)
    requires Inv(s.m.sel) && CanHappen(s, e) && Selectable(s)
    ensures FlippedNow(s, e, d, d in Next(s, e).flipped)
  {
    hide OnEnables, OnDisables, OnDeletes, OnJoinBegins, OnDeviceCloses;
    hide Inv, SwitchedRight, DeviceRegistered, CountedBy, LogOf, Entry;
    match e
    case DeviceJoins(_, _, _, _) =>
    case Enables(_) => FlippedByRequest(s, e, d);
    case Disables(_) => FlippedByRequest(s, e, d);
    case Deletes(_) => FlippedByRequest(s, e, d);
    case _ =>
      FlippedUntouched(s, e);
      hide Next;
  }

  lemma {:induction false} FlipsAreTold(s: Sys, es: seq<Event>, d: string, last: Option<bool>, before: bool)
    requires Inv(s.m.sel) && CanRun(s, es) && Selectable(s) && KeyedTable(s)
    requires d in s.m.devices ==> s.m.devices[d].enabled == (last != Some(false)) && (d in s.flipped <==> before)
    ensures d in Run(s, es).m.devices ==> (d in Run(s, es).flipped <==> OnMeanwhile(s, es, d, last, before))
    decreases |es|
  {
    hide CanHappen, Next, ConnRight, OriginRight, Selectable, KeyedTable;
    if es != [] {
      var s', e := Next(s, es[0]), es[0];
      NextKeepsSelectable(s, e);
      NextKeepsKeyed(s, e);
      if d in s'.m.devices {
        DeviceAfter(s, e, d);
        FlippedAfter(s, e, d);
        StaysAfterDelete(s, e, d);
        hide DeletionRefusal;
      }
      FlipsAreTold(s', es[1..], d, RequestNow(s, e, d, last), OnMeanwhileNow(s, e, d, last, before));
    }
  }

  lemma StaysAfterDelete(s: Sys, e: Event, d: string)
    requires Inv(s.m.sel) && CanHappen(s, e) && d in Next(s, e).m.devices
    ensures e == Deletes(d) && d in s.m.devices ==> DeletionRefusal(s.m, d).Some?
  {
    hide OnEnables, OnDisables, OnJoinBegins, OnDeviceCloses, OnDeviceJoins;
    hide Inv, RemoveIfDead;
  }

  /**
   Main result.  In every reachable state a device whose last request since it came into the table is a disable is
   reported as off, and is off in the selector, whatever came between; one last enabled, or never asked about, is
   reported as on, and is not off in the selector while it has a connection.  Without a connection a device is off in
   the selector unless it was switched on meanwhile.
  */
  lemma LastRequestDecides(limit: Limit, es: seq<Event>, d: string)
    requires CanRun(Start(limit), es) && d in Run(Start(limit), es).m.devices
    ensures var s := Run(Start(limit), es);
            if LastRequest(Start(limit), es, d, None) == Some(false)
            then !s.m.devices[d].enabled && Switch(s.m.sel, d) == Some(false)
            else s.m.devices[d].enabled && (Current(s, d).Some? ==> Switch(s.m.sel, d) != Some(false))
    ensures var s := Run(Start(limit), es);
            Current(s, d).None? ==> Switch(s.m.sel, d) == Some(OnMeanwhile(Start(limit), es, d, None, false))
  {
    hide CanHappen, CanRun, Next, Run, LastRequest, OnMeanwhile, NeverFlips, Switch;
    RequestsAreRemembered(Start(limit), es, d, None);
    FlipsAreTold(Start(limit), es, d, None, false);
    SwitchedAsRequested(limit, es, d);
  }

  // ------------------------------------------------------------ workers and controllers

  /**
   The worker connection is in the manager's table: its registration has ended, no other has under the same ids since,
   and its close has not.
  */
  ghost function Registered(s: Sys, es: seq<Event>, w: Worker, before: bool): bool
    requires Inv(s.m.sel) && CanRun(s, es)
    decreases |es|
  {
    if es == [] then before else Registered(Next(s, es[0]), es[1..], w, RegisteredNow(s, es[0], w, before))
  }

  /** A registration and a close each end with an event of their own, for the worker the section began with. */
  predicate RegisteredNow(s: Sys, e: Event, w: Worker, before: bool) {
    if e.JoinEnds? && s.pending.Joining? && SameIds(s.pending.w, w) then s.pending.w == w
    else before && !(e.CloseEnds? && s.pending.Closing? && s.pending.w == w)
  }

  lemma TabledAfter(s: Sys, e: Event, w: Worker)
    requires Inv(s.m.sel) && CanHappen(s, e) && KeyedTable(s)
    ensures Tabled(Next(s, e).m, w) <==> RegisteredNow(s, e, w, Tabled(s.m, w))
  {
    hide OnJoinEnds, OnCloseEnds, OnDeletes, Inv;
    if e.JoinEnds? {
      EntryTables(s, w);
    } else if e.CloseEnds? {
      CloseUntables(s, w);
    } else if e.Deletes? {
      DeletionSparesWorkers(s, e.d, w);
    } else {
      WorkersUntouched(s, e);
      hide Next;
    }
    hide Tabled;
  }

  lemma EntryTables(s: Sys, w: Worker)
    requires Inv(s.m.sel) && s.pending.Joining? && s.pending.w.Worker?
    ensures Tabled(OnJoinEnds(s).m, w) <==> if SameIds(s.pending.w, w) then s.pending.w == w else Tabled(s.m, w)
  {
    hide Inv, WorkerAvailable;
  }

  lemma CloseUntables(s: Sys, w: Worker)
    requires s.pending.Closing? && KeyedTable(s)
    ensures Tabled(OnCloseEnds(s).m, w) <==> Tabled(s.m, w) && s.pending.w != w
  {
  }

  lemma DeletionSparesWorkers(s: Sys, d: string, w: Worker)
    requires Inv(s.m.sel)
    ensures Tabled(OnDeletes(s, d).m, w) <==> Tabled(s.m, w)
  {
    hide Inv, RemoveIfDead;
  }

  lemma {:induction false} TableIsTold(s: Sys, es: seq<Event>, w: Worker, before: bool)
    requires Inv(s.m.sel) && CanRun(s, es) && KeyedTable(s) && (Tabled(s.m, w) <==> before)
    ensures Tabled(Run(s, es).m, w) <==> Registered(s, es, w, before)
    decreases |es|
  {
    hide CanHappen, Next, KeyedTable, Tabled, RegisteredNow;
    if es != [] {
      NextKeepsKeyed(s, es[0]);
      TabledAfter(s, es[0], w);
      TableIsTold(Next(s, es[0]), es[1..], w, RegisteredNow(s, es[0], w, before));
    }
  }

  /**
   Main result: in every reachable state the workers in the table are those registered last under their ids and not
   closed since.
  */
  lemma TableHoldsTheRegistered(limit: Limit, es: seq<Event>, w: Worker)
    requires CanRun(Start(limit), es)
    ensures Tabled(Run(Start(limit), es).m, w) <==> Registered(Start(limit), es, w, false)
  {
    TableIsTold(Start(limit), es, w, false);
  }

  /** The worker of the controller last completed under the uuid and not closed since. */
  ghost function Serving(s: Sys, es: seq<Event>, uuid: string, before: Option<Worker>): Option<Worker>
    requires Inv(s.m.sel) && CanRun(s, es)
    decreases |es|
  {
    if es == [] then before else Serving(Next(s, es[0]), es[1..], uuid, ServingNow(s, es[0], uuid, before))
  }

  function ServingNow(s: Sys, e: Event, uuid: string, before: Option<Worker>): Option<Worker> {
    if e.Completes? && e.uuid == uuid && e.ctrl in s.holders then Some(s.holders[e.ctrl].worker)
    else if e == ControllerCloses(uuid) then None
    else before
  }

  function ControllerAt(s: Sys, uuid: string): Option<Worker> {
    if uuid in s.m.controllers then Some(s.m.controllers[uuid]) else None
  }

  lemma ControllerAfter(s: Sys, e: Event, uuid: string)
    requires Inv(s.m.sel) && CanHappen(s, e)
    ensures ControllerAt(Next(s, e), uuid) == ServingNow(s, e, uuid, ControllerAt(s, uuid))
  {
    hide Inv, MayPick, WorkerAvailable, WorkerUnavailable, SetEnabled, SetDisabled, RemoveIfDead, ForgetAll, Selected;
    hide Plus, CountedBy, LogOf, Entry, Own, Handout;
  }

  lemma {:induction false} ControllersAreTold(s: Sys, es: seq<Event>, uuid: string)
    requires Inv(s.m.sel) && CanRun(s, es)
    ensures ControllerAt(Run(s, es), uuid) == Serving(s, es, uuid, ControllerAt(s, uuid))
    decreases |es|
  {
    hide CanHappen, Next, ControllerAt, ServingNow;
    if es != [] {
      ControllerAfter(s, es[0], uuid);
      ControllersAreTold(Next(s, es[0]), es[1..], uuid);
    }
  }

  /** Ten minutes after a connection has left, and no sooner, a prune makes the selector forget it. */
  lemma ForgottenAfterTenMinutes(s: Sys, now: int, d: string, id: string, left: int)
    requires Inv(s.m.sel) && CanHappen(s, Prunes(now)) && d in s.m.sel.devices && id in s.m.sel.devices[d].seen
    requires s.m.sel.devices[d].seen[id].goneAt == Some(left)
    ensures var sel := Next(s, Prunes(now)).m.sel;
            d in sel.devices && (id !in sel.devices[d].seen <==> now - left >= 600_000_000_000)
  {
    hide OnJoinBegins, OnJoinEnds, OnCloseBegins, OnCloseEnds, OnDeviceJoins, OnDeviceCloses, OnEnables, OnDisables;
    hide OnDeletes, OnClaims, OnGivesBack, OnCompletes, OnTraffic, Inv;
  }

  /** Every refusal, and the order in which they are made. */
  lemma RefusalsAreExact(s: Sys, w: Worker, d: string, origin: string)
    requires KeyedTable(s) && w.Worker?
    ensures match WorkerRefusal(w, origin)
            case None => w.id != "" && w.deviceID != "" && origin != ""
            case Some(f) =>
              if w.id == "" then f == EmptyWorkerID
              else if w.deviceID == "" then f == EmptyDeviceID
              else origin == "" && f == EmptyOrigin
    ensures match DeviceRefusal(d, origin)
            case None => d != "" && origin != ""
            case Some(f) => if d == "" then f == EmptyDeviceID else origin == "" && f == EmptyOrigin
    ensures match DeletionRefusal(s.m, d)
            case None => d in s.m.devices && !HasWorkers(s, d) && Current(s, d).None?
            case Some(f) =>
              if d !in s.m.devices then f == DeviceNotKnown
              else if HasWorkers(s, d) then f == DeviceHasWorkers
              else Current(s, d).Some? && f == DeviceIsConnected
    ensures SwitchRefusal(s.m, d) == if d in s.m.devices then None else Some(DeviceNotKnown)
  {
    TableHasWorkers(s, d);
    hide TableOf, HasWorkers;
  }

  /** A controller's claim puts its weight, brought into 1 to 10, on the very worker it is handed. */
  lemma ClaimBearsItsWeight(s: Sys, ctrl: int, weight: int, now: int, p: string)
    requires Inv(s.m.sel) && CanHappen(s, Claims(ctrl, weight, now, Some(p)))
    ensures var s' := Next(s, Claims(ctrl, weight, now, Some(p)));
            var w := Handout(s.m.sel, Some(p));
            && ctrl in s'.holders && s'.holders[ctrl] == Pending(w) && w.Worker?
            && w.deviceID in s'.m.sel.devices && w.id in s'.m.sel.devices[w.deviceID].seen
            && s'.m.sel.devices[w.deviceID].seen[w.id].weight == ServedWeight(weight)
  {
    var sel, clamped := s.m.sel, ClampWeight(weight);
    assert clamped == ServedWeight(weight) == ServedWeight(clamped);
    HandedIsSeen(sel, clamped, now, p);
    SelectionAssigns(sel, clamped, now, p, p, Handout(sel, Some(p)).id);
    hide Inv, MayPick, Selected, Handout, ClampWeight, ServedWeight;
    hide OnJoinBegins, OnJoinEnds, OnCloseBegins, OnCloseEnds, OnDeviceJoins, OnDeviceCloses, OnEnables, OnDisables;
    hide OnDeletes, OnGivesBack, OnCompletes, OnTraffic;
  }

  lemma HandedIsSeen(s: Sel, weight: int, now: int, p: string)
    requires Inv(s) && MayPick(s, weight, now, Some(p))
    ensures var w := Handout(s, Some(p));
            p in s.devices && w.Worker? && w.deviceID == p && w.id in s.devices[p].seen
  {
    PickHandsOut(s, weight, now, Some(p));
    QueueIsSeen(s.devices[p]);
    hide Inv, Handout, Accounting;
  }
}
