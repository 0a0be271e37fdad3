/**
 The connection manager of libs/connections/manager.go, on values: each function is one section
 under the manager's mutex.  The class in Manager.dfy is proved to do exactly this; ManagerRuns.dfy
 proves what whole runs of these sections keep.
*/
module ManagerModel {
  import opened Basics
  import opened SelectorModel
  import opened SelectorViews
  import opened ConnStats

  const SEEN_RETENTION := 600_000_000_000

  /** A device in the manager's table; conn is the serial of its control connection. */
  datatype Device = Device(origin: string, conn: Option<int>, enabled: bool, previous: Stats)

  datatype Mgr = Mgr(
    devices: map<string, Device>,
    workers: map<string, map<string, Worker>>,
    controllers: map<string, Worker>,
    sel: Sel)

  datatype Failure = EmptyWorkerID | EmptyDeviceID | EmptyOrigin | DeviceNotKnown | DeviceHasWorkers | DeviceIsConnected

  function FreshDevice(origin: string): Device {
    Device(origin, None, true, ZERO_STATS)
  }

  function TableOf(m: Mgr, d: string): map<string, Worker> {
    if d in m.workers then m.workers[d] else map[]
  }

  /** The worker's own connection is the one in the manager's table under its ids. */
  predicate Tabled(m: Mgr, w: Worker) {
    w.Worker? && w.deviceID in m.workers && w.id in m.workers[w.deviceID] && m.workers[w.deviceID][w.id] == w
  }

  // ------------------------------------------------------------ workers

  function WorkerRefusal(w: Worker, origin: string): Option<Failure>
    requires w.Worker?
  {
    if w.id == "" then Some(EmptyWorkerID)
    else if w.deviceID == "" then Some(EmptyDeviceID)
    else if origin == "" then Some(EmptyOrigin)
    else None
  }

  /** A worker that comes before its device's control connection creates the device, switched off in the selector. */
  function DeviceForWorker(m: Mgr, d: string, origin: string): Mgr {
    if d in m.devices then m else m.(devices := m.devices[d := FreshDevice(origin)], sel := SetDisabled(m.sel, d))
  }

  /** The rest of a registration: the manager's table, then the announcement. */
  function WorkerEntered(m: Mgr, w: Worker): (m': Mgr)
    requires Inv(m.sel) && w.Worker?
    ensures Inv(m'.sel)
  {
    hide Inv;
    WorkerAvailableKeepsInv(m.sel, w);
    m.(workers := m.workers[w.deviceID := TableOf(m, w.deviceID)[w.id := w]], sel := WorkerAvailable(m.sel, w))
  }

  function WorkerRegistered(m: Mgr, w: Worker, origin: string): (m': Mgr)
    requires Inv(m.sel) && w.Worker?
    ensures Inv(m'.sel)
  {
    hide Inv;
    SwitchKeepsInv(m.sel, w.deviceID);
    if WorkerRefusal(w, origin).Some? then m else WorkerEntered(DeviceForWorker(m, w.deviceID, origin), w)
  }

  /** The end of the worker's close handler: the table entry goes if it is this connection's. */
  function WorkerUntabled(m: Mgr, w: Worker): Mgr {
    m.(workers := if Tabled(m, w) then m.workers[w.deviceID := m.workers[w.deviceID] - {w.id}] else m.workers)
  }

  /** The worker's close handler: the selector first. */
  function WorkerClosed(m: Mgr, w: Worker, now: int): (m': Mgr)
    requires Inv(m.sel)
    ensures Inv(m'.sel)
  {
    hide Inv;
    WorkerUnavailableKeepsInv(m.sel, w, now);
    WorkerUntabled(m.(sel := WorkerUnavailable(m.sel, w, now)), w)
  }

  // ------------------------------------------------------------ devices

  function DeviceRefusal(d: string, origin: string): Option<Failure> {
    if d == "" then Some(EmptyDeviceID) else if origin == "" then Some(EmptyOrigin) else None
  }

  /** The device a control connection is for, with what the connection it replaces, if any, has counted by now. */
  function DeviceReady(m: Mgr, d: string, origin: string, folded: Stats): (m': Mgr)
    ensures d in m'.devices
  {
    if d !in m.devices then m.(devices := m.devices[d := FreshDevice(origin)])
    else if m.devices[d].conn.Some?
    then m.(devices := m.devices[d := m.devices[d].(previous := Plus(m.devices[d].previous, folded))])
    else m
  }

  /** A control connection arrives. */
  function DeviceRegistered(m: Mgr, d: string, origin: string, conn: int, folded: Stats): Mgr {
    if DeviceRefusal(d, origin).Some? then m
    else
      var m1 := DeviceReady(m, d, origin, folded);
      var dev := m1.devices[d];
      m1.(devices := m1.devices[d := dev.(origin := origin, conn := Some(conn))],
          sel := if dev.conn.None? && dev.enabled then SetEnabled(m1.sel, d) else m1.sel)
  }

  /** The control connection's close handler: nothing, unless the connection is still the device's own. */
  function DeviceClosed(m: Mgr, d: string, conn: int, folded: Stats): Mgr {
    if d in m.devices && m.devices[d].conn == Some(conn) then
      var dev := m.devices[d];
      m.(devices := m.devices[d := dev.(conn := None, previous := Plus(dev.previous, folded))],
         sel := if dev.enabled then SetDisabled(m.sel, d) else m.sel)
    else m
  }

  /** Only a change of the flag reaches the selector. */
  function DeviceEnabled(m: Mgr, d: string): Mgr {
    if d in m.devices && !m.devices[d].enabled
    then m.(devices := m.devices[d := m.devices[d].(enabled := true)], sel := SetEnabled(m.sel, d))
    else m
  }

  function DeviceDisabled(m: Mgr, d: string): Mgr {
    if d in m.devices && m.devices[d].enabled
    then m.(devices := m.devices[d := m.devices[d].(enabled := false)], sel := SetDisabled(m.sel, d))
    else m
  }

  function SwitchRefusal(m: Mgr, d: string): Option<Failure> {
    if d in m.devices then None else Some(DeviceNotKnown)
  }

  function DeletionRefusal(m: Mgr, d: string): Option<Failure> {
    if d !in m.devices then Some(DeviceNotKnown)
    else if TableOf(m, d) != map[] then Some(DeviceHasWorkers)
    else if m.devices[d].conn.Some? then Some(DeviceIsConnected)
    else None
  }

  function DeviceDeleted(m: Mgr, d: string): Mgr {
    if DeletionRefusal(m, d).Some? then m
    else m.(devices := m.devices - {d}, workers := m.workers - {d}, sel := RemoveIfDead(m.sel, d))
  }

  function Deletable(m: Mgr): set<string> {
    set d | d in m.devices && DeletionRefusal(m, d).None?
  }

  /** DeleteUnconnectedDevices, walking the table in the order given. */
  function DeletedInOrder(m: Mgr, order: seq<string>): Mgr {
    if order == [] then m else DeviceDeleted(DeletedInOrder(m, order[..|order| - 1]), order[|order| - 1])
  }

  // ------------------------------------------------------------ controllers

  function WorkerClaimed(m: Mgr, weight: int, now: int, pick: Option<string>): Mgr
    requires Inv(m.sel) && MayPick(m.sel, ClampWeight(weight), now, pick)
  {
    m.(sel := Selected(m.sel, ClampWeight(weight), now, pick))
  }

  /** A registration that fails after its claim gives the worker back, whatever has become of it. */
  function WorkerGivenBack(m: Mgr, w: Worker): Mgr
    requires Inv(m.sel)
  {
    m.(sel := WorkerAvailable(m.sel, w))
  }

  function ControllerRegistered(m: Mgr, uuid: string, w: Worker): Mgr {
    m.(controllers := m.controllers[uuid := w])
  }

  function ControllerClosed(m: Mgr, uuid: string): Mgr {
    m.(controllers := m.controllers - {uuid})
  }

  function Pruned(m: Mgr, now: int): Mgr {
    m.(sel := ForgetAll(m.sel, SEEN_RETENTION, now))
  }

  // ------------------------------------------------------------ first properties

  /** The registration of a control connection in one step. */
  lemma RegisteredAtOnce(m: Mgr, d: string, origin: string, conn: int, folded: Stats)
    requires DeviceRefusal(d, origin).None?
    ensures var known := if d in m.devices then m.devices[d] else FreshDevice(origin);
            var previous := if known.conn.Some? then Plus(known.previous, folded) else known.previous;
            DeviceRegistered(m, d, origin, conn, folded) ==
              m.(devices := m.devices[d := Device(origin, Some(conn), known.enabled, previous)],
                 sel := if known.conn.None? && known.enabled then SetEnabled(m.sel, d) else m.sel)
  {
    hide Plus, SetEnabled;
    var m1 := DeviceReady(m, d, origin, folded);
    var dev := m1.devices[d].(origin := origin, conn := Some(conn));
    assert m1.devices[d := dev] == m.devices[d := dev];
  }

  lemma ClaimedKeepsInv(m: Mgr, weight: int, now: int, pick: Option<string>)
    requires Inv(m.sel) && MayPick(m.sel, ClampWeight(weight), now, pick)
    ensures Inv(WorkerClaimed(m, weight, now, pick).sel)
  {
    hide Inv, Rank;
    SelectedKeepsInv(m.sel, ClampWeight(weight), now, pick);
  }

  lemma DevicesKeepInv(m: Mgr, d: string, origin: string, conn: int, folded: Stats)
    requires Inv(m.sel)
    ensures Inv(DeviceRegistered(m, d, origin, conn, folded).sel) && Inv(DeviceClosed(m, d, conn, folded).sel)
    ensures Inv(DeviceEnabled(m, d).sel) && Inv(DeviceDisabled(m, d).sel) && Inv(DeviceDeleted(m, d).sel)
  {
    hide Inv;
    SwitchKeepsInv(m.sel, d);
    RemoveKeepsInv(m.sel, d);
  }

  // ------------------------------------------------------------ deleting many

  predicate Listed(order: seq<string>, ds: set<string>) {
    Distinct(order) && (set d | d in order) == ds
  }

  /** Deleting one device changes no other's answer. */
  lemma OthersStayDeletable(m: Mgr, d: string, e: string)
    requires d != e
    ensures DeletionRefusal(DeviceDeleted(m, d), e) == DeletionRefusal(m, e)
  {
  }

  lemma {:induction false} StillDeletable(m: Mgr, order: seq<string>, e: string)
    requires e !in order
    ensures DeletionRefusal(DeletedInOrder(m, order), e) == DeletionRefusal(m, e)
  {
    if order != [] {
      StillDeletable(m, order[..|order| - 1], e);
      OthersStayDeletable(DeletedInOrder(m, order[..|order| - 1]), order[|order| - 1], e);
    }
  }

  function Dead(s: Sel, ds: set<string>): set<string> {
    set d | d in ds && d in s.devices && !HasAssigned(s.devices[d])
  }

  function WithoutDevices(m: Mgr, ds: set<string>): Mgr {
    m.(devices := m.devices - ds, workers := m.workers - ds, sel := m.sel.(devices := m.sel.devices - Dead(m.sel, ds)))
  }

  lemma WithoutOneMore(m: Mgr, ds: set<string>, d: string)
    requires d !in ds
    ensures var m' := WithoutDevices(m, ds);
            m'.(devices := m'.devices - {d}, workers := m'.workers - {d}, sel := RemoveIfDead(m'.sel, d))
              == WithoutDevices(m, ds + {d})
  {
    hide HasAssigned;
    var m' := WithoutDevices(m, ds);
    assert m'.devices - {d} == m.devices - (ds + {d}) && m'.workers - {d} == m.workers - (ds + {d});
    assert Dead(m.sel, ds + {d}) == Dead(m.sel, ds) + Dead(m.sel, {d});
    assert RemoveIfDead(m'.sel, d).devices == m'.sel.devices - Dead(m.sel, {d});
    assert m'.sel.devices - Dead(m.sel, {d}) == m.sel.devices - Dead(m.sel, ds + {d});
  }

  lemma WithoutNone(m: Mgr)
    ensures WithoutDevices(m, {}) == m
  {
    assert m.devices - {} == m.devices && m.workers - {} == m.workers;
    assert m.sel.devices - Dead(m.sel, {}) == m.sel.devices;
  }

  /** The order of the walk makes no difference. */
  lemma {:induction false} DeletionOrderIsFree(m: Mgr, order: seq<string>)
    requires Distinct(order) && forall d :: d in order ==> DeletionRefusal(m, d).None?
    ensures DeletedInOrder(m, order) == WithoutDevices(m, (set d | d in order))
  {
    hide WithoutDevices, DeletionRefusal, RemoveIfDead;
    if order == [] {
      WithoutNone(m);
      assert (set d | d in order) == {};
    } else {
      var rest, last := order[..|order| - 1], order[|order| - 1];
      DeletionOrderIsFree(m, rest);
      assert order == rest + [last] && last !in rest;
      StillDeletable(m, rest, last);
      WithoutOneMore(m, (set d | d in rest), last);
      assert (set d | d in order) == (set d | d in rest) + {last};
    }
  }
}
