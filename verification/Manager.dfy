/**
 The connection manager's own object: libs/connections/manager.go in the form it is written, each
 method proved to act on the abstract state as ManagerModel says.  A method here is one section
 under the manager's mutex, or, for a give-back, under the selector's alone.
*/
module Manager {
  import opened Basics
  import opened History
  import opened SelectorModel
  import opened Selector
  import opened ConnStats
  import opened MitmDevice
  import opened ManagerModel

  function DeviceValue(x: MitmDevice): Device
    reads x
  {
    Device(x.origin, if x.deviceConn == null then None else Some(x.deviceConn.serial),
           x.selectionEnabled, x.previousWSConnStats)
  }

  class ConnectionManager {
    const workerSelector: BalancedSelector
    var allDevicesByID: map<string, MitmDevice>
    var workersByDeviceID: map<string, map<string, Worker>>
    var controllers: map<string, Worker>
    ghost var known: set<MitmDevice>   // every device ever in the table
    ghost var Repr: set<object>

    ghost predicate OwnsSelector()
      reads this, Repr
    {
      && this in Repr && workerSelector in Repr && workerSelector.Repr <= Repr && this !in workerSelector.Repr
      && workerSelector.Valid()
    }

    /** A device that is out of the table has no connection. */
    ghost predicate OwnsDevices()
      reads this, Repr
    {
      && workerSelector in Repr
      && (forall x :: x in known ==> x in Repr && x !in workerSelector.Repr)
      && (forall d :: d in allDevicesByID ==> allDevicesByID[d] in known && allDevicesByID[d].id == d)
      && (forall x :: x in known && x.deviceConn != null ==> x.id in allDevicesByID && allDevicesByID[x.id] == x)
    }

    ghost predicate Shape()
      reads this, Repr
      ensures Shape() ==> this in Repr && workerSelector in Repr
    {
      OwnsSelector() && OwnsDevices()
    }

    ghost function DeviceValues(): map<string, Device>
      requires OwnsDevices()
      reads this, Repr
    {
      map d | d in allDevicesByID :: DeviceValue(allDevicesByID[d])
    }

    ghost function Model(): (m: Mgr)
      requires Shape()
      reads this, Repr
      ensures Inv(m.sel) && m.devices.Keys == allDevicesByID.Keys && m.workers == workersByDeviceID
      ensures m.controllers == controllers
    {
      Mgr(DeviceValues(), workersByDeviceID, controllers, workerSelector.Model())
    }

    constructor (limit: Limit)
      ensures Shape() && fresh(Repr) && Model() == Mgr(map[], map[], map[], Sel(map[], limit))
    {
      workerSelector := new BalancedSelector(limit);
      allDevicesByID, workersByDeviceID, controllers, known := map[], map[], map[], {};
      new;
      Repr := {this} + workerSelector.Repr + {workerSelector};
    }

    // ---------------------------------------------------------- calls on the selector

    method SelectorAvailable(worker: Worker)
      requires Shape()
      modifies Repr
      ensures Shape() && fresh(Repr - old(Repr)) && known == old(known) && allDevicesByID == old(allDevicesByID)
      ensures Model() == old(Model()).(sel := WorkerAvailable(old(Model()).sel, worker))
    {
      hide BalancedSelector.Valid, BalancedSelector.Shape, BalancedSelector.Model, DeviceValue, Inv;
      ghost var before := DeviceValues();
      workerSelector.SetWorkerAvailable(worker);
      Repr := Repr + workerSelector.Repr;
      assert DeviceValues() == before;
    }

    method SelectorUnavailable(worker: Worker, now: int)
      requires Shape()
      modifies Repr
      ensures Shape() && fresh(Repr - old(Repr)) && known == old(known) && allDevicesByID == old(allDevicesByID)
      ensures Model() == old(Model()).(sel := WorkerUnavailable(old(Model()).sel, worker, now))
    {
      hide BalancedSelector.Valid, BalancedSelector.Shape, BalancedSelector.Model, DeviceValue, Inv;
      ghost var before := DeviceValues();
      workerSelector.SetWorkerUnavailable(worker, now);
      Repr := Repr + workerSelector.Repr;
      assert DeviceValues() == before;
    }

    method SelectorEnables(d: string)
      requires Shape()
      modifies Repr
      ensures Shape() && fresh(Repr - old(Repr)) && known == old(known) && allDevicesByID == old(allDevicesByID)
      ensures Model() == old(Model()).(sel := SetEnabled(old(Model()).sel, d))
    {
      hide BalancedSelector.Valid, BalancedSelector.Shape, BalancedSelector.Model, DeviceValue, Inv;
      ghost var before := DeviceValues();
      workerSelector.EnableDevice(d);
      Repr := Repr + workerSelector.Repr;
      assert DeviceValues() == before;
    }

    method SelectorDisables(d: string)
      requires Shape()
      modifies Repr
      ensures Shape() && fresh(Repr - old(Repr)) && known == old(known) && allDevicesByID == old(allDevicesByID)
      ensures Model() == old(Model()).(sel := SetDisabled(old(Model()).sel, d))
    {
      hide BalancedSelector.Valid, BalancedSelector.Shape, BalancedSelector.Model, DeviceValue, Inv;
      ghost var before := DeviceValues();
      workerSelector.DisableDevice(d);
      Repr := Repr + workerSelector.Repr;
      assert DeviceValues() == before;
    }

    method SelectorRemoves(d: string)
      requires Shape()
      modifies Repr
      ensures Shape() && fresh(Repr - old(Repr)) && known == old(known) && allDevicesByID == old(allDevicesByID)
      ensures Model() == old(Model()).(sel := RemoveIfDead(old(Model()).sel, d))
    {
      hide BalancedSelector.Valid, BalancedSelector.Shape, BalancedSelector.Model, DeviceValue, Inv;
      ghost var before := DeviceValues();
      workerSelector.RemoveDeadDevice(d);
      Repr := Repr + workerSelector.Repr;
      assert DeviceValues() == before;
    }

    method PruneSelectorWorkerIDs(now: int)
      requires Shape()
      modifies Repr
      ensures Shape() && fresh(Repr - old(Repr)) && known == old(known) && allDevicesByID == old(allDevicesByID)
      ensures Model() == Pruned(old(Model()), now)
    {
      hide BalancedSelector.Valid, BalancedSelector.Shape, BalancedSelector.Model, DeviceValue, Inv;
      ghost var before := DeviceValues();
      workerSelector.PruneWorkerIDsSeen(SEEN_RETENTION, now);
      Repr := Repr + workerSelector.Repr;
      assert DeviceValues() == before;
    }

    // ---------------------------------------------------------- controllers

    /** The claim of a controller registration: the weight is clamped here, and again by the selector. */
    method ClaimWorker(weight: int, now: int) returns (worker: Worker, ghost pick: Option<string>)
      requires Shape()
      modifies Repr
      ensures Shape() && fresh(Repr - old(Repr)) && old(known) <= known
      ensures MayPick(old(Model()).sel, ClampWeight(weight), now, pick) && worker == Handout(old(Model()).sel, pick)
      ensures Model() == WorkerClaimed(old(Model()), weight, now, pick)
    {
      hide BalancedSelector.Valid, BalancedSelector.Shape, BalancedSelector.Model, DeviceValue, Inv;
      ghost var before := DeviceValues();
      var w := weight;
      if w < MINIMUM_WEIGHT {
        w := DEFAULT_WEIGHT;
      } else if w > MAXIMUM_WEIGHT {
        w := MAXIMUM_WEIGHT;
      }
      worker, pick := workerSelector.GetAvailableWorker(w, now);
      assert DeviceValues() == before;
    }

    /** A registration that fails after the claim gives the worker back. */
    method GiveBackWorker(worker: Worker)
      requires Shape()
      modifies Repr
      ensures Shape() && fresh(Repr - old(Repr)) && old(known) <= known
      ensures Model() == WorkerGivenBack(old(Model()), worker)
    {
      SelectorAvailable(worker);
    }

    /** registerController, with the identifiers tried in turn until one is not taken. */
    method RegisterController(candidates: seq<string>, worker: Worker) returns (uuid: string)
      requires Shape() && exists i :: 0 <= i < |candidates| && candidates[i] !in controllers
      modifies this`controllers
      ensures Shape() && uuid !in old(Model()).controllers
      ensures Model() == ControllerRegistered(old(Model()), uuid, worker)
    {
      hide Shape, Model, Inv;
      ghost var free :| 0 <= free < |candidates| && candidates[free] !in controllers;
      var i := 0;
      while candidates[i] in controllers
        invariant 0 <= i <= free
        decreases free - i
      {
        i := i + 1;
      }
      uuid := candidates[i];
      SetControllers(controllers[uuid := worker]);
    }

    /** The controller's close handler. */
    method ControllerConnClosed(uuid: string)
      requires Shape()
      modifies this`controllers
      ensures Shape() && Model() == ControllerClosed(old(Model()), uuid)
    {
      hide Shape, Model, Inv;
      SetControllers(controllers - {uuid});
    }

    method SetControllers(controllers: map<string, Worker>)
      requires Shape()
      modifies this`controllers
      ensures Shape() && Repr == old(Repr) && Model() == old(Model()).(controllers := controllers)
    {
      hide BalancedSelector.Valid, BalancedSelector.Shape, BalancedSelector.Model, DeviceValue, Inv;
      this.controllers := controllers;
    }

    // ---------------------------------------------------------- workers

    method AddNewDevice(d: string, origin: string) returns (device: MitmDevice)
      requires Shape() && d !in allDevicesByID
      modifies this
      ensures Shape() && fresh(Repr - old(Repr)) && old(known) <= known && d in allDevicesByID
      ensures allDevicesByID[d] == device && device.deviceConn == null
      ensures Model() == old(Model()).(devices := old(Model()).devices[d := FreshDevice(origin)])
    {
      hide BalancedSelector.Valid, BalancedSelector.Shape, BalancedSelector.Model, DeviceValue, Inv;
      ghost var before := DeviceValues();
      device := new MitmDevice(d, origin);
      allDevicesByID := allDevicesByID[d := device];
      known := known + {device};
      Repr := Repr + {device};
      FreshValue(device);
      ValuesWith(this, before, d);
    }

    method RegisterWorker(worker: Worker, origin: string) returns (failure: Option<Failure>)
      requires Shape() && worker.Worker?
      modifies Repr
      ensures Shape() && fresh(Repr - old(Repr)) && old(known) <= known
      ensures failure == WorkerRefusal(worker, origin)
      ensures Model() == WorkerRegistered(old(Model()), worker, origin)
    {
      hide Shape, Model, Inv;
      var deviceID, workerID := worker.deviceID, worker.id;
      if workerID == "" {
        return Some(EmptyWorkerID);
      }
      if deviceID == "" {
        return Some(EmptyDeviceID);
      }
      if origin == "" {
        return Some(EmptyOrigin);
      }
      if deviceID !in allDevicesByID {
        var _ := AddNewDevice(deviceID, origin);
        SelectorDisables(deviceID);
      }
      var deviceWorkers := if deviceID in workersByDeviceID then workersByDeviceID[deviceID] else map[];
      deviceWorkers := deviceWorkers[workerID := worker];
      SetDeviceWorkers(deviceID, deviceWorkers);
      SelectorAvailable(worker);
      failure := None;
    }

    method SetDeviceWorkers(d: string, workers: map<string, Worker>)
      requires Shape()
      modifies this`workersByDeviceID
      ensures Shape() && Repr == old(Repr) && Model() == old(Model()).(workers := old(Model()).workers[d := workers])
    {
      hide BalancedSelector.Valid, BalancedSelector.Shape, BalancedSelector.Model, DeviceValue, Inv;
      workersByDeviceID := workersByDeviceID[d := workers];
    }

    /** The worker's close handler. */
    method WorkerConnClosed(worker: Worker, now: int)
      requires Shape() && worker.Worker?
      modifies Repr
      ensures Shape() && fresh(Repr - old(Repr)) && old(known) <= known
      ensures Model() == WorkerClosed(old(Model()), worker, now)
    {
      hide Shape, Model, Inv;
      SelectorUnavailable(worker, now);
      if worker.deviceID in workersByDeviceID {
        var deviceWorkers := workersByDeviceID[worker.deviceID];
        if worker.id in deviceWorkers && deviceWorkers[worker.id] == worker {
          SetDeviceWorkers(worker.deviceID, deviceWorkers - {worker.id});
        }
      }
    }

    // ---------------------------------------------------------- devices

    ghost function ConnOf(d: string): DeviceConn?
      requires OwnsDevices()
      reads this, Repr
    {
      if d in allDevicesByID then allDevicesByID[d].deviceConn else null
    }

    method FoldStats(d: string)
      requires Shape() && d in allDevicesByID
      modifies Repr
      ensures Shape() && Repr == old(Repr) && allDevicesByID == old(allDevicesByID) && known == old(known)
      ensures forall x :: x in known ==> x.deviceConn == old(x.deviceConn)
      ensures d in old(Model()).devices
      ensures old(ConnOf(d)) == null ==> Model() == old(Model())
      ensures old(ConnOf(d)) != null ==>
        var dev := old(Model()).devices[d];
        Model() == old(Model()).(devices := old(Model()).devices[d :=
                     dev.(previous := Plus(dev.previous, old(ConnOf(d).connStats.Value())))])
    {
      hide BalancedSelector.Valid, BalancedSelector.Shape, BalancedSelector.Model, Plus, Inv;
      ghost var before := DeviceValues();
      allDevicesByID[d].AccumulateStats(allDevicesByID[d].deviceConn);
      ValuesWith(this, before, d);
      assert old(ConnOf(d)) == null ==> before[d := DeviceValue(allDevicesByID[d])] == before;
    }

    method PlugIn(d: string, origin: string, conn: DeviceConn) returns (was: DeviceConn?)
      requires Shape() && d in allDevicesByID
      modifies Repr
      ensures Shape() && Repr == old(Repr) && allDevicesByID == old(allDevicesByID) && known == old(known)
      ensures d in old(Model()).devices && (was == null <==> old(Model()).devices[d].conn == None)
      ensures Model() == old(Model()).(devices := old(Model()).devices[d :=
                           old(Model()).devices[d].(origin := origin, conn := Some(conn.serial))])
    {
      hide BalancedSelector.Valid, BalancedSelector.Shape, BalancedSelector.Model, Plus, Inv;
      ghost var before := DeviceValues();
      allDevicesByID[d].origin := origin;
      was := allDevicesByID[d].SwapConn(conn);
      ValuesWith(this, before, d);
    }

    method UnplugIfCurrent(device: MitmDevice, conn: DeviceConn) returns (swapped: bool)
      requires Shape() && device in known
      modifies Repr
      ensures Shape() && Repr == old(Repr) && allDevicesByID == old(allDevicesByID) && known == old(known)
      ensures swapped == (old(device.deviceConn) == conn)
      ensures !swapped ==> Model() == old(Model())
      ensures swapped ==> device.id in allDevicesByID && allDevicesByID[device.id] == device
      ensures swapped ==> device.id in old(Model()).devices
      ensures swapped ==>
        var dev := old(Model()).devices[device.id];
        var previous := Plus(dev.previous, old(conn.connStats.Value()));
        dev.conn == Some(conn.serial) &&
        Model() == old(Model()).(devices := old(Model()).devices[device.id := dev.(conn := None, previous := previous)])
    {
      hide BalancedSelector.Valid, BalancedSelector.Shape, BalancedSelector.Model, Plus, Inv;
      ghost var before := DeviceValues();
      swapped := device.CompareAndSwapConn(conn, null);
      if swapped {
        device.AccumulateStats(conn);
        ValuesWith(this, before, device.id);
      } else {
        assert DeviceValues() == before;
      }
    }

    method SwitchFlag(d: string, enabled: bool) returns (changed: bool)
      requires Shape() && d in allDevicesByID
      modifies Repr
      ensures Shape() && Repr == old(Repr) && allDevicesByID == old(allDevicesByID) && known == old(known)
      ensures d in old(Model()).devices && changed == (old(Model()).devices[d].enabled != enabled)
      ensures Model() == old(Model()).(devices := old(Model()).devices[d :=
                           old(Model()).devices[d].(enabled := enabled)])
    {
      hide BalancedSelector.Valid, BalancedSelector.Shape, BalancedSelector.Model, Plus, Inv;
      ghost var before := DeviceValues();
      changed := allDevicesByID[d].SetSelectionEnabled(enabled);
      ValuesWith(this, before, d);
    }

    method Unlist(d: string)
      requires Shape() && d in allDevicesByID && allDevicesByID[d].deviceConn == null
      modifies this
      ensures Shape() && Repr == old(Repr) && known == old(known)
      ensures Model() == old(Model()).(devices := old(Model()).devices - {d}, workers := old(Model()).workers - {d})
    {
      hide BalancedSelector.Valid, BalancedSelector.Shape, BalancedSelector.Model, DeviceValue, Inv;
      ghost var before := DeviceValues();
      allDevicesByID := allDevicesByID - {d};
      workersByDeviceID := workersByDeviceID - {d};
      assert DeviceValues() == before - {d};
    }

    /** The device, added or with the statistics of its present connection folded. */
    method ReadyDevice(d: string, origin: string)
      requires Shape()
      modifies Repr
      ensures Shape() && fresh(Repr - old(Repr)) && old(known) <= known && d in allDevicesByID
      ensures var was := old(ConnOf(d));
              Model() == DeviceReady(old(Model()), d, origin,
                           if was == null then ZERO_STATS else old(was.connStats.Value()))
    {
      hide Shape, Model, Inv, Plus;
      if d !in allDevicesByID {
        var _ := AddNewDevice(d, origin);
      } else {
        ListedDevice(this, d);
        FoldStats(d);
      }
    }

    method RegisterDeviceConnection(d: string, origin: string, conn: DeviceConn) returns (failure: Option<Failure>)
      requires Shape()
      modifies Repr
      ensures Shape() && fresh(Repr - old(Repr)) && old(known) <= known
      ensures failure == DeviceRefusal(d, origin)
      ensures failure.None? ==> d in allDevicesByID && allDevicesByID[d] in known
      ensures var was := old(ConnOf(d));
              Model() == DeviceRegistered(old(Model()), d, origin, conn.serial,
                           if was == null then ZERO_STATS else old(was.connStats.Value()))
    {
      hide Shape, Model, Inv, Plus, DeviceReady, ConnOf;
      if d == "" {
        return Some(EmptyDeviceID);
      }
      if origin == "" {
        return Some(EmptyOrigin);
      }
      ReadyDevice(d, origin);
      var was := PlugIn(d, origin, conn);
      ListedDevice(this, d);
      if was == null {
        if allDevicesByID[d].selectionEnabled {
          SelectorEnables(d);
        }
      }
      failure := None;
    }

    /** The control connection's close handler, with the device it was registered on. */
    method DeviceConnClosed(device: MitmDevice, conn: DeviceConn)
      requires Shape() && device in known
      requires forall x :: x in known && x.deviceConn != null && x.deviceConn.serial == conn.serial ==>
                 x == device && x.deviceConn == conn
      modifies Repr
      ensures Shape() && fresh(Repr - old(Repr)) && old(known) <= known
      ensures Model() == DeviceClosed(old(Model()), device.id, conn.serial, old(conn.connStats.Value()))
    {
      hide Shape, Model, Inv, Plus;
      StaleIsNotListed(this, device, conn);
      var swapped := UnplugIfCurrent(device, conn);
      if swapped {
        ListedDevice(this, device.id);
        if device.selectionEnabled {
          SelectorDisables(device.id);
        }
      }
    }

    method EnableDevice(d: string) returns (failure: Option<Failure>)
      requires Shape()
      modifies Repr
      ensures Shape() && fresh(Repr - old(Repr)) && old(known) <= known
      ensures failure == SwitchRefusal(old(Model()), d) && Model() == DeviceEnabled(old(Model()), d)
      ensures if failure.None? then d in Model().devices && Model().devices[d].enabled else Model() == old(Model())
    {
      hide Shape, Model, Inv;
      if d !in allDevicesByID {
        return Some(DeviceNotKnown);
      }
      var changed := SwitchFlag(d, true);
      if changed {
        SelectorEnables(d);
      }
      failure := None;
    }

    method DisableDevice(d: string) returns (failure: Option<Failure>)
      requires Shape()
      modifies Repr
      ensures Shape() && fresh(Repr - old(Repr)) && old(known) <= known
      ensures failure == SwitchRefusal(old(Model()), d) && Model() == DeviceDisabled(old(Model()), d)
      ensures if failure.None? then d in Model().devices && !Model().devices[d].enabled else Model() == old(Model())
    {
      hide Shape, Model, Inv;
      if d !in allDevicesByID {
        return Some(DeviceNotKnown);
      }
      var changed := SwitchFlag(d, false);
      if changed {
        SelectorDisables(d);
      }
      failure := None;
    }

    method HasWorkers(d: string) returns (has: bool)
      requires Shape()
      ensures has == (TableOf(Model(), d) != map[])
    {
      hide Shape, Model, Inv;
      has := d in workersByDeviceID && |workersByDeviceID[d]| > 0;
    }

    method DeleteUnconnectedDeviceID(d: string) returns (failure: Option<Failure>)
      requires Shape()
      modifies Repr
      ensures Shape() && fresh(Repr - old(Repr)) && old(known) <= known
      ensures failure == DeletionRefusal(old(Model()), d) && Model() == DeviceDeleted(old(Model()), d)
    {
      hide Shape, Model, Inv;
      if d !in allDevicesByID {
        return Some(DeviceNotKnown);
      }
      var hasWorkers := HasWorkers(d);
      if hasWorkers {
        return Some(DeviceHasWorkers);
      }
      ListedDevice(this, d);
      if allDevicesByID[d].deviceConn != null {
        return Some(DeviceIsConnected);
      }
      SelectorRemoves(d);
      ListedDevice(this, d);
      Unlist(d);
      failure := None;
    }

    /** The walk over the table, in any order: it removes exactly the devices that could be deleted one by one. */
    method DeleteUnconnectedDevices() returns (removed: int, ghost order: seq<string>)
      requires Shape()
      modifies Repr
      ensures Shape() && fresh(Repr - old(Repr)) && old(known) <= known
      ensures Listed(order, Deletable(old(Model()))) && removed == |order|
      ensures Model() == DeletedInOrder(old(Model()), order)
    {
      hide Shape, Model, Inv, DeviceDeleted, DeletionRefusal;
      ghost var before := Model();
      var todo := allDevicesByID.Keys;
      removed, order := 0, [];
      while todo != {}
        invariant Shape() && fresh(Repr - old(Repr)) && old(known) <= known && removed == |order|
        invariant todo <= before.devices.Keys && Distinct(order)
        invariant Model() == DeletedInOrder(before, order)
        invariant forall d :: d in order <==> d in Deletable(before) && d !in todo
        decreases |todo|
      {
        var d :| d in todo;
        todo := todo - {d};
        StillDeletable(before, order, d);
        assert (order + [d])[..|order + [d]| - 1] == order;
        var failure := DeleteUnconnectedDeviceID(d);
        if failure.None? {
          removed, order := removed + 1, order + [d];
        } else {
          RefusedIsKept(DeletedInOrder(before, order), d);
        }
      }
    }
  }

  lemma RefusedIsKept(m: Mgr, d: string)
    requires DeletionRefusal(m, d).Some?
    ensures DeviceDeleted(m, d) == m
  {
  }

  /** A connection that is not its device's own is no listed device's. */
  lemma StaleIsNotListed(mgr: ConnectionManager, device: MitmDevice, conn: DeviceConn)
    requires mgr.Shape() && device in mgr.known
    requires forall x :: x in mgr.known && x.deviceConn != null && x.deviceConn.serial == conn.serial ==>
               x == device && x.deviceConn == conn
    ensures device.deviceConn != conn ==>
      !(device.id in mgr.Model().devices && mgr.Model().devices[device.id].conn == Some(conn.serial))
  {
    if device.id in mgr.allDevicesByID {
      ListedDevice(mgr, device.id);
    }
  }

  lemma ListedDevice(mgr: ConnectionManager, d: string)
    requires mgr.Shape() && d in mgr.allDevicesByID
    ensures mgr.OwnsDevices() && mgr.allDevicesByID[d] in mgr.known
    ensures mgr.Model().devices[d] == DeviceValue(mgr.allDevicesByID[d])
  {
  }

  lemma ValuesWith(mgr: ConnectionManager, before: map<string, Device>, d: string)
    requires mgr.OwnsDevices() && d in mgr.allDevicesByID && mgr.allDevicesByID.Keys == before.Keys + {d}
    requires forall e :: e in before && e != d ==> DeviceValue(mgr.allDevicesByID[e]) == before[e]
    ensures mgr.DeviceValues() == before[d := DeviceValue(mgr.allDevicesByID[d])]
  {
    hide DeviceValue;
  }

  lemma FreshValue(x: MitmDevice)
    requires x.deviceConn == null && x.selectionEnabled && x.previousWSConnStats == ZERO_STATS
    ensures DeviceValue(x) == FreshDevice(x.origin)
  {
  }
}
