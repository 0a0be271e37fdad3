/**
 The selector's own objects: libs/selector/base_selector.go and balanced_selector.go in the form
 they are written, each method proved to act on the abstract state as SelectorModel says.
 A method here is one section under the selector's mutex.
*/
module Selector {
  import opened Basics
  import opened History
  import opened SelectorModel
  import opened SelectorLaws
  import opened Scoring

  class SelectableWorker {
    const id: string
    var worker: Worker
    var assignedWeight: int
    var lastUnavailable: Option<int>

    constructor (id: string, worker: Worker)
      ensures this.id == id && Value() == Slot(worker, 0, None)
    {
      this.id, this.worker, assignedWeight, lastUnavailable := id, worker, 0, None;
    }

    function Value(): Slot
      reads this
    {
      Slot(worker, assignedWeight, lastUnavailable)
    }
  }

  function Ids(q: seq<SelectableWorker>): (ids: seq<string>)
    ensures |ids| == |q|
  {
    seq(|q|, (i: int) requires 0 <= i < |q| => q[i].id)
  }

  class SelectableDevice {
    var workersInUse: int
    var currentWeight: int
    var availableWorkers: seq<SelectableWorker>
    var workerIDsSeen: map<string, SelectableWorker>
    var lastSelectionTime: Option<int>
    const selectionHistory: SelectionHistory
    const weightUsed: array<int>
    var selectionEnabled: bool
    ghost var Repr: set<object>

    /** The queue and the map share their workers, each filed under its own id. */
    ghost predicate Linked()
      reads this, Repr
    {
      && {this, selectionHistory, weightUsed} <= Repr
      && weightUsed.Length == MAXIMUM_WEIGHT + 1
      && (forall id :: id in workerIDsSeen ==> workerIDsSeen[id] in Repr && workerIDsSeen[id].id == id)
      && (forall i :: 0 <= i < |availableWorkers| ==>
            availableWorkers[i].id in workerIDsSeen && workerIDsSeen[availableWorkers[i].id] == availableWorkers[i])
    }

    ghost function Model(): Dev
      requires Linked()
      reads this, Repr
    {
      Dev(map id | id in workerIDsSeen :: workerIDsSeen[id].Value(), Ids(availableWorkers),
          workersInUse, weightUsed[..], currentWeight, lastSelectionTime, selectionHistory.history, selectionEnabled)
    }

    ghost predicate Valid()
      reads this, Repr
      ensures Valid() ==> this in Repr && Linked() && Accounting(Model())
    {
      Linked() && Accounting(Model())
    }

    constructor (selectionEnabled: bool)
      ensures Valid() && fresh(Repr) && Model() == NewDev(selectionEnabled)
    {
      workersInUse, currentWeight := 0, 0;
      availableWorkers, workerIDsSeen := [], map[];
      lastSelectionTime := None;
      var history := new SelectionHistory();
      selectionHistory := history;
      weightUsed := new int[MAXIMUM_WEIGHT + 1](_ => 0);
      this.selectionEnabled := selectionEnabled;
      new;
      Repr := {this, selectionHistory, weightUsed};
      NewDevAccounts(selectionEnabled);
      assert weightUsed[..] == seq(MAXIMUM_WEIGHT + 1, _ => 0);
    }

    /** claimWorkerFromDevice */
    method ClaimWorker(weight: int, limit: Limit, now: int) returns (worker: SelectableWorker)
      requires Valid() && availableWorkers != [] && MINIMUM_WEIGHT <= weight <= MAXIMUM_WEIGHT
      modifies Repr
      ensures Valid() && Repr == old(Repr)
      ensures old(Model()).queue != [] && old(Model()).queue[0] in old(Model()).seen
      ensures Model() == Claim(old(Model()), weight, limit, now)
      ensures worker.worker == old(Model()).seen[old(Model()).queue[0]].conn
    {
      hide Accounting, Recorded, Model, Ids, SelectableWorker.Value;
      ghost var before := Model();
      worker := PopWorker();
      ClaimAccounts(before, weight, limit, now);
      CountClaim(weight, limit, now);
      AssignWeight(worker, weight);
      assert Model() == Claim(before, weight, limit, now);
    }

    method CountClaim(weight: int, limit: Limit, now: int)
      requires Linked() && MINIMUM_WEIGHT <= weight <= MAXIMUM_WEIGHT
      modifies this`workersInUse, this`currentWeight, this`lastSelectionTime, weightUsed, selectionHistory
      ensures Linked() && |old(Model()).used| == MAXIMUM_WEIGHT + 1
      ensures var m := old(Model());
              Model() == m.(inUse := m.inUse + 1, used := m.used[weight := m.used[weight] + 1],
                            currentWeight := m.currentWeight + weight, lastSelection := Some(now),
                            history := Recorded(m.history, limit, now))
    {
      hide Ids, Recorded, SelectableWorker.Value;
      ghost var before := Model();
      workersInUse, currentWeight, lastSelectionTime := workersInUse + 1, currentWeight + weight, Some(now);
      weightUsed[weight] := weightUsed[weight] + 1;
      selectionHistory.Record(limit, now);
      assert Model().seen == before.seen;
    }

    method PopWorker() returns (worker: SelectableWorker)
      requires Linked() && availableWorkers != []
      modifies this`availableWorkers
      ensures Linked() && worker.id in workerIDsSeen && workerIDsSeen[worker.id] == worker
      ensures old(Model()).queue != [] && worker.id == old(Model()).queue[0]
      ensures Model() == old(Model()).(queue := old(Model()).queue[1..])
    {
      hide Ids;
      ghost var before := Model();
      IdsTail(availableWorkers);
      worker := availableWorkers[0];
      availableWorkers := availableWorkers[1..];
      assert Model().seen == before.seen;
    }

    method AssignWeight(worker: SelectableWorker, weight: int)
      requires Linked() && worker.id in workerIDsSeen && workerIDsSeen[worker.id] == worker
      modifies worker
      ensures Linked() && worker.id in old(Model()).seen && worker.worker == old(Model()).seen[worker.id].conn
      ensures var m := old(Model()); Model() == m.(seen := m.seen[worker.id := m.seen[worker.id].(weight := weight)])
    {
      hide Ids;
      ghost var before := Model();
      assert before.seen[worker.id] == worker.Value();
      worker.assignedWeight := weight;
      SlotChanged(this, before.seen, worker);
    }

    /** removeWorkerFromDevice, which leaves the worker seen. */
    method RemoveWorker(worker: SelectableWorker)
      requires Linked() && Shaped(Model())
      requires worker.id in workerIDsSeen && workerIDsSeen[worker.id] == worker
      modifies this, weightUsed, worker`assignedWeight
      ensures Linked() && Repr == old(Repr) && workerIDsSeen == old(workerIDsSeen)
      ensures Model() == Release(old(Model()), worker.id)
    {
      hide Ids;
      ghost var before := Model();
      assert before.seen[worker.id] == worker.Value();
      if worker.assignedWeight > 0 {
        workersInUse := workersInUse - 1;
        weightUsed[worker.assignedWeight] := weightUsed[worker.assignedWeight] - 1;
        currentWeight := currentWeight - worker.assignedWeight;
        worker.assignedWeight := 0;
        SlotChanged(this, before.seen, worker);
        return;
      }
      RemoveQueued(worker);
    }

    /** The search through the queue. */
    method RemoveQueued(worker: SelectableWorker)
      requires Linked() && worker.id in workerIDsSeen && workerIDsSeen[worker.id] == worker
      modifies this`availableWorkers
      ensures Linked() && Model() == old(Model()).(queue := Without(old(Model()).queue, worker.id))
    {
      hide Ids, SelectableWorker.Value;
      ghost var before := Model();
      ghost var q := availableWorkers;
      IdsAt(q);
      for i := 0 to |availableWorkers|
        invariant availableWorkers == q
        invariant forall j :: 0 <= j < i ==> q[j].id != worker.id
      {
        if availableWorkers[i] == worker {
          availableWorkers := availableWorkers[..i] + availableWorkers[i + 1..];
          WithoutAt(before.queue, worker.id, i);
          IdsDropAt(q, i);
          assert Model().seen == before.seen;
          return;
        }
      }
      WithoutAbsent(before.queue, worker.id);
    }

    /** Starts tracking a worker id not seen before. */
    method TrackNewWorker(worker: Worker) returns (selWorker: SelectableWorker)
      requires Linked() && worker.Worker? && worker.id !in workerIDsSeen
      modifies this`workerIDsSeen, this`Repr
      ensures Linked() && fresh(Repr - old(Repr)) && old(Repr) <= Repr
      ensures selWorker.id == worker.id && worker.id in workerIDsSeen && workerIDsSeen[worker.id] == selWorker
      ensures worker.id !in old(Model()).seen
      ensures Model() == old(Model()).(seen := old(Model()).seen[worker.id := Slot(worker, 0, None)])
    {
      ghost var before := Model();
      selWorker := new SelectableWorker(worker.id, worker);
      workerIDsSeen := workerIDsSeen[worker.id := selWorker];
      Repr := Repr + {selWorker};
      SlotChanged(this, before.seen, selWorker);
    }

    /** The connection takes the slot over, and the slot goes to the back of the queue. */
    method EnqueueWorker(selWorker: SelectableWorker, worker: Worker)
      requires Linked() && selWorker.id in workerIDsSeen && workerIDsSeen[selWorker.id] == selWorker
      modifies this`availableWorkers, selWorker
      ensures Linked() && selWorker.id in old(Model()).seen
      ensures var m := old(Model()); var id := selWorker.id;
              Model() == m.(seen := m.seen[id := Slot(worker, m.seen[id].weight, None)], queue := m.queue + [id])
    {
      ghost var before := Model();
      assert before.seen[selWorker.id] == selWorker.Value();
      selWorker.worker := worker;
      selWorker.lastUnavailable := None;
      availableWorkers := availableWorkers + [selWorker];
      assert Ids(availableWorkers) == before.queue + [selWorker.id];
      SlotChanged(this, before.seen, selWorker);
    }

    /** The device's part of SetWorkerAvailable. */
    method WorkerAvailable(worker: Worker)
      requires Valid() && worker.Worker?
      modifies Repr
      ensures Valid() && fresh(Repr - old(Repr))
      ensures Shaped(old(Model())) && Model() == Announce(old(Model()), worker)
    {
      hide Accounting, Ids, SelectableWorker.Value, Release;
      ghost var before := Model();
      AnnounceAccounts(before, worker);
      var selWorker;
      if worker.id !in workerIDsSeen {
        selWorker := TrackNewWorker(worker);
      } else {
        selWorker := workerIDsSeen[worker.id];
        ReleasedIsFree(before, worker.id);
        RemoveWorker(selWorker);
      }
      EnqueueWorker(selWorker, worker);
      assert Model() == Announce(before, worker);
    }

    method MarkUnavailable(selWorker: SelectableWorker, now: int)
      requires Linked() && selWorker.id in workerIDsSeen && workerIDsSeen[selWorker.id] == selWorker
      modifies selWorker
      ensures Linked() && selWorker.id in old(Model()).seen
      ensures var m := old(Model()); var id := selWorker.id;
              Model() == m.(seen := m.seen[id := m.seen[id].(goneAt := Some(now))])
    {
      ghost var before := Model();
      assert before.seen[selWorker.id] == selWorker.Value();
      selWorker.lastUnavailable := Some(now);
      SlotChanged(this, before.seen, selWorker);
    }

    /** The device's part of SetWorkerUnavailable. */
    method WorkerUnavailable(worker: Worker, now: int)
      requires Valid() && worker.Worker?
      modifies Repr
      ensures Valid() && Repr == old(Repr)
      ensures Shaped(old(Model())) && Model() == Depart(old(Model()), worker, now)
    {
      hide Accounting;
      ghost var before := Model();
      DepartAccounts(before, worker, now);
      if worker.id !in workerIDsSeen || workerIDsSeen[worker.id].worker != worker {
        return;
      }
      var selWorker := workerIDsSeen[worker.id];
      assert worker.id in before.seen && before.seen[worker.id] == selWorker.Value();
      MarkUnavailable(selWorker, now);
      RemoveWorker(selWorker);
    }

    /** The walk over one device's map in PruneWorkerIDsSeen, in any order. */
    method DropLongGone(dur: int, now: int)
      modifies this`workerIDsSeen
      ensures workerIDsSeen.Keys <= old(workerIDsSeen.Keys)
      ensures forall id :: id in workerIDsSeen ==> workerIDsSeen[id] == old(workerIDsSeen[id])
      ensures forall id :: id in old(workerIDsSeen) ==>
                (id in workerIDsSeen <==> !LongGone(old(workerIDsSeen[id].Value()), dur, now))
    {
      var todo := workerIDsSeen.Keys;
      while todo != {}
        invariant todo <= workerIDsSeen.Keys <= old(workerIDsSeen.Keys)
        invariant forall id :: id in workerIDsSeen ==> workerIDsSeen[id] == old(workerIDsSeen[id])
        invariant forall id :: id in old(workerIDsSeen) ==>
          (id in workerIDsSeen <==> id in todo || !LongGone(old(workerIDsSeen[id].Value()), dur, now))
        decreases |todo|
      {
        var id :| id in todo;
        todo := todo - {id};
        var selWorker := workerIDsSeen[id];
        if selWorker.lastUnavailable.Some? && now - selWorker.lastUnavailable.value >= dur {
          workerIDsSeen := workerIDsSeen - {id};
        }
      }
    }

    /** The device's part of PruneWorkerIDsSeen. */
    method PruneWorkerIDs(dur: int, now: int)
      requires Valid()
      modifies this`workerIDsSeen
      ensures Valid() && Model() == Forget(old(Model()), dur, now)
    {
      ghost var before := Model();
      ForgetAccounts(before, dur, now);
      QueueStays(before, dur, now);
      hide Accounting;
      DropLongGone(dur, now);
      forall i | 0 <= i < |availableWorkers| ensures availableWorkers[i].id in workerIDsSeen {
        assert before.queue[i] == availableWorkers[i].id;
      }
      hide Ids;
      assert Model().seen == Forget(before, dur, now).seen;
    }

    method IsRateLimited(limit: Limit, now: int) returns (limited: bool)
      requires Valid()
      modifies selectionHistory
      ensures Valid() && Repr == old(Repr)
      ensures limited == AtMax(old(Model()).history, limit, now)
      ensures Model() == old(Model()).(history := Prune(old(Model()).history, now - limit.duration))
    {
      hide Accounting;
      ghost var before := Model();
      FlagsDoNotCount(before, before.enabled, Prune(before.history, now - limit.duration));
      limited := selectionHistory.IsAtMaxSelections(limit, now);
      assert Model().seen == before.seen;
    }

    /** Whether a selection may use the device; the checks run in this order, and the last prunes the history. */
    method Examine(limit: Limit, now: int) returns (eligible: bool)
      requires Valid()
      modifies Repr
      ensures Valid() && Repr == old(Repr)
      ensures eligible == Eligible(old(Model()), limit, now)
      ensures Model() == Looked(old(Model()), limit, now)
      ensures currentWeight == old(Model()).currentWeight && MAXIMUM_WEIGHT * |workerIDsSeen| == Capacity(old(Model()))
    {
      hide Accounting, AtMax, Prune, SelectableWorker.Value;
      assert Model().seen.Keys == workerIDsSeen.Keys;
      if |availableWorkers| == 0 {
        return false;
      }
      if !selectionEnabled {
        return false;
      }
      var limited := IsRateLimited(limit, now);
      return !limited;
    }

    /** One round of the scoring loop: the device's score were the weight assigned to it. */
    method ComputeScore(weight: int, now: int, totalCapacity: int, projectedTotalWeight: int) returns (score: real)
      requires Linked() && workerIDsSeen != map[] && totalCapacity > 0 && projectedTotalWeight > 0
      ensures Model().seen != map[] && score == Score(Model(), weight, now, totalCapacity, projectedTotalWeight)
    {
      assert Model().seen.Keys == workerIDsSeen.Keys;
      var deviceCapacity := |workerIDsSeen| * MAXIMUM_WEIGHT;
      var projectedDeviceWeightRatio := (currentWeight + weight) as real / deviceCapacity as real;
      var idealDeviceWeightRatio :=
        deviceCapacity as real / totalCapacity as real * projectedTotalWeight as real / deviceCapacity as real;
      IdealIsShared(deviceCapacity as real, totalCapacity as real, projectedTotalWeight as real);
      score := 100.0 * projectedDeviceWeightRatio / idealDeviceWeightRatio;
      if lastSelectionTime.Some? {
        var sinceLastSelection := now - lastSelectionTime.value;
        if sinceLastSelection < SCORE_TOTAL_PERIOD {
          var multiplier := SCORE_BUCKETS - TruncDiv(sinceLastSelection, SCORE_BUCKET_PERIOD);
          score := score * 10.0 * multiplier as real;
        }
      }
    }

    method SetSelectionEnabled(enabled: bool)
      requires Valid()
      modifies this`selectionEnabled
      ensures Valid() && Model() == old(Model()).(enabled := enabled)
    {
      hide Accounting;
      ghost var before := Model();
      FlagsDoNotCount(before, enabled, before.history);
      selectionEnabled := enabled;
      assert Model().seen == before.seen;
    }

    method HasAssignedWorker() returns (inUse: bool)
      requires Valid()
      ensures inUse == HasAssigned(Model())
    {
      hide Accounting;
      var todo := workerIDsSeen.Keys;
      while todo != {}
        invariant todo <= workerIDsSeen.Keys
        invariant forall id :: id in workerIDsSeen && id !in todo ==> Model().seen[id].weight <= 0
        decreases |todo|
      {
        var id :| id in todo;
        todo := todo - {id};
        assert Model().seen[id].weight == workerIDsSeen[id].assignedWeight;
        if workerIDsSeen[id].assignedWeight > 0 {
          return true;
        }
      }
      return false;
    }
  }

  class BalancedSelector {
    var devices: map<string, SelectableDevice>
    var limit: Limit          // what the settings container holds
    ghost var Repr: set<object>

    ghost predicate Shape()
      reads this, Repr
    {
      && this in Repr
      && (forall d :: d in devices ==>
            devices[d] in Repr && devices[d].Repr <= Repr && this !in devices[d].Repr && devices[d].Valid())
      && (forall d, e :: d in devices && e in devices && d != e ==> devices[d].Repr !! devices[e].Repr)
    }

    ghost function Model(): (s: Sel)
      requires Shape()
      reads this, Repr
      ensures s.devices.Keys == devices.Keys && s.limit == limit
    {
      Sel(map d | d in devices :: devices[d].Model(), limit)
    }

    ghost predicate Valid()
      reads this, Repr
      ensures Valid() ==> Shape() && Inv(Model())
    {
      Shape() && Inv(Model())
    }

    constructor (limit: Limit)
      ensures Valid() && fresh(Repr) && Model() == Sel(map[], limit)
    {
      devices, this.limit := map[], limit;
      new;
      Repr := {this};
    }

    /** Settings are stored only if valid. */
    method PutSettings(limit: Limit)
      requires Valid()
      modifies this`limit
      ensures Valid() && Inv(old(Model())) && Model() == Apply(old(Model()), Configure(limit))
    {
      hide Accounting, Keyed, SelectableDevice.Valid, SelectableDevice.Linked, SelectableDevice.Model;
      if ValidLimit(limit) {
        this.limit := limit;
      }
    }

    /** addNewDevice */
    method AddNewDevice(deviceID: string, selectionEnabled: bool) returns (device: SelectableDevice)
      requires Valid() && deviceID !in devices
      modifies this
      ensures Valid() && fresh(Repr - old(Repr))
      ensures deviceID in devices && devices[deviceID] == device
      ensures Model() == Put(old(Model()), deviceID, NewDev(selectionEnabled))
    {
      hide Model, Inv, Accounting, SelectableDevice.Valid, SelectableDevice.Linked, SelectableDevice.Model;
      ghost var before := Model();
      ModelsOf(this);
      device := new SelectableDevice(selectionEnabled);
      devices := devices[deviceID := device];
      Repr := Repr + device.Repr;
      assert device.Repr !! old(Repr);
      forall e | e in before.devices
        ensures devices[e].Valid() && devices[e].Repr <= old(Repr) && devices[e].Model() == before.devices[e] {
      }
      FrameOne(this, before, deviceID, NewDev(selectionEnabled));
      NewDevAccounts(selectionEnabled);
      PutKeepsInv(before, deviceID, NewDev(selectionEnabled));
    }

    /** SetWorkerAvailable once the device is known. */
    method AnnounceOn(worker: Worker)
      requires Valid() && worker.Worker? && worker.deviceID in devices
      modifies Repr
      ensures Valid() && fresh(Repr - old(Repr))
      ensures Inv(old(Model())) && Model() == WorkerAvailable(old(Model()), worker)
    {
      hide Model, Inv, Accounting, Announce, SelectableDevice.Valid, SelectableDevice.Linked, SelectableDevice.Model;
      ghost var before := Model();
      WorkerAvailableKeepsInv(before, worker);
      ModelsOf(this);
      var device := devices[worker.deviceID];
      device.WorkerAvailable(worker);
      Repr := Repr + device.Repr;
      FrameOne(this, before, worker.deviceID, devices[worker.deviceID].Model());
    }

    method SetWorkerAvailable(worker: Worker)
      requires Valid()
      modifies Repr
      ensures Valid() && fresh(Repr - old(Repr))
      ensures Inv(old(Model())) && Model() == WorkerAvailable(old(Model()), worker)
    {
      hide Model, Inv, Accounting, Announce, SelectableDevice.Valid, SelectableDevice.Linked, SelectableDevice.Model;
      if worker.NoWorker? {
        return;
      }
      var deviceID := worker.deviceID;
      if deviceID !in devices {
        AnnounceToNew(Model(), worker);
        var _ := AddNewDevice(deviceID, true);
      }
      AnnounceOn(worker);
    }

    method SetWorkerUnavailable(worker: Worker, now: int)
      requires Valid()
      modifies Repr
      ensures Valid() && Repr == old(Repr)
      ensures Inv(old(Model())) && Model() == WorkerUnavailable(old(Model()), worker, now)
    {
      hide Model, Inv, Accounting, Depart, SelectableDevice.Valid, SelectableDevice.Linked, SelectableDevice.Model;
      if worker.NoWorker? || worker.deviceID !in devices {
        return;
      }
      ghost var before := Model();
      WorkerUnavailableKeepsInv(before, worker, now);
      ModelsOf(this);
      devices[worker.deviceID].WorkerUnavailable(worker, now);
      FrameOne(this, before, worker.deviceID, devices[worker.deviceID].Model());
    }

    method EnableDevice(deviceID: string)
      requires Valid()
      modifies Repr
      ensures Valid() && Repr == old(Repr) && Model() == SetEnabled(old(Model()), deviceID)
    {
      hide Model, Inv, Accounting, SelectableDevice.Valid, SelectableDevice.Linked, SelectableDevice.Model;
      if deviceID in devices {
        ghost var before := Model();
        SwitchKeepsInv(before, deviceID);
        ModelsOf(this);
        devices[deviceID].SetSelectionEnabled(true);
        FrameOne(this, before, deviceID, devices[deviceID].Model());
      }
    }

    method DisableDevice(deviceID: string)
      requires Valid()
      modifies Repr
      ensures Valid() && fresh(Repr - old(Repr)) && Model() == SetDisabled(old(Model()), deviceID)
    {
      hide Model, Inv, Accounting, SelectableDevice.Valid, SelectableDevice.Linked, SelectableDevice.Model;
      if deviceID !in devices {
        var _ := AddNewDevice(deviceID, false);
      } else {
        ghost var before := Model();
        SwitchKeepsInv(before, deviceID);
        ModelsOf(this);
        devices[deviceID].SetSelectionEnabled(false);
        FrameOne(this, before, deviceID, devices[deviceID].Model());
      }
    }

    method RemoveDeadDevice(deviceID: string)
      requires Valid()
      modifies this
      ensures Valid() && Repr == old(Repr) && Model() == RemoveIfDead(old(Model()), deviceID)
    {
      hide Shape, Model, Inv, Accounting, HasAssigned, SelectableDevice.Valid, SelectableDevice.Linked;
      hide SelectableDevice.Model;
      if deviceID !in devices {
        return;
      }
      ghost var before := Model();
      DeviceOf(this, deviceID);
      var inUse := devices[deviceID].HasAssignedWorker();
      if inUse {
        return;
      }
      RemoveKeepsInv(before, deviceID);
      DropDevice(deviceID);
    }

    method DropDevice(d: string)
      requires Shape()
      modifies this`devices
      ensures Shape() && Model() == old(Model()).(devices := old(Model()).devices - {d})
    {
      hide Model, SelectableDevice.Valid, SelectableDevice.Linked, SelectableDevice.Model;
      ghost var before, was := Model(), devices;
      ModelsOf(this);
      devices := devices - {d};
      forall e | e in devices
        ensures devices[e] == was[e] && devices[e].Repr == old(was[e].Repr) && devices[e].Valid()
        ensures devices[e].Model() == before.devices[e]
      {
      }
      FrameWithout(this, before, d);
    }

    method PruneDevice(d: string, dur: int, now: int)
      requires Shape() && d in devices
      modifies Repr
      ensures Shape() && Repr == old(Repr) && devices == old(devices)
      ensures Model() == Put(old(Model()), d, Forget(old(Model()).devices[d], dur, now))
    {
      hide Model, Forget, SelectableDevice.Valid, SelectableDevice.Linked, SelectableDevice.Model;
      ghost var before := Model();
      ModelsOf(this);
      devices[d].PruneWorkerIDs(dur, now);
      FrameOne(this, before, d, devices[d].Model());
    }

    method PruneWorkerIDsSeen(dur: int, now: int)
      requires Valid()
      modifies Repr
      ensures Valid() && Repr == old(Repr) && Model() == ForgetAll(old(Model()), dur, now)
    {
      hide Shape, Model, Inv, Forget, ForgetAllBut, ForgetAll, Put;
      ghost var before := Model();
      ForgetAllKeepsInv(before, dur, now);
      var todo := devices.Keys;
      ForgetNone(before, dur, now);
      while todo != {}
        invariant todo <= devices.Keys == before.devices.Keys && Repr == old(Repr)
        invariant Shape() && Model() == ForgetAllBut(before, todo, dur, now)
        decreases |todo|
      {
        var d :| d in todo;
        ForgetOneMore(before, todo, d, dur, now);
        todo := todo - {d};
        PruneDevice(d, dur, now);
      }
      ForgetDone(before, dur, now);
    }

    /** One round of the eligibility loop. */
    method Examine(d: string, now: int) returns (eligible: bool)
      requires Shape() && d in devices
      modifies Repr
      ensures Shape() && Repr == old(Repr) && devices == old(devices)
      ensures eligible == Eligible(old(Model()).devices[d], old(limit), now)
      ensures Model() == Put(old(Model()), d, Looked(old(Model()).devices[d], old(limit), now))
      ensures devices[d].currentWeight == old(Model()).devices[d].currentWeight
      ensures MAXIMUM_WEIGHT * |devices[d].workerIDsSeen| == Capacity(old(Model()).devices[d])
    {
      hide Model, Eligible, Looked, Accounting, Capacity, SelectableDevice.Valid, SelectableDevice.Linked;
      hide SelectableDevice.Model;
      ghost var before := Model();
      ModelsOf(this);
      eligible := devices[d].Examine(limit, now);
      FrameOne(this, before, d, devices[d].Model());
    }

    /** The first loop of GetAvailableWorker: the eligible devices, in some order, and their totals. */
    method CollectEligible(now: int) returns (eligible: seq<string>, totals: Pool)
      requires Valid()
      modifies Repr
      ensures Valid() && Repr == old(Repr) && devices == old(devices) && limit == old(limit)
      ensures Model() == LookedAll(old(Model()), now)
      ensures Distinct(eligible) && Gathered(old(Model()), eligible, now)
      ensures totals == Pooled(old(Model()), EligibleIn(old(Model()), now))
    {
      hide Shape, Model, Inv, Looked, LookedAllBut, LookedAll, Put, Pooled, Eligible, Capacity;
      ghost var before := Model();
      LookedAllKeepsInv(before, now);
      LookedNone(before, now);
      var todo := devices.Keys;
      eligible, totals := [], Pool(0, 0);
      PooledNone(before);
      assert EligibleIn(before, now) - todo == {};
      while todo != {}
        invariant todo <= devices.Keys && Repr == old(Repr) && devices == old(devices)
        invariant Shape() && Model() == LookedAllBut(before, todo, now)
        invariant Distinct(eligible)
        invariant forall d :: d in eligible <==> d in EligibleIn(before, now) && d !in todo
        invariant totals == Pooled(before, EligibleIn(before, now) - todo)
        decreases |todo|
      {
        var d :| d in todo;
        LookedOneMore(before, todo, d, now);
        PooledOneMore(before, EligibleIn(before, now), todo, d);
        todo := todo - {d};
        var ok := Examine(d, now);
        if ok {
          var device := devices[d];
          totals := Pool(device.currentWeight + totals.weight,
                         |device.workerIDsSeen| * MAXIMUM_WEIGHT + totals.capacity);
          eligible := eligible + [d];
        }
      }
      LookedDone(before, now);
      assert EligibleIn(before, now) - todo == EligibleIn(before, now);
    }

    /** The scoring loop: a device of least score, the first met among equals. */
    method LeastScore(eligible: seq<string>, weight: int, now: int, totalCapacity: int, projectedTotalWeight: int)
      returns (best: string)
      requires Shape() && eligible != [] && totalCapacity > 0 && projectedTotalWeight > 0 && Scorable(Model(), eligible)
      ensures best in eligible && LeastScored(Model(), eligible, best, weight, now, totalCapacity, projectedTotalWeight)
    {
      hide Shape, Model, Score, Scorable, LeastScored, LeastUpTo, SelectableDevice.Model, SelectableDevice.Linked;
      ghost var model := Model();
      var bestDevice, bestScore := None, 9223372036854775807.0;
      LeastOfNone(model, eligible, bestScore, weight, now, totalCapacity, projectedTotalWeight);
      for i := 0 to |eligible|
        invariant LeastUpTo(model, eligible, i, bestDevice, bestScore, weight, now, totalCapacity, projectedTotalWeight)
      {
        var d := eligible[i];
        ScorableDevice(model, eligible, i);
        DeviceOf(this, d);
        var score := devices[d].ComputeScore(weight, now, totalCapacity, projectedTotalWeight);
        LeastOfOneMore(model, eligible, i, bestDevice, bestScore, score, weight, now, totalCapacity,
                       projectedTotalWeight);
        if bestDevice.None? || score < bestScore {
          bestDevice, bestScore := Some(d), score;
        }
      }
      LeastOfAll(model, eligible, bestDevice, bestScore, weight, now, totalCapacity, projectedTotalWeight);
      best := bestDevice.value;
    }

    /** Claims the next worker of a device that has one. */
    method ClaimFrom(d: string, weight: int, now: int) returns (worker: Worker)
      requires Valid() && d in devices && Model().devices[d].queue != [] && MINIMUM_WEIGHT <= weight <= MAXIMUM_WEIGHT
      modifies Repr
      ensures Shape() && Repr == old(Repr)
      ensures var dev := old(Model()).devices[d];
              && |dev.used| == MAXIMUM_WEIGHT + 1 && dev.queue[0] in dev.seen
              && Model() == Put(old(Model()), d, Claim(dev, weight, old(limit), now))
              && worker == dev.seen[dev.queue[0]].conn
    {
      hide Model, Inv, Accounting, Claim, SelectableDevice.Valid, SelectableDevice.Linked, SelectableDevice.Model;
      ghost var before := Model();
      ModelsOf(this);
      DeviceOf(this, d);
      DeviceAccounts(before, d);
      ClaimAccounts(before.devices[d], weight, limit, now);
      var selWorker := devices[d].ClaimWorker(weight, limit, now);
      FrameOne(this, before, d, devices[d].Model());
      worker := selWorker.worker;
    }

    /**
     GetAvailableWorker.  `pick` names the device selected; it is one of least rank among the eligible ones,
     whatever order the devices are met in, and there is none exactly when no device is eligible.
    */
    method GetAvailableWorker(weight: int, now: int) returns (worker: Worker, ghost pick: Option<string>)
      requires Valid()
      modifies Repr
      ensures Valid() && Repr == old(Repr)
      ensures MayPick(old(Model()), weight, now, pick)
      ensures Inv(old(Model())) && Model() == Selected(old(Model()), weight, now, pick)
      ensures worker == Handout(old(Model()), pick)
      ensures !old(limit).enabled && (exists d :: d in old(devices) && OnWithQueue(old(Model()), d)) ==> worker.Worker?
    {
      hide Shape, Model, Inv, MayPick, Selected, LookedAll, Put, Claim, EligibleIn, Pooled, Handout, Best, Score;
      ghost var before := Model();
      var w := weight;
      if w < MINIMUM_WEIGHT {
        w := DEFAULT_WEIGHT;
      } else if w > MAXIMUM_WEIGHT {
        w := MAXIMUM_WEIGHT;
      }
      var eligible, totals := CollectEligible(now);
      ghost var looked := Model();
      if |eligible| == 0 {
        PickNone(before, eligible, weight, now);
        NoneWasOnWithQueue(before, weight, now);
        return NoWorker, None;
      }
      TotalsArePositive(before, eligible, now);
      var chosen := eligible[0];
      if |eligible| != 1 {
        chosen := LeastScore(eligible, w, now, totals.capacity, totals.weight + w);
      }
      PickLeast(before, eligible, weight, now, totals, chosen);
      SelectedKeepsInv(before, weight, now, Some(chosen));
      worker := ClaimFrom(chosen, w, now);
      pick := Some(chosen);
      PickHandsOut(before, weight, now, pick);
    }
  }

  predicate OnWithQueue(s: Sel, d: string) {
    d in s.devices && s.devices[d].enabled && s.devices[d].queue != []
  }

  lemma NoneWasOnWithQueue(s: Sel, weight: int, now: int)
    requires Inv(s) && MayPick(s, weight, now, None)
    ensures !s.limit.enabled ==> forall d :: !OnWithQueue(s, d)
  {
    hide Inv, MayPick;
    if !s.limit.enabled {
      forall d ensures !OnWithQueue(s, d) {
        if OnWithQueue(s, d) {
          LimitOffNeverRefuses(s, weight, now, None, d);
        }
      }
    }
  }

  lemma DeviceOf(s: BalancedSelector, d: string)
    requires s.Shape() && d in s.devices
    ensures s.devices[d].Valid() && s.devices[d].Linked() && s.Model().devices[d] == s.devices[d].Model()
    ensures s.devices[d].Model().seen.Keys == s.devices[d].workerIDsSeen.Keys
    ensures |s.devices[d].Model().queue| == |s.devices[d].availableWorkers|
  {
  }

  lemma DeviceAccounts(s: Sel, d: string)
    requires Inv(s) && d in s.devices
    ensures Accounting(s.devices[d])
  {
  }

  ghost predicate Scorable(s: Sel, eligible: seq<string>) {
    forall d :: d in eligible ==> d in s.devices && s.devices[d].seen != map[]
  }

  ghost predicate LeastScored(s: Sel, eligible: seq<string>, p: string, weight: int, now: int,
                              totalCapacity: int, projectedTotalWeight: int)
    requires Scorable(s, eligible) && p in eligible && totalCapacity > 0 && projectedTotalWeight > 0
  {
    var least := Score(s.devices[p], weight, now, totalCapacity, projectedTotalWeight);
    forall e :: e in eligible ==> least <= Score(s.devices[e], weight, now, totalCapacity, projectedTotalWeight)
  }

  /** The loop's state after i devices. */
  ghost predicate LeastUpTo(
    s: Sel, eligible: seq<string>, i: int, best: Option<string>, least: real,
    weight: int, now: int, totalCapacity: int, projectedTotalWeight: int)
    requires Scorable(s, eligible) && 0 <= i <= |eligible| && totalCapacity > 0 && projectedTotalWeight > 0
  {
    && (i > 0 ==> best.Some?)
    && (best.Some? ==>
          && best.value in eligible
          && least == Score(s.devices[best.value], weight, now, totalCapacity, projectedTotalWeight))
    && (forall j :: 0 <= j < i ==>
          ScoresAtLeast(s, eligible[j], least, weight, now, totalCapacity, projectedTotalWeight))
  }

  predicate ScoresAtLeast(s: Sel, d: string, least: real, weight: int, now: int, totalCapacity: int,
                          projectedTotalWeight: int)
    requires totalCapacity > 0 && projectedTotalWeight > 0
  {
    && d in s.devices && s.devices[d].seen != map[]
    && least <= Score(s.devices[d], weight, now, totalCapacity, projectedTotalWeight)
  }

  lemma ScorableDevice(s: Sel, eligible: seq<string>, i: nat)
    requires Scorable(s, eligible) && i < |eligible|
    ensures eligible[i] in s.devices && s.devices[eligible[i]].seen != map[]
  {
    assert eligible[i] in eligible;
  }

  lemma LeastOfNone(s: Sel, eligible: seq<string>, least: real, weight: int, now: int, totalCapacity: int,
                    projectedTotalWeight: int)
    requires Scorable(s, eligible) && totalCapacity > 0 && projectedTotalWeight > 0
    ensures LeastUpTo(s, eligible, 0, None, least, weight, now, totalCapacity, projectedTotalWeight)
  {
  }

  lemma LeastOfOneMore(
    s: Sel, eligible: seq<string>, i: nat, best: Option<string>, least: real, score: real,
    weight: int, now: int, totalCapacity: int, projectedTotalWeight: int)
    requires Scorable(s, eligible) && i < |eligible| && totalCapacity > 0 && projectedTotalWeight > 0
    requires LeastUpTo(s, eligible, i, best, least, weight, now, totalCapacity, projectedTotalWeight)
    requires eligible[i] in s.devices && s.devices[eligible[i]].seen != map[]
    requires score == Score(s.devices[eligible[i]], weight, now, totalCapacity, projectedTotalWeight)
    ensures var takes := best.None? || score < least;
            LeastUpTo(s, eligible, i + 1, if takes then Some(eligible[i]) else best, if takes then score else least,
                      weight, now, totalCapacity, projectedTotalWeight)
  {
    hide Score;
    assert eligible[i] in eligible;
    assert forall j :: 0 <= j < i ==>
             ScoresAtLeast(s, eligible[j], least, weight, now, totalCapacity, projectedTotalWeight);
  }

  lemma LeastOfAll(
    s: Sel, eligible: seq<string>, best: Option<string>, least: real, weight: int, now: int, totalCapacity: int,
    projectedTotalWeight: int)
    requires Scorable(s, eligible) && eligible != [] && totalCapacity > 0 && projectedTotalWeight > 0
    requires LeastUpTo(s, eligible, |eligible|, best, least, weight, now, totalCapacity, projectedTotalWeight)
    ensures best.Some? && best.value in eligible
    ensures LeastScored(s, eligible, best.value, weight, now, totalCapacity, projectedTotalWeight)
  {
    hide Score;
    forall e | e in eligible
      ensures least <= Score(s.devices[e], weight, now, totalCapacity, projectedTotalWeight)
    {
      var j :| 0 <= j < |eligible| && eligible[j] == e;
      assert ScoresAtLeast(s, eligible[j], least, weight, now, totalCapacity, projectedTotalWeight);
    }
  }

  ghost predicate Gathered(s: Sel, eligible: seq<string>, now: int) {
    (set d | d in eligible) == EligibleIn(s, now)
  }

  lemma PickNone(s: Sel, eligible: seq<string>, weight: int, now: int)
    requires Inv(s) && Gathered(s, eligible, now) && eligible == []
    ensures MayPick(s, weight, now, None) && Selected(s, weight, now, None) == LookedAll(s, now)
    ensures Handout(s, None) == NoWorker
    ensures Inv(LookedAll(s, now))
  {
    hide Accounting, Eligible;
    LookedAllKeepsInv(s, now);
    forall e | e in s.devices ensures !Eligible(s.devices[e], s.limit, now) {
      assert e !in EligibleIn(s, now);
    }
  }

  /** Looking changes neither whom a device has seen nor what it carries. */
  lemma LookedKeepsRank(s: Sel, d: string, now: int)
    requires d in s.devices
    ensures d in LookedAll(s, now).devices
    ensures var dev, dev' := s.devices[d], LookedAll(s, now).devices[d];
            dev' == dev.(history := dev'.history)
  {
  }

  lemma TotalsArePositive(s: Sel, eligible: seq<string>, now: int)
    requires Inv(s) && Gathered(s, eligible, now) && eligible != []
    ensures Pooled(s, EligibleIn(s, now)).capacity > 0 && Pooled(s, EligibleIn(s, now)).weight >= 0
    ensures Scorable(LookedAll(s, now), eligible)
  {
    hide Accounting, Pooled, AtMax, LookedAll;
    assert eligible[0] in (set d | d in eligible);
    assert eligible[0] in EligibleIn(s, now);
    PooledPositive(s, EligibleIn(s, now));
    forall d | d in eligible ensures d in LookedAll(s, now).devices && LookedAll(s, now).devices[d].seen != map[] {
      assert d in EligibleIn(s, now);
      LookedKeepsRank(s, d, now);
      WeightWithinCapacity(s.devices[d]);
    }
  }

  /** The least score is the least rank, so it may be picked; with one device eligible there is nothing to compare. */
  lemma PickLeast(s: Sel, eligible: seq<string>, weight: int, now: int, totals: Pool, p: string)
    requires Inv(s) && Gathered(s, eligible, now) && p in eligible && totals.capacity > 0 && totals.weight >= 0
    requires Scorable(LookedAll(s, now), eligible)
    requires LeastScored(LookedAll(s, now), eligible, p, ClampWeight(weight), now, totals.capacity,
                         totals.weight + ClampWeight(weight))
    ensures MayPick(s, weight, now, Some(p)) && p in s.devices && s.devices[p].queue != []
    ensures p in LookedAll(s, now).devices
    ensures var dev := LookedAll(s, now).devices[p];
            && dev.queue != [] && |dev.used| == MAXIMUM_WEIGHT + 1 && dev.queue[0] in dev.seen
            && Handout(s, Some(p)) == dev.seen[dev.queue[0]].conn
            && Selected(s, weight, now, Some(p)) ==
                 Put(LookedAll(s, now), p, Claim(dev, ClampWeight(weight), s.limit, now))
  {
    hide Accounting, Score, AtMax, LookedAll, Rank, Claim;
    assert p in EligibleIn(s, now);
    ClaimAccounts(s.devices[p], ClampWeight(weight), s.limit, now);
    LookedKeepsRank(s, p, now);
    var looked := LookedAll(s, now);
    forall e | e in s.devices && Eligible(s.devices[e], s.limit, now)
      ensures |s.devices[e].seen| > 0
      ensures Rank(s.devices[p], ClampWeight(weight), now) <= Rank(s.devices[e], ClampWeight(weight), now)
    {
      assert e in EligibleIn(s, now);
      assert e in eligible;
      SameRank(s, p, ClampWeight(weight), now);
      SameRank(s, e, ClampWeight(weight), now);
      ScoresCompareAsRanks(looked.devices[p], looked.devices[e], ClampWeight(weight), now, totals.capacity,
                           totals.weight + ClampWeight(weight));
    }
  }

  lemma SameRank(s: Sel, d: string, weight: int, now: int)
    requires d in s.devices && d in LookedAll(s, now).devices && LookedAll(s, now).devices[d].seen != map[]
    ensures s.devices[d].seen == LookedAll(s, now).devices[d].seen && |s.devices[d].seen| > 0
    ensures Rank(s.devices[d], weight, now) == Rank(LookedAll(s, now).devices[d], weight, now)
  {
    hide LookedAll;
    LookedKeepsRank(s, d, now);
    var dev := s.devices[d];
    assert |dev.seen| > 0;
    HistoryDoesNotRank(dev, LookedAll(s, now).devices[d].history, weight, now);
  }

  lemma HistoryDoesNotRank(d: Dev, history: seq<int>, weight: int, now: int)
    requires |d.seen| > 0
    ensures Rank(d.(history := history), weight, now) == Rank(d, weight, now)
  {
    var d' := d.(history := history);
    assert Penalty(d', now) == Penalty(d, now);
    assert Capacity(d') == Capacity(d) && Load(d', weight) == Load(d, weight);
  }

  /** The look with the devices of todo still ahead. */
  ghost function LookedAllBut(s: Sel, todo: set<string>, now: int): (s': Sel)
    ensures s'.limit == s.limit && s'.devices.Keys == s.devices.Keys
  {
    s.(devices := map d | d in s.devices :: if d in todo then s.devices[d] else Looked(s.devices[d], s.limit, now))
  }

  lemma LookedNone(s: Sel, now: int)
    ensures LookedAllBut(s, s.devices.Keys, now) == s
  {
    assert LookedAllBut(s, s.devices.Keys, now).devices == s.devices;
  }

  lemma LookedOneMore(s: Sel, todo: set<string>, d: string, now: int)
    requires d in s.devices && d in todo
    ensures var s' := LookedAllBut(s, todo, now);
            && s'.limit == s.limit && d in s'.devices && s'.devices[d] == s.devices[d]
            && Put(s', d, Looked(s'.devices[d], s.limit, now)) == LookedAllBut(s, todo - {d}, now)
  {
    hide Looked;
    var s' := LookedAllBut(s, todo, now);
    assert Put(s', d, Looked(s'.devices[d], s.limit, now)).devices == LookedAllBut(s, todo - {d}, now).devices;
  }

  lemma LookedDone(s: Sel, now: int)
    ensures LookedAllBut(s, {}, now) == LookedAll(s, now)
  {
    assert LookedAllBut(s, {}, now).devices == LookedAll(s, now).devices;
  }

  /** The walk with the devices of todo still ahead. */
  ghost function ForgetAllBut(s: Sel, todo: set<string>, dur: int, now: int): Sel {
    s.(devices := map d | d in s.devices :: if d in todo then s.devices[d] else Forget(s.devices[d], dur, now))
  }

  lemma ForgetNone(s: Sel, dur: int, now: int)
    ensures ForgetAllBut(s, s.devices.Keys, dur, now) == s
  {
    assert ForgetAllBut(s, s.devices.Keys, dur, now).devices == s.devices;
  }

  lemma ForgetOneMore(s: Sel, todo: set<string>, d: string, dur: int, now: int)
    requires d in s.devices && d in todo
    ensures var s' := ForgetAllBut(s, todo, dur, now);
            d in s'.devices && Put(s', d, Forget(s'.devices[d], dur, now)) == ForgetAllBut(s, todo - {d}, dur, now)
  {
    hide Forget;
    var s' := ForgetAllBut(s, todo, dur, now);
    assert Put(s', d, Forget(s'.devices[d], dur, now)).devices == ForgetAllBut(s, todo - {d}, dur, now).devices;
  }

  lemma ForgetDone(s: Sel, dur: int, now: int)
    ensures ForgetAllBut(s, {}, dur, now) == ForgetAll(s, dur, now)
  {
    assert ForgetAllBut(s, {}, dur, now).devices == ForgetAll(s, dur, now).devices;
  }

  lemma ModelsOf(s: BalancedSelector)
    requires s.Shape()
    ensures forall d :: d in s.devices ==> s.devices[d].Model() == s.Model().devices[d]
  {
  }

  /** A change confined to one device's objects, known or new, changes that device's entry alone. */
  lemma FrameOne(s: BalancedSelector, before: Sel, d: string, dev: Dev)
    requires s.Shape() && s.limit == before.limit && d in s.devices && s.devices[d].Model() == dev
    requires s.devices.Keys == before.devices.Keys + {d}
    requires forall e :: e in before.devices && e != d ==> s.devices[e].Model() == before.devices[e]
    ensures s.Model() == Put(before, d, dev)
  {
    hide BalancedSelector.Shape, SelectableDevice.Valid, SelectableDevice.Linked, SelectableDevice.Model;
    assert s.Model().devices == Put(before, d, dev).devices;
  }

  lemma FrameWithout(s: BalancedSelector, before: Sel, d: string)
    requires s.Shape() && s.limit == before.limit && d !in s.devices
    requires s.devices.Keys == before.devices.Keys - {d}
    requires forall e :: e in before.devices && e != d ==> s.devices[e].Model() == before.devices[e]
    ensures s.Model() == before.(devices := before.devices - {d})
  {
    hide BalancedSelector.Shape, SelectableDevice.Valid, SelectableDevice.Linked, SelectableDevice.Model;
    assert s.Model().devices == before.devices - {d};
  }

  /** A device created first, and enabled, makes no difference to the announcement. */
  lemma AnnounceToNew(s: Sel, worker: Worker)
    requires Inv(s) && worker.Worker? && worker.deviceID !in s.devices
    ensures var s' := Put(s, worker.deviceID, NewDev(true));
            Inv(s') && WorkerAvailable(s', worker) == WorkerAvailable(s, worker)
  {
    hide Accounting;
    NewDevAccounts(true);
    PutKeepsInv(s, worker.deviceID, NewDev(true));
  }

  lemma ReleasedIsFree(d: Dev, id: string)
    requires Shaped(d) && id in d.seen
    ensures id in Release(d, id).seen && Release(d, id).seen[id].weight == 0
  {
  }

  /** What is forgotten was not queued. */
  lemma QueueStays(d: Dev, dur: int, now: int)
    requires Accounting(d)
    ensures forall i :: 0 <= i < |d.queue| ==> d.queue[i] in d.seen && !LongGone(d.seen[d.queue[i]], dur, now)
  {
    forall i | 0 <= i < |d.queue| ensures d.queue[i] in d.seen && !LongGone(d.seen[d.queue[i]], dur, now) {
      assert d.queue[i] in d.queue && SlotOk(d, d.queue[i]);
    }
  }

  /** A change to one worker changes that worker's slot alone. */
  lemma SlotChanged(d: SelectableDevice, seen: map<string, Slot>, w: SelectableWorker)
    requires d.Linked() && w.id in d.workerIDsSeen && d.workerIDsSeen[w.id] == w
    requires d.workerIDsSeen.Keys == seen.Keys + {w.id}
    requires forall id :: id in seen && id != w.id ==> d.workerIDsSeen[id].Value() == seen[id]
    ensures d.Model().seen == seen[w.id := w.Value()]
  {
    hide Ids, SelectableWorker.Value;
  }

  lemma IdsTail(q: seq<SelectableWorker>)
    requires q != []
    ensures Ids(q)[0] == q[0].id && Ids(q[1..]) == Ids(q)[1..]
  {
  }

  lemma IdsDropAt(q: seq<SelectableWorker>, i: nat)
    requires i < |q|
    ensures Ids(q[..i] + q[i + 1..]) == Ids(q)[..i] + Ids(q)[i + 1..]
  {
  }

  lemma IdsAt(q: seq<SelectableWorker>)
    ensures forall i :: 0 <= i < |q| ==> Ids(q)[i] == q[i].id
  {
  }
}
