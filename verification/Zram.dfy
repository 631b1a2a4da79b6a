/** `zram_util::init`: one worker thread per zram device. */
module Zram {

  /** A spawned worker thread; it can end at any moment. */
  datatype Worker = Worker(device: string, live: bool)

  predicate IsZram(device: string) {
    "zram" <= device
  }

  class Writeback {
    /** The worker last spawned for each device, by its number. */
    var deviceMap: map<string, nat>
    /** All workers ever spawned. */
    var workers: seq<Worker>

    ghost predicate Valid()
      reads this
    {
      && (forall d | d in deviceMap :: deviceMap[d] < |workers| && workers[deviceMap[d]].device == d)
      && (forall i | 0 <= i < |workers| && workers[i].live ::
            workers[i].device in deviceMap && deviceMap[workers[i].device] == i)
    }

    constructor ()
      ensures Valid() && workers == []
    {
      deviceMap := map[];
      workers := [];
    }

    /** What happens outside: some workers end. */
    method Finish(ended: set<nat>)
      requires Valid()
      modifies this`workers
      ensures Valid() && |workers| == |old(workers)|
      ensures forall i | 0 <= i < |workers| ::
                workers[i] == if i in ended then old(workers)[i].(live := false) else old(workers)[i]
    {
      workers := seq(|workers|, i requires 0 <= i < |workers| reads this => if i in ended then workers[i].(live := false) else workers[i]);
    }

    /** `retain(|_, x| !x.is_finished())`. */
    method Retain()
      requires Valid()
      modifies this`deviceMap
      ensures Valid()
      ensures forall d :: d in deviceMap <==> d in old(deviceMap) && workers[old(deviceMap)[d]].live
      ensures forall d | d in deviceMap :: deviceMap[d] == old(deviceMap)[d]
    {
      deviceMap := map d | d in deviceMap && workers[deviceMap[d]].live :: deviceMap[d];
    }

    /** `entry(..).or_insert_with(spawn)`. */
    method Visit(device: string)
      requires Valid()
      modifies this
      ensures Valid()
      ensures if IsZram(device) && device !in old(deviceMap)
              then workers == old(workers) + [Worker(device, true)] && deviceMap == old(deviceMap)[device := |old(workers)|]
              else workers == old(workers) && deviceMap == old(deviceMap)
    {
      if IsZram(device) && device !in deviceMap {
        deviceMap := deviceMap[device := |workers|];
        workers := workers + [Worker(device, true)];
      }
    }

    /** Some workers end, then a device is looked at. */
    method Slot(device: string, ended: set<nat>, ghost kept: seq<Worker>, ghost retained: map<string, nat>, ghost listing: seq<string>)
      requires Valid() && Grown(kept, retained, listing, workers, deviceMap) && device in listing
      modifies this
      ensures Valid() && Grown(kept, retained, listing, workers, deviceMap)
      ensures IsZram(device) ==> device in deviceMap
      ensures forall d | d in old(deviceMap) :: d in deviceMap
    {
      Finish(ended);
      Visit(device);
    }

    /**
     One round of the loop over a listing of block devices. `ended[0]` ends
     before the retain step, `ended[1 + i]` before device `i` is looked at.
     */
    method Round(listing: seq<string>, ended: seq<set<nat>>)
      requires Valid() && |ended| == |listing| + 1
      modifies this
      ensures Valid() && |old(workers)| <= |workers|
      ensures forall i | 0 <= i < |old(workers)| ::
                workers[i].device == old(workers)[i].device && (workers[i].live ==> old(workers)[i].live)
      // a listed device whose worker had ended before the retain step has a new one, any other keeps its own
      ensures forall d | d in listing && IsZram(d) ::
                && d in deviceMap
                && if d in old(deviceMap) && old(workers)[old(deviceMap)[d]].live && old(deviceMap)[d] !in ended[0]
                   then deviceMap[d] == old(deviceMap)[d]
                   else |old(workers)| <= deviceMap[d]
      // workers are spawned for listed zram devices only, one for each at most
      ensures forall i | |old(workers)| <= i < |workers| ::
                IsZram(workers[i].device) && workers[i].device in listing && deviceMap[workers[i].device] == i
    {
      Finish(ended[0]);
      ghost var kept := workers;
      Retain();
      ghost var retained := deviceMap;
      var i := 0;
      while i < |listing|
        invariant i <= |listing|
        invariant Valid() && Grown(kept, retained, listing, workers, deviceMap)
        invariant forall j | 0 <= j < i && IsZram(listing[j]) :: listing[j] in deviceMap
      {
        Slot(listing[i], ended[1 + i], kept, retained, listing);
        i := i + 1;
      }
    }
  }

  /** What a round has made of the workers kept and the map retained at its start. */
  ghost predicate Grown(kept: seq<Worker>, retained: map<string, nat>, listing: seq<string>,
                        workers: seq<Worker>, deviceMap: map<string, nat>) {
    && |kept| <= |workers|
    && (forall j | 0 <= j < |kept| :: workers[j].device == kept[j].device && (workers[j].live ==> kept[j].live))
    && (forall d | d in retained :: d in deviceMap && deviceMap[d] == retained[d])
    && (forall d | d in deviceMap && d !in retained :: |kept| <= deviceMap[d])
    && (forall j | |kept| <= j < |workers| ::
          && IsZram(workers[j].device) && workers[j].device in listing
          && workers[j].device in deviceMap && deviceMap[workers[j].device] == j)
  }

  /** The invariant that every step keeps leaves room for one live worker per device name. */
  lemma OneLiveWorkerPerDevice(w: Writeback, i: nat, j: nat)
    requires w.Valid() && i < |w.workers| && j < |w.workers|
    requires w.workers[i].live && w.workers[j].live && w.workers[i].device == w.workers[j].device
    ensures i == j
  {
  }
}
