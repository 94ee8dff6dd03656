/**
 The reclaim worker's pass over the requests it leased: compare with the live key, delete every rendition,
 and drop the request; a failed delete keeps the request for later.
 */
module ImageReclaimer {
  import opened ImageKeys

  datatype Task = Task(product: string, key: string)

  /** The key is what its product serves. */
  predicate IsLive(t: Task, live: map<string, string>)
  {
    t.product in live && live[t.product] == t.key
  }

  class Reclaimer {
    var objects: set<string>
    var queue: map<nat, Task>

    constructor (objects: set<string>, queue: map<nat, Task>)
      ensures this.objects == objects && this.queue == queue
    {
      this.objects, this.queue := objects, queue;
    }

    /** Deletes one key's renditions in order; the first store fault stops it. */
    method DeleteAll(key: string, faulty: set<string>) returns (ok: bool)
      modifies this`objects
      ensures objects <= old(objects)
      ensures forall r | r in old(objects) && r !in objects :: r in Renditions(key)
      ensures ok ==> forall i | 0 <= i < |Renditions(key)| :: Renditions(key)[i] !in objects
      ensures ok <==> forall i | 0 <= i < |Renditions(key)| :: Renditions(key)[i] !in faulty
    {
      hide Renditions;
      var keys := Renditions(key);
      var n := 0;
      while n < |keys|
        invariant 0 <= n <= |keys| && objects <= old(objects)
        invariant forall r | r in old(objects) && r !in objects :: r in keys
        invariant forall i | 0 <= i < n :: keys[i] !in objects && keys[i] !in faulty
      {
        if keys[n] in faulty {
          return false;
        }
        objects := objects - {keys[n]};
        n := n + 1;
      }
      return true;
    }

    /**
     One pass: what disappears from the store is a rendition of a leased task that was not live; every
     finished request was live or has nothing left in the store; an unfinished one is still queued; and
     the answer is the number finished.
     */
    method DrainReclaims(tasks: seq<nat>, live: map<string, string>, faulty: set<string>) returns (done: seq<nat>)
      requires forall i | 0 <= i < |tasks| :: tasks[i] in queue
      requires forall i, j | 0 <= i < j < |tasks| :: tasks[i] != tasks[j]
      modifies this
      ensures forall d | d in done :: d in tasks
      ensures forall i | 0 <= i < |tasks| ::
                tasks[i] in done <==> var t := old(queue)[tasks[i]];
                  IsLive(t, live) || forall r | r in Renditions(t.key) :: r !in faulty
      ensures queue == map k | k in old(queue) && k !in done :: old(queue)[k]
      ensures objects <= old(objects)
      ensures forall r | r in old(objects) && r !in objects ::
                exists i | 0 <= i < |tasks| :: !IsLive(old(queue)[tasks[i]], live)
                    && r in Renditions(old(queue)[tasks[i]].key)
      ensures forall d | d in done :: IsLive(old(queue)[d], live) || forall r | r in Renditions(old(queue)[d].key) ::
                r !in objects
    {
      hide Renditions, IsLive;
      done := [];
      var n := 0;
      while n < |tasks|
        invariant 0 <= n <= |tasks| && queue == old(queue) && objects <= old(objects)
        invariant forall d | d in done :: d in tasks[..n]
        invariant forall i | 0 <= i < n ::
                    tasks[i] in done <==> var t := queue[tasks[i]];
                        IsLive(t, live)
                        || forall r | r in Renditions(t.key) :: r !in faulty
        invariant forall r | r in old(objects) && r !in objects ::
                    exists i | 0 <= i < n :: !IsLive(queue[tasks[i]], live) && r in Renditions(queue[tasks[i]].key)
        invariant forall d | d in done :: IsLive(queue[d], live) || forall r | r in Renditions(queue[d].key) ::
                    r !in objects
      {
        var task := queue[tasks[n]];
        assert tasks[n] !in tasks[..n];
        assert tasks[..n + 1] == tasks[..n] + [tasks[n]];
        ghost var before := objects;
        if IsLive(task, live) {
          done := done + [tasks[n]];
        } else {
          var ok := DeleteAll(task.key, faulty);
          assert forall r | r in before && r !in objects :: r in Renditions(task.key);
          if ok {
            done := done + [tasks[n]];
          }
        }
        n := n + 1;
      }
      assert tasks[..n] == tasks;
      queue := map k | k in queue && k !in done :: queue[k];
    }
  }
}
