/** Quantities of logical resources: requests, usage per Runtime Pod, and what fits. */
module ResourceUsage {

  /** Integer quantities by resource name; a missing name means none. */
  type ResourceList = map<string, nat>

  type UsageByPod = map<string, ResourceList>

  datatype RunKey = RunKey(ns: string, uid: string)

  function Amount(list: ResourceList, resource: string): nat {
    if resource in list then list[resource] else 0
  }

  function Used(usage: UsageByPod, pod: string, resource: string): nat {
    if pod in usage then Amount(usage[pod], resource) else 0
  }

  // ---- sums over sets of Runs -----------------------------------------------

  ghost function RequestOf(requests: map<RunKey, ResourceList>, k: RunKey, resource: string): nat {
    if k in requests then Amount(requests[k], resource) else 0
  }

  ghost function Total(requests: map<RunKey, ResourceList>, keys: set<RunKey>, resource: string): nat {
    if keys == {} then 0
    else
      var k :| k in keys;
      RequestOf(requests, k, resource) + Total(requests, keys - {k}, resource)
  }

  lemma {:induction false} TotalSplit(
      requests: map<RunKey, ResourceList>, keys: set<RunKey>, k: RunKey, resource: string)
    requires k in keys
    ensures Total(requests, keys, resource) == RequestOf(requests, k, resource) + Total(requests, keys - {k}, resource)
    decreases |keys|
  {
    var p :| p in keys && Total(requests, keys, resource)
                          == RequestOf(requests, p, resource) + Total(requests, keys - {p}, resource);
    if p != k {
      TotalSplit(requests, keys - {p}, k, resource);
      TotalSplit(requests, keys - {k}, p, resource);
      assert keys - {p} - {k} == keys - {k} - {p};
    }
  }

  lemma {:induction false} TotalUnion(
      requests: map<RunKey, ResourceList>, a: set<RunKey>, b: set<RunKey>, resource: string)
    requires a !! b
    ensures Total(requests, a + b, resource) == Total(requests, a, resource) + Total(requests, b, resource)
    decreases |a|
  {
    if a == {} {
      assert a + b == b;
    } else {
      var k :| k in a;
      TotalSplit(requests, a, k, resource);
      TotalSplit(requests, a + b, k, resource);
      assert (a + b) - {k} == (a - {k}) + b;
      TotalUnion(requests, a - {k}, b, resource);
    }
  }

  lemma TotalMonotone(requests: map<RunKey, ResourceList>, a: set<RunKey>, b: set<RunKey>, resource: string)
    requires a <= b
    ensures Total(requests, a, resource) <= Total(requests, b, resource)
  {
    assert b == a + (b - a);
    TotalUnion(requests, a, b - a, resource);
  }

  lemma {:induction false} TotalSame(
      a: map<RunKey, ResourceList>, b: map<RunKey, ResourceList>, keys: set<RunKey>, resource: string)
    requires forall k :: k in keys ==> RequestOf(a, k, resource) == RequestOf(b, k, resource)
    ensures Total(a, keys, resource) == Total(b, keys, resource)
    decreases |keys|
  {
    if keys != {} {
      var k :| k in keys;
      TotalSplit(a, keys, k, resource);
      TotalSplit(b, keys, k, resource);
      TotalSame(a, b, keys - {k}, resource);
    }
  }

  // ---- accumulation loops ---------------------------------------------------

  method AddUsage(usage: UsageByPod, pod: string, request: ResourceList) returns (r: UsageByPod)
    ensures forall p, x :: Used(r, p, x) == Used(usage, p, x) + if p == pod then Amount(request, x) else 0
  {
    var resources: ResourceList := if pod in usage then usage[pod] else map[];
    ghost var before := resources;
    var rest := request.Keys;
    while rest != {}
      invariant rest <= request.Keys
      invariant forall x :: Amount(resources, x) == Amount(before, x) + if x in rest then 0 else Amount(request, x)
    {
      var name :| name in rest;
      resources := resources[name := Amount(resources, name) + request[name]];
      rest := rest - {name};
    }
    r := usage[pod := resources];
  }

  method MergeUsage(first: UsageByPod, second: UsageByPod) returns (r: UsageByPod)
    ensures forall p, x :: Used(r, p, x) == Used(first, p, x) + Used(second, p, x)
  {
    r := first;
    var rest := second.Keys;
    while rest != {}
      invariant rest <= second.Keys
      invariant forall p, x :: Used(r, p, x) == Used(first, p, x) + if p in rest then 0 else Used(second, p, x)
    {
      var pod :| pod in rest;
      r := AddUsage(r, pod, second[pod]);
      rest := rest - {pod};
    }
  }

  /** Adding the request to the usage stays within capacity in every requested resource. */
  ghost predicate FitsWithin(capacity: ResourceList, usage: ResourceList, request: ResourceList) {
    forall x :: x in request && request[x] > 0 ==> x in capacity && Amount(usage, x) + request[x] <= capacity[x]
  }

  method Fits(capacity: ResourceList, usage: ResourceList, request: ResourceList) returns (fits: bool)
    ensures fits <==> FitsWithin(capacity, usage, request)
  {
    var rest := request.Keys;
    while rest != {}
      invariant rest <= request.Keys
      invariant forall x :: x in request && x !in rest && request[x] > 0 ==>
                  x in capacity && Amount(usage, x) + request[x] <= capacity[x]
    {
      var name :| name in rest;
      rest := rest - {name};
      if request[name] > 0 {
        if name !in capacity {
          return false;
        }
        if Amount(usage, name) + request[name] > capacity[name] {
          return false;
        }
      }
    }
    return true;
  }
}
