/** `ThreadLocalProxy` of pypsi/utils.py: a stand-in for a global stream that
    keeps one binding per thread id and forwards attribute access to the
    binding of the calling thread. The calling thread's id is an explicit
    parameter `caller` of every operation. */
module ThreadLocal {
  import opened Errors

  type ThreadId = int

  /** `tid or threading.get_ident()`: a missing tid and the falsy tid 0 both
      stand for the calling thread. */
  function EffectiveTid(tid: Option<ThreadId>, caller: ThreadId): (t: ThreadId)
    ensures t == caller || tid == Some(t)
    ensures t != caller ==> t != 0
    ensures tid.None? || tid == Some(0) ==> t == caller
    ensures tid.Some? && tid.value != 0 ==> t == tid.value
  {
    if tid.Some? && tid.value != 0 then tid.value else caller
  }

  /** `table[t] = obj`: binds `obj` to `t`, replacing any earlier binding of `t`. */
  function Added<T>(table: map<ThreadId, T>, obj: T, t: ThreadId): (r: map<ThreadId, T>)
    ensures r.Keys == table.Keys + {t}
    ensures r[t] == obj
    ensures forall u :: u in table && u != t ==> r[u] == table[u]
  {
    table[t := obj]
  }

  /** `del table[t]`: KeyError when `t` has no binding, otherwise the table
      without `t` and with every other binding as it was. */
  function Removed<T>(table: map<ThreadId, T>, t: ThreadId): (r: Result<map<ThreadId, T>>)
    ensures r.Ok? <==> t in table
    ensures r.Err? ==> r.error == KeyError
    ensures r.Ok? ==> r.value.Keys == table.Keys - {t}
    ensures r.Ok? ==> forall u :: u in r.value ==> r.value[u] == table[u]
  {
    if t in table then Ok(table - {t}) else Err(KeyError)
  }

  /** `table[t]`: the binding of `t`, or KeyError; never another thread's binding. */
  function Lookup<T>(table: map<ThreadId, T>, t: ThreadId): (r: Result<T>)
    ensures r.Ok? <==> t in table
    ensures r.Ok? ==> r.value == table[t]
    ensures r.Err? ==> r.error == KeyError
  {
    if t in table then Ok(table[t]) else Err(KeyError)
  }

  class ThreadLocalProxy<T> {
    /** `_proxies`: thread id to the object that thread sees. */
    var proxies: map<ThreadId, T>

    /** `ThreadLocalProxy(obj)`: one binding, `obj` for the constructing thread. */
    constructor (obj: T, caller: ThreadId)
      ensures proxies == map[caller := obj]
      ensures proxies.Keys == {caller}
    {
      proxies := map[];
      new;
      AddProxy(obj, None, caller);
    }

    /** `_add_proxy(obj, tid)`. */
    method AddProxy(obj: T, tid: Option<ThreadId>, caller: ThreadId)
      modifies this
      ensures proxies == Added(old(proxies), obj, EffectiveTid(tid, caller))
    {
      var t := EffectiveTid(tid, caller);
      proxies := proxies[t := obj];
    }

    /** `_remove_proxy(tid)`: KeyError, and no change, when the tid is unbound. */
    method RemoveProxy(tid: Option<ThreadId>, caller: ThreadId) returns (r: Outcome)
      modifies this
      ensures var t := EffectiveTid(tid, caller);
        match Removed(old(proxies), t)
        case Ok(rest) => r == Pass && proxies == rest
        case Err(e) => r == Fail(e) && proxies == old(proxies)
    {
      var t := EffectiveTid(tid, caller);
      if t in proxies {
        proxies := proxies - {t};
        r := Pass;
      } else {
        r := Fail(KeyError);
      }
    }

    /** `_get(tid)`. */
    method Get(tid: Option<ThreadId>, caller: ThreadId) returns (r: Result<T>)
      ensures var t := EffectiveTid(tid, caller);
        (t in proxies ==> r == Ok(proxies[t])) && (t !in proxies ==> r == Err(KeyError))
    {
      var t := EffectiveTid(tid, caller);
      if t in proxies {
        r := Ok(proxies[t]);
      } else {
        r := Err(KeyError);
      }
    }

    /** `__getattr__`: resolve the calling thread's binding (no tid defaulting
        here: the key is the caller's id itself), then read the attribute from
        it; `attr` stands for the attribute read and may itself raise. */
    method GetAttr<A>(attr: T -> Result<A>, caller: ThreadId) returns (r: Result<A>)
      ensures caller in proxies ==> r == attr(proxies[caller])
      ensures caller !in proxies ==> r == Err(KeyError)
    {
      if caller in proxies {
        r := attr(proxies[caller]);
      } else {
        r := Err(KeyError);
      }
    }
  }

  /** One call of `_add_proxy` or `_remove_proxy`, as issued by thread `caller`. */
  datatype Call<T> =
    | AddCall(obj: T, tid: Option<ThreadId>, caller: ThreadId)
    | RemoveCall(tid: Option<ThreadId>, caller: ThreadId)
  {
    function Target(): ThreadId { EffectiveTid(tid, caller) }
  }

  /** The table after one call; a remove that raises KeyError leaves it as it was. */
  function Apply<T>(table: map<ThreadId, T>, c: Call<T>): map<ThreadId, T>
  {
    match c
    case AddCall(obj, _, _) => Added(table, obj, c.Target())
    case RemoveCall(_, _) =>
      match Removed(table, c.Target())
      case Ok(rest) => rest
      case Err(_) => table
  }

  /** The table after a history of calls, oldest first. */
  function Replay<T>(table: map<ThreadId, T>, calls: seq<Call<T>>): map<ThreadId, T>
  {
    if calls == [] then table else Apply(Replay(table, calls[..|calls| - 1]), calls[|calls| - 1])
  }

  /** Isolation: calls aimed at other thread ids never change what `id` resolves to. */
  lemma {:induction false} ReplayIsolation<T>(table: map<ThreadId, T>, calls: seq<Call<T>>, id: ThreadId)
    requires forall i :: 0 <= i < |calls| ==> calls[i].Target() != id
    ensures Lookup(Replay(table, calls), id) == Lookup(table, id)
  {
    if calls != [] {
      ReplayIsolation(table, calls[..|calls| - 1], id);
    }
  }

  /** `id` resolves to the object of the LAST call aimed at it, whatever other
      threads did since; after a remove it is unbound and lookups raise KeyError. */
  lemma {:induction false} ReplayLatest<T>(table: map<ThreadId, T>, calls: seq<Call<T>>, i: nat, id: ThreadId)
    requires i < |calls| && calls[i].Target() == id
    requires forall j :: i < j < |calls| ==> calls[j].Target() != id
    ensures calls[i].AddCall? ==> Lookup(Replay(table, calls), id) == Ok(calls[i].obj)
    ensures calls[i].RemoveCall? ==> Lookup(Replay(table, calls), id) == Err(KeyError)
  {
    if i < |calls| - 1 {
      ReplayLatest(table, calls[..|calls| - 1], i, id);
    }
  }

  /** A fresh proxy resolves the constructing thread's id to the constructor's
      object and raises KeyError for every other id. */
  lemma FreshProxyLookup<T>(obj: T, caller: ThreadId, t: ThreadId)
    ensures Lookup(map[caller := obj], t) == if t == caller then Ok(obj) else Err(KeyError)
  {
  }
}
