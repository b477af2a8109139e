/** The minimal publish/subscribe registry every shape inherits: a dictionary
    from event type to the ordered list of listeners registered for it. */
module Events {
  import opened Seqs

  /** A listener function. JavaScript compares functions by reference, so a
      listener is modelled by its identity. */
  datatype Listener = Listener(id: nat)

  /** One invocation `fn(...args)` made by `emit`. Listeners are foreign code:
      the model records that they were called and with what. */
  datatype Call<A> = Call(fn: Listener, args: seq<A>)

  /** `events[type] || []`: the listeners registered for `t` (an array is
      always truthy, so a present list is used even when empty). */
  function Registered(events: map<string, seq<Listener>>, t: string): (r: seq<Listener>)
    ensures t !in events ==> r == []
    ensures t in events ==> r == events[t]
  {
    if t in events then events[t] else []
  }

  /** The calls made by `fns.forEach(fn => fn(...args))`: each listener once
      per registration, in registration order, with the same arguments. */
  function Dispatch<A>(fns: seq<Listener>, args: seq<A>): (calls: seq<Call<A>>)
    ensures |calls| == |fns|
    ensures forall i :: 0 <= i < |fns| ==> calls[i] == Call(fns[i], args)
  {
    if |fns| == 0 then [] else [Call(fns[0], args)] + Dispatch(fns[1..], args)
  }

  /** The calls made by emitting the same arguments on a series of emitters,
      one after another; `lists[k]` holds the listeners of the k-th emitter. */
  function Broadcast<A>(lists: seq<seq<Listener>>, args: seq<A>): (calls: seq<Call<A>>)
    ensures forall i :: 0 <= i < |calls| ==> calls[i].args == args
  {
    if |lists| == 0 then []
    else Broadcast(lists[..|lists| - 1], args) + Dispatch(lists[|lists| - 1], args)
  }

  /** The first emitter's listeners all run before any later emitter's. */
  lemma {:induction false} BroadcastFirst<A>(first: seq<Listener>, rest: seq<seq<Listener>>, args: seq<A>)
    ensures Broadcast([first] + rest, args) == Dispatch(first, args) + Broadcast(rest, args)
  {
    if |rest| == 0 {
      assert [first] + rest == [first];
      assert ([first] + rest)[..0] == [];
    } else {
      var init := rest[..|rest| - 1];
      assert ([first] + rest)[..|rest|] == [first] + init;
      BroadcastFirst(first, init, args);
    }
  }

  class EventEmitter<A> {
    var events: map<string, seq<Listener>>

    constructor ()
      ensures events == map[]
    {
      events := map[];
    }

    /** `on(type, fn)`: append `fn` to the list for `type` (creating it if
        needed); duplicates are kept and other types are untouched. */
    method On(t: string, fn: Listener)
      modifies this
      ensures events == old(events)[t := Registered(old(events), t) + [fn]]
    {
      var list := Registered(events, t);
      events := events[t := list + [fn]];
    }

    /** `off(type, fn)`: remove the first registration of `fn` for `type`,
        leaving an (possibly new, empty) list for `type` behind. */
    method Off(t: string, fn: Listener)
      modifies this
      ensures events == old(events)[t := RemoveFirst(Registered(old(events), t), fn)]
    {
      var list := Registered(events, t);
      var index := IndexOf(list, fn);
      if index > -1 {
        list := RemoveAt(list, index);
      }
      events := events[t := list];
    }

    /** `emit(type, ...args)`: invoke every listener registered for `type`, in
        order, with `args`. The only change to the registry is that `type`
        gets an empty list if it had none. */
    method Emit(t: string, args: seq<A>) returns (calls: seq<Call<A>>)
      modifies this
      ensures events == old(events)[t := Registered(old(events), t)]
      ensures forall k :: Registered(events, k) == Registered(old(events), k)
      ensures calls == Dispatch(Registered(old(events), t), args)
    {
      var fns := Registered(events, t);
      events := events[t := fns];
      calls := [];
      var i := 0;
      while i < |fns|
        invariant 0 <= i <= |fns|
        invariant calls == Dispatch(fns[..i], args)
        invariant events == old(events)[t := fns]
      {
        assert fns[..i + 1] == fns[..i] + [fns[i]];
        DispatchAppend(fns[..i], fns[i], args);
        calls := calls + [Call(fns[i], args)];
        i := i + 1;
      }
      assert fns[..i] == fns;
    }
  }

  lemma DispatchAppend<A>(fns: seq<Listener>, f: Listener, args: seq<A>)
    ensures Dispatch(fns + [f], args) == Dispatch(fns, args) + [Call(f, args)]
  {
    var l, r := Dispatch(fns + [f], args), Dispatch(fns, args) + [Call(f, args)];
    assert |l| == |r|;
    assert forall i :: 0 <= i < |l| ==> l[i] == r[i];
  }

  /** `on(t, f)` then `off(t, f)` keeps the multiset of listeners for `t`, and when
      `f` was not registered before, gives back exactly the old list. */
  method OnThenOff<A>(e: EventEmitter<A>, t: string, fn: Listener)
    modifies e
    ensures multiset(Registered(e.events, t)) == multiset(Registered(old(e.events), t))
    ensures fn !in Registered(old(e.events), t) ==> Registered(e.events, t) == Registered(old(e.events), t)
    ensures forall k :: k != t ==> Registered(e.events, k) == Registered(old(e.events), k)
  {
    e.On(t, fn);
    e.Off(t, fn);
    AppendThenRemoveFirst(Registered(old(e.events), t), fn);
  }
}
