/**
  * src/EventDispatcher.ts: a registry of listeners per event type.
  *
  * A listener is a JavaScript function compared by identity (`indexOf`), so
  * the model represents it by that identity alone. What a listener does when
  * it is called belongs to whoever registered it: `DispatchEvent` returns the
  * listeners it calls, in order, and the owning classes of the model perform
  * the corresponding reaction.
  */
module Events {

  /** The identity of a listener function. */
  type Listener = nat

  type Registry = map<string, seq<Listener>>

  /** No type lists the same listener twice. */
  ghost predicate NoDuplicates(ls: Registry) {
    forall t :: t in ls ==> forall i, j :: 0 <= i < j < |ls[t]| ==> ls[t][i] != ls[t][j]
  }

  /** The listeners a dispatch of `kind` calls: its list, or none when the type has no list. */
  function ListenersOf(ls: Registry, kind: string): seq<Listener> {
    if kind in ls then ls[kind] else []
  }

  /**
    * The registry after `addEventListener(kind, l)`: an unseen type gets a new
    * list, and the listener is appended unless the type already holds it.
    */
  function WithListener(ls: Registry, kind: string, l: Listener): (r: Registry)
    ensures kind in r && l in r[kind]
    ensures kind !in ls ==> r[kind] == [l]
    ensures kind in ls && l in ls[kind] ==> r == ls
    ensures kind in ls && l !in ls[kind] ==> r[kind] == ls[kind] + [l]
    ensures r.Keys == ls.Keys + {kind}
    ensures forall t :: t in ls && t != kind ==> r[t] == ls[t]
  {
    var current := if kind in ls then ls[kind] else [];
    if l in current then ls else ls[kind := current + [l]]
  }

  /** Adding the same listener twice is the same as adding it once. */
  lemma WithListenerIdempotent(ls: Registry, kind: string, l: Listener)
    ensures WithListener(WithListener(ls, kind, l), kind, l) == WithListener(ls, kind, l)
  {
  }

  /** Adding never creates a duplicate. */
  lemma WithListenerKeepsNoDuplicates(ls: Registry, kind: string, l: Listener)
    requires NoDuplicates(ls)
    ensures NoDuplicates(WithListener(ls, kind, l))
  {
    var r := WithListener(ls, kind, l);
    forall t | t in r
      ensures forall i, j :: 0 <= i < j < |r[t]| ==> r[t][i] != r[t][j]
    {
      if t == kind && (kind !in ls || l !in ls[kind]) {
        var before := if kind in ls then ls[kind] else [];
        assert r[t] == before + [l];
        forall i, j | 0 <= i < j < |r[t]|
          ensures r[t][i] != r[t][j]
        {
          if j == |before| {
            assert r[t][i] == before[i];
          } else {
            assert r[t][i] == before[i] && r[t][j] == before[j];
          }
        }
      }
    }
  }

  /** Listeners of a type are kept in the order they were first added. */
  lemma WithListenerKeepsOrder(ls: Registry, kind: string, l: Listener)
    requires kind in ls
    ensures ls[kind] <= WithListener(ls, kind, l)[kind]
  {
  }

  /**
    * The registry after `removeAllEventListeners(kind)`: a missing or empty
    * type name (JavaScript falsy) drops every type; otherwise the type's list
    * is emptied in place, if it exists, and its key stays.
    */
  function Cleared(ls: Registry, kind: string): (r: Registry)
    ensures kind == "" ==> r == map[]
    ensures kind != "" && kind in ls ==> r.Keys == ls.Keys && r[kind] == []
    ensures kind != "" ==> forall t :: t in ls && t != kind ==> t in r && r[t] == ls[t]
    ensures kind != "" && kind !in ls ==> r == ls
  {
    if kind == "" then map[]
    else if kind in ls then ls[kind := []]
    else ls
  }

  /** Clearing never adds a listener, so it keeps the registry free of duplicates. */
  lemma ClearedKeepsNoDuplicates(ls: Registry, kind: string)
    requires NoDuplicates(ls)
    ensures NoDuplicates(Cleared(ls, kind))
  {
  }

  /** The event object handed to `dispatchEvent`; its `target` is set by the dispatch. */
  class DispatcherEvent {
    const kind: string
    var target: EventDispatcher?

    constructor (kind: string)
      ensures this.kind == kind && target == null
    {
      this.kind := kind;
      target := null;
    }
  }

  class EventDispatcher {

    var listeners: Registry

    ghost predicate Valid()
      reads this
    {
      NoDuplicates(listeners)
    }

    constructor ()
      ensures Valid() && listeners == map[]
    {
      listeners := map[];
    }

    method AddEventListener(kind: string, l: Listener)
      requires Valid()
      modifies this
      ensures Valid()
      ensures listeners == WithListener(old(listeners), kind, l)
    {
      WithListenerKeepsNoDuplicates(listeners, kind, l);
      if kind !in listeners {
        listeners := listeners[kind := []];
      }
      if l !in listeners[kind] {
        listeners := listeners[kind := listeners[kind] + [l]];
      }
    }

    /** `kind` is the optional argument; both `undefined` and `""` are represented by `""`. */
    method RemoveAllEventListeners(kind: string)
      requires Valid()
      modifies this
      ensures Valid()
      ensures listeners == Cleared(old(listeners), kind)
    {
      ClearedKeepsNoDuplicates(listeners, kind);
      if kind == "" {
        listeners := map[];
        return;
      }
      if kind in listeners {
        listeners := listeners[kind := []];
      }
    }

    /**
      * Calls the listeners of `event.kind` over a copy of the list taken before
      * the first call, and returns the listeners called, in order. A type with
      * no list calls nothing and leaves `event.target` alone; a type with a
      * list, even an empty one, sets the target to this dispatcher.
      */
    method DispatchEvent(event: DispatcherEvent) returns (called: seq<Listener>)
      modifies event
      ensures unchanged(this)
      ensures event.kind in listeners ==> event.target == this && called == listeners[event.kind]
      ensures event.kind !in listeners ==> event.target == old(event.target) && called == []
    {
      called := [];
      if event.kind in listeners {
        event.target := this;
        var snapshot := listeners[event.kind];
        var i := 0;
        while i < |snapshot|
          invariant 0 <= i <= |snapshot|
          invariant called == snapshot[..i]
        {
          called := called + [snapshot[i]];
          i := i + 1;
        }
      }
    }
  }
}
