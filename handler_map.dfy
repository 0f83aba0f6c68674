/**
 * The keyed HTTP handler registry (internal/httphandlermap/map.go).
 *
 * A request is dispatched by the key that `KeyGenFunc` generates from it: the handler
 * registered under that key serves it; otherwise `DefaultHandler` does; without a
 * default the dispatch panics. Without a `KeyGenFunc` the default (or a no-op) serves.
 * Requests, keys and handlers are type parameters: keys only need equality (Go's `any`
 * compared with `==`), handlers are opaque.
 */
module HandlerMap {
  import opened Wrappers

  /** How a request is served. */
  datatype Dispatch<K, H> =
    | Serve(handler: H)   // a registered handler or the default handler
    | NoOp                // the zero-value map's do-nothing handler
    | Panic(key: K)       // "No handler found for key ..." for the generated key

  /** The error of `Register`: "key <key> is already in use". */
  datatype RegisterError<K> = KeyInUse(key: K)

  /** The cleanup closure `Register` returns; calling it deletes `key`. */
  datatype Cleanup<K> = Cleanup(key: K)

  /** Everything `Register` produces: the new registrations, the cleanup (or nil) and the error (or nil). */
  datatype RegisterOutcome<K, H> = RegisterOutcome(handlers: map<K, H>, cleanup: Option<Cleanup<K>>, err: Option<RegisterError<K>>)

  /** `Register` on the registrations `handlers`. */
  function RegisterSpec<K, H>(handlers: map<K, H>, key: K, h: H): RegisterOutcome<K, H>
  {
    if key in handlers then RegisterOutcome(handlers, None, Some(KeyInUse(key)))
    else RegisterOutcome(handlers[key := h], Some(Cleanup(key)), None)
  }

  /** The registrations after the cleanup closure for `key` ran. */
  function CleanupSpec<K, H>(handlers: map<K, H>, c: Cleanup<K>): map<K, H>
  {
    handlers - {c.key}
  }

  /** `mustLoadHandler`: which handler serves `req`. */
  function MustLoadHandler<R, K, H>(keyGenFunc: Option<R -> K>, defaultHandler: Option<H>, handlers: map<K, H>, req: R)
    : (d: Dispatch<K, H>)
    ensures d.Panic? <==> keyGenFunc.Some? && defaultHandler.None? && keyGenFunc.value(req) !in handlers
    ensures d.NoOp? <==> keyGenFunc.None? && defaultHandler.None?
  {
    match keyGenFunc
    case None =>
      if defaultHandler.Some? then Serve(defaultHandler.value) else NoOp
    case Some(gen) =>
      var key := gen(req);
      if key in handlers then Serve(handlers[key])
      else if defaultHandler.Some? then Serve(defaultHandler.value)
      else Panic(key)
  }

  /** Register on an unused key stores the handler, leaves the other keys alone and returns a cleanup and no error. */
  lemma RegisterUnusedKey<K, H>(handlers: map<K, H>, key: K, h: H)
    requires key !in handlers
    ensures var o := RegisterSpec(handlers, key, h);
            && o.err == None && o.cleanup == Some(Cleanup(key))
            && key in o.handlers && o.handlers[key] == h
            && forall k :: k != key ==> (k in o.handlers <==> k in handlers) && (k in handlers ==> o.handlers[k] == handlers[k])
  {
  }

  /** Register on a key in use fails with "already in use" and a nil cleanup, and changes nothing. */
  lemma RegisterKeyInUse<K, H>(handlers: map<K, H>, key: K, h: H)
    requires key in handlers
    ensures RegisterSpec(handlers, key, h) == RegisterOutcome(handlers, None, Some(KeyInUse(key)))
  {
  }

  /**
   * The cleanup removes the key, so registering the same key again then succeeds; the
   * other registrations are those from before.
   */
  lemma CleanupFreesKey<K, H>(handlers: map<K, H>, key: K, h1: H, h2: H)
    requires key !in handlers
    ensures var first := RegisterSpec(handlers, key, h1);
            var second := RegisterSpec(first.handlers, key, h2);
            var cleaned := CleanupSpec(first.handlers, first.cleanup.value);
            var third := RegisterSpec(cleaned, key, h2);
            && second.err == Some(KeyInUse(key)) && second.cleanup == None
            && cleaned == handlers
            && third.err == None && third.handlers == handlers[key := h2]
  {
    var first := RegisterSpec(handlers, key, h1);
    assert CleanupSpec(first.handlers, first.cleanup.value) == handlers;
  }

  /** Without a key generator the default handler serves, or nothing happens; there is no panic. */
  lemma DispatchWithoutKeyGen<R, K, H>(defaultHandler: Option<H>, handlers: map<K, H>, req: R)
    ensures MustLoadHandler(None, defaultHandler, handlers, req) ==
              if defaultHandler.Some? then Serve(defaultHandler.value) else NoOp
  {
  }

  /** A registered generated key is served by exactly its handler, never by the default. */
  lemma DispatchRegisteredKey<R, K, H>(gen: R -> K, defaultHandler: Option<H>, handlers: map<K, H>, req: R)
    requires gen(req) in handlers
    ensures MustLoadHandler(Some(gen), defaultHandler, handlers, req) == Serve(handlers[gen(req)])
  {
  }

  /** An unregistered generated key is served by the default handler, or panics naming the key when there is none. */
  lemma DispatchUnregisteredKey<R, K, H>(gen: R -> K, defaultHandler: Option<H>, handlers: map<K, H>, req: R)
    requires gen(req) !in handlers
    ensures MustLoadHandler(Some(gen), defaultHandler, handlers, req) ==
              if defaultHandler.Some? then Serve(defaultHandler.value) else Panic(gen(req))
  {
  }

  /** Keys of Go's `any` type used in the tests: a string, a nil `*int`, and an untyped nil. */
  datatype AnyKey = StringKey(s: string) | NilIntPointer | UntypedNil

  /**
   * Distinct keys hold independent registrations: with handlers under "handler1", a nil
   * `*int` and an untyped nil, each generated key is served by its own handler.
   */
  lemma DistinctKeysIndependent<R, H>(h1: H, h2: H, h3: H, dflt: H, req: R)
    ensures var r1 := RegisterSpec(map[], StringKey("handler1"), h1);
            var r2 := RegisterSpec(r1.handlers, NilIntPointer, h2);
            var r3 := RegisterSpec(r2.handlers, UntypedNil, h3);
            && r1.err == None && r2.err == None && r3.err == None
            && MustLoadHandler(Some((_: R) => StringKey("handler1")), Some(dflt), r3.handlers, req) == Serve(h1)
            && MustLoadHandler(Some((_: R) => NilIntPointer), Some(dflt), r3.handlers, req) == Serve(h2)
            && MustLoadHandler(Some((_: R) => UntypedNil), Some(dflt), r3.handlers, req) == Serve(h3)
  {
  }

  /**
   * The `Map` object. `keyGenFunc` and `defaultHandler` are its public fields; `handlers`
   * is the concurrent map that Register and the cleanup update in place.
   */
  class HandlerMap<R, K(==), H> {
    var keyGenFunc: Option<R -> K>
    var defaultHandler: Option<H>
    var handlers: map<K, H>

    /** The zero value `Map{}`. */
    constructor ()
      ensures keyGenFunc == None && defaultHandler == None && handlers == map[]
    {
      keyGenFunc, defaultHandler, handlers := None, None, map[];
    }

    /** `Register`: store `h` under an unused `key`; refuse a key in use and change nothing. */
    method Register(key: K, h: H) returns (cleanup: Option<Cleanup<K>>, err: Option<RegisterError<K>>)
      modifies this`handlers
      ensures RegisterOutcome(handlers, cleanup, err) == RegisterSpec(old(handlers), key, h)
    {
      if key in handlers {
        return None, Some(KeyInUse(key));
      }
      handlers := handlers[key := h];
      return Some(Cleanup(key)), None;
    }

    /** Calling the cleanup closure: delete its key, whatever is registered under it now. */
    method RunCleanup(c: Cleanup<K>)
      modifies this`handlers
      ensures handlers == CleanupSpec(old(handlers), c)
    {
      handlers := handlers - {c.key};
    }

    /**
     * `ServeHTTP`: without a key generator the default handler (or nothing) serves; a
     * registered generated key is served by its handler; any other key by the default
     * handler, or it panics naming the key.
     */
    method ServeHTTP(req: R) returns (d: Dispatch<K, H>)
      ensures keyGenFunc.None? ==> d == if defaultHandler.Some? then Serve(defaultHandler.value) else NoOp
      ensures keyGenFunc.Some? && keyGenFunc.value(req) in handlers ==> d == Serve(handlers[keyGenFunc.value(req)])
      ensures keyGenFunc.Some? && keyGenFunc.value(req) !in handlers ==>
                d == if defaultHandler.Some? then Serve(defaultHandler.value) else Panic(keyGenFunc.value(req))
    {
      d := MustLoadHandler(keyGenFunc, defaultHandler, handlers, req);
      match keyGenFunc
      case None =>
        DispatchWithoutKeyGen(defaultHandler, handlers, req);
      case Some(gen) =>
        if gen(req) in handlers {
          DispatchRegisteredKey(gen, defaultHandler, handlers, req);
        } else {
          DispatchUnregisteredKey(gen, defaultHandler, handlers, req);
        }
    }
  }
}
