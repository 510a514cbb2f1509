/**
 * Listener bookkeeping between a mode's handlers and the canvas element
 * (src/canvas/events/EventDispatcher.ts). The element's listener list is
 * modelled as a set of (event type, listener) registrations: the DOM keeps
 * at most one registration per pair. Each `bind` makes a new closure, so a
 * listener is a fresh object.
 */
module EventDispatcher {
  import opened ModeContext

  /** `keyof EventMap`: the four mouse event types. */
  datatype EventType = MouseDown | MouseMove | MouseUp | MouseOut
  {
    function Name(): string {
      match this
      case MouseDown => "mousedown"
      case MouseMove => "mousemove"
      case MouseUp => "mouseup"
      case MouseOut => "mouseout"
    }
  }

  /** The closure `bind` registers. */
  class Listener {
    constructor ()
    {
    }
  }

  datatype Registration = Registration(eventType: EventType, listener: Listener)

  /**
   * The listener registrations of the canvas element for the four mouse
   * event types (registrations for other types never interact with these).
   */
  class CanvasElement {
    var listeners: set<Registration>

    constructor ()
      ensures listeners == {}
    {
      listeners := {};
    }

    method AddEventListener(eventType: EventType, listener: Listener)
      modifies this
      ensures listeners == old(listeners) + {Registration(eventType, listener)}
    {
      listeners := listeners + {Registration(eventType, listener)};
    }

    method RemoveEventListener(eventType: EventType, listener: Listener)
      modifies this
      ensures listeners == old(listeners) - {Registration(eventType, listener)}
    {
      listeners := listeners - {Registration(eventType, listener)};
    }
  }

  /** The registrations a bound-listener record stands for. */
  function Registrations(bound: map<EventType, Listener>): (rs: set<Registration>)
    ensures forall t :: t in bound ==> Registration(t, bound[t]) in rs
    ensures forall r :: r in rs ==> r.eventType in bound && bound[r.eventType] == r.listener
  {
    set t | t in bound :: Registration(t, bound[t])
  }

  /** Recording one more event type adds exactly its registration. */
  lemma RegistrationsAdd(bound: map<EventType, Listener>, t: EventType, l: Listener)
    requires t !in bound
    ensures Registrations(bound[t := l]) == Registrations(bound) + {Registration(t, l)}
  {
    var lhs := Registrations(bound[t := l]);
    var rhs := Registrations(bound) + {Registration(t, l)};
    forall r | r in rhs
      ensures r in lhs
    {
      var m := bound[t := l];
      if r == Registration(t, l) {
        assert r == Registration(t, m[t]);
      } else {
        assert r.eventType in bound && r.eventType != t;
        assert r == Registration(r.eventType, m[r.eventType]);
      }
    }
  }

  /** Forgetting one event type removes exactly its registration. */
  lemma RegistrationsRemove(bound: map<EventType, Listener>, remaining: set<EventType>, t: EventType)
    requires t in remaining && remaining <= bound.Keys
    ensures Registrations(bound - (remaining - {t}))
         == Registrations(bound - remaining) + {Registration(t, bound[t])}
  {
    var b := bound - remaining;
    assert bound - (remaining - {t}) == b[t := bound[t]];
    RegistrationsAdd(b, t, bound[t]);
  }

  /** With nothing recorded, detach removes nothing: detaching twice equals detaching once. */
  lemma RegistrationsEmpty(listeners: set<Registration>)
    ensures Registrations(map[]) == {}
    ensures listeners - Registrations(map[]) == listeners
  {
  }

  /**
   * Attaching `second` right after attaching `first` (whose listeners were
   * new, so not among the earlier registrations) leaves what attaching
   * `second` alone would have: the first map's listeners are all gone.
   * Each set expression is the element's listener set as the
   * `canvasElement.listeners` ensures of EventDispatcher.Attach states it,
   * and the disjointness is what Attach's freshness ensures provides.
   */
  lemma AttachTwice(listeners: set<Registration>, bound: map<EventType, Listener>,
                    first: map<EventType, Listener>, second: map<EventType, Listener>)
    requires Registrations(first) !! (listeners - Registrations(bound))
    ensures ((listeners - Registrations(bound)) + Registrations(first)) - Registrations(first) + Registrations(second)
         == (listeners - Registrations(bound)) + Registrations(second)
  {
  }

  class EventDispatcher {
    const canvasElement: CanvasElement
    var boundListeners: map<EventType, Listener>
    /** Every listener this dispatcher has ever created. */
    ghost var created: set<Listener>

    /**
     * Nothing is left behind: every registration on the element that holds
     * one of this dispatcher's listeners is one it currently records.
     */
    ghost predicate Valid()
      reads this, canvasElement
    {
      forall r :: r in canvasElement.listeners && r.listener in created ==> r in Registrations(boundListeners)
    }

    constructor (canvasElement: CanvasElement)
      ensures Valid() && this.canvasElement == canvasElement
      ensures boundListeners == map[] && created == {}
      ensures canvasElement.listeners == old(canvasElement.listeners)
    {
      this.canvasElement := canvasElement;
      boundListeners := map[];
      created := {};
    }

    /**
     * detach: removes every recorded registration from the element and
     * forgets them; no other registration is touched.
     */
    method Detach()
      requires Valid()
      modifies this, canvasElement
      ensures Valid() && boundListeners == map[] && created == old(created)
      ensures canvasElement.listeners == old(canvasElement.listeners) - Registrations(old(boundListeners))
      ensures forall r :: r in canvasElement.listeners ==> r.listener !in created
    {
      var entries := boundListeners;
      var remaining := entries.Keys;
      while remaining != {}
        invariant remaining <= entries.Keys && boundListeners == entries && created == old(created)
        invariant canvasElement.listeners == old(canvasElement.listeners) - Registrations(entries - remaining)
        decreases remaining
      {
        var t :| t in remaining;
        canvasElement.RemoveEventListener(t, entries[t]);
        RegistrationsRemove(entries, remaining, t);
        remaining := remaining - {t};
      }
      assert entries - remaining == entries;
      boundListeners := map[];
    }

    /**
     * During attach, after the detach: the element holds `base`, which has
     * none of this dispatcher's listeners, plus the registrations recorded so far.
     */
    ghost predicate Rebinding(base: set<Registration>)
      reads this, canvasElement
    {
      canvasElement.listeners == base + Registrations(boundListeners)
      && forall r :: r in base ==> r.listener !in created
    }

    /** bind: when the handler is present, registers and records a new listener for it. */
    method Bind(eventType: EventType, present: bool, ghost base: set<Registration>) returns (listener: Listener?)
      requires eventType !in boundListeners && Rebinding(base)
      modifies this, canvasElement
      ensures Rebinding(base)
      ensures present ==> listener != null && fresh(listener)
                          && boundListeners == old(boundListeners)[eventType := listener]
      ensures !present ==> boundListeners == old(boundListeners)
    {
      if !present {
        return null;
      }
      listener := new Listener();
      created := created + {listener};
      RegistrationsAdd(boundListeners, eventType, listener);
      boundListeners := boundListeners[eventType := listener];
      canvasElement.AddEventListener(eventType, listener);
    }

    /**
     * attach(m): first detaches, then registers one new listener for each
     * handler m supplies. Afterwards the dispatcher's registrations on the
     * element are exactly the new ones, so attaching twice leaves only the
     * second map's listeners, and foreign registrations are untouched.
     */
    method Attach(m: EventMap)
      requires Valid()
      modifies this, canvasElement
      ensures Valid()
      ensures (MouseDown in boundListeners <==> m.mousedown) && (MouseMove in boundListeners <==> m.mousemove)
      ensures (MouseUp in boundListeners <==> m.mouseup) && (MouseOut in boundListeners <==> m.mouseout)
      ensures forall t :: t in boundListeners ==> fresh(boundListeners[t])
      ensures canvasElement.listeners
           == (old(canvasElement.listeners) - Registrations(old(boundListeners))) + Registrations(boundListeners)
      ensures Registrations(boundListeners) <= canvasElement.listeners
    {
      Detach();
      BindAll(m, canvasElement.listeners);
      forall t | t in boundListeners
        ensures fresh(boundListeners[t])
      {
        match t
        case MouseDown =>
        case MouseMove =>
        case MouseUp =>
        case MouseOut =>
      }
    }

    /** The four `bind` calls of attach, on an empty record. */
    method BindAll(m: EventMap, ghost base: set<Registration>)
      requires boundListeners == map[] && Rebinding(base)
      modifies this, canvasElement
      ensures Rebinding(base)
      ensures (MouseDown in boundListeners <==> m.mousedown) && (MouseMove in boundListeners <==> m.mousemove)
      ensures (MouseUp in boundListeners <==> m.mouseup) && (MouseOut in boundListeners <==> m.mouseout)
      ensures MouseDown in boundListeners ==> fresh(boundListeners[MouseDown])
      ensures MouseMove in boundListeners ==> fresh(boundListeners[MouseMove])
      ensures MouseUp in boundListeners ==> fresh(boundListeners[MouseUp])
      ensures MouseOut in boundListeners ==> fresh(boundListeners[MouseOut])
    {
      var down := Bind(MouseDown, m.mousedown, base);
      var move := Bind(MouseMove, m.mousemove, base);
      var up := Bind(MouseUp, m.mouseup, base);
      var out := Bind(MouseOut, m.mouseout, base);
    }
  }
}
