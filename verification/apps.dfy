/**
 * The application-switching framework of `C2M::apps`: app descriptors as
 * records of optional callbacks, and the guarded dispatch of the per-sample
 * interrupt handler to the current app.
 */
module Apps {
  import opened CInts
  import opened Wrappers

  /** `AppEvent`: the two notifications an app receives around a switch. */
  datatype AppEvent = Suspend | Resume

  /** The value C++ gives each enumerator. */
  function EventCode(e: AppEvent): (c: nat)
    ensures c < 2
    ensures EventFromCode(c) == e
  {
    match e
    case Suspend => 0
    case Resume => 1
  }

  function EventFromCode(c: nat): AppEvent
    requires c < 2
  {
    if c == 0 then Suspend else Resume
  }

  /** `APP_EVENT_SUSPEND` and `APP_EVENT_RESUME` are the only events, with codes 0 and 1. */
  lemma EventsAreSuspendAndResume()
    ensures forall e: AppEvent :: EventCode(e) == 0 <==> e.Suspend?
    ensures forall e: AppEvent :: EventCode(e) == 1 <==> e.Resume?
    ensures forall c :: 0 <= c < 2 ==> EventCode(EventFromCode(c)) == c
  {
  }

  /**
   * The address of a function in the firmware image. Only its identity
   * matters here: what the function does is outside this model.
   */
  type Callback = nat

  /**
   * `App`: a descriptor whose capabilities are optional function pointers;
   * `None` is a null pointer.
   */
  datatype App = App(
    id: uint16,
    name: string,
    init: Option<Callback>,
    storageSize: Option<Callback>,
    save: Option<Callback>,
    restore: Option<Callback>,
    handleAppEvent: Option<Callback>,
    loop: Option<Callback>,
    handleButtonEvent: Option<Callback>,
    isr: Option<Callback>)

  /** The globals of `apps`: `current_app` (possibly null) and `using_defaults`. */
  datatype AppsState = AppsState(currentApp: Option<App>, usingDefaults: bool)

  /** What one call of `ISR()` did: the callbacks it invoked, in order, and the state it left. */
  datatype Dispatch = Dispatch(invoked: seq<Callback>, after: AppsState)

  /** An app is reachable from the interrupt path when it is current and declares an `isr`. */
  predicate HasIsrTarget(st: AppsState)
  {
    st.currentApp.Some? && st.currentApp.value.isr.Some?
  }

  /**
   * `apps::ISR()`: calls `current_app->isr()` when both pointers are
   * non-null and does nothing otherwise. It invokes at most one callback,
   * that callback is the current app's `isr`, and the globals and every
   * descriptor are left as they were.
   */
  function Isr(st: AppsState): (d: Dispatch)
    ensures d.after == st
    ensures |d.invoked| <= 1
    ensures |d.invoked| == 1 <==> HasIsrTarget(st)
    ensures forall c :: c in d.invoked ==> st.currentApp.Some? && st.currentApp.value.isr == Some(c)
  {
    match st.currentApp
    case None => Dispatch([], st)
    case Some(app) =>
      match app.isr
      case None => Dispatch([], st)
      case Some(f) => Dispatch([f], st)
  }

  /** With no current app, the interrupt path calls nothing. */
  lemma IsrWithoutApp(usingDefaults: bool)
    ensures Isr(AppsState(None, usingDefaults)).invoked == []
  {
  }

  /** A current app that declares no `isr` is never called through a null pointer. */
  lemma IsrWithoutHandler(app: App, usingDefaults: bool)
    requires app.isr.None?
    ensures Isr(AppsState(Some(app), usingDefaults)).invoked == []
  {
  }

  /**
   * With a current app that declares an `isr`, exactly that callback runs,
   * and a callback of any other app runs only if it is the same function.
   */
  lemma IsrCallsCurrentOnly(app: App, other: App, usingDefaults: bool)
    requires app.isr.Some?
    ensures Isr(AppsState(Some(app), usingDefaults)).invoked == [app.isr.value]
    ensures other.isr.Some? && other.isr != app.isr ==>
              other.isr.value !in Isr(AppsState(Some(app), usingDefaults)).invoked
  {
  }

  /**
   * `ISR()` itself writes nothing: with no app switch between ticks and the
   * callback's own effects left out, repeated calls dispatch to the same
   * `isr` once per call and leave `current_app` and `using_defaults` as they were.
   */
  function IsrTicks(st: AppsState, n: nat): (d: Dispatch)
    ensures d.after == st
    ensures |d.invoked| == if HasIsrTarget(st) then n else 0
    ensures forall i :: 0 <= i < |d.invoked| ==> st.currentApp.Some? && st.currentApp.value.isr == Some(d.invoked[i])
    decreases n
  {
    if n == 0 then Dispatch([], st)
    else
      var first := Isr(st);
      var rest := IsrTicks(first.after, n - 1);
      Dispatch(first.invoked + rest.invoked, rest.after)
  }
}
