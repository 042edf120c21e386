/**
 * The deferred "busy" overlay of frontend/src/contexts/LoadingContext.jsx.
 *
 * `startLoading(delay)` schedules a timer that will show the overlay and
 * records the timer's handle; `stopLoading` cancels the timer recorded in
 * the render it was created in, forgets the record and hides the overlay;
 * whenever the recorded handle changes, and when the provider unmounts,
 * the effect cleanup cancels the timer recorded before. A `stopLoading`
 * called from the same handler as `startLoading` still sees the record of
 * that handler's render, not the new one: `StopWith` carries the value it
 * sees. Time is not modelled: a live timer may elapse at any
 * point, which is the `Fire` event. Timer handles are the positive
 * integers `setTimeout` hands out in increasing order, so a recorded
 * handle is always truthy.
 */
module LoadingContext {
  import opened Common

  const DefaultDelay: nat := 300

  /**
   * The provider's state (`isLoading`, `loadingDelay`) together with the
   * scheduler's live timers, handle to delay, and the next handle it will
   * hand out.
   */
  datatype Overlay = Overlay(
    isLoading: bool,
    loadingDelay: Option<nat>,
    timers: map<nat, nat>,
    nextHandle: nat,
    mounted: bool)

  /**
   * `StopWith(captured)` is `stopLoading` as written, `captured` being the
   * record of the render that created it; `StopCurrent` is the corrected
   * stop, which reads the record as it is now.
   */
  datatype TimerEvent = Start(delay: nat) | Fire(handle: nat) | StopWith(captured: Option<nat>) | StopCurrent | Unmount

  /** Lines 15-16: the overlay hidden, no timer recorded, none scheduled. */
  const Initial := Overlay(false, None, map[], 1, true)

  /** `clearTimeout(handle)` when a handle is recorded: that timer will not fire. */
  function Cancel(timers: map<nat, nat>, recorded: Option<nat>): (r: map<nat, nat>)
    ensures recorded.Some? ==> recorded.value !in r
    ensures forall h :: h in r <==> h in timers && recorded != Some(h)
    ensures forall h :: h in r ==> r[h] == timers[h]
  {
    match recorded
    case None => timers
    case Some(h) => timers - {h}
  }

  /**
   * The invariant the provider keeps: the only timer that can still fire
   * is the recorded one, the recorded handle was handed out already, and
   * nothing is scheduled once the provider is gone.
   */
  ghost predicate Valid(s: Overlay) {
    && (forall h :: h in s.timers ==> s.loadingDelay == Some(h))
    && (s.loadingDelay.Some? ==> 0 < s.loadingDelay.value < s.nextHandle)
    && s.nextHandle >= 1
    && (!s.mounted ==> s.timers == map[])
  }

  /**
   * Lines 25-31 with the record `captured`: the captured timer is cleared;
   * `setLoadingDelay(null)` changes a record that is set, so the cleanup of
   * lines 35-37 then clears the current one too; the overlay is hidden.
   * With nothing captured, only the overlay is hidden.
   */
  function Stopped(s: Overlay, captured: Option<nat>): (r: Overlay)
    ensures !r.isLoading && r.mounted == s.mounted && r.nextHandle == s.nextHandle
    ensures captured.None? ==> r.loadingDelay == s.loadingDelay && r.timers == s.timers
    ensures captured.Some? ==> r.loadingDelay.None? && forall h :: h in r.timers <==> h in s.timers && captured != Some(h) && s.loadingDelay != Some(h)
  {
    if captured.Some? then s.(isLoading := false, loadingDelay := None, timers := Cancel(Cancel(s.timers, captured), s.loadingDelay))
    else s.(isLoading := false)
  }

  /** One event: lines 18-23, the timer's callback at line 20, lines 25-31 and the cleanup at lines 33-39. */
  function Step(s: Overlay, e: TimerEvent): (r: Overlay)
    ensures !s.mounted ==> r == s
    ensures r.isLoading && !s.isLoading ==> e.Fire? && e.handle in s.timers
    ensures r.nextHandle >= s.nextHandle && (r.mounted ==> s.mounted)
  {
    if !s.mounted then s
    else match e
      case Start(delay) =>
        var h := s.nextHandle;
        s.(loadingDelay := Some(h), timers := Cancel(s.timers[h := delay], s.loadingDelay), nextHandle := h + 1)
      case Fire(h) =>
        if h in s.timers then s.(isLoading := true, timers := s.timers - {h}) else s
      case StopWith(captured) => Stopped(s, captured)
      case StopCurrent => Stopped(s, s.loadingDelay)
      case Unmount =>
        s.(timers := Cancel(s.timers, s.loadingDelay), mounted := false)
  }

  function Run(s: Overlay, events: seq<TimerEvent>): Overlay
    decreases |events|
  {
    if events == [] then s else Run(Step(s, events[0]), events[1..])
  }

  lemma InitialIsValid()
    ensures Valid(Initial) && !Initial.isLoading && Initial.loadingDelay.None? && Initial.timers == map[]
  {
  }

  /** Every event keeps the invariant. */
  lemma StepKeepsValid(s: Overlay, e: TimerEvent)
    requires Valid(s)
    ensures Valid(Step(s, e))
  {
  }

  /** Lines 18-23: starting does not show the overlay; it schedules one timer with the given delay and records it. */
  lemma StartDefers(s: Overlay, delay: nat)
    requires Valid(s) && s.mounted
    ensures Step(s, Start(delay)).isLoading == s.isLoading
    ensures Step(s, Start(delay)).loadingDelay == Some(s.nextHandle)
    ensures Step(s, Start(delay)).timers == map[s.nextHandle := delay]
  {
  }

  /**
   * Lines 25-31: a stop that sees the current record hides the overlay,
   * forgets the record and leaves no timer that could show it.
   */
  lemma StopResets(s: Overlay)
    requires Valid(s) && s.mounted
    ensures Step(s, StopWith(s.loadingDelay)) == Step(s, StopCurrent)
    ensures !Step(s, StopCurrent).isLoading
    ensures Step(s, StopCurrent).loadingDelay.None?
    ensures Step(s, StopCurrent).timers == map[]
  {
  }

  /** Lines 33-39: a recorded timer is cancelled as soon as the record changes or the provider unmounts. */
  lemma RecordChangeCancels(s: Overlay, e: TimerEvent, h: nat)
    requires Valid(s) && s.loadingDelay == Some(h)
    requires Step(s, e).loadingDelay != Some(h) || e.Unmount?
    ensures h !in Step(s, e).timers
  {
  }

  /** Lines 19-21 and 25-31: a timer that elapses shows the overlay but stays recorded, and a later stop still hides it. */
  lemma FiredTimerStaysRecorded(s: Overlay, h: nat)
    requires Valid(s) && s.mounted && h in s.timers
    ensures Step(s, Fire(h)).isLoading
    ensures Step(s, Fire(h)).loadingDelay == Some(h)
    ensures !Step(Step(s, Fire(h)), StopCurrent).isLoading
  {
  }

  /** With no timer scheduled and no new start, the overlay stays hidden whatever happens. */
  lemma {:induction false} QuietRun(s: Overlay, events: seq<TimerEvent>)
    requires Valid(s) && s.timers == map[] && !s.isLoading
    requires forall i :: 0 <= i < |events| ==> !events[i].Start?
    ensures Valid(Run(s, events)) && Run(s, events).timers == map[] && !Run(s, events).isLoading
    decreases |events|
  {
    if events != [] {
      StepKeepsValid(s, events[0]);
      QuietRun(Step(s, events[0]), events[1..]);
    }
  }

  /**
   * With the corrected stop, or with a stop created after the provider
   * re-rendered with the new record (so that it captured it), a stop that
   * comes before the delay elapses means the overlay is never shown: not
   * between the start and the stop, and not at any point of what follows
   * until the next start.
   */
  lemma {:induction false} StoppedInTimeNeverShows(s: Overlay, delay: nat, events: seq<TimerEvent>)
    requires Valid(s) && !s.isLoading
    requires forall i :: 0 <= i < |events| ==> !events[i].Start?
    ensures !Step(s, Start(delay)).isLoading
    ensures Step(Step(s, Start(delay)), StopCurrent) == Step(Step(s, Start(delay)), StopWith(Step(s, Start(delay)).loadingDelay))
    ensures forall k :: 0 <= k <= |events| ==> !Run(Step(Step(s, Start(delay)), StopCurrent), events[..k]).isLoading
  {
    var started := Step(s, Start(delay));
    StepKeepsValid(s, Start(delay));
    var stopped := Step(started, StopCurrent);
    StepKeepsValid(started, StopCurrent);
    forall k | 0 <= k <= |events|
      ensures !Run(stopped, events[..k]).isLoading
    {
      QuietRun(stopped, events[..k]);
    }
  }

  /** A run that holds no stop and no unmount leaves a shown overlay shown. */
  lemma {:induction false} ShownStaysShown(s: Overlay, events: seq<TimerEvent>)
    requires s.isLoading
    requires forall i :: 0 <= i < |events| ==> events[i].Start? || events[i].Fire?
    ensures Run(s, events).isLoading
    decreases |events|
  {
    if events != [] {
      ShownStaysShown(Step(s, events[0]), events[1..]);
    }
  }

  /**
   * As written, `startLoading(); await ...; stopLoading()` in one handler:
   * the stop captured the record of the handler's render, which was empty,
   * so it clears nothing and leaves the record in place; the timer then
   * elapses, the overlay shows, and without another stop it stays shown.
   */
  lemma {:induction false} SameHandlerStopStillShows(s: Overlay, delay: nat, events: seq<TimerEvent>)
    requires Valid(s) && s.mounted && s.loadingDelay.None?
    requires forall i :: 0 <= i < |events| ==> events[i].Start? || events[i].Fire?
    ensures var stopped := Step(Step(s, Start(delay)), StopWith(s.loadingDelay));
            !stopped.isLoading && s.nextHandle in stopped.timers
            && Step(stopped, Fire(s.nextHandle)).isLoading
            && Run(Step(stopped, Fire(s.nextHandle)), events).isLoading
  {
    var stopped := Step(Step(s, Start(delay)), StopWith(s.loadingDelay));
    assert s.nextHandle in stopped.timers;
    ShownStaysShown(Step(stopped, Fire(s.nextHandle)), events);
  }

  /** The provider itself, whose setters change its state in place. */
  class LoadingProvider {
    var isLoading: bool
    var loadingDelay: Option<nat>
    var timers: map<nat, nat>
    var nextHandle: nat
    var mounted: bool

    function State(): Overlay
      reads this
    {
      Overlay(isLoading, loadingDelay, timers, nextHandle, mounted)
    }

    constructor()
      ensures State() == Initial
    {
      isLoading := false;
      loadingDelay := None;
      timers := map[];
      nextHandle := 1;
      mounted := true;
    }

    /** Lines 18-23, with the cleanup of lines 35-37 that the new record triggers. */
    method StartLoading(delay: nat := DefaultDelay)
      modifies this
      ensures State() == Step(old(State()), Start(delay))
    {
      if mounted {
        var timeout := nextHandle;
        nextHandle := nextHandle + 1;
        timers := timers[timeout := delay];
        var previous := loadingDelay;
        loadingDelay := Some(timeout);
        if previous.Some? {
          timers := timers - {previous.value};
        }
      }
    }

    /** Line 20: the recorded callback of a timer that elapses. */
    method TimeoutElapsed(handle: nat)
      modifies this
      ensures State() == Step(old(State()), Fire(handle))
    {
      if mounted && handle in timers {
        timers := timers - {handle};
        isLoading := true;
      }
    }

    /** Lines 25-31, for the `stopLoading` of the render whose record was `captured`. */
    method StopLoading(captured: Option<nat>)
      modifies this
      ensures State() == Step(old(State()), StopWith(captured))
    {
      if mounted {
        if captured.Some? {
          timers := timers - {captured.value};
          if loadingDelay.Some? {
            timers := timers - {loadingDelay.value};
          }
          loadingDelay := None;
        }
        isLoading := false;
      }
    }

    /** Lines 34-38 run for the last time. */
    method Unmount()
      modifies this
      ensures State() == Step(old(State()), TimerEvent.Unmount)
    {
      if mounted {
        if loadingDelay.Some? {
          timers := timers - {loadingDelay.value};
        }
        mounted := false;
      }
    }
  }
}
