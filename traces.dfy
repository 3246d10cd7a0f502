/**
 * Runs of the engine: any interleaving of host callbacks, runnables firing on the
 * main thread and tasks run on the render thread. `Step` holds the delivery rules
 * of the host (which callbacks reach the engine in which state); the handlers
 * themselves are those of `EngineState`.
 */
module Traces {
  import opened EngineState
  import opened RenderThread

  datatype Event =
    | Touch(doubleTap: bool)              // onTouchEvent; doubleTap: the gesture detector recognised one
    | Command(action: string)             // onCommand
    | DetailOpened(isOpened: bool)        // event bus: WallpaperDetailOpenedEvent
    | LockBroadcast(intent: Option<Intent>, keyguardRestricted: bool)
    | PreferenceChanged(key: PrefKey, enabled: bool, userUnlocked: bool)
    | BlurTimerFires                      // the return-to-blur runnable runs
    | DoubleTapTimeoutFires               // the double-tap timeout runnable runs
    | RenderThreadRuns                    // the render thread runs its oldest task
    | RenderRequested                     // requestRender
    | VisibilityChanged(visible: bool)    // onVisibilityChanged
    | Destroyed                           // onDestroy

  /**
   * Delivery: the host calls a live engine's callbacks, the event bus and the
   * preference store reach it only while it is registered (until onDestroy), the
   * lock receiver only while registered with the host, and a runnable runs only
   * if it is pending. requestRender is the engine's own method, which the renderer
   * calls back through the engine it was given: it reaches the engine at any time.
   */
  function Step(s: Engine, e: Event): (t: Engine)
    ensures Inv(s) ==> Inv(t)
    ensures !s.alive ==> !t.alive && t.lockReceiverRegistered == s.lockReceiverRegistered
    ensures !s.alive ==> t.detailMode == s.detailMode && t.visible == s.visible
    ensures !s.alive ==> forall x :: x in t.queue ==> x in s.queue || x == SetBlurred(true, false)
    ensures !s.visible && e != VisibilityChanged(true) ==>
            !t.visible && t.framesRequested == s.framesRequested
  {
    match e
    case Touch(doubleTap) => if s.alive then OnTouch(s, doubleTap) else s
    case Command(action) => if s.alive then OnCommand(s, action) else s
    case DetailOpened(isOpened) => if s.alive then OnDetailOpened(s, isOpened) else s
    case LockBroadcast(intent, restricted) =>
      if LockReceiverActive(s) then OnLockBroadcast(s, intent, restricted) else s
    case PreferenceChanged(key, enabled, unlocked) =>
      if s.alive then OnPreferenceChanged(s, key, enabled, unlocked) else s
    case BlurTimerFires => if s.blurTimerPending then FireBlurTimer(s) else s
    case DoubleTapTimeoutFires => if s.tapTimeoutPending then FireDoubleTapTimeout(s) else s
    case RenderThreadRuns => RunHead(s)
    case RenderRequested => RequestRender(s)
    case VisibilityChanged(visible) => if s.alive then OnVisibilityChanged(s, visible) else s
    case Destroyed => if s.alive then OnDestroy(s) else s
  }

  function Run(s: Engine, events: seq<Event>): (t: Engine)
    decreases |events|
  {
    if events == [] then s else Run(Step(s, events[0]), events[1..])
  }

  lemma {:induction false} RunAppend(s: Engine, first: seq<Event>, second: seq<Event>)
    ensures Run(s, first + second) == Run(Run(s, first), second)
    decreases |first|
  {
    if first == [] {
      assert first + second == second;
    } else {
      assert (first + second)[1..] == first[1..] + second;
      RunAppend(Step(s, first[0]), first[1..], second);
    }
  }

  /** Every state reached from a state satisfying the invariant satisfies it too. */
  lemma {:induction false} RunPreservesInv(s: Engine, events: seq<Event>)
    requires Inv(s)
    ensures Inv(Run(s, events))
    decreases |events|
  {
    if events != [] {
      RunPreservesInv(Step(s, events[0]), events[1..]);
    }
  }

  /** Every state the engine reaches from onCreate satisfies the invariant. */
  lemma ReachableStatesSatisfyInv(prefEnabled: bool, userUnlocked: bool, rendererBlurred: bool,
                                  events: seq<Event>)
    ensures Inv(Run(Created(prefEnabled, userUnlocked, rendererBlurred), events))
  {
    RunPreservesInv(Created(prefEnabled, userUnlocked, rendererBlurred), events);
  }

  /**
   * After onDestroy nothing reaches the engine but its pending runnables, the
   * render thread and the renderer's frame requests: the detail mode and the
   * visibility gate are frozen (so a hidden engine forwards no frame again), the
   * lock receiver stays silent, and the only task ever posted again is the
   * non-animated blur of a return-to-blur runnable that was still pending.
   */
  lemma {:induction false} TeardownIsFinal(s: Engine, events: seq<Event>)
    requires !s.alive
    ensures !Run(s, events).alive && !LockReceiverActive(Run(s, events))
    ensures Run(s, events).detailMode == s.detailMode && Run(s, events).visible == s.visible
    ensures !s.visible ==> Run(s, events).framesRequested == s.framesRequested
    ensures forall x :: x in Run(s, events).queue ==> x in s.queue || x == SetBlurred(true, false)
    decreases |events|
  {
    if events != [] {
      TeardownIsFinal(Step(s, events[0]), events[1..]);
    }
  }

  /** A hidden surface forwards no frame request until it is made visible again. */
  lemma {:induction false} HiddenSurfaceDropsFrames(s: Engine, events: seq<Event>)
    requires !s.visible
    requires forall i :: 0 <= i < |events| ==> events[i] != VisibilityChanged(true)
    ensures !Run(s, events).visible
    ensures Run(s, events).framesRequested == s.framesRequested
    decreases |events|
  {
    if events != [] {
      assert events[0] != VisibilityChanged(true);
      assert forall i :: 0 <= i < |events[1..]| ==> events[1..][i] == events[i + 1];
      HiddenSurfaceDropsFrames(Step(s, events[0]), events[1..]);
    }
  }

  /** Once visible again, the next explicit frame request goes through. */
  lemma VisibleSurfaceRenders(s: Engine)
    requires s.alive
    ensures Run(s, [VisibilityChanged(true), RenderRequested]).framesRequested == s.framesRequested + 1
  {
    assert [VisibilityChanged(true), RenderRequested][1..] == [RenderRequested];
  }

  /** The same detail-view notification delivered twice makes one transition. */
  lemma DetailNotificationIsIdempotent(s: Engine, isOpened: bool)
    ensures Step(Step(s, DetailOpened(isOpened)), DetailOpened(isOpened)) == Step(s, DetailOpened(isOpened))
  {
  }

  /**
   * Opening the detail view leaves the renderer unblurred with no return-to-blur
   * pending, and closing it leaves the renderer blurred, whatever was queued before:
   * a toggle still queued runs before the new value and, with the detail view open,
   * cannot arm the timer.
   */
  lemma DetailChangeSettles(s: Engine, isOpened: bool)
    requires s.alive && s.detailMode != isOpened
    ensures Drain(Step(s, DetailOpened(isOpened))).blurred == !isOpened
    ensures Drain(Step(s, DetailOpened(isOpened))).detailMode == isOpened
    ensures isOpened ==> !Drain(Step(s, DetailOpened(isOpened))).blurTimerPending
  {
    DrainSettlesOnLastSetBlurred(Step(s, DetailOpened(isOpened)), s.queue, !isOpened, true);
  }

  /**
   * A lock-screen broadcast that announces a visibility leaves the renderer blurred
   * exactly when the lock screen is not visible, and no return-to-blur pending unless
   * a toggle was still queued when it arrived.
   */
  lemma LockSignalSettles(s: Engine, intent: Option<Intent>, keyguardRestricted: bool)
    requires LockReceiverActive(s) && LockSignal(intent, keyguardRestricted).Some?
    ensures Drain(Step(s, LockBroadcast(intent, keyguardRestricted))).blurred ==
            !LockSignal(intent, keyguardRestricted).value
    ensures ToggleThenDelayBlur !in s.queue ==>
            !Drain(Step(s, LockBroadcast(intent, keyguardRestricted))).blurTimerPending
  {
    var visible := LockSignal(intent, keyguardRestricted).value;
    DrainSettlesOnLastSetBlurred(Step(s, LockBroadcast(intent, keyguardRestricted)), s.queue, !visible, false);
  }

  /** With the preference off, no lock-screen broadcast has any effect. */
  lemma DisabledMonitorIgnoresBroadcasts(s: Engine, userUnlocked: bool,
                                         intent: Option<Intent>, keyguardRestricted: bool)
    ensures var t := Step(s, PreferenceChanged(DisableBlurWhenLocked, false, userUnlocked));
            Step(t, LockBroadcast(intent, keyguardRestricted)) == t
  {
  }

  /**
   * Enabling the preference before the user's storage is unlocked reports the
   * lock screen as visible at once: the receiver is active and the renderer ends up unblurred.
   */
  lemma DirectBootReportsLockScreen(s: Engine)
    requires s.alive
    ensures LockReceiverActive(Step(s, PreferenceChanged(DisableBlurWhenLocked, true, false)))
    ensures !Drain(Step(s, PreferenceChanged(DisableBlurWhenLocked, true, false))).blurred
  {
    DrainSettlesOnLastSetBlurred(Step(s, PreferenceChanged(DisableBlurWhenLocked, true, false)),
                                 s.queue, false, false);
  }

  /** A double-tap is ignored while the detail view is open: the touch changes nothing. */
  lemma DoubleTapIgnoredInDetailMode(s: Engine)
    requires s.detailMode
    ensures Step(s, Touch(true)) == s
  {
  }

  /**
   * A double-tap followed by the tap command flips the renderer's blur flag once the
   * render thread has run the toggle, consumes the double-tap, and leaves a
   * return-to-blur pending whichever way the flag went.
   */
  lemma DoubleTapThenTapToggles(s: Engine)
    requires s.alive && !s.detailMode && s.queue == []
    ensures var u := Run(s, [Touch(true), Command(CommandTap), RenderThreadRuns]);
            u.blurred == !s.blurred && u.queue == [] && !u.validDoubleTap && u.blurTimerPending
  {
    var s1 := Step(s, Touch(true));
    var s2 := Step(s1, Command(CommandTap));
    assert [Touch(true), Command(CommandTap), RenderThreadRuns][1..] == [Command(CommandTap), RenderThreadRuns];
    assert [Command(CommandTap), RenderThreadRuns][1..] == [RenderThreadRuns];
    assert Run(s2, [RenderThreadRuns]) == Step(s2, RenderThreadRuns);
  }

  /** A tap command after the double-tap has timed out toggles nothing. */
  lemma ExpiredDoubleTapIsIgnored(s: Engine)
    requires s.alive && !s.detailMode
    ensures var u := Run(s, [Touch(true), DoubleTapTimeoutFires, Command(CommandTap)]);
            u.queue == s.queue && !u.validDoubleTap
  {
    var s1 := Step(s, Touch(true));
    var s2 := Step(s1, DoubleTapTimeoutFires);
    assert [Touch(true), DoubleTapTimeoutFires, Command(CommandTap)][1..] == [DoubleTapTimeoutFires, Command(CommandTap)];
    assert [DoubleTapTimeoutFires, Command(CommandTap)][1..] == [Command(CommandTap)];
    assert Run(s2, [Command(CommandTap)]) == Step(s2, Command(CommandTap));
  }

  /**
   * Focus granted by a double-tap on a blurred wallpaper is temporary: the toggle
   * unblurs it, and once the return-to-blur runnable has fired and the render
   * thread has run its task the wallpaper is blurred again.
   */
  lemma FocusGrantExpires(s: Engine)
    requires s.alive && !s.detailMode && s.queue == [] && s.blurred
    ensures !Run(s, [Touch(true), Command(CommandTap), RenderThreadRuns]).blurred
    ensures var u := Run(s, [Touch(true), Command(CommandTap), RenderThreadRuns,
                             BlurTimerFires, RenderThreadRuns]);
            u.blurred && !u.blurTimerPending && u.queue == []
  {
    var grant := [Touch(true), Command(CommandTap), RenderThreadRuns];
    var expire := [BlurTimerFires, RenderThreadRuns];
    DoubleTapThenTapToggles(s);
    RunAppend(s, grant, expire);
    assert grant + expire == [Touch(true), Command(CommandTap), RenderThreadRuns,
                              BlurTimerFires, RenderThreadRuns];
    var u := Run(s, grant);
    assert expire[1..] == [RenderThreadRuns];
    assert Run(Step(u, BlurTimerFires), [RenderThreadRuns]) == Step(Step(u, BlurTimerFires), RenderThreadRuns);
  }

  /**
   * onDestroy does not cancel a pending return-to-blur runnable: when it fires it
   * posts a blur after the renderer's teardown, and the destroyed renderer is blurred.
   */
  lemma BlurTimerOutlivesTeardown(s: Engine)
    requires s.alive && s.blurTimerPending
    ensures Run(s, [Destroyed, BlurTimerFires]).queue == s.queue + [DestroyRenderer, SetBlurred(true, false)]
    ensures Drain(Run(s, [Destroyed, BlurTimerFires])).rendererDestroyed
    ensures Drain(Run(s, [Destroyed, BlurTimerFires])).blurred
  {
    var t := Run(s, [Destroyed, BlurTimerFires]);
    assert [Destroyed, BlurTimerFires][1..] == [BlurTimerFires];
    assert t == FireBlurTimer(OnDestroy(s));
    assert t.queue == (s.queue + [DestroyRenderer]) + [SetBlurred(true, false)];
    DrainSettlesOnLastSetBlurred(t, s.queue + [DestroyRenderer], true, false);
  }
}
