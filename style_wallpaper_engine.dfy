/**
 * The engine itself: its fields updated in place by its callbacks. Each callback is
 * proved against the transition of `EngineState` it implements, and keeps `Valid()`.
 */
module StyleWallpaperProxy {
  import opened EngineState

  class StyleWallpaperEngine {
    var visible: bool
    var wallpaperDetailMode: bool
    var validDoubleTap: bool
    var lockReceiverRegistered: bool
    var alive: bool
    // the main thread's handler: which of the two runnables is posted
    var blurRunnablePending: bool
    var doubleTapTimeoutPending: bool
    // the renderer: its blur flag is set only by tasks run on the render thread
    var rendererBlurred: bool
    var rendererDestroyed: bool
    // the render thread's queue, oldest task first
    var renderQueue: seq<Task>
    var framesRequested: nat

    ghost function State(): Engine
      reads this
    {
      Engine(visible, wallpaperDetailMode, validDoubleTap, lockReceiverRegistered, alive,
             blurRunnablePending, doubleTapTimeoutPending, rendererBlurred, rendererDestroyed,
             renderQueue, framesRequested)
    }

    ghost predicate Valid()
      reads this
    {
      Inv(State())
    }

    /** onCreate, with the stored blur-when-locked preference and the user's unlock state. */
    constructor (prefEnabled: bool, userUnlocked: bool, initiallyBlurred: bool)
      ensures Valid()
      ensures State() == Created(prefEnabled, userUnlocked, initiallyBlurred)
    {
      visible := true;
      wallpaperDetailMode := false;
      validDoubleTap := false;
      lockReceiverRegistered := false;
      alive := true;
      blurRunnablePending := false;
      doubleTapTimeoutPending := false;
      rendererBlurred := initiallyBlurred;
      rendererDestroyed := false;
      renderQueue := [];
      framesRequested := 0;
      new;
      RequestRender();
      OnPreferenceChanged(DisableBlurWhenLocked, prefEnabled, userUnlocked);
    }

    /** queueEvent: hand a task to the render thread, behind those already queued. */
    method QueueEvent(task: Task)
      modifies this
      ensures State() == Post(old(State()), task)
    {
      renderQueue := renderQueue + [task];
    }

    method CancelDelayedBlur()
      modifies this
      ensures State() == EngineState.CancelDelayedBlur(old(State()))
    {
      blurRunnablePending := false;
    }

    method DelayBlur()
      modifies this
      ensures State() == EngineState.DelayBlur(old(State()))
    {
      if wallpaperDetailMode || rendererBlurred {
        return;
      }
      CancelDelayedBlur();
      blurRunnablePending := true;
    }

    method LockScreenVisibleChanged(lockScreenVisible: bool)
      modifies this
      ensures State() == EngineState.LockScreenVisibleChanged(old(State()), lockScreenVisible)
    {
      CancelDelayedBlur();
      QueueEvent(SetBlurred(!lockScreenVisible, false));
    }

    method OnDoubleTap()
      requires Valid()
      modifies this
      ensures Valid()
      ensures State() == EngineState.OnDoubleTap(old(State()))
    {
      if wallpaperDetailMode {
        return;
      }
      validDoubleTap := true;
      doubleTapTimeoutPending := true;
    }

    method OnTouch(doubleTap: bool)
      requires Valid()
      modifies this
      ensures Valid()
      ensures State() == EngineState.OnTouch(old(State()), doubleTap)
    {
      if doubleTap {
        OnDoubleTap();
      }
      DelayBlur();
    }

    method OnCommand(action: string)
      requires Valid()
      modifies this
      ensures Valid()
      ensures State() == EngineState.OnCommand(old(State()), action)
    {
      if action == CommandTap && validDoubleTap {
        QueueEvent(ToggleThenDelayBlur);
        validDoubleTap := false;
      }
    }

    method OnDetailOpened(isOpened: bool)
      requires Valid()
      modifies this
      ensures Valid()
      ensures State() == EngineState.OnDetailOpened(old(State()), isOpened)
    {
      if isOpened == wallpaperDetailMode {
        return;
      }
      wallpaperDetailMode := isOpened;
      CancelDelayedBlur();
      QueueEvent(SetBlurred(!isOpened, true));
    }

    method OnLockBroadcast(intent: Option<Intent>, keyguardRestricted: bool)
      requires Valid()
      modifies this
      ensures Valid()
      ensures State() == EngineState.OnLockBroadcast(old(State()), intent, keyguardRestricted)
    {
      if intent.Some? {
        var action := intent.value.action;
        if action == Some(ActionUserPresent) {
          LockScreenVisibleChanged(false);
        } else if action == Some(ActionScreenOff) {
          LockScreenVisibleChanged(true);
        } else if action == Some(ActionScreenOn) {
          if !keyguardRestricted {
            LockScreenVisibleChanged(false);
          }
        }
      }
    }

    method OnPreferenceChanged(key: PrefKey, enabled: bool, userUnlocked: bool)
      modifies this
      ensures Inv(old(State())) ==> Valid()
      ensures State() == EngineState.OnPreferenceChanged(old(State()), key, enabled, userUnlocked)
    {
      if key == DisableBlurWhenLocked {
        if enabled {
          lockReceiverRegistered := true;
          if !userUnlocked {
            LockScreenVisibleChanged(true);
          }
        } else if lockReceiverRegistered {
          lockReceiverRegistered := false;
        }
      }
    }

    /** The return-to-blur runnable, run by the main thread's handler. */
    method RunBlurRunnable()
      requires Valid()
      modifies this
      ensures Valid()
      ensures State() == FireBlurTimer(old(State()))
    {
      blurRunnablePending := false;
      QueueEvent(SetBlurred(true, false));
    }

    /** The double-tap timeout runnable, run by the main thread's handler. */
    method RunDoubleTapTimeoutRunnable()
      requires Valid()
      modifies this
      ensures Valid()
      ensures State() == FireDoubleTapTimeout(old(State()))
    {
      doubleTapTimeoutPending := false;
      validDoubleTap := false;
    }

    /** The render thread runs its oldest queued task, if any. */
    method RunHeadTask()
      requires Valid()
      modifies this
      ensures Valid()
      ensures State() == RunHead(old(State()))
    {
      if renderQueue == [] {
        return;
      }
      var task := renderQueue[0];
      renderQueue := renderQueue[1..];
      match task
      case SetBlurred(b, _) =>
        rendererBlurred := b;
      case ToggleThenDelayBlur =>
        rendererBlurred := !rendererBlurred;
        DelayBlur();
      case DestroyRenderer =>
        rendererDestroyed := true;
    }

    method RequestRender()
      modifies this
      ensures Inv(old(State())) ==> Valid()
      ensures State() == EngineState.RequestRender(old(State()))
    {
      if visible {
        framesRequested := framesRequested + 1;
      }
    }

    method OnVisibilityChanged(isVisible: bool)
      requires Valid()
      modifies this
      ensures Valid()
      ensures State() == EngineState.OnVisibilityChanged(old(State()), isVisible)
    {
      visible := isVisible;
    }

    method OnDestroy()
      requires Valid()
      modifies this
      ensures Valid()
      ensures State() == EngineState.OnDestroy(old(State()))
    {
      alive := false;
      QueueEvent(DestroyRenderer);
    }
  }
}
