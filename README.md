# Focus/blur state machine of the Style live wallpaper

A model of `StyleWallpaperEngine`, the engine inside `StyleWallpaperProxy`, the
live-wallpaper service of the Style app. The engine decides when the wallpaper is
drawn sharp ("focused") and when it is blurred. It does this by merging touches and
double-taps, the wallpaper tap command, a "detail view opened" notification,
lock-screen broadcasts and a "disable blur when locked" preference. Every change
of the renderer's blur flag is posted as a task to the GL render thread. The main
thread still reads that flag in `delayBlur()` and sets the renderer's offset
directly.

The model has four modules:

- `EngineState` (`engine_state.dfy`): the engine's decision state as a value
  (`Engine`), one transition function per callback, and `Inv`, the invariant every
  reachable state keeps. Each of the two delayed runnables is a single-slot
  `pending` flag: `removeCallbacks` followed by `postDelayed` leaves exactly one
  pending. The render queue is a FIFO `seq<Task>`. The renderer is reduced to its
  blur flag and a destroyed marker.
- `RenderThread` (`render_thread.dfy`): the render thread running queued tasks in
  order (`RunTasks`, `Drain`), and what the renderer settles on.
- `Traces` (`traces.dfy`): the host's delivery rules (`Step`) and runs of events
  (`Run`). The theorems about runs are here: the invariant, teardown, the
  visibility gate, the double-tap protocol, and how detail-view and lock-screen
  changes settle.
- `StyleWallpaperProxy` (`style_wallpaper_engine.dfy`): the class
  `StyleWallpaperEngine`. Its fields are updated in place by one method per
  callback. Each method is proved equal to its `EngineState` transition and keeps
  `Valid()`.

Behaviour that follows the code and not intuition:

- Opening the detail view unblurs the wallpaper (`setIsBlurred(!opened, true)`).
- A visible lock screen also unblurs it (`setIsBlurred(!isLockScreenVisible, false)`).
  There is no stored lock-screen field.
- The toggle task flips the renderer's flag and only then re-runs `delayBlur()` on
  the render thread. So the decision to arm the return-to-blur runnable sees the
  flipped value (`ApplyTask`).
- Only `onCommand` with `COMMAND_TAP` and an armed double-tap toggles the blur
  (StyleWallpaperProxy.kt:247-252). A double-tap on its own only arms it (:95-99).
- `onDestroy` cancels neither runnable and keeps its renderer reference. A
  return-to-blur runnable still pending at teardown therefore posts a blur after
  the renderer's teardown task (`BlurTimerOutlivesTeardown`).

The host's delivery rules live in `Traces.Step`:

- The host's callbacks (touch, command, visibility, destroy) reach the engine
  between `onCreate` and `onDestroy` (`alive`).
- `requestRender` is the engine's own method. The renderer calls it back through
  the engine it was given (:156), so it is delivered at any time, also after
  `onDestroy`; only `mVisible` gates it.
- The event bus and the preference store reach it only in that span.
- The lock receiver hears broadcasts only while it is registered with the host.
- A runnable runs only while it is posted.

The handlers themselves have no guards beyond the code's own.

## Model

| member | source | states |
|---|---|---|
| `EngineState.CancelDelayedBlur` | presentation/src/main/java/com/yalin/style/engine/StyleWallpaperProxy.kt:272-274 | afterwards no return-to-blur runnable is pending; nothing else changes |
| `EngineState.DelayBlur` | presentation/src/main/java/com/yalin/style/engine/StyleWallpaperProxy.kt:276-282 | no-op when the detail view is open or the renderer is blurred; otherwise exactly one return-to-blur runnable is pending afterwards, whatever was pending before; nothing else changes |
| `EngineState.LockScreenVisibleChanged` | presentation/src/main/java/com/yalin/style/engine/StyleWallpaperProxy.kt:267-270 | cancels the return-to-blur runnable, then queues exactly one non-animated `SetBlurred(!visible)`; nothing else changes |
| `EngineState.LockSignal` | presentation/src/main/java/com/yalin/style/engine/StyleWallpaperProxy.kt:137-150 | in both directions: "lock screen visible" exactly for SCREEN_OFF; "not visible" exactly for USER_PRESENT, or SCREEN_ON with the keyguard not restricted; nothing for a null intent or any other action |
| `EngineState.OnLockBroadcast` | presentation/src/main/java/com/yalin/style/engine/StyleWallpaperProxy.kt:136-151 | a broadcast announcing nothing changes nothing; one announcing a visibility cancels the blur runnable and queues `SetBlurred(!visible, false)`, and nothing else |
| `EngineState.OnPreferenceChanged` | presentation/src/main/java/com/yalin/style/engine/StyleWallpaperProxy.kt:115-135 | another key: no-op. Enabling: the receiver is registered, and only when the user is not unlocked is lock-visible reported (blur runnable cancelled, `SetBlurred(false, false)` queued). Disabling: the flag is cleared, which is a no-op when it was already clear |
| `EngineState.OnDoubleTap` | presentation/src/main/java/com/yalin/style/engine/StyleWallpaperProxy.kt:90-101 | in detail mode nothing changes; otherwise the double-tap is armed and exactly one timeout is pending, and nothing else changes |
| `EngineState.OnTouch` | presentation/src/main/java/com/yalin/style/engine/StyleWallpaperProxy.kt:239-243 | the double-tap is armed iff it was, or one was recognised outside detail mode; the blur runnable is pending iff it was, or the detail view is closed and the renderer unblurred; nothing else changes, and nothing is queued |
| `EngineState.OnCommand` | presentation/src/main/java/com/yalin/style/engine/StyleWallpaperProxy.kt:245-255 | a tap command with an armed double-tap queues exactly one toggle task and disarms the double-tap; any other action, or an unarmed tap, changes nothing |
| `EngineState.OnDetailOpened` | presentation/src/main/java/com/yalin/style/engine/StyleWallpaperProxy.kt:197-206 | an unchanged value changes nothing; a new value sets detail mode, cancels the blur runnable and queues exactly one animated `SetBlurred(!opened)` |
| `EngineState.FireBlurTimer` | presentation/src/main/java/com/yalin/style/engine/StyleWallpaperProxy.kt:284-288 | the runnable is no longer pending, and exactly one `SetBlurred(true, false)` is queued |
| `EngineState.FireDoubleTapTimeout` | presentation/src/main/java/com/yalin/style/engine/StyleWallpaperProxy.kt:290 | only disarms the double-tap (and empties its slot) |
| `EngineState.ApplyTask` | presentation/src/main/java/com/yalin/style/engine/StyleWallpaperProxy.kt:248-251 | a task changes only the renderer and the blur slot. `SetBlurred` sets the flag. The toggle flips it and then arms the blur runnable exactly when the flag was blurred before the flip and the detail view is closed. Destroy marks the renderer destroyed |
| `EngineState.RunHead` | presentation/src/main/java/com/yalin/style/engine/StyleWallpaperProxy.kt:248-251 | the render thread runs the oldest queued task and removes it from the queue; an empty queue changes nothing |
| `EngineState.RequestRender` | presentation/src/main/java/com/yalin/style/engine/StyleWallpaperProxy.kt:261-265 | the forwarded-frame count grows by one exactly when the surface is visible; nothing else changes |
| `EngineState.OnVisibilityChanged` | presentation/src/main/java/com/yalin/style/engine/StyleWallpaperProxy.kt:227-230 | records the visibility and nothing else (no frame is requested) |
| `EngineState.OnDestroy` | presentation/src/main/java/com/yalin/style/engine/StyleWallpaperProxy.kt:181-194 | the engine stops listening, so the lock receiver is inactive; exactly one `DestroyRenderer` is queued; the runnables stay pending |
| `EngineState.Created` | presentation/src/main/java/com/yalin/style/engine/StyleWallpaperProxy.kt:153-179 | after onCreate the engine is visible and listening, with one frame requested and no runnable pending. The receiver is registered iff the preference is on. The queue holds `SetBlurred(false, false)` iff the preference is on and the user is not unlocked. The invariant holds |
| `RenderThread.RunTasks` | presentation/src/main/java/com/yalin/style/engine/StyleWallpaperProxy.kt:248-251 | running tasks in order touches only the renderer and the blur slot. The renderer is destroyed iff a destroy task ran. The blur runnable is never cancelled, and is armed only by a toggle run with the detail view closed |
| `RenderThread.Drain` | presentation/src/main/java/com/yalin/style/engine/StyleWallpaperProxy.kt:189-191 | once the render thread has caught up the queue is empty, the main-thread fields are unchanged, and the invariant is kept |
| `RenderThread.RunTasksSnoc` | presentation/src/main/java/com/yalin/style/engine/StyleWallpaperProxy.kt:248-251 | running `tasks + [last]` is running `tasks` and then `last` (FIFO order) |
| `RenderThread.DrainRunsHeadFirst` | presentation/src/main/java/com/yalin/style/engine/StyleWallpaperProxy.kt:248-251 | draining after the render thread ran the head task ends where draining everything does |
| `RenderThread.DrainSettlesOnLastSetBlurred` | presentation/src/main/java/com/yalin/style/engine/StyleWallpaperProxy.kt:205 | whatever was queued before it, the renderer ends with the value of the last queued `SetBlurred` |
| `Traces.Step` | presentation/src/main/java/com/yalin/style/engine/StyleWallpaperProxy.kt:74-291 | every delivered event keeps the invariant. After teardown the engine stays torn down: detail mode and visibility are frozen, and only a stale blur can be queued. A hidden surface stays hidden and requests no frame unless made visible |
| `Traces.RunPreservesInv` | presentation/src/main/java/com/yalin/style/engine/StyleWallpaperProxy.kt:74-291 | every run keeps the invariant: no blur runnable pending in detail mode; an armed double-tap always has its timeout pending; the renderer is destroyed only after teardown |
| `Traces.ReachableStatesSatisfyInv` | presentation/src/main/java/com/yalin/style/engine/StyleWallpaperProxy.kt:153-179 | every state reachable from onCreate satisfies the invariant |
| `Traces.TeardownIsFinal` | presentation/src/main/java/com/yalin/style/engine/StyleWallpaperProxy.kt:181-194 | after onDestroy, no event revives the engine or the lock receiver. Detail mode and visibility are frozen, so an engine hidden at teardown forwards no frame again. Every task queued afterwards is a `SetBlurred(true, false)` |
| `Traces.HiddenSurfaceDropsFrames` | presentation/src/main/java/com/yalin/style/engine/StyleWallpaperProxy.kt:261-265 | while the surface is not made visible again, no frame request is forwarded, over any run |
| `Traces.VisibleSurfaceRenders` | presentation/src/main/java/com/yalin/style/engine/StyleWallpaperProxy.kt:227-230 | once visible again, the next request forwards one frame |
| `Traces.DetailNotificationIsIdempotent` | presentation/src/main/java/com/yalin/style/engine/StyleWallpaperProxy.kt:199-201 | the same detail notification delivered twice makes one transition |
| `Traces.DetailChangeSettles` | presentation/src/main/java/com/yalin/style/engine/StyleWallpaperProxy.kt:203-205 | once drained, the renderer is unblurred after opening and blurred after closing, whatever was queued before. After opening, no blur runnable is pending, even if a toggle was still queued |
| `Traces.LockSignalSettles` | presentation/src/main/java/com/yalin/style/engine/StyleWallpaperProxy.kt:267-270 | once drained, the renderer is blurred exactly when the lock screen is not visible. No blur runnable is pending unless a toggle was still queued |
| `Traces.DisabledMonitorIgnoresBroadcasts` | presentation/src/main/java/com/yalin/style/engine/StyleWallpaperProxy.kt:130-133 | after the preference is turned off, no lock-screen broadcast has any effect |
| `Traces.DirectBootReportsLockScreen` | presentation/src/main/java/com/yalin/style/engine/StyleWallpaperProxy.kt:125-129 | enabling the preference before the user is unlocked activates the receiver and, once drained, leaves the renderer unblurred |
| `Traces.DoubleTapIgnoredInDetailMode` | presentation/src/main/java/com/yalin/style/engine/StyleWallpaperProxy.kt:91-93 | a double-tap touch in detail mode changes nothing |
| `Traces.DoubleTapThenTapToggles` | presentation/src/main/java/com/yalin/style/engine/StyleWallpaperProxy.kt:247-252 | double-tap, tap command, then the render thread: the blur flag is flipped, the double-tap consumed, the queue empty, and a blur runnable pending either way |
| `Traces.ExpiredDoubleTapIsIgnored` | presentation/src/main/java/com/yalin/style/engine/StyleWallpaperProxy.kt:290 | a tap command after the double-tap timed out queues nothing |
| `Traces.FocusGrantExpires` | presentation/src/main/java/com/yalin/style/engine/StyleWallpaperProxy.kt:276-288 | a toggle from blurred unblurs; when the blur runnable fires and its task runs, the wallpaper is blurred again with nothing pending |
| `Traces.BlurTimerOutlivesTeardown` | presentation/src/main/java/com/yalin/style/engine/StyleWallpaperProxy.kt:181-194 | a blur runnable pending at onDestroy still queues `SetBlurred(true, false)` after `DestroyRenderer`, and the destroyed renderer ends up blurred |
| `StyleWallpaperProxy.StyleWallpaperEngine.constructor` | presentation/src/main/java/com/yalin/style/engine/StyleWallpaperProxy.kt:153-179 | the new engine's state is `Created(...)` and is valid |
| `StyleWallpaperProxy.StyleWallpaperEngine.QueueEvent` | presentation/src/main/java/com/yalin/style/engine/StyleWallpaperProxy.kt:257-259 | the task is appended behind those already queued; nothing else changes (`EngineState.Post`) |
| `StyleWallpaperProxy.StyleWallpaperEngine.CancelDelayedBlur` | presentation/src/main/java/com/yalin/style/engine/StyleWallpaperProxy.kt:272-274 | fields updated as `EngineState.CancelDelayedBlur` |
| `StyleWallpaperProxy.StyleWallpaperEngine.DelayBlur` | presentation/src/main/java/com/yalin/style/engine/StyleWallpaperProxy.kt:276-282 | fields updated as `EngineState.DelayBlur` |
| `StyleWallpaperProxy.StyleWallpaperEngine.LockScreenVisibleChanged` | presentation/src/main/java/com/yalin/style/engine/StyleWallpaperProxy.kt:267-270 | fields updated as `EngineState.LockScreenVisibleChanged` |
| `StyleWallpaperProxy.StyleWallpaperEngine.OnDoubleTap` | presentation/src/main/java/com/yalin/style/engine/StyleWallpaperProxy.kt:90-101 | fields updated as `EngineState.OnDoubleTap`; keeps `Valid()` |
| `StyleWallpaperProxy.StyleWallpaperEngine.OnTouch` | presentation/src/main/java/com/yalin/style/engine/StyleWallpaperProxy.kt:239-243 | fields updated as `EngineState.OnTouch`; keeps `Valid()` |
| `StyleWallpaperProxy.StyleWallpaperEngine.OnCommand` | presentation/src/main/java/com/yalin/style/engine/StyleWallpaperProxy.kt:245-255 | fields updated as `EngineState.OnCommand`; keeps `Valid()` |
| `StyleWallpaperProxy.StyleWallpaperEngine.OnDetailOpened` | presentation/src/main/java/com/yalin/style/engine/StyleWallpaperProxy.kt:197-206 | fields updated as `EngineState.OnDetailOpened`; keeps `Valid()` |
| `StyleWallpaperProxy.StyleWallpaperEngine.OnLockBroadcast` | presentation/src/main/java/com/yalin/style/engine/StyleWallpaperProxy.kt:136-151 | fields updated as `EngineState.OnLockBroadcast`; keeps `Valid()` |
| `StyleWallpaperProxy.StyleWallpaperEngine.OnPreferenceChanged` | presentation/src/main/java/com/yalin/style/engine/StyleWallpaperProxy.kt:115-135 | fields updated as `EngineState.OnPreferenceChanged`; keeps the invariant |
| `StyleWallpaperProxy.StyleWallpaperEngine.RunBlurRunnable` | presentation/src/main/java/com/yalin/style/engine/StyleWallpaperProxy.kt:284-288 | fields updated as `EngineState.FireBlurTimer`; keeps `Valid()` |
| `StyleWallpaperProxy.StyleWallpaperEngine.RunDoubleTapTimeoutRunnable` | presentation/src/main/java/com/yalin/style/engine/StyleWallpaperProxy.kt:290 | fields updated as `EngineState.FireDoubleTapTimeout`; keeps `Valid()` |
| `StyleWallpaperProxy.StyleWallpaperEngine.RunHeadTask` | presentation/src/main/java/com/yalin/style/engine/StyleWallpaperProxy.kt:248-251 | fields updated as `EngineState.RunHead`; keeps `Valid()` |
| `StyleWallpaperProxy.StyleWallpaperEngine.RequestRender` | presentation/src/main/java/com/yalin/style/engine/StyleWallpaperProxy.kt:261-265 | fields updated as `EngineState.RequestRender`; keeps the invariant |
| `StyleWallpaperProxy.StyleWallpaperEngine.OnVisibilityChanged` | presentation/src/main/java/com/yalin/style/engine/StyleWallpaperProxy.kt:227-230 | fields updated as `EngineState.OnVisibilityChanged`; keeps `Valid()` |
| `StyleWallpaperProxy.StyleWallpaperEngine.OnDestroy` | presentation/src/main/java/com/yalin/style/engine/StyleWallpaperProxy.kt:181-194 | fields updated as `EngineState.OnDestroy`; keeps `Valid()` |

## Left out

- GL/EGL setup, the renderer's drawing, blur animation and offsets (`setNormalOffsetX`). The renderer is only its blur flag and a destroyed marker. `setIsBlurred(b, animate)` is taken to set the flag to `b`. Whether it also requests frames, and what `destroy()` does to later calls, happen inside the renderer, which is not part of this model.
- Threads and the handler's timing. The two runnables are pending flags that fire when the environment says so, and the render queue is drained explicitly. The 3000 ms focus duration and the platform tap timeout do not appear. Races between threads are not modelled, for example `delayBlur()` on the main thread reading the renderer's flag.
- Gesture recognition inside `GestureDetectorCompat`. A touch carries whether the detector recognised a double-tap on it.
- The event bus, dependency injection and `RenderController`: `setComponent`, `setVisible`, `reloadCurrentWallpaper`, the size-changed event, `onSurfaceChanged` and the wallpaper-switch event. They are library calls whose behaviour is not visible. The viewport event only calls `requestRender`, which is the `RenderRequested` event.
- The outer service's `onCreate`/`onDestroy` and its user-unlocked receiver. They only set an `initialized` flag whose use is empty.
- The preference key's stored string and the preference store. The key is `DisableBlurWhenLocked` or any other key. The stored value and the user-unlocked state are inputs.
- Host registration errors. Unregistering a receiver that is not registered is an error on the platform, but the code checks its flag before each unregister, so the model has no error path for it.
- The `x`, `y`, `z`, extras and result arguments of `onCommand`, and the `super` calls. They do not affect the engine's state.
