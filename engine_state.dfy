/**
 * The focus/blur decision state of the live-wallpaper engine `StyleWallpaperEngine`,
 * as a value, with one transition function per callback of the engine.
 *
 * Timers are single-slot pending flags: `removeCallbacks` followed by `postDelayed`
 * leaves exactly one runnable of that kind pending, whatever was pending before.
 * The render thread's queue (`queueEvent`) is a FIFO sequence of tasks, and the
 * renderer is reduced to its blur flag and a destroyed marker.
 */
module EngineState {

  datatype Option<T> = None | Some(value: T)

  /** A unit of work handed to the render thread with `queueEvent`. */
  datatype Task =
    | SetBlurred(blurred: bool, animate: bool)  // mRenderer?.setIsBlurred(blurred, animate)
    | ToggleThenDelayBlur                        // flip the renderer's flag, then delayBlur()
    | DestroyRenderer                            // mRenderer?.destroy()

  /** A broadcast intent; only its action matters to the lock-screen receiver. */
  datatype Intent = Intent(action: Option<string>)

  /** The preference key handed to the change listener. */
  datatype PrefKey = DisableBlurWhenLocked | OtherKey(name: string)

  const ActionUserPresent: string := "android.intent.action.USER_PRESENT"
  const ActionScreenOff: string := "android.intent.action.SCREEN_OFF"
  const ActionScreenOn: string := "android.intent.action.SCREEN_ON"
  const CommandTap: string := "android.wallpaper.tap"

  /**
   * Everything the engine's decisions depend on.
   *  - visible, detailMode, validDoubleTap, lockReceiverRegistered: the engine's fields
   *  - alive: onCreate has run and onDestroy has not; while alive the engine is
   *    registered with the event bus and the preference store
   *  - blurTimerPending, tapTimeoutPending: the two delayed runnables
   *  - blurred, rendererDestroyed: the renderer, owned by the render thread
   *  - queue: tasks posted to the render thread and not yet run
   *  - framesRequested: frame requests forwarded past the visibility gate
   */
  datatype Engine = Engine(
    visible: bool,
    detailMode: bool,
    validDoubleTap: bool,
    lockReceiverRegistered: bool,
    alive: bool,
    blurTimerPending: bool,
    tapTimeoutPending: bool,
    blurred: bool,
    rendererDestroyed: bool,
    queue: seq<Task>,
    framesRequested: nat)

  /**
   * What every reachable state satisfies: no return-to-blur runnable is pending
   * while the detail view is open, an armed double-tap always has its timeout
   * pending, and the renderer is only destroyed (or about to be) once the engine
   * has been torn down.
   */
  predicate Inv(s: Engine) {
    && (s.detailMode ==> !s.blurTimerPending)
    && (s.validDoubleTap ==> s.tapTimeoutPending)
    && (s.rendererDestroyed || DestroyRenderer in s.queue ==> !s.alive)
  }

  /** The lock-screen receiver hears broadcasts only while the host has it registered. */
  predicate LockReceiverActive(s: Engine) {
    s.lockReceiverRegistered && s.alive
  }

  /** queueEvent: append a task to the render thread's queue. */
  function Post(s: Engine, task: Task): (t: Engine) {
    s.(queue := s.queue + [task])
  }

  /** cancelDelayedBlur(): drop the pending return-to-blur runnable, if any. */
  function CancelDelayedBlur(s: Engine): (t: Engine)
    ensures !t.blurTimerPending
    ensures t.(blurTimerPending := s.blurTimerPending) == s
  {
    s.(blurTimerPending := false)
  }

  /**
   * delayBlur(): unless the detail view is open or the renderer is already
   * blurred, (re)arm the return-to-blur runnable.
   */
  function DelayBlur(s: Engine): (t: Engine)
    ensures s.detailMode || s.blurred ==> t == s
    ensures !s.detailMode && !s.blurred ==> t.blurTimerPending
    ensures t.blurTimerPending == (s.blurTimerPending || (!s.detailMode && !s.blurred))
    ensures t.(blurTimerPending := s.blurTimerPending) == s
  {
    if s.detailMode || s.blurred then s else s.(blurTimerPending := true)
  }

  /**
   * lockScreenVisibleChanged(v): cancel the return-to-blur runnable and ask the
   * renderer to be blurred exactly when the lock screen is NOT visible.
   */
  function LockScreenVisibleChanged(s: Engine, lockScreenVisible: bool): (t: Engine)
    ensures !t.blurTimerPending
    ensures t.queue == s.queue + [SetBlurred(!lockScreenVisible, false)]
    ensures t.(blurTimerPending := s.blurTimerPending, queue := s.queue) == s
  {
    Post(CancelDelayedBlur(s), SetBlurred(!lockScreenVisible, false))
  }

  /**
   * The lock-screen receiver's decision: which lock-screen visibility, if any,
   * a broadcast announces.
   */
  function LockSignal(intent: Option<Intent>, keyguardRestricted: bool): (visible: Option<bool>)
    ensures visible == Some(true) <==>
      intent.Some? && intent.value.action == Some(ActionScreenOff)
    ensures visible == Some(false) <==>
      intent.Some? &&
      (intent.value.action == Some(ActionUserPresent) ||
       (intent.value.action == Some(ActionScreenOn) && !keyguardRestricted))
  {
    if intent.None? then None
    else if intent.value.action == Some(ActionUserPresent) then Some(false)
    else if intent.value.action == Some(ActionScreenOff) then Some(true)
    else if intent.value.action == Some(ActionScreenOn) then
      if !keyguardRestricted then Some(false) else None
    else None
  }

  /** The lock-screen receiver's onReceive. */
  function OnLockBroadcast(s: Engine, intent: Option<Intent>, keyguardRestricted: bool): (t: Engine)
    ensures LockSignal(intent, keyguardRestricted).None? ==> t == s
    ensures LockSignal(intent, keyguardRestricted).Some? ==>
      !t.blurTimerPending &&
      t.queue == s.queue + [SetBlurred(!LockSignal(intent, keyguardRestricted).value, false)] &&
      t.(blurTimerPending := s.blurTimerPending, queue := s.queue) == s
  {
    match LockSignal(intent, keyguardRestricted)
    case None => s
    case Some(lockScreenVisible) => LockScreenVisibleChanged(s, lockScreenVisible)
  }

  /**
   * The preference listener, told that `key` changed, with the stored value of the
   * blur-when-locked preference and whether the user's storage is unlocked.
   */
  function OnPreferenceChanged(s: Engine, key: PrefKey, enabled: bool, userUnlocked: bool): (t: Engine)
    ensures key != DisableBlurWhenLocked ==> t == s
    ensures key == DisableBlurWhenLocked && enabled ==>
      t.lockReceiverRegistered &&
      t.queue == s.queue + (if userUnlocked then [] else [SetBlurred(false, false)]) &&
      t.blurTimerPending == (userUnlocked && s.blurTimerPending) &&
      t.(lockReceiverRegistered := s.lockReceiverRegistered,
         blurTimerPending := s.blurTimerPending, queue := s.queue) == s
    ensures key == DisableBlurWhenLocked && !enabled ==>
      t == s.(lockReceiverRegistered := false)
  {
    if key != DisableBlurWhenLocked then s
    else if enabled then
      var registered := s.(lockReceiverRegistered := true);
      if !userUnlocked then LockScreenVisibleChanged(registered, true) else registered
    else if s.lockReceiverRegistered then s.(lockReceiverRegistered := false)
    else s
  }

  /** The gesture listener's onDoubleTap: arm the double-tap unless the detail view is open. */
  function OnDoubleTap(s: Engine): (t: Engine)
    ensures s.detailMode ==> t == s
    ensures !s.detailMode ==>
      t.validDoubleTap && t.tapTimeoutPending &&
      t.(validDoubleTap := s.validDoubleTap, tapTimeoutPending := s.tapTimeoutPending) == s
  {
    if s.detailMode then s
    else s.(validDoubleTap := true, tapTimeoutPending := true)
  }

  /** onTouchEvent: feed the gesture detector (which may report a double-tap), then delayBlur(). */
  function OnTouch(s: Engine, doubleTap: bool): (t: Engine)
    ensures t.validDoubleTap == (s.validDoubleTap || (doubleTap && !s.detailMode))
    ensures t.tapTimeoutPending == (s.tapTimeoutPending || (doubleTap && !s.detailMode))
    ensures t.blurTimerPending == (s.blurTimerPending || (!s.detailMode && !s.blurred))
    ensures t.(validDoubleTap := s.validDoubleTap, tapTimeoutPending := s.tapTimeoutPending,
               blurTimerPending := s.blurTimerPending) == s
  {
    DelayBlur(if doubleTap then OnDoubleTap(s) else s)
  }

  /** onCommand: a tap command consumes an armed double-tap and posts one toggle task. */
  function OnCommand(s: Engine, action: string): (t: Engine)
    ensures action != CommandTap || !s.validDoubleTap ==> t == s
    ensures action == CommandTap && s.validDoubleTap ==>
      !t.validDoubleTap &&
      t.queue == s.queue + [ToggleThenDelayBlur] &&
      t.(validDoubleTap := s.validDoubleTap, queue := s.queue) == s
  {
    if action == CommandTap && s.validDoubleTap then
      Post(s, ToggleThenDelayBlur).(validDoubleTap := false)
    else s
  }

  /** The event-bus handler for "wallpaper detail opened/closed". */
  function OnDetailOpened(s: Engine, isOpened: bool): (t: Engine)
    ensures isOpened == s.detailMode ==> t == s
    ensures isOpened != s.detailMode ==>
      t.detailMode == isOpened && !t.blurTimerPending &&
      t.queue == s.queue + [SetBlurred(!isOpened, true)] &&
      t.(detailMode := s.detailMode, blurTimerPending := s.blurTimerPending, queue := s.queue) == s
  {
    if isOpened == s.detailMode then s
    else Post(CancelDelayedBlur(s.(detailMode := isOpened)), SetBlurred(!isOpened, true))
  }

  /** The return-to-blur runnable fires: it posts a non-animated blur to the render thread. */
  function FireBlurTimer(s: Engine): (t: Engine)
    ensures !t.blurTimerPending
    ensures t.queue == s.queue + [SetBlurred(true, false)]
    ensures t.(blurTimerPending := s.blurTimerPending, queue := s.queue) == s
  {
    Post(s.(blurTimerPending := false), SetBlurred(true, false))
  }

  /** The double-tap timeout runnable fires: the armed double-tap expires. */
  function FireDoubleTapTimeout(s: Engine): (t: Engine)
    ensures !t.validDoubleTap && !t.tapTimeoutPending
    ensures t.(validDoubleTap := s.validDoubleTap, tapTimeoutPending := s.tapTimeoutPending) == s
  {
    s.(validDoubleTap := false, tapTimeoutPending := false)
  }

  /**
   * A render task changes nothing but the renderer and the return-to-blur slot:
   * every other field, and the queue itself, are as they were.
   */
  predicate RenderTaskFrame(s: Engine, t: Engine) {
    && t.visible == s.visible
    && t.detailMode == s.detailMode
    && t.validDoubleTap == s.validDoubleTap
    && t.lockReceiverRegistered == s.lockReceiverRegistered
    && t.alive == s.alive
    && t.tapTimeoutPending == s.tapTimeoutPending
    && t.queue == s.queue
    && t.framesRequested == s.framesRequested
  }

  /**
   * One task run on the render thread. The toggle re-runs delayBlur() after the
   * flip, so its decision to arm the timer sees the flipped value: it arms exactly
   * when the renderer was blurred before the toggle and the detail view is closed.
   * A destroyed renderer is still reached (the engine keeps its reference).
   */
  function ApplyTask(s: Engine, task: Task): (t: Engine)
    ensures RenderTaskFrame(s, t)
    ensures task.SetBlurred? ==>
      t.blurred == task.blurred && t.blurTimerPending == s.blurTimerPending &&
      t.rendererDestroyed == s.rendererDestroyed
    ensures task == ToggleThenDelayBlur ==>
      t.blurred == !s.blurred &&
      t.blurTimerPending == (s.blurTimerPending || (!s.detailMode && s.blurred)) &&
      t.rendererDestroyed == s.rendererDestroyed
    ensures task == DestroyRenderer ==>
      t.rendererDestroyed && t.blurred == s.blurred && t.blurTimerPending == s.blurTimerPending
  {
    match task
    case SetBlurred(b, _) => s.(blurred := b)
    case ToggleThenDelayBlur => DelayBlur(s.(blurred := !s.blurred))
    case DestroyRenderer => s.(rendererDestroyed := true)
  }

  /** The render thread takes the oldest queued task, if there is one, and runs it. */
  function RunHead(s: Engine): (t: Engine)
    ensures s.queue == [] ==> t == s
    ensures s.queue != [] ==> t == ApplyTask(s, s.queue[0]).(queue := s.queue[1..])
  {
    if s.queue == [] then s else ApplyTask(s.(queue := s.queue[1..]), s.queue[0])
  }

  /** The engine's requestRender: forward a frame request only while visible. */
  function RequestRender(s: Engine): (t: Engine)
    ensures t.framesRequested == if s.visible then s.framesRequested + 1 else s.framesRequested
    ensures t.(framesRequested := s.framesRequested) == s
  {
    if s.visible then s.(framesRequested := s.framesRequested + 1) else s
  }

  /** onVisibilityChanged: record the new visibility; no frame is requested. */
  function OnVisibilityChanged(s: Engine, visible: bool): (t: Engine)
    ensures t.visible == visible
    ensures t.(visible := s.visible) == s
  {
    s.(visible := visible)
  }

  /**
   * onDestroy: drop the event-bus and preference subscriptions (the lock receiver
   * is unregistered only if it was registered, and the flag is left as it was),
   * then post the renderer's teardown. Pending runnables are not cancelled.
   */
  function OnDestroy(s: Engine): (t: Engine)
    ensures !t.alive && !LockReceiverActive(t)
    ensures t.queue == s.queue + [DestroyRenderer]
    ensures t.(alive := s.alive, queue := s.queue) == s
  {
    Post(s.(alive := false), DestroyRenderer)
  }

  /**
   * onCreate, from the engine's initial field values: request the first frame
   * (the engine starts visible), subscribe, and run the preference listener once
   * for the blur-when-locked key.
   */
  function Created(prefEnabled: bool, userUnlocked: bool, rendererBlurred: bool): (t: Engine)
    ensures Inv(t) && t.alive && t.visible && t.framesRequested == 1
    ensures !t.detailMode && !t.validDoubleTap && !t.blurTimerPending && !t.tapTimeoutPending
    ensures t.lockReceiverRegistered == prefEnabled
    ensures t.queue == if prefEnabled && !userUnlocked then [SetBlurred(false, false)] else []
    ensures t.blurred == rendererBlurred && !t.rendererDestroyed
  {
    var initial := Engine(
      visible := true, detailMode := false, validDoubleTap := false,
      lockReceiverRegistered := false, alive := true,
      blurTimerPending := false, tapTimeoutPending := false,
      blurred := rendererBlurred, rendererDestroyed := false,
      queue := [], framesRequested := 0);
    OnPreferenceChanged(RequestRender(initial), DisableBlurWhenLocked, prefEnabled, userUnlocked)
  }
}
