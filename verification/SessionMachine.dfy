/** The interview session's transition table: a state, an event and some facts about the
    session give the next state and the effects to carry out. */
module SessionMachine {
  import opened Wrappers

  datatype State =
    | DRAFT | ROLE_ANALYSIS | READY | DEVICE_CHECK | CONSENT_REQUIRED | READY_TO_START
    | ACTIVE | ROUND_TRANSITION | RECONNECTING | PAUSED | COMPLETING
    | PROCESSING | REPORT_READY | EXPIRED | CANCELLED | FAILED

  datatype Event =
    | ANALYZE | ANALYSIS_SUCCEEDED | ANALYSIS_FAILED | PREPARE | DEVICE_CHECK_PASSED | CONSENT_ACCEPTED
    | START | ROUND_ENDED | NEXT_ROUND | DISCONNECTED | RECONNECTED | GRACE_EXPIRED | RESUME
    | RESUME_WINDOW_EXPIRED | END_REQUESTED | TIME_UP | FINALIZE | PROCESS | EVALUATION_COMPLETED | CANCEL | FAIL

  datatype ResumeTarget = ToActive | ToRoundTransition

  datatype Context = Context(
    needsDeviceCheck: bool, needsConsent: bool, started: bool, creditReserved: bool,
    hasNextRound: bool, resumeTo: Option<ResumeTarget>, meaningful: bool)

  datatype Effect =
    | RESERVE_CREDIT | CONSUME_CREDIT | REFUND_CREDIT | START_CLOCK | PAUSE_CLOCK | RESUME_CLOCK
    | START_NEXT_ROUND | END_ROUND | ENQUEUE_ANALYSIS | ENQUEUE_EVALUATION
    | REMEMBER_RESUME_TARGET(to: ResumeTarget)

  datatype Transition = Moved(state: State, effects: seq<Effect>) | InvalidEvent | GuardFailed

  /** The candidate is being interviewed. */
  predicate Live(s: State) { s.ACTIVE? || s.ROUND_TRANSITION? }

  predicate InProgress(s: State) { Live(s) || s.RECONNECTING? || s.PAUSED? || s.COMPLETING? }

  predicate PreStart(s: State) { s in {DRAFT, READY, DEVICE_CHECK, CONSENT_REQUIRED, READY_TO_START} }

  function TargetState(t: ResumeTarget): State { if t.ToActive? then ACTIVE else ROUND_TRANSITION }

  function AfterDeviceCheck(ctx: Context): State { if ctx.needsConsent then CONSENT_REQUIRED else READY_TO_START }

  /** At its end a reserved credit is used up or given back, as the use was meaningful or not. */
  function SettleEffects(ctx: Context): seq<Effect> {
    if !ctx.creditReserved then [] else [if ctx.meaningful then CONSUME_CREDIT else REFUND_CREDIT]
  }

  function Resume(ctx: Context): Transition {
    if ctx.resumeTo.Some? then Moved(TargetState(ctx.resumeTo.value), [RESUME_CLOCK]) else GuardFailed
  }

  function Transit(state: State, event: Event, ctx: Context): Transition {
    match event
    case ANALYZE =>
      if state.DRAFT? || state.READY? then Moved(ROLE_ANALYSIS, [ENQUEUE_ANALYSIS])
      else if state.FAILED? then
        if ctx.started then GuardFailed else Moved(ROLE_ANALYSIS, [ENQUEUE_ANALYSIS])
      else InvalidEvent
    case ANALYSIS_SUCCEEDED => if state.ROLE_ANALYSIS? then Moved(READY, []) else InvalidEvent
    case ANALYSIS_FAILED => if state.ROLE_ANALYSIS? then Moved(FAILED, []) else InvalidEvent
    case PREPARE =>
      if !state.READY? then InvalidEvent
      else Moved(if ctx.needsDeviceCheck then DEVICE_CHECK else AfterDeviceCheck(ctx), [])
    case DEVICE_CHECK_PASSED => if state.DEVICE_CHECK? then Moved(AfterDeviceCheck(ctx), []) else InvalidEvent
    case CONSENT_ACCEPTED => if state.CONSENT_REQUIRED? then Moved(READY_TO_START, []) else InvalidEvent
    case START =>
      if !state.READY_TO_START? then InvalidEvent
      else Moved(ACTIVE, [RESERVE_CREDIT, START_CLOCK, START_NEXT_ROUND])
    case ROUND_ENDED =>
      if !state.ACTIVE? then InvalidEvent
      else if ctx.hasNextRound then Moved(ROUND_TRANSITION, [END_ROUND])
      else Moved(COMPLETING, [END_ROUND, PAUSE_CLOCK])
    case NEXT_ROUND =>
      if !state.ROUND_TRANSITION? then InvalidEvent
      else if ctx.hasNextRound then Moved(ACTIVE, [START_NEXT_ROUND]) else GuardFailed
    case DISCONNECTED =>
      if !Live(state) then InvalidEvent
      else Moved(RECONNECTING, [PAUSE_CLOCK, REMEMBER_RESUME_TARGET(if state.ACTIVE? then ToActive else ToRoundTransition)])
    case RECONNECTED => if state.RECONNECTING? then Resume(ctx) else InvalidEvent
    case GRACE_EXPIRED => if state.RECONNECTING? then Moved(PAUSED, []) else InvalidEvent
    case RESUME => if state.PAUSED? then Resume(ctx) else InvalidEvent
    case RESUME_WINDOW_EXPIRED => if state.PAUSED? then Moved(EXPIRED, SettleEffects(ctx)) else InvalidEvent
    case END_REQUESTED =>
      if Live(state) then Moved(COMPLETING, [END_ROUND, PAUSE_CLOCK])
      else if state.RECONNECTING? || state.PAUSED? then Moved(COMPLETING, [END_ROUND])
      else InvalidEvent
    case TIME_UP =>
      if Live(state) then Moved(COMPLETING, [END_ROUND, PAUSE_CLOCK])
      else if state.RECONNECTING? then Moved(COMPLETING, [END_ROUND])
      else InvalidEvent
    case FINALIZE =>
      if state.COMPLETING? then Moved(PROCESSING, SettleEffects(ctx) + [ENQUEUE_EVALUATION]) else InvalidEvent
    case PROCESS =>
      if !state.EXPIRED? then InvalidEvent
      else if ctx.meaningful then Moved(PROCESSING, [ENQUEUE_EVALUATION]) else GuardFailed
    case EVALUATION_COMPLETED => if state.PROCESSING? then Moved(REPORT_READY, []) else InvalidEvent
    case CANCEL =>
      if PreStart(state) || (state.FAILED? && !ctx.started) then Moved(CANCELLED, []) else InvalidEvent
    case FAIL =>
      if InProgress(state) || state.PROCESSING? then
        Moved(FAILED, (if Live(state) then [PAUSE_CLOCK] else []) + (if ctx.creditReserved then [REFUND_CREDIT] else []))
      else InvalidEvent
  }

  /** All that `transitionSession` checks: some event leads from the one state to the other in some context. */
  ghost predicate CanTransition(from: State, to: State) {
    exists event: Event, ctx: Context :: Transit(from, event, ctx).Moved? && Transit(from, event, ctx).state == to
  }
}
