/** Expired interviews: what an interview was used for cannot change any more, so whether it is
    evaluated agrees with whether its credit was consumed. */
module InterviewExpiry {
  import opened Wrappers
  import opened SessionMachine
  import opened InterviewClock
  import opened InterviewState
  import opened SessionInvariant
  import opened InterviewRuns
  import opened InterviewTheorems
  import L = CreditLedger
  import P = InterviewPlanner

  /** The session is still expired, with the same credit and the same time used, and `late` answers more. */
  predicate StillExpired(s: Session, s': Session, late: nat) {
    && s'.state.EXPIRED? && s'.credit == s.credit && s'.user == s.user
    && s.clock.Some? && s'.clock.Some? && !Running(s'.clock.value)
    && s'.clock.value.activeMs == s.clock.value.activeMs && s'.clock.value.budgetMs == s.clock.value.budgetMs
    && s.planner.Some? && s'.planner.Some? && s'.planner.value.answeredCount == s.planner.value.answeredCount + late
  }

  /** Past EXPIRED for good. */
  predicate MovedOn(s: Session) { s.startedAt.Some? && s.state in {PROCESSING, REPORT_READY, FAILED} }

  /** Whether this step records the assessment of a question that was answered. */
  predicate CountsAnswer(w: World, step: WorldStep, id: string) {
    && step.Write? && step.id == id && step.save.Assess? && step.save.assessment.sufficiency != Some(P.NO_ANSWER)
    && id in w.sessions && SaveSession(w.sessions[id], step.save).Some?
  }

  /** The answers whose assessments land along a run. */
  function LateAnswers(w: World, steps: seq<WorldStep>, id: string): nat
    decreases |steps|
  {
    if steps == [] then 0
    else (if CountsAnswer(w, steps[0], id) then 1 else 0) + LateAnswers(NextWorld(w, steps[0]), steps[1..], id)
  }

  predicate AnswerIn(save: Save) { save.Assess? && save.assessment.sufficiency != Some(P.NO_ANSWER) }

  lemma SaveOfExpired(s: Session, save: Save)
    requires SessionOk(s) && s.state.EXPIRED? && SaveSession(s, save).Some?
    ensures StillExpired(s, SaveSession(s, save).value, if AnswerIn(save) then 1 else 0)
  {
  }

  lemma EventOfExpired(s: Session, input: Input, e: Edit, s': Session)
    requires SessionOk(s) && Step(s, input, e, s') && (s.state.EXPIRED? || MovedOn(s))
    ensures MovedOn(s')
  {
    hide RoundsOk, IsMeaningfulUsage, P.SkipRemaining;
    if input.event.FAIL? {
      FailEffects(input, e, Live(s.state), s.credit.RESERVED?);
    } else if input.event.PROCESS? {
      OneEffect(input, e, ENQUEUE_EVALUATION);
    }
  }

  /** What becomes of an expired session: it moves on, or its use stays what it was but for late answers. */
  predicate Follows(s: Session, s': Session, late: nat) {
    MovedOn(s') || (s.state.EXPIRED? && StillExpired(s, s', late))
  }

  lemma FollowsOn(a: Session, b: Session, c: Session, first: nat, rest: nat)
    requires Follows(a, b, first) && Follows(b, c, rest)
    ensures Follows(a, c, first + rest)
  {
  }

  lemma FireOfExpired(w: World, owner: string -> L.Id, input: Input)
    requires WorldOk(w, owner) && Allowed(w, owner, Fire(input)) && ApplyEvent(w, input).1.Applied?
    requires w.sessions[input.id].state.EXPIRED? || MovedOn(w.sessions[input.id])
    ensures MovedOn(ApplyEvent(w, input).0.sessions[input.id])
  {
    AppliedIsStep(w, owner, input);
    var s := w.sessions[input.id];
    assert SessionFits(w, owner, input.id);
    EventOfExpired(s, input, Edit(w.credits, w.campaignUsed, Patched(s, input.patch)), ApplyEvent(w, input).1.session);
  }

  lemma SaveFollows(s: Session, save: Save)
    requires SessionOk(s) && (s.state.EXPIRED? || MovedOn(s))
    ensures SaveSession(s, save).Some? ==> Follows(s, SaveSession(s, save).value, if AnswerIn(save) then 1 else 0)
    ensures Follows(s, s, 0)
  {
    if s.state.EXPIRED? && SaveSession(s, save).Some? { SaveOfExpired(s, save); }
  }

  lemma WriteOfExpired(w: World, owner: string -> L.Id, id: string, save: Save)
    requires WorldOk(w, owner) && id in w.sessions && (w.sessions[id].state.EXPIRED? || MovedOn(w.sessions[id]))
    ensures var w' := NextWorld(w, Write(id, save));
            id in w'.sessions && Follows(w.sessions[id], w'.sessions[id], if CountsAnswer(w, Write(id, save), id) then 1 else 0)
  {
    assert SessionFits(w, owner, id);
    hide WorldOk, SessionOk, Follows, SaveSession;
    SaveFollows(w.sessions[id], save);
  }

  lemma StepOfExpired(w: World, owner: string -> L.Id, step: WorldStep, id: string)
    requires WorldOk(w, owner) && Allowed(w, owner, step) && id in w.sessions
    requires w.sessions[id].state.EXPIRED? || MovedOn(w.sessions[id])
    ensures id in NextWorld(w, step).sessions
    ensures Follows(w.sessions[id], NextWorld(w, step).sessions[id], if CountsAnswer(w, step, id) then 1 else 0)
  {
    assert SessionFits(w, owner, id);
    if step.Fire? && step.input.id == id && ApplyEvent(w, step.input).1.Applied? {
      FireOfExpired(w, owner, step.input);
    } else if step.Write? && step.id == id {
      WriteOfExpired(w, owner, id, step.save);
    } else {
      Untouched(w, owner, step, id);
    }
  }

  /** A session no step names, or whose event is refused, stays as it is. */
  lemma Untouched(w: World, owner: string -> L.Id, step: WorldStep, id: string)
    requires id in w.sessions && Allowed(w, owner, step)
    requires step.Fire? ==> step.input.id != id || !ApplyEvent(w, step.input).1.Applied?
    requires step.Write? ==> step.id != id
    requires step.Relabel? ==> step.id != id || w.sessions[id].startedAt.Some?
    ensures id in NextWorld(w, step).sessions && NextWorld(w, step).sessions[id] == w.sessions[id]
  {
  }

  /** As long as a session stays expired its use is frozen, but for the answers assessed late. */
  lemma {:induction false} RunOfExpired(w: World, owner: string -> L.Id, steps: seq<WorldStep>, id: string)
    requires WorldOk(w, owner) && AllowedRun(w, owner, steps) && id in w.sessions
    requires w.sessions[id].state.EXPIRED? || MovedOn(w.sessions[id])
    ensures id in RunWorld(w, steps).sessions
    ensures Follows(w.sessions[id], RunWorld(w, steps).sessions[id], LateAnswers(w, steps, id))
    decreases |steps|
  {
    if steps == [] {
      StaysExpired(w, owner, id);
    } else {
      var next := NextWorld(w, steps[0]);
      StepOfExpired(w, owner, steps[0], id);
      StepKeepsOk(w, owner, steps[0]);
      RunOfExpired(next, owner, steps[1..], id);
      hide NextWorld, WorldOk, CountsAnswer;
      FollowsOn(
        w.sessions[id], next.sessions[id], RunWorld(w, steps).sessions[id],
        if CountsAnswer(w, steps[0], id) then 1 else 0, LateAnswers(next, steps[1..], id));
    }
  }

  lemma StaysExpired(w: World, owner: string -> L.Id, id: string)
    requires WorldOk(w, owner) && id in w.sessions && (w.sessions[id].state.EXPIRED? || MovedOn(w.sessions[id]))
    ensures Follows(w.sessions[id], w.sessions[id], 0)
  {
    assert SessionFits(w, owner, id);
  }

  /** The use of a stopped session with `late` answers more. */
  predicate MeaningfulWith(s: Session, late: nat, policy: UsagePolicy)
    requires s.planner.Some? && s.clock.Some?
  {
    IsMeaningfulUsage(s.planner.value.answeredCount + late, s.clock.value.activeMs, s.clock.value.budgetMs, policy)
  }

  lemma UseAfter(s: Session, s': Session, late: nat, now: int, policy: UsagePolicy)
    requires StillExpired(s, s', late)
    ensures Meaningful(s', now, policy) <==> MeaningfulWith(s, late, policy)
  {
  }

  lemma MoreAnswersStay(s: Session, late: nat, policy: UsagePolicy)
    requires s.planner.Some? && s.clock.Some? && s.planner.value.answeredCount >= 0
    ensures MeaningfulWith(s, 0, policy) ==> MeaningfulWith(s, late, policy)
  {
  }

  lemma ExpiredByUse(w: World, owner: string -> L.Id, expire: Input)
    requires WorldOk(w, owner) && Allowed(w, owner, Fire(expire)) && ApplyEvent(w, expire).1.Applied?
    requires expire.event.RESUME_WINDOW_EXPIRED? && w.sessions[expire.id].credit.RESERVED?
    ensures var s' := ApplyEvent(w, expire).1.session;
            && s'.state.EXPIRED? && SessionOk(s')
            && (s'.credit.CONSUMED? <==> Meaningful(s', expire.now, expire.policy))
  {
    AppliedIsStep(w, owner, expire);
    var s, s' := w.sessions[expire.id], ApplyEvent(w, expire).1.session;
    assert SessionFits(w, owner, expire.id);
    var e := Edit(w.credits, w.campaignUsed, s);
    assert Patched(s, expire.patch) == s;
    var ctx := SessionContext(s, expire.now, expire.policy);
    SettleRuns(expire, e, ctx, []);
    assert SettleEffects(ctx) + [] == SettleEffects(ctx);
    EventKeepsOk(s, expire, e, s');
  }

  /** An expired self-paid interview is admitted to evaluation, under the same policy, if and only if its
      use at the expiry, together with the answers assessed since, is meaningful; and its credit was
      consumed if and only if the use at the expiry alone was. */
  lemma ExpiredAdmittedIff(
    w: World, owner: string -> L.Id, expire: Input, steps: seq<WorldStep>, process: Input)
    requires WorldOk(w, owner) && Allowed(w, owner, Fire(expire)) && ApplyEvent(w, expire).1.Applied?
    requires expire.event.RESUME_WINDOW_EXPIRED? && w.sessions[expire.id].credit.RESERVED?
    requires var w1 := ApplyEvent(w, expire).0;
             && AllowedRun(w1, owner, steps)
             && var w2 := RunWorld(w1, steps);
                process.id == expire.id && UpToDate(w2, process) && w2.sessions[process.id].state.EXPIRED?
    requires process.event.PROCESS? && process.patch == NO_PATCH && process.policy == expire.policy
    ensures var w1 := ApplyEvent(w, expire).0;
            var s, late := w1.sessions[expire.id], LateAnswers(w1, steps, expire.id);
            var admitted := ApplyEvent(RunWorld(w1, steps), process).1.Applied?;
            && s.planner.Some? && s.clock.Some?
            && (s.credit.CONSUMED? <==> MeaningfulWith(s, 0, expire.policy))
            && (admitted <==> MeaningfulWith(s, late, expire.policy))
            && (admitted <==> s.credit.CONSUMED? || (late > 0 && MeaningfulWith(s, late, expire.policy)))
  {
    hide ApplyEvent, Allowed, WorldOk, Meaningful, MeaningfulWith, LateAnswers, RunWorld, AllowedRun;
    var id, w1 := expire.id, ApplyEvent(w, expire).0;
    ExpiredNow(w, owner, expire);
    RunOfExpired(w1, owner, steps, id);
    StaysExpired(w1, owner, id);
    var s1, s2 := w1.sessions[id], RunWorld(w1, steps).sessions[id];
    UseAfter(s1, s1, 0, expire.now, expire.policy);
    UseAfter(s1, s2, LateAnswers(w1, steps, id), process.now, expire.policy);
    MoreAnswersStay(s1, LateAnswers(w1, steps, id), expire.policy);
    AdmittedIffMeaningful(RunWorld(w1, steps), process);
  }

  lemma ExpiredNow(w: World, owner: string -> L.Id, expire: Input)
    requires WorldOk(w, owner) && Allowed(w, owner, Fire(expire)) && ApplyEvent(w, expire).1.Applied?
    requires expire.event.RESUME_WINDOW_EXPIRED? && w.sessions[expire.id].credit.RESERVED?
    ensures var w1 := ApplyEvent(w, expire).0;
            && WorldOk(w1, owner) && expire.id in w1.sessions
            && var s := w1.sessions[expire.id];
               && s.state.EXPIRED? && (s.credit.CONSUMED? <==> Meaningful(s, expire.now, expire.policy))
               && s.planner.Some? && s.planner.value.answeredCount >= 0
  {
    hide Meaningful, Allowed;
    FireKeepsOk(w, owner, expire);
    ExpiredByUse(w, owner, expire);
    AnswersAtExpiry(ApplyEvent(w, expire).1.session);
    AppliedIsStep(w, owner, expire);
    hide WorldOk, ApplyEvent, SessionOk, Step;
  }

  lemma UseWith(s: Session, late: nat, policy: UsagePolicy)
    requires s.planner.Some? && s.clock.Some? && s.planner.value.answeredCount >= 0
    ensures MeaningfulWith(s, late, policy) <==>
            EnoughUse(s.planner.value.answeredCount + late, s.clock.value.activeMs, s.clock.value.budgetMs, policy)
  {
  }

  lemma AnswersAtExpiry(s: Session)
    requires SessionOk(s) && s.state.EXPIRED?
    ensures s.planner.Some? && s.planner.value.answeredCount >= 0
  {
  }

  /** So it is admitted if and only if, with the late answers counted, a question was answered, and either
      enough of them or enough of the time was used; by default three answers, or one and two fifths. */
  lemma AdmittedIffUsed(
    w: World, owner: string -> L.Id, expire: Input, steps: seq<WorldStep>, process: Input)
    requires WorldOk(w, owner) && Allowed(w, owner, Fire(expire)) && ApplyEvent(w, expire).1.Applied?
    requires expire.event.RESUME_WINDOW_EXPIRED? && w.sessions[expire.id].credit.RESERVED?
    requires var w1 := ApplyEvent(w, expire).0;
             && AllowedRun(w1, owner, steps)
             && var w2 := RunWorld(w1, steps);
                process.id == expire.id && UpToDate(w2, process) && w2.sessions[process.id].state.EXPIRED?
    requires process.event.PROCESS? && process.patch == NO_PATCH && process.policy == expire.policy
    ensures var w1 := ApplyEvent(w, expire).0;
            var s := w1.sessions[expire.id];
            var admitted := ApplyEvent(RunWorld(w1, steps), process).1.Applied?;
            && s.planner.Some? && s.clock.Some?
            && var answered, usedMs, budgetMs :=
                 s.planner.value.answeredCount + LateAnswers(w1, steps, expire.id), s.clock.value.activeMs, s.clock.value.budgetMs;
               && (admitted <==>
                     && answered >= 1
                     && (answered >= expire.policy.minAnswers
                         || (budgetMs > 0 && usedMs as real >= expire.policy.minBudgetFraction * (budgetMs as real))))
               && (expire.policy == DEFAULT_USAGE_POLICY ==>
                     (admitted <==> answered >= 3 || (answered >= 1 && budgetMs > 0 && 5 * usedMs >= 2 * budgetMs)))
  {
    hide WorldOk, ApplyEvent, Allowed, AllowedRun, RunWorld, LateAnswers, UpToDate, MeaningfulWith;
    ExpiredAdmittedIff(w, owner, expire, steps, process);
    ExpiredNow(w, owner, expire);
    var s, late := ApplyEvent(w, expire).0.sessions[expire.id], LateAnswers(ApplyEvent(w, expire).0, steps, expire.id);
    UseWith(s, late, expire.policy);
    EnoughByDefault(s.planner.value.answeredCount + late, s.clock.value.activeMs, s.clock.value.budgetMs);
  }

  lemma AdmittedIffMeaningful(w: World, process: Input)
    requires UpToDate(w, process) && w.sessions[process.id].state.EXPIRED? && process.event.PROCESS? && process.patch == NO_PATCH
    ensures ApplyEvent(w, process).1.Applied? <==> Meaningful(w.sessions[process.id], process.now, process.policy)
  {
    var s := w.sessions[process.id];
    assert Patched(s, process.patch) == s;
    OneEffect(process, Edit(w.credits, w.campaignUsed, s), ENQUEUE_EVALUATION);
  }
}
