/** Session events as they run inside their transaction: the effects are carried out one after
    another on the stored credits and on the fields to save; an error rolls everything back. */
module InterviewStore {
  import opened Wrappers
  import opened CreditLedger
  import opened SessionMachine
  import opened InterviewClock
  import opened InterviewState
  import C = CreditStore
  import P = InterviewPlanner

  class InterviewStore {
    const credits: C.CreditStore
    var sessions: map<string, Session>
    var campaignUsed: map<Id, int>

    function Contents(): World
      reads this, credits
    {
      World(credits.State(), sessions, campaignUsed)
    }

    constructor (credits: C.CreditStore)
      ensures this.credits == credits && sessions == map[] && campaignUsed == map[]
    {
      this.credits := credits;
      sessions, campaignUsed := map[], map[];
    }

    /** The state of the transaction: what the database holds and the fields to be saved. */
    ghost function Working(s: Session): Edit
      reads this, credits
    {
      Edit(credits.State(), campaignUsed, s)
    }

    /** Pays for a start: a drill is free, a sponsored interview is the campaign's, else a credit is reserved. */
    method Pay(input: Input, s: Session) returns (ok: bool, paid: Session)
      modifies credits
      ensures ReserveEffect(input, old(Working(s))) == if ok then Some(Working(paid)) else None
    {
      ok, paid := true, s.(startedAt := Some(input.now));
      if s.drill {
        paid := paid.(credit := FREE, creditLot := None);
      } else if s.sponsored {
        paid := paid.(credit := SPONSORED, creditLot := None);
      } else {
        var outcome := credits.ReserveCredit(Reserve(s.user, input.id, input.now));
        if outcome.ReservedFrom? {
          paid := paid.(credit := RESERVED, creditLot := Some(outcome.lot));
        } else {
          ok := false;
        }
      }
    }

    method SettlePayment(input: Input, s: Session, refund: bool) returns (settled: Session)
      modifies this`campaignUsed, credits
      ensures SettleEffect(input, old(Working(s)), refund) == Some(Working(settled))
    {
      settled := s;
      if s.credit.FREE? { return; }
      if s.credit.SPONSORED? {
        if refund { campaignUsed := CampaignRefunded(campaignUsed, s.campaign); }
        return;
      }
      var _ := credits.SettleCredit(Settle(s.user, input.id, refund));
      settled := s.(credit := if refund then REFUNDED else CONSUMED);
    }

    /** Carries out one effect; false when it throws. */
    method CarryOut(input: Input, effect: Effect, s: Session) returns (ok: bool, edited: Session)
      modifies this`campaignUsed, credits
      ensures RunEffect(input, old(Working(s)), effect) == if ok then Some(Working(edited)) else None
    {
      ok, edited := true, s;
      match effect {
        case RESERVE_CREDIT => ok, edited := Pay(input, s);
        case CONSUME_CREDIT => edited := SettlePayment(input, s, false);
        case REFUND_CREDIT => edited := SettlePayment(input, s, true);
        case START_CLOCK =>
          if s.planner.None? { return false, s; }
          var clock := StartClock(P.TotalBudget(s.planner.value.rounds), input.now);
          if clock.None? { return false, s; }
          edited := s.(clock := clock);
        case PAUSE_CLOCK =>
          if s.clock.Some? { edited := s.(clock := Some(PauseClock(s.clock.value, input.now))); }
        case RESUME_CLOCK =>
          if s.clock.Some? { edited := s.(clock := Some(ResumeClock(s.clock.value, input.now))); }
        case START_NEXT_ROUND =>
          if s.planner.None? { return false, s; }
          var planner := P.StartNextRound(s.planner.value, SessionElapsedMs(s, input.now));
          if planner.None? { return false, s; }
          edited := s.(planner := planner);
        case END_ROUND =>
          if s.planner.Some? {
            var outcome := if input.event.TIME_UP? then P.TIMED_OUT else P.COMPLETED;
            edited := s.(planner := Some(P.EndCurrentRound(s.planner.value, outcome)));
          }
        case REMEMBER_RESUME_TARGET(to) => edited := s.(resumeTo := Some(to));
        case ENQUEUE_ANALYSIS =>
        case ENQUEUE_EVALUATION =>
      }
    }

    method CarryOutAll(input: Input, effects: seq<Effect>, s: Session) returns (ok: bool, edited: Session)
      modifies this`campaignUsed, credits
      ensures var r := RunEffects(input, old(Working(s)), effects);
              ok == r.Some? && (ok ==> r.value == Working(edited))
    {
      ghost var goal := RunEffects(input, Working(s), effects);
      edited := s;
      var i := 0;
      while i < |effects|
        invariant 0 <= i <= |effects|
        invariant RunEffects(input, Working(edited), effects[i..]) == goal
      {
        assert effects[i..][1..] == effects[i + 1..];
        ok, edited := CarryOut(input, effects[i], edited);
        if !ok { return; }
        i := i + 1;
      }
      ok := true;
    }

    method ApplySessionEvent(input: Input) returns (result: Result)
      modifies this, credits
      ensures Contents() == ApplyEvent(old(Contents()), input).0 && result == ApplyEvent(old(Contents()), input).1
    {
      if input.id !in sessions { return NotFound; }
      var s := sessions[input.id];
      if input.user.Some? && s.user != input.user.value { return NotFound; }
      if input.expectedVersion.Some? && s.version != input.expectedVersion.value { return Conflict; }
      var working := Patched(s, input.patch);
      var t := Transit(s.state, input.event, SessionContext(working, input.now, input.policy));
      if !t.Moved? { return Rejected(t); }
      var before, used := credits.State(), campaignUsed;
      var ok, edited := CarryOutAll(input, t.effects, working);
      if !ok {
        credits.accounts, credits.ledger, campaignUsed := before.accounts, before.ledger, used;
        return Thrown;
      }
      var saved := Arrived(s, t.state, input.now, edited);
      sessions := sessions[input.id := saved];
      result := Applied(saved);
    }
  }
}
