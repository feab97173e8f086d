/** Runs of consecutive ticks: the player falls on the hit that takes the
    last hp point, the boss on the hit that takes its last health. */
module Scenarios {
  import opened Rules
  import opened Session
  import opened Properties

  /** The main loop: `outcomes[i]` is one call of Game.update on
      `states[i]` with `frames[i]`, and each state is the one the previous
      call left once handle_events has handled the queue `events[i]` at the
      next frame's time. */
  predicate IsRun(states: seq<State>, frames: seq<Frame>, outcomes: seq<Outcome>, events: seq<seq<Event>>)
  {
    && |states| == |frames| == |outcomes| == |events|
    && (forall i {:trigger outcomes[i]} :: 0 <= i < |frames| ==>
          && states[i].needed > 0 && outcomes[i] == Tick(states[i], frames[i])
          && (i + 1 < |frames| ==> states[i + 1] == HandleEvents(outcomes[i].state, events[i], frames[i + 1].now)))
  }

  /** A ball still in the group hits the player, and neither the win path
      nor a soybean pickup happens in the same call. */
  predicate PlayerHitOnly(s: State, f: Frame, o: Outcome)
  {
    s.needed > 0 && BallHit(s, f) && !o.won && !BeanPickup(s, f)
  }

  /** A run in which every call is a hit on the player. */
  predicate HitRun(states: seq<State>, frames: seq<Frame>, outcomes: seq<Outcome>, events: seq<seq<Event>>)
  {
    && IsRun(states, frames, outcomes, events)
    && (forall i {:trigger outcomes[i]} :: 0 <= i < |frames| ==> PlayerHitOnly(states[i], frames[i], outcomes[i]))
  }

  lemma HitStep(s: State, f: Frame, o: Outcome)
    requires Inv(s) && PlayerHitOnly(s, f, o) && o == Tick(s, f)
    ensures Inv(o.state)
    ensures o.lost <==> s.hp == 1
    ensures !o.lost ==> o.state.hp == s.hp - 1
  {
    TickHp(s, f);
    TickKeepsInv(s, f);
  }

  /** The j-th call of a hitting run loses exactly when it starts at 1 hp. */
  lemma HitAt(states: seq<State>, frames: seq<Frame>, outcomes: seq<Outcome>, events: seq<seq<Event>>, j: nat)
    requires HitRun(states, frames, outcomes, events) && j < |frames| && Inv(states[j])
    ensures outcomes[j].lost <==> states[j].hp == 1
  {
    HitStep(states[j], frames[j], outcomes[j]);
  }

  /** After a call of a hitting run that started above 1 hp, the next call
      starts one point lower. */
  lemma HitNext(states: seq<State>, frames: seq<Frame>, outcomes: seq<Outcome>, events: seq<seq<Event>>, j: nat)
    requires HitRun(states, frames, outcomes, events) && j + 1 < |frames| && Inv(states[j]) && states[j].hp > 1
    ensures Inv(states[j + 1]) && states[j + 1].hp == states[j].hp - 1
  {
    HitStep(states[j], frames[j], outcomes[j]);
    HandleEventsKeeps(outcomes[j].state, events[j], frames[j + 1].now);
  }

  /** Before the i-th call of a hitting run the player has lost i points. */
  lemma {:induction false} HpBeforeCall(states: seq<State>, frames: seq<Frame>, outcomes: seq<Outcome>, events: seq<seq<Event>>, i: nat)
    requires HitRun(states, frames, outcomes, events) && i < |frames| && Inv(states[0]) && |frames| == states[0].hp
    ensures Inv(states[i]) && states[i].hp == states[0].hp - i
  {
    if i > 0 {
      HpBeforeCall(states, frames, outcomes, events, i - 1);
      HitNext(states, frames, outcomes, events, i - 1);
    }
  }

  /** With hp points left, a run of hitting calls loses on the hp-th call
      and on no earlier one. */
  lemma LossOnLastHit(states: seq<State>, frames: seq<Frame>, outcomes: seq<Outcome>, events: seq<seq<Event>>)
    requires HitRun(states, frames, outcomes, events) && |frames| > 0
    requires Inv(states[0]) && |frames| == states[0].hp
    ensures forall i :: 0 <= i < |frames| ==> (outcomes[i].lost <==> i == |frames| - 1)
  {
    forall i | 0 <= i < |frames|
      ensures outcomes[i].lost <==> i == |frames| - 1
    {
      HpBeforeCall(states, frames, outcomes, events, i);
      HitAt(states, frames, outcomes, events, i);
    }
  }

  /** From the starting 7 hp the seventh hitting call loses, no earlier one. */
  lemma SeventhHitLoses(states: seq<State>, frames: seq<Frame>, outcomes: seq<Outcome>, events: seq<seq<Event>>)
    requires HitRun(states, frames, outcomes, events) && |frames| == 7
    requires Inv(states[0]) && states[0].hp == INITIAL_HP
    ensures outcomes[6].lost
    ensures forall i :: 0 <= i < 6 ==> !outcomes[i].lost
  {
    LossOnLastHit(states, frames, outcomes, events);
  }

  /** An arrow hits the living boss and the player does not lose. */
  predicate BossHitOnly(s: State, f: Frame, o: Outcome)
  {
    BossStruck(s, f) && !o.lost
  }

  /** A run in which every call lands an arrow on the boss. */
  predicate BossRun(states: seq<State>, frames: seq<Frame>, outcomes: seq<Outcome>, events: seq<seq<Event>>)
  {
    && IsRun(states, frames, outcomes, events)
    && (forall i {:trigger outcomes[i]} :: 0 <= i < |frames| ==> BossHitOnly(states[i], frames[i], outcomes[i]))
  }

  lemma BossHitStep(s: State, f: Frame, o: Outcome)
    requires Inv(s) && s.boss.Some? && BossHitOnly(s, f, o) && s.needed > 0 && o == Tick(s, f)
    ensures Inv(o.state)
    ensures o.won <==> s.boss.value.health <= BOSS_DAMAGE
    ensures !o.won ==> o.state.boss.Some? && o.state.boss.value.health == s.boss.value.health - BOSS_DAMAGE
  {
    TickBoss(s, f);
    TickKeepsInv(s, f);
  }

  /** The j-th call of a boss-hitting run wins exactly when the boss has at
      most 5 health left. */
  lemma BossHitAt(states: seq<State>, frames: seq<Frame>, outcomes: seq<Outcome>, events: seq<seq<Event>>, j: nat)
    requires BossRun(states, frames, outcomes, events) && j < |frames| && Inv(states[j]) && states[j].boss.Some?
    ensures outcomes[j].won <==> states[j].boss.value.health <= BOSS_DAMAGE
  {
    BossHitStep(states[j], frames[j], outcomes[j]);
  }

  /** After a call of a boss-hitting run that left the boss standing, the
      next call meets it 5 health lower. */
  lemma BossHitNext(states: seq<State>, frames: seq<Frame>, outcomes: seq<Outcome>, events: seq<seq<Event>>, j: nat)
    requires BossRun(states, frames, outcomes, events) && j + 1 < |frames|
    requires Inv(states[j]) && states[j].boss.Some? && states[j].boss.value.health > BOSS_DAMAGE
    ensures Inv(states[j + 1]) && states[j + 1].boss.Some?
    ensures states[j + 1].boss.value.health == states[j].boss.value.health - BOSS_DAMAGE
  {
    BossHitStep(states[j], frames[j], outcomes[j]);
    HandleEventsKeeps(outcomes[j].state, events[j], frames[j + 1].now);
  }

  /** Before the i-th call of a boss-hitting run the boss has taken i hits. */
  lemma {:induction false} BossBeforeCall(states: seq<State>, frames: seq<Frame>, outcomes: seq<Outcome>, events: seq<seq<Event>>, i: nat)
    requires BossRun(states, frames, outcomes, events) && i < |frames|
    requires Inv(states[0]) && states[0].boss.Some?
    requires |frames| == (states[0].boss.value.health + BOSS_DAMAGE - 1) / BOSS_DAMAGE
    ensures Inv(states[i]) && states[i].boss.Some?
    ensures states[i].boss.value.health == states[0].boss.value.health - BOSS_DAMAGE * i
  {
    if i > 0 {
      BossBeforeCall(states, frames, outcomes, events, i - 1);
      BossHitNext(states, frames, outcomes, events, i - 1);
    }
  }

  /** A boss with h health falls on the ceil(h/5)-th hitting call and on no
      earlier one. */
  lemma BossFallsOnLastHit(states: seq<State>, frames: seq<Frame>, outcomes: seq<Outcome>, events: seq<seq<Event>>)
    requires BossRun(states, frames, outcomes, events) && |frames| > 0
    requires Inv(states[0]) && states[0].boss.Some?
    requires |frames| == (states[0].boss.value.health + BOSS_DAMAGE - 1) / BOSS_DAMAGE
    ensures forall i :: 0 <= i < |frames| ==> (outcomes[i].won <==> i == |frames| - 1)
  {
    forall i | 0 <= i < |frames|
      ensures outcomes[i].won <==> i == |frames| - 1
    {
      BossBeforeCall(states, frames, outcomes, events, i);
      BossHitAt(states, frames, outcomes, events, i);
    }
  }

  /** The boss starts at 100 health: the twentieth hitting call wins, no
      earlier one. */
  lemma TwentiethHitWins(states: seq<State>, frames: seq<Frame>, outcomes: seq<Outcome>, events: seq<seq<Event>>)
    requires BossRun(states, frames, outcomes, events) && |frames| == 20
    requires Inv(states[0]) && states[0].boss.Some? && states[0].boss.value.health == BOSS_HEALTH
    ensures outcomes[19].won
    ensures forall i :: 0 <= i < 19 ==> !outcomes[i].won
  {
    BossFallsOnLastHit(states, frames, outcomes, events);
  }
}
