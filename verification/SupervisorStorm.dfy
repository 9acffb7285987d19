/** What the debounce interval does not bound: changes that are neither Intel nor urgent can postpone a pass for ever. */
module SupervisorStorm {
  import opened Domain
  import opened Board
  import opened BoardTheorems
  import opened Supervisor
  import opened SupervisorLiveness

  /** The loop waits for a quiet interval on behalf of prompts alone. */
  predicate Debouncing(cfg: Config, s: State) {
    && s.phase == DebounceWait(s.now + cfg.debounce)
    && 0 < s.pending.latestSeq <= |s.log|
    && s.pending.firstIntelAt.None? && !s.pending.immediate && !s.pending.event
  }

  function FollowUp(s: State, now: int): Entry {
    Entry(0, 0, |s.log| + 1, Actor("user", User), UserPrompt, "follow-up", PromptBody("more"), "", now)
  }

  /** Just before the interval is over another prompt arrives, and the loop turns once. */
  function Round(cfg: Config, s: State): seq<Event>
    requires cfg.debounce > 0
  {
    [Tick(cfg.debounce - 1), Publish(FollowUp(s, s.now + cfg.debounce - 1)), Changed(|s.log| + 1), Wake, Turn]
  }

  /** The state after the prompt of a round has been noted. */
  function AfterNote(cfg: Config, s: State): State
    requires cfg.debounce > 0
  {
    var later := s.now + cfg.debounce - 1;
    s.(now := later, log := s.log + [FollowUp(s, later)],
       pending := Pending(Max(s.pending.latestSeq, |s.log| + 1), None, later, false, true),
       noted := s.noted + {|s.log| + 1}, notes := s.notes + [Noted(|s.log| + 1, UserPrompt, later)])
  }

  lemma NotesFollowUp(cfg: Config, s: State)
    requires Debouncing(cfg, s) && cfg.debounce > 0
    ensures var s1 := Next(cfg, s, Tick(cfg.debounce - 1));
            var s2 := Next(cfg, s1, Publish(FollowUp(s, s.now + cfg.debounce - 1)));
            Next(cfg, s2, Changed(|s.log| + 1)) == AfterNote(cfg, s)
  {
    var s1 := Next(cfg, s, Tick(cfg.debounce - 1));
    var s2 := Next(cfg, s1, Publish(FollowUp(s, s.now + cfg.debounce - 1)));
    assert s2.log[|s.log|] == FollowUp(s, s.now + cfg.debounce - 1);
  }

  lemma RearmsTimer(cfg: Config, s: State)
    requires Debouncing(cfg, s) && cfg.debounce > 0
    ensures var s5 := Next(cfg, Next(cfg, AfterNote(cfg, s), Wake), Turn);
      Debouncing(cfg, s5) && s5.starts == s.starts && s.noted <= s5.noted && s5.now == s.now + cfg.debounce - 1
  {
  }

  lemma RoundStaysDebouncing(cfg: Config, s: State)
    requires Debouncing(cfg, s) && cfg.debounce > 0
    ensures var s1 := Run(cfg, s, Round(cfg, s));
      Debouncing(cfg, s1) && s1.starts == s.starts && s.noted <= s1.noted && s1.now == s.now + cfg.debounce - 1
  {
    var r := Round(cfg, s);
    var s1 := Next(cfg, s, r[0]);
    var s2 := Next(cfg, s1, r[1]);
    var s3 := Next(cfg, s2, r[2]);
    var s4 := Next(cfg, s3, r[3]);
    RunFirst(cfg, s, r[0], [r[1], r[2], r[3], r[4]]);
    RunFirst(cfg, s1, r[1], [r[2], r[3], r[4]]);
    RunFirst(cfg, s2, r[2], [r[3], r[4]]);
    RunFirst(cfg, s3, r[3], [r[4]]);
    RunFirst(cfg, s4, r[4], []);
    assert r == [r[0]] + [r[1], r[2], r[3], r[4]];
    assert [r[1], r[2], r[3], r[4]] == [r[1]] + [r[2], r[3], r[4]];
    assert [r[2], r[3], r[4]] == [r[2]] + [r[3], r[4]];
    assert [r[3], r[4]] == [r[3]] + [r[4]];
    assert [r[4]] == [r[4]] + [];
    NotesFollowUp(cfg, s);
    RearmsTimer(cfg, s);
  }

  /** A storm of n prompts. */
  function Storm(cfg: Config, s: State, n: nat): seq<Event>
    requires cfg.debounce > 0
    decreases n
  {
    if n == 0 then [] else Round(cfg, s) + Storm(cfg, Run(cfg, s, Round(cfg, s)), n - 1)
  }

  /** For every n a storm of n prompts keeps the pass from starting for n almost complete debounce intervals: without Intel
      or an urgent entry nothing caps the wait. */
  lemma {:induction false} PromptStormPostpones(cfg: Config, s: State, n: nat)
    requires Debouncing(cfg, s) && cfg.debounce > 0
    ensures var s1 := Run(cfg, s, Storm(cfg, s, n));
      Debouncing(cfg, s1) && s1.starts == s.starts && s.noted <= s1.noted && s1.now == s.now + n * (cfg.debounce - 1)
    decreases n
  {
    if n > 0 {
      var next := Run(cfg, s, Round(cfg, s));
      RoundStaysDebouncing(cfg, s);
      PromptStormPostpones(cfg, next, n - 1);
      RunConcat(cfg, s, Round(cfg, s), Storm(cfg, next, n - 1));
      assert n * (cfg.debounce - 1) == (n - 1) * (cfg.debounce - 1) + (cfg.debounce - 1);
    }
  }

  /** Every run whose first entry is a prompt gets there at once: the prompt that opens the board can be postponed for ever. */
  lemma FirstPromptPostponed(cfg: Config, now: int, prompt: Entry, n: nat)
    requires cfg.debounce > 0
    requires prompt.kind == UserPrompt && prompt.topic != "scene" && prompt.seqNo == 1
    ensures var s := Run(cfg, Initial(now, [prompt]), [Changed(1), Turn]);
            var s1 := Run(cfg, s, Storm(cfg, s, n));
      s1.starts == [] && 1 in s1.noted && s1.now == now + n * (cfg.debounce - 1)
  {
    var s0 := Initial(now, [prompt]);
    var s1 := Next(cfg, s0, Changed(1));
    RunFirst(cfg, s0, Changed(1), [Turn]);
    RunFirst(cfg, s1, Turn, []);
    assert [Changed(1), Turn] == [Changed(1)] + [Turn] && [Turn] == [Turn] + [];
    var s2 := Next(cfg, s1, Turn);
    assert Debouncing(cfg, s2) && s2.noted == {1};
    PromptStormPostpones(cfg, s2, n);
  }
}
