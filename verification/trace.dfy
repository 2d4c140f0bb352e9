/**
 Runs of the plugin: a sequence of timestamped inbound events, each
 dispatched to its handler. Properties here hold along whole runs: two
 successes by one sender are at least a cooldown apart, the staged amount
 is always the initial zero or in range, and the selection always names an
 online player or Nil.
 */
module Trace {
  import opened Numeric
  import opened Config
  import opened Wallet

  /** The inbound events the plugin subscribes to, plus the host's own joins and leaves. */
  datatype Event =
    | TextCommitted(player: SteamId, field: string, input: string)
    | ButtonClicked(player: SteamId, button: string)
    | ItemUsed(instigator: SteamId, target: SteamId, itemId: uint16)
    | CommandIssued(player: SteamId, args: seq<string>)
    | Joined(player: SteamId)
    | Left(player: SteamId)

  /** An event together with the wall-clock second it arrives at. */
  datatype Timed = Timed(at: int, event: Event)

  /**
   One event. A leaving player first reaches the disconnect handler and then
   drops out of the host's directory.
   */
  function Step(cfg: Configuration, host: Host, s: State, e: Timed): (r: (State, Outcome))
    ensures r.1.Success? ==> e.event.ButtonClicked? && e.event.player == r.1.sender
    ensures r.1.Success? ==> CanTransfer(cfg, s, r.1.sender, e.at) == Allowed
    ensures r.1.Success? ==> r.0.lastTransfer == s.lastTransfer[r.1.sender := e.at]
    ensures !r.1.Success? ==> r.0.lastTransfer == s.lastTransfer
  {
    match e.event
    case TextCommitted(p, field, input) => OnEffectTextCommitted(cfg, host, s, p, field, input)
    case ButtonClicked(p, button) => OnEffectButtonClicked(cfg, host, s, p, button, e.at)
    case ItemUsed(instigator, target, itemId) => OnPerformingAid(cfg, host, s, instigator, target, itemId)
    case CommandIssued(p, args) => WalletCommand(host, s, p, args)
    case Joined(p) => (s.(online := s.online + {p}), Ignored)
    case Left(p) =>
      var (t, o) := OnPlayerDisconnected(s, p);
      (t.(online := t.online - {p}), o)
  }

  /** The states visited (one more than the events) and the outcome of each event. */
  function Run(cfg: Configuration, host: Host, s0: State, evs: seq<Timed>): (r: (seq<State>, seq<Outcome>))
    ensures |r.0| == |evs| + 1 && |r.1| == |evs|
    ensures r.0[0] == s0
    ensures forall i :: 0 <= i < |evs| ==> Step(cfg, host, r.0[i], evs[i]) == (r.0[i + 1], r.1[i])
    decreases |evs|
  {
    if |evs| == 0 then ([s0], [])
    else
      var (states, outcomes) := Run(cfg, host, s0, evs[..|evs| - 1]);
      var (next, o) := Step(cfg, host, states[|states| - 1], evs[|evs| - 1]);
      (states + [next], outcomes + [o])
  }

  /** Event times never go backwards. */
  predicate ClockMonotone(evs: seq<Timed>) {
    forall a, b :: 0 <= a <= b < |evs| ==> evs[a].at <= evs[b].at
  }

  /**
   After a success by `p` at event `i`, `p`'s cooldown entry stays at or
   after that time: a later success by `p` is stamped only once at least
   `cooldownSeconds` have passed since the stamp it replaces, so even a clock
   that steps back cannot lower the entry when the cooldown is non-negative.
   */
  lemma {:induction false} CooldownEntryPersists(cfg: Configuration, host: Host, s0: State, evs: seq<Timed>,
                                                 i: nat, k: nat, p: SteamId)
    requires ClockMonotone(evs) || cfg.cooldownSeconds >= 0
    requires i < k <= |evs|
    requires Run(cfg, host, s0, evs).1[i].Success? && Run(cfg, host, s0, evs).1[i].sender == p
    ensures p in Run(cfg, host, s0, evs).0[k].lastTransfer
    ensures Run(cfg, host, s0, evs).0[k].lastTransfer[p] >= evs[i].at
    decreases k
  {
    var (states, outcomes) := Run(cfg, host, s0, evs);
    assert Step(cfg, host, states[k - 1], evs[k - 1]) == (states[k], outcomes[k - 1]);
    if k - 1 > i {
      CooldownEntryPersists(cfg, host, s0, evs, i, k - 1, p);
      if outcomes[k - 1].Success? && outcomes[k - 1].sender == p {
        assert CanTransfer(cfg, states[k - 1], p, evs[k - 1].at) == Allowed;
        if ClockMonotone(evs) {
          assert evs[i].at <= evs[k - 1].at;
        } else {
          assert evs[k - 1].at >= states[k - 1].lastTransfer[p];
        }
      }
    }
  }

  /**
   Along a run, two successful transfers by the same sender are at least
   `cooldownSeconds` apart, whenever the clock is monotone or the cooldown
   is non-negative (a clock that steps back only prolongs the block).
   */
  lemma SuccessesRespectCooldown(cfg: Configuration, host: Host, s0: State, evs: seq<Timed>, i: nat, j: nat)
    requires ClockMonotone(evs) || cfg.cooldownSeconds >= 0
    requires i < j < |evs|
    requires Run(cfg, host, s0, evs).1[i].Success? && Run(cfg, host, s0, evs).1[j].Success?
    requires Run(cfg, host, s0, evs).1[i].sender == Run(cfg, host, s0, evs).1[j].sender
    ensures evs[j].at - evs[i].at >= cfg.cooldownSeconds
  {
    var (states, outcomes) := Run(cfg, host, s0, evs);
    var p := outcomes[i].sender;
    CooldownEntryPersists(cfg, host, s0, evs, i, j, p);
    assert Step(cfg, host, states[j], evs[j]) == (states[j + 1], outcomes[j]);
  }

  /**
   The state invariant the handlers keep: the staged amount is the initial
   zero or was accepted by staging, and a selected receiver is online.
   */
  predicate Consistent(cfg: Configuration, s: State) {
    && (s.amount == 0 || cfg.minTransferAmount <= s.amount <= cfg.maxTransferAmount)
    && (s.receiver == Nil || s.receiver in s.online)
  }

  lemma InitConsistent(cfg: Configuration, experience: map<SteamId, uint32>, online: set<SteamId>)
    ensures Consistent(cfg, Init(experience, online))
  {
  }

  lemma StepKeepsConsistent(cfg: Configuration, host: Host, s: State, e: Timed)
    requires Consistent(cfg, s)
    ensures Consistent(cfg, Step(cfg, host, s, e).0)
  {
  }

  /** Every state of a run from a consistent start is consistent. */
  lemma {:induction false} RunKeepsConsistent(cfg: Configuration, host: Host, s0: State, evs: seq<Timed>, k: nat)
    requires Consistent(cfg, s0)
    requires k <= |evs|
    ensures Consistent(cfg, Run(cfg, host, s0, evs).0[k])
    decreases k
  {
    if k > 0 {
      var (states, outcomes) := Run(cfg, host, s0, evs);
      RunKeepsConsistent(cfg, host, s0, evs, k - 1);
      assert Step(cfg, host, states[k - 1], evs[k - 1]) == (states[k], outcomes[k - 1]);
      StepKeepsConsistent(cfg, host, states[k - 1], evs[k - 1]);
    }
  }

  /**
   In a consistent state the confirm button never reports PlayerNotFound:
   the disconnect handler has already cleared any receiver who left.
   */
  lemma ConsistentConfirmResolvesReceiver(cfg: Configuration, s: State, player: SteamId, now: int)
    requires Consistent(cfg, s)
    ensures HandleTransferRequest(cfg, s, player, now).1 != PlayerNotFound
  {
  }
}
