/**
 Concrete event sequences under the default configuration. The first is the intended
 happy path followed by a retry inside the cooldown; the second shows what
 the single process-wide selection slot does when a second player confirms.
 */
module Scenarios {
  import opened Wrappers
  import opened Numeric
  import opened Config
  import opened Wallet

  const Alice: SteamId := 1
  const Bob: SteamId := 2
  const Carol: SteamId := 3

  function Directory(): Host {
    Host(map[Alice := {WalletPermission}, Bob := {WalletUsePermission}, Carol := {WalletPermission}],
         map["bob" := Bob])
  }

  lemma LiteralValues()
    ensures ParseUInt32("200") == Some(200)
    ensures ParseUInt32("50") == Some(50)
    ensures ParseUInt64("2") == Some(2)
  {
    assert "200"[..2] == "20" && "20"[..1] == "2" && "2"[..0] == [];
    assert "50"[..1] == "5" && "5"[..0] == [];
  }

  /** Alice and Bob online with 500 and 0 experience; nothing selected or staged. */
  function Start(): State {
    Init(map[Alice := 500, Bob := 0], {Alice, Bob})
  }

  /** The state right after Alice's transfer of 200 to Bob at second 1000. */
  function AfterFirstTransfer(): State {
    State(Nil, 200, map[Alice := 1000], map[Alice := 300, Bob := 200], {Alice, Bob})
  }

  /**
   Alice (500) opens the wallet on Bob (0) with `/wallet bob`, stages "200"
   and confirms at second 1000: Alice has 300, Bob 200, and Alice's
   cooldown starts.
   */
  lemma FirstTransferScenario()
    ensures var cfg := LoadDefaults();
            var (s1, o1) := WalletCommand(Directory(), Start(), Alice, ["bob"]);
            var (s2, o2) := OnEffectTextCommitted(cfg, Directory(), s1, Alice, AmountField, "200");
            var (s3, o3) := OnEffectButtonClicked(cfg, Directory(), s2, Alice, TransferButton, 1000);
            && [o1, o2, o3] == [Opened(Bob), Staged(200), Success(Alice, Bob, 200)]
            && s3 == AfterFirstTransfer()
  {
    LiteralValues();
  }

  /**
   Continuing: Alice selects Bob again, stages "50" and confirms at second
   1030; the cooldown reports 30 seconds left and no experience moves.
   */
  lemma CooldownRetryScenario()
    ensures var cfg := LoadDefaults();
            var (s4, o4) := OnEffectButtonClicked(cfg, Directory(), AfterFirstTransfer(), Alice, SelectPrefix + "2", 1010);
            var (s5, o5) := OnEffectTextCommitted(cfg, Directory(), s4, Alice, AmountField, "50");
            var (s6, o6) := OnEffectButtonClicked(cfg, Directory(), s5, Alice, TransferButton, 1030);
            && [o4, o5, o6] == [Opened(Bob), Staged(50), Cooldown(30)]
            && s6 == s5 && s6.experience == AfterFirstTransfer().experience
  {
    LiteralValues();
    assert (SelectPrefix + "2")[|SelectPrefix|..] == "2";
  }

  /**
   The selection slot is global: after Alice selects Bob and stages 200,
   Carol's confirm sends Carol's experience to Bob using Alice's selection
   and amount.
   */
  lemma SharedSelectionSlot()
    ensures var cfg := LoadDefaults();
            var s0 := Init(map[Alice := 500, Bob := 0, Carol := 400], {Alice, Bob, Carol});
            var (s1, o1) := WalletCommand(Directory(), s0, Alice, ["bob"]);
            var (s2, o2) := OnEffectTextCommitted(cfg, Directory(), s1, Alice, AmountField, "200");
            var (s3, o3) := OnEffectButtonClicked(cfg, Directory(), s2, Carol, TransferButton, 1000);
            && o3 == Success(Carol, Bob, 200)
            && Experience(s3, Carol) == 200 && Experience(s3, Alice) == 500 && Experience(s3, Bob) == 200
  {
    LiteralValues();
  }
}
