/**
 Properties of single handler calls: what staging accepts, how the confirm
 checks are ordered, what a successful transfer moves, how the cooldown
 gate and a disconnect block further transfers, and that every handler
 fails closed without the wallet permission.
 */
module TransferProperties {
  import opened Numeric
  import opened Config
  import opened Wallet

  /** The staged amount lies in the configured range. */
  predicate InRange(cfg: Configuration, a: int) {
    cfg.minTransferAmount <= a <= cfg.maxTransferAmount
  }

  /**
   Staging accepts exactly the non-empty digit strings whose value lies in
   [min, max]; an unparsable or too-large input is InvalidAmount, a parsable
   one outside the range is OutOfRange, and both leave the state unchanged.
   */
  lemma StagingAcceptsExactlyInRange(cfg: Configuration, host: Host, s: State, player: SteamId, input: string)
    requires HasWalletPermission(host, player)
    ensures var (t, o) := OnEffectTextCommitted(cfg, host, s, player, AmountField, input);
            && (o.Staged? <==> IsUnsignedLiteral(input) && InRange(cfg, DecimalValue(input)))
            && (o.Staged? ==> t == s.(amount := DecimalValue(input)))
            && (!IsUnsignedLiteral(input) || DecimalValue(input) > UInt32Max ==> o == InvalidAmount && t == s)
            && (IsUnsignedLiteral(input) && DecimalValue(input) <= UInt32Max && !InRange(cfg, DecimalValue(input)) ==>
                  o == OutOfRange(cfg.minTransferAmount, cfg.maxTransferAmount) && t == s)
  {
  }

  /** A text commit on any other field does nothing. */
  lemma OtherFieldsIgnored(cfg: Configuration, host: Host, s: State, player: SteamId, field: string, input: string)
    requires field != AmountField
    ensures var (t, o) := OnEffectTextCommitted(cfg, host, s, player, field, input);
            t == s && (o == Ignored || o == NoPermission)
  {
  }

  /**
   Without "forge.wallet" or "forge.wallet.use" no UI event changes the
   state; text commits and button clicks report NoPermission, whatever the
   field or button.
   */
  lemma HandlersFailClosed(cfg: Configuration, host: Host, s: State, player: SteamId,
                           field: string, input: string, button: string, now: int,
                           target: SteamId, itemId: uint16)
    requires WalletPermission !in Grants(host, player) && WalletUsePermission !in Grants(host, player)
    ensures OnEffectTextCommitted(cfg, host, s, player, field, input) == (s, NoPermission)
    ensures OnEffectButtonClicked(cfg, host, s, player, button, now) == (s, NoPermission)
    ensures OnPerformingAid(cfg, host, s, player, target, itemId).0 == s
  {
  }

  /** Without either wallet permission `/wallet` reports NoPermission and changes nothing. */
  lemma CommandFailsClosed(host: Host, s: State, player: SteamId, args: seq<string>)
    requires WalletPermission !in Grants(host, player) && WalletUsePermission !in Grants(host, player)
    ensures WalletCommand(host, s, player, args) == (s, NoPermission)
  {
  }

  /** Permission is granted by either wallet permission and by nothing else. */
  lemma PermissionIsEitherGrant(host: Host, p: SteamId)
    ensures HasWalletPermission(host, p) <==>
            p in host.grants && (WalletPermission in host.grants[p] || WalletUsePermission in host.grants[p])
  {
  }

  /** All six confirm checks pass. */
  predicate ConfirmChecksPass(cfg: Configuration, s: State, player: SteamId, now: int) {
    && s.receiver != Nil
    && s.receiver in s.online
    && player != s.receiver
    && InRange(cfg, s.amount)
    && Experience(s, player) >= s.amount
    && (player !in s.lastTransfer || now - s.lastTransfer[player] >= cfg.cooldownSeconds)
  }

  /**
   The confirm checks run in a fixed order and the first failure wins.
   Every failure leaves balances, cooldowns and the staged amount alone, and
   only the unresolvable receiver clears the selection.
   */
  lemma ConfirmValidationOrder(cfg: Configuration, s: State, player: SteamId, now: int)
    ensures var (t, o) := HandleTransferRequest(cfg, s, player, now);
            && (s.receiver == Nil ==> o == NoPlayerSelected)
            && (s.receiver != Nil && s.receiver !in s.online ==> o == PlayerNotFound && t.receiver == Nil)
            && (s.receiver != Nil && s.receiver in s.online && player == s.receiver ==> o == SelfTransfer)
            && (s.receiver != Nil && s.receiver in s.online && player != s.receiver && !InRange(cfg, s.amount) ==>
                  o == OutOfRange(cfg.minTransferAmount, cfg.maxTransferAmount))
            && (s.receiver != Nil && s.receiver in s.online && player != s.receiver && InRange(cfg, s.amount) &&
                Experience(s, player) < s.amount ==>
                  o == NotEnoughExperience)
            && (s.receiver != Nil && s.receiver in s.online && player != s.receiver && InRange(cfg, s.amount) &&
                Experience(s, player) >= s.amount && player in s.lastTransfer &&
                now - s.lastTransfer[player] < cfg.cooldownSeconds ==>
                  o == Cooldown(cfg.cooldownSeconds - (now - s.lastTransfer[player])))
            && (o.Success? <==> ConfirmChecksPass(cfg, s, player, now))
            && (!o.Success? ==> t.experience == s.experience && t.lastTransfer == s.lastTransfer &&
                                t.amount == s.amount && t.online == s.online)
            && (!o.Success? && o != PlayerNotFound ==> t == s)
  {
  }

  /** Confirming with oneself as receiver always fails and moves nothing. */
  lemma SelfTransferRejected(cfg: Configuration, s: State, player: SteamId, now: int)
    requires s.receiver == player && player != Nil && player in s.online
    ensures HandleTransferRequest(cfg, s, player, now) == (s, SelfTransfer)
  {
  }

  /**
   A success debits the sender by exactly the staged amount (the check on
   the sender's experience rules out an underflow), leaves every third
   player alone, and credits the receiver modulo 2^32.
   */
  lemma SuccessDebitsSender(cfg: Configuration, s: State, player: SteamId, now: int)
    requires HandleTransferRequest(cfg, s, player, now).1.Success?
    ensures var t := HandleTransferRequest(cfg, s, player, now).0;
            && Experience(s, player) >= s.amount
            && Experience(t, player) == Experience(s, player) - s.amount
            && Experience(t, s.receiver) == WrapUInt32(Experience(s, s.receiver) + s.amount)
            && forall p :: p != player && p != s.receiver ==> Experience(t, p) == Experience(s, p)
  {
  }

  /**
   When the receiver's balance does not overflow, a success conserves the
   sum of the two balances: the receiver gains exactly what the sender loses.
   */
  lemma SuccessConservesExperience(cfg: Configuration, s: State, player: SteamId, now: int)
    requires HandleTransferRequest(cfg, s, player, now).1.Success?
    requires Experience(s, s.receiver) + s.amount <= UInt32Max
    ensures var t := HandleTransferRequest(cfg, s, player, now).0;
            && Experience(t, s.receiver) == Experience(s, s.receiver) + s.amount
            && Experience(t, player) + Experience(t, s.receiver) == Experience(s, player) + Experience(s, s.receiver)
  {
    SuccessDebitsSender(cfg, s, player, now);
  }

  /**
   The unchecked credit: when the receiver's balance would pass 2^32 - 1 it
   wraps, and the pair's total drops by exactly 2^32.
   */
  lemma ReceiverOverflowWraps(cfg: Configuration, s: State, player: SteamId, now: int)
    requires HandleTransferRequest(cfg, s, player, now).1.Success?
    requires Experience(s, s.receiver) + s.amount > UInt32Max
    ensures var t := HandleTransferRequest(cfg, s, player, now).0;
            && Experience(t, s.receiver) < Experience(s, s.receiver)
            && Experience(t, player) + Experience(t, s.receiver) + TwoTo32 == Experience(s, player) + Experience(s, s.receiver)
  {
    SuccessDebitsSender(cfg, s, player, now);
  }

  /**
   After a success the sender's cooldown entry is `now`, every other entry
   is unchanged, the selection is cleared and the staged amount is kept.
   */
  lemma SuccessBookkeeping(cfg: Configuration, s: State, player: SteamId, now: int)
    requires HandleTransferRequest(cfg, s, player, now).1.Success?
    ensures var t := HandleTransferRequest(cfg, s, player, now).0;
            && player in t.lastTransfer && t.lastTransfer[player] == now
            && t.lastTransfer.Keys == s.lastTransfer.Keys + {player}
            && (forall p :: p in s.lastTransfer && p != player ==> t.lastTransfer[p] == s.lastTransfer[p])
            && t.receiver == Nil && t.amount == s.amount && t.online == s.online
  {
  }

  /**
   The gate's boundary is inclusive: exactly `cooldownSeconds` after the
   last success the sender may transfer again, one second earlier not.
   */
  lemma CooldownBoundaryInclusive(cfg: Configuration, s: State, player: SteamId)
    requires player in s.lastTransfer
    ensures CanTransfer(cfg, s, player, s.lastTransfer[player] + cfg.cooldownSeconds) == Allowed
    ensures CanTransfer(cfg, s, player, s.lastTransfer[player] + cfg.cooldownSeconds - 1) == Blocked(1)
  {
  }

  /**
   Once a transfer succeeded at `t0`, no confirm by the same sender from the
   resulting state (or any state that kept its cooldown map) succeeds at any
   time before `t0 + cooldownSeconds`, including a clock set back before
   `t0`; it is reported as Cooldown or an earlier failure.
   */
  lemma NoSecondSuccessWithinCooldown(cfg: Configuration, s: State, player: SteamId, t0: int, u: State, now: int)
    requires HandleTransferRequest(cfg, s, player, t0).1.Success?
    requires u.lastTransfer == HandleTransferRequest(cfg, s, player, t0).0.lastTransfer
    requires now < t0 + cfg.cooldownSeconds
    ensures !HandleTransferRequest(cfg, u, player, now).1.Success?
    ensures CanTransfer(cfg, u, player, now) == Blocked(cfg.cooldownSeconds - (now - t0))
  {
    SuccessBookkeeping(cfg, s, player, t0);
  }

  /**
   When the selected receiver disconnects the slot is cleared, so the next
   confirm, by anyone, reports NoPlayerSelected and moves nothing.
   */
  lemma ReceiverDisconnectBlocksConfirm(cfg: Configuration, s: State, anyone: SteamId, now: int)
    ensures var (t, o) := OnPlayerDisconnected(s, s.receiver);
            && t.receiver == Nil
            && t.amount == s.amount && t.experience == s.experience && t.lastTransfer == s.lastTransfer
            && HandleTransferRequest(cfg, t, anyone, now) == (t, NoPlayerSelected)
  {
  }

  /** A disconnect by anyone but the selected receiver leaves the state as it was. */
  lemma OtherDisconnectIgnored(s: State, player: SteamId)
    requires player != s.receiver
    ensures OnPlayerDisconnected(s, player) == (s, Ignored)
  {
  }

  /** The suffix after the selection prefix is the text that gets parsed. */
  lemma SelectionButtonShape(x: string)
    ensures SelectPrefix <= SelectPrefix + x
    ensures (SelectPrefix + x)[|SelectPrefix|..] == x
    ensures SelectPrefix + x != CloseButton && SelectPrefix + x != TransferButton
  {
    assert |SelectPrefix + x| > |TransferButton|;
    assert (SelectPrefix + x)[6] != CloseButton[6];
  }

  /**
   Clicking `forge.transfer_wallet_<id>` for an online player selects that
   id and keeps the staged amount; for an offline id it reports
   PlayerNotFound and changes nothing.
   */
  lemma SelectionButtonSelects(cfg: Configuration, host: Host, s: State, player: SteamId, id: SteamId, now: int)
    requires HasWalletPermission(host, player)
    ensures id in s.online ==>
              OnEffectButtonClicked(cfg, host, s, player, SelectPrefix + FormatDecimal(id), now) ==
              (s.(receiver := id), Opened(id))
    ensures id !in s.online ==>
              OnEffectButtonClicked(cfg, host, s, player, SelectPrefix + FormatDecimal(id), now) ==
              (s, PlayerNotFound)
  {
    SelectionButtonShape(FormatDecimal(id));
  }

  /**
   Every other button name leaves the state alone: an unprefixed name is
   ignored and a non-numeric or oversized suffix is rejected.
   */
  lemma OtherButtonsChangeNothing(cfg: Configuration, host: Host, s: State, player: SteamId, button: string, now: int)
    requires HasWalletPermission(host, player)
    requires button != CloseButton && button != TransferButton
    ensures !(SelectPrefix <= button) ==> OnEffectButtonClicked(cfg, host, s, player, button, now) == (s, Ignored)
    ensures SelectPrefix <= button && ParseUInt64(button[|SelectPrefix|..]).None? ==>
              OnEffectButtonClicked(cfg, host, s, player, button, now) == (s, InvalidPlayerSelected)
    ensures OnEffectButtonClicked(cfg, host, s, player, button, now).0.amount == s.amount
  {
  }

  /**
   `ulong.TryParse` accepts leading zeros, so `forge.transfer_wallet_007`
   selects player 7 when that player is online.
   */
  lemma SelectionAcceptsLeadingZeros(cfg: Configuration, host: Host, s: State, player: SteamId, now: int)
    requires HasWalletPermission(host, player) && 7 in s.online
    ensures OnEffectButtonClicked(cfg, host, s, player, SelectPrefix + "007", now) == (s.(receiver := 7), Opened(7))
  {
    SelectionButtonShape("007");
    assert "007"[..2] == "00" && "00"[..1] == "0" && "0"[..0] == [];
  }

  /** The close button clears only the selection; the staged amount survives. */
  lemma CloseButtonKeepsAmount(cfg: Configuration, host: Host, s: State, player: SteamId, now: int)
    requires HasWalletPermission(host, player)
    ensures var (t, o) := OnEffectButtonClicked(cfg, host, s, player, CloseButton, now);
            o == Closed && t.receiver == Nil && t == s.(receiver := Nil)
  {
  }
}
