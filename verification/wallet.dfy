/**
 The wallet plugin's state machine. The plugin keeps ONE process-wide
 selection slot (a receiver id and a staged amount) shared by all players,
 plus a map of each sender's last successful transfer time. The host's
 player directory (who is online, their experience) is part of the state;
 permissions and name lookup are read-only host data.
 Every inbound handler is a pure function returning the next state and an
 outcome naming the branch that was taken.
 */
module Wallet {
  import opened Wrappers
  import opened Numeric
  import opened Config

  /** A Steam id (`CSteamID`, a 64-bit value). */
  type SteamId = uint64

  /** `CSteamID.Nil`: the selection slot holds no receiver. */
  const Nil: SteamId := 0

  const AmountField := "forge.inputAmount_wallet"
  const CloseButton := "forge.close_wallet"
  const TransferButton := "forge.transfer_wallet"
  const SelectPrefix := "forge.transfer_wallet_"
  const WalletPermission := "forge.wallet"
  const WalletUsePermission := "forge.wallet.use"

  datatype State = State(
    receiver: SteamId,                   // `_receiverID`
    amount: uint32,                      // `_transferAmount`
    lastTransfer: map<SteamId, int>,     // `_lastTransferTime`, in seconds
    experience: map<SteamId, uint32>,    // each player's `Experience`
    online: set<SteamId>)                // players the host can resolve

  /** Read-only host services: granted permissions and display-name lookup. */
  datatype Host = Host(grants: map<SteamId, set<string>>, names: map<string, SteamId>)

  /** Which branch a handler took; each failure names the check that fired. */
  datatype Outcome =
    | Ignored                            // event not meant for the wallet
    | NoPermission
    | InvalidAmount
    | OutOfRange(min: uint32, max: uint32)
    | Staged(staged: uint32)
    | Usage                              // `/wallet` without an argument
    | InvalidPlayerSelected              // selection button with a non-numeric suffix
    | PlayerNotFound
    | Opened(selected: SteamId)
    | Closed
    | Cancelled                          // the selected receiver disconnected
    | NoPlayerSelected
    | SelfTransfer
    | NotEnoughExperience
    | Cooldown(remaining: int)
    | Success(sender: SteamId, to: SteamId, moved: uint32)

  /** Verdict of the cooldown gate. */
  datatype Gate = Allowed | Blocked(wait: int)

  /** The state before anything happened: nothing selected, nothing staged, no cooldowns. */
  function Init(experience: map<SteamId, uint32>, online: set<SteamId>): State {
    State(Nil, 0, map[], experience, online)
  }

  /** A player's experience; a player the directory does not know has none. */
  function Experience(s: State, p: SteamId): uint32 {
    if p in s.experience then s.experience[p] else 0
  }

  /** `FromCSteamID`: the id resolves only while that player is online. */
  function FromSteamId(s: State, id: SteamId): (r: Option<SteamId>)
    ensures r.Some? <==> id in s.online
    ensures r.Some? ==> r.value == id
  {
    if id in s.online then Some(id) else None
  }

  /** `FromName`: the host's name lookup, restricted to online players. */
  function FromName(host: Host, s: State, name: string): (r: Option<SteamId>)
    ensures r.Some? ==> r.value in s.online && name in host.names && host.names[name] == r.value
    ensures r.None? ==> name !in host.names || host.names[name] !in s.online
  {
    if name in host.names && host.names[name] in s.online then Some(host.names[name]) else None
  }

  function Grants(host: Host, p: SteamId): set<string> {
    if p in host.grants then host.grants[p] else {}
  }

  /** Either of the two wallet permissions admits the player. */
  function HasWalletPermission(host: Host, p: SteamId): (b: bool)
    ensures b <==> p in host.grants && (WalletPermission in host.grants[p] || WalletUsePermission in host.grants[p])
  {
    WalletPermission in Grants(host, p) || WalletUsePermission in Grants(host, p)
  }

  /** State effect of showing the wallet UI: the slot now names `receiver`. */
  function OpenWalletUI(s: State, receiver: SteamId): (t: State)
    ensures t.receiver == receiver
    ensures t.amount == s.amount && t.lastTransfer == s.lastTransfer
    ensures t.experience == s.experience && t.online == s.online
  {
    s.(receiver := receiver)
  }

  /** State effect of closing the wallet UI: the slot is cleared, the staged amount stays. */
  function CloseWalletUI(s: State): (t: State)
    ensures t.receiver == Nil
    ensures t.amount == s.amount && t.lastTransfer == s.lastTransfer
    ensures t.experience == s.experience && t.online == s.online
  {
    s.(receiver := Nil)
  }

  /** A disconnect matters only when it is the selected receiver who leaves. */
  function OnPlayerDisconnected(s: State, player: SteamId): (r: (State, Outcome))
    ensures r.0.receiver == if player == s.receiver then Nil else s.receiver
    ensures r.0 == s.(receiver := r.0.receiver)
    ensures r.1 == Cancelled <==> player == s.receiver
  {
    if player == s.receiver then (s.(receiver := Nil), Cancelled) else (s, Ignored)
  }

  /** The amount text field: parse, range-check, then stage. */
  function OnEffectTextCommitted(cfg: Configuration, host: Host, s: State, player: SteamId,
                                 field: string, input: string): (r: (State, Outcome))
    ensures r.1.Staged? ==> HasWalletPermission(host, player) && field == AmountField
    ensures r.1.Staged? ==> r.0 == s.(amount := r.1.staged)
    ensures r.1.Staged? ==> ParseUInt32(input) == Some(r.1.staged)
    ensures r.1.Staged? ==> cfg.minTransferAmount <= r.1.staged <= cfg.maxTransferAmount
    ensures !r.1.Staged? ==> r.0 == s
  {
    if !HasWalletPermission(host, player) then (s, NoPermission)
    else if field != AmountField then (s, Ignored)
    else
      match ParseUInt32(input)
      case None => (s, InvalidAmount)
      case Some(a) =>
        if a < cfg.minTransferAmount || a > cfg.maxTransferAmount
        then (s, OutOfRange(cfg.minTransferAmount, cfg.maxTransferAmount))
        else (s.(amount := a), Staged(a))
  }

  /** A `forge.transfer_wallet_<id>` button selects the online player with that id. */
  function HandlePlayerSelectionButton(s: State, button: string): (r: (State, Outcome))
    ensures r.1.Opened? ==> r.0 == s.(receiver := r.1.selected) && r.1.selected in s.online
    ensures r.1.Opened? ==> SelectPrefix <= button && ParseUInt64(button[|SelectPrefix|..]) == Some(r.1.selected)
    ensures !r.1.Opened? ==> r.0 == s
    ensures !(SelectPrefix <= button) ==> r == (s, Ignored)
    ensures SelectPrefix <= button && ParseUInt64(button[|SelectPrefix|..]).None? ==>
              r == (s, InvalidPlayerSelected)
    ensures SelectPrefix <= button && ParseUInt64(button[|SelectPrefix|..]).Some? ==>
              var id := ParseUInt64(button[|SelectPrefix|..]).value;
              r == if id in s.online then (s.(receiver := id), Opened(id)) else (s, PlayerNotFound)
  {
    if !(SelectPrefix <= button) then (s, Ignored)
    else
      match ParseUInt64(button[|SelectPrefix|..])
      case None => (s, InvalidPlayerSelected)
      case Some(id) =>
        match FromSteamId(s, id)
        case None => (s, PlayerNotFound)
        case Some(receiver) => (OpenWalletUI(s, receiver), Opened(receiver))
  }

  /**
   The cooldown gate: blocked while fewer than `cooldownSeconds` have passed
   since the sender's last success; the boundary itself is allowed.
   */
  function CanTransfer(cfg: Configuration, s: State, player: SteamId, now: int): (g: Gate)
    ensures g == Allowed <==>
            player !in s.lastTransfer || now - s.lastTransfer[player] >= cfg.cooldownSeconds
    ensures g.Blocked? ==> g.wait == cfg.cooldownSeconds - (now - s.lastTransfer[player])
    ensures g.Blocked? ==> 1 <= g.wait
    ensures g.Blocked? && now >= s.lastTransfer[player] ==> g.wait <= cfg.cooldownSeconds
  {
    if player in s.lastTransfer then
      var elapsed := now - s.lastTransfer[player];
      if elapsed < cfg.cooldownSeconds then Blocked(cfg.cooldownSeconds - elapsed) else Allowed
    else
      Allowed
  }

  /**
   Debit the sender, credit the receiver (both as unchecked `uint` updates,
   the credit reading the balance after the debit) and stamp the sender's
   cooldown.
   */
  function ExecuteTransfer(s: State, sender: SteamId, receiver: SteamId, amount: uint32, now: int): (t: State)
    ensures sender != receiver ==> Experience(t, sender) == WrapUInt32(Experience(s, sender) - amount)
    ensures sender != receiver ==> Experience(t, receiver) == WrapUInt32(Experience(s, receiver) + amount)
    ensures forall p :: p != sender && p != receiver ==> Experience(t, p) == Experience(s, p)
    ensures t.lastTransfer == s.lastTransfer[sender := now]
    ensures t.receiver == s.receiver && t.amount == s.amount && t.online == s.online
  {
    var debited := s.experience[sender := WrapUInt32(Experience(s, sender) - amount)];
    var afterDebit := s.(experience := debited);
    var credited := debited[receiver := WrapUInt32(Experience(afterDebit, receiver) + amount)];
    s.(experience := credited, lastTransfer := s.lastTransfer[sender := now])
  }

  /** The confirm button: six checks in a fixed order, the first failure wins. */
  function HandleTransferRequest(cfg: Configuration, s: State, player: SteamId, now: int): (r: (State, Outcome))
    ensures r.1.Success? ==> r.1.sender == player && r.1.to == s.receiver && r.1.moved == s.amount
    ensures r.1.Success? ==> r.0 == CloseWalletUI(ExecuteTransfer(s, player, s.receiver, s.amount, now))
    ensures r.1 == PlayerNotFound ==> r.0 == CloseWalletUI(s)
    ensures !r.1.Success? && r.1 != PlayerNotFound ==> r.0 == s
  {
    if s.receiver == Nil then (s, NoPlayerSelected)
    else
      match FromSteamId(s, s.receiver)
      case None => (CloseWalletUI(s), PlayerNotFound)
      case Some(receiver) =>
        if player == receiver then (s, SelfTransfer)
        else if s.amount < cfg.minTransferAmount || s.amount > cfg.maxTransferAmount
        then (s, OutOfRange(cfg.minTransferAmount, cfg.maxTransferAmount))
        else if Experience(s, player) < s.amount then (s, NotEnoughExperience)
        else
          match CanTransfer(cfg, s, player, now)
          case Blocked(wait) => (s, Cooldown(wait))
          case Allowed =>
            (CloseWalletUI(ExecuteTransfer(s, player, receiver, s.amount, now)),
             Success(player, receiver, s.amount))
  }

  /** Button dispatch: close, confirm, or a player-selection button. */
  function OnEffectButtonClicked(cfg: Configuration, host: Host, s: State, player: SteamId,
                                 button: string, now: int): (r: (State, Outcome))
    ensures !HasWalletPermission(host, player) ==> r == (s, NoPermission)
    ensures HasWalletPermission(host, player) && button == CloseButton ==> r == (CloseWalletUI(s), Closed)
    ensures HasWalletPermission(host, player) && button == TransferButton ==>
            r == HandleTransferRequest(cfg, s, player, now)
    ensures HasWalletPermission(host, player) && button != CloseButton && button != TransferButton ==>
            r == HandlePlayerSelectionButton(s, button)
  {
    if !HasWalletPermission(host, player) then (s, NoPermission)
    else if button == CloseButton then (CloseWalletUI(s), Closed)
    else if button == TransferButton then HandleTransferRequest(cfg, s, player, now)
    else HandlePlayerSelectionButton(s, button)
  }

  /**
   Using a consumable: only the configured wallet item reacts; both players
   must resolve, and the instigator needs the wallet permission.
   */
  function OnPerformingAid(cfg: Configuration, host: Host, s: State,
                           instigator: SteamId, target: SteamId, itemId: uint16): (r: (State, Outcome))
    ensures itemId != cfg.walletItemId ==> r == (s, Ignored)
    ensures r.1.Opened? ==> r.0 == s.(receiver := target) && r.1.selected == target
    ensures r.1.Opened? ==> HasWalletPermission(host, instigator) && instigator in s.online && target in s.online
    ensures !r.1.Opened? ==> r.0 == s
    ensures itemId == cfg.walletItemId && instigator in s.online && target in s.online ==>
              r == if HasWalletPermission(host, instigator) then (s.(receiver := target), Opened(target))
                   else (s, NoPermission)
  {
    if itemId != cfg.walletItemId then (s, Ignored)
    else if instigator !in s.online || target !in s.online then (s, Ignored)
    else if !HasWalletPermission(host, instigator) then (s, NoPermission)
    else (OpenWalletUI(s, target), Opened(target))
  }

  /** `/wallet <player>`: open the wallet on the named online player. */
  function WalletCommand(host: Host, s: State, player: SteamId, args: seq<string>): (r: (State, Outcome))
    ensures r.1.Opened? ==> r.0 == s.(receiver := r.1.selected) && r.1.selected in s.online
    ensures r.1.Opened? ==> |args| > 0 && args[0] in host.names && host.names[args[0]] == r.1.selected
    ensures r.1.Opened? ==> HasWalletPermission(host, player)
    ensures !r.1.Opened? ==> r.0 == s
    ensures HasWalletPermission(host, player) && |args| == 0 ==> r == (s, Usage)
    ensures HasWalletPermission(host, player) && |args| > 0 ==>
              r == if args[0] in host.names && host.names[args[0]] in s.online
                   then (s.(receiver := host.names[args[0]]), Opened(host.names[args[0]]))
                   else (s, PlayerNotFound)
  {
    if !HasWalletPermission(host, player) then (s, NoPermission)
    else if |args| == 0 then (s, Usage)
    else
      match FromName(host, s, args[0])
      case None => (s, PlayerNotFound)
      case Some(target) => (OpenWalletUI(s, target), Opened(target))
  }
}
