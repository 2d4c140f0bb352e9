# Forge.Wallet transfer core in Dafny

Forge.Wallet is a Rocket/Unturned plugin. It lets a player send part of their
"experience" to another player through a modal UI. A player opens the wallet
on a target in one of three ways: with `/wallet <name>`, by using the
configured consumable on them, or by clicking a `forge.transfer_wallet_<id>`
button. The player then types an amount into the `forge.inputAmount_wallet`
field and presses `forge.transfer_wallet` to confirm.

The model is a pure state machine. `Wallet.State` holds:

- the plugin's three fields: the single process-wide selected receiver
  `_receiverID` (a 64-bit Steam id, `Nil` = 0), the staged amount
  `_transferAmount`, and the map of each sender's last successful transfer
  time;
- the host's view of the players: each player's experience, and who is
  online.

Permissions and name lookup are read-only host data (`Wallet.Host`). Each
inbound handler is a function from the state to the next state and an
`Outcome` that names the branch taken. Every failure names the check that
fired.

Modules:

- `Wrappers` (numeric.dfy): the `Option` type the parsers return.
- `Numeric` (numeric.dfy): machine integer ranges, unchecked `uint`
  arithmetic, and the decimal parser that stands in for `uint.TryParse` and
  `ulong.TryParse`. The parser accumulates left to right and stops early on
  overflow. It is proved equal to the positional value of the digit string.
- `Config` (configuration.dfy): the configuration record and its defaults.
- `Wallet` (wallet.dfy): the state, the handlers and the confirm checks.
- `TransferProperties` (transfer_properties.dfy): properties of one handler
  call.
- `Trace` (trace.dfy): runs of timestamped events and the properties that
  hold along a whole run.
- `Scenarios` (scenarios.dfy): two concrete event sequences under the default
  configuration.

Behaviour of the code worth knowing before reading the properties:

- The plugin keeps one process-wide receiver/amount slot, not one per
  player. A second player's confirm uses the first player's selection and
  staged amount (`Scenarios.SharedSelectionSlot`).
- Opening or closing the UI touches only `_receiverID`. The staged amount
  is never reset and survives a close and a new selection.
- Only an unresolvable receiver or a success clears the selection on
  confirm. Self-transfer, out-of-range, insufficient experience and cooldown
  keep it.
- The disconnect handler checks no permission. The item handler tests the
  item id before the permission.
- A disconnect clears the slot only when the leaving player is the selected
  receiver (Plugin.cs line 64). The sender's own disconnect, or anyone
  else's, changes nothing. The cancellation notice goes to the first player
  found with the modal UI flag, who need not be the sender.
- A selection-button suffix is read by `ulong.TryParse`, so
  `forge.transfer_wallet_007` selects player 7
  (`TransferProperties.SelectionAcceptsLeadingZeros`).

## Model

| member | source | states |
|---|---|---|
| Numeric.WrapUInt32 | Forge.Wallet/Plugin.cs:292-293 | unchecked `uint` update: identity in range, minus 2^32 just above it, plus 2^32 just below zero |
| Numeric.AccumulateMatchesValue | Forge.Wallet/Plugin.cs:85 | stopping as soon as the running value passes the limit never changes the verdict: the result is the positional value exactly when every character is a digit and that value fits |
| Numeric.ParseUnsigned | Forge.Wallet/Plugin.cs:85-89 | accepts exactly the non-empty ASCII digit strings whose positional value is at most the limit, and returns that value |
| Numeric.ParseUInt32 | Forge.Wallet/Plugin.cs:85 | `uint.TryParse` succeeds iff the input is a non-empty digit string of value at most 2^32-1, and yields that value |
| Numeric.ParseUInt64 | Forge.Wallet/Plugin.cs:183 | `ulong.TryParse` of the button suffix succeeds iff it is a non-empty digit string of value at most 2^64-1, and yields that value |
| Numeric.FormatDecimal | Forge.Wallet/Plugin.cs:181-183 | the decimal spelling of an id or amount is a non-empty digit string whose positional value is the number |
| Numeric.ParseFormatRoundTrip | Forge.Wallet/Plugin.cs:181-183 | parsing the decimal spelling of any value within the limit gives that value back |
| Config.LoadDefaults | Forge.Wallet/Configuration.cs:14-22 | defaults: effect id 65535 and key -32768, wallet item 65535, amount range [10, 1000] (non-empty), cooldown 60 seconds (positive) |
| Wallet.FromSteamId | Forge.Wallet/Plugin.cs:189-194 | an id resolves to a player exactly when that player is online |
| Wallet.FromName | Forge.Wallet/Plugin.cs:343-350 | a name resolves only to an online player the host's directory maps it to |
| Wallet.OpenWalletUI | Forge.Wallet/Plugin.cs:148-166 | opening the UI sets only the selected receiver; staged amount, balances and cooldowns are untouched |
| Wallet.CloseWalletUI | Forge.Wallet/Plugin.cs:168-175 | closing the UI clears only the selection; the staged amount survives |
| Wallet.HasWalletPermission | Forge.Wallet/Plugin.cs:203-212 | a player is admitted iff the host granted them "forge.wallet" or "forge.wallet.use" |
| Wallet.OnPlayerDisconnected | Forge.Wallet/Plugin.cs:62-75 | the selection is cleared iff the disconnecting player is the selected receiver, and nothing else changes |
| Wallet.OnEffectTextCommitted | Forge.Wallet/Plugin.cs:77-101 | a staged amount is the parsed input and lies in [min, max]; every other outcome leaves the state unchanged |
| Wallet.HandlePlayerSelectionButton | Forge.Wallet/Plugin.cs:177-197 | an unprefixed button is Ignored; a suffix that does not parse as a 64-bit decimal is InvalidPlayerSelected; a parsed id selects that player iff online (changing only the receiver), else PlayerNotFound; every rejection changes nothing |
| Wallet.CanTransfer | Forge.Wallet/Plugin.cs:273-288 | allowed iff the sender has no record or at least `cooldownSeconds` have elapsed; when blocked the reported wait is cooldown minus elapsed, at least 1 and at most the cooldown for a non-negative elapsed time |
| Wallet.ExecuteTransfer | Forge.Wallet/Plugin.cs:290-301 | sender debited and receiver credited by the amount modulo 2^32, every other balance unchanged, sender's cooldown stamped with `now` |
| Wallet.HandleTransferRequest | Forge.Wallet/Plugin.cs:218-271 | a success moves the staged amount from the clicking player to the selected receiver and clears the selection; PlayerNotFound only clears the selection; every other failure changes nothing |
| Wallet.OnEffectButtonClicked | Forge.Wallet/Plugin.cs:103-123 | without permission nothing happens; the close button clears the selection; the confirm button runs the confirm checks; every other button goes to the selection-button handler |
| Wallet.OnPerformingAid | Forge.Wallet/Plugin.cs:125-142 | any item other than the wallet item is a no-op; with the wallet item and both players online the target is selected iff the instigator has permission, else NoPermission; only an open changes the state, and only the receiver |
| Wallet.WalletCommand | Forge.Wallet/Plugin.cs:330-353 | with permission, no argument reports Usage; otherwise the command selects the online player the first argument names, or reports PlayerNotFound; usage, lookup and permission failures change nothing |
| TransferProperties.StagingAcceptsExactlyInRange | Forge.Wallet/Plugin.cs:85-100 | staging succeeds iff the input is a digit string whose value lies in [min, max]; otherwise it reports InvalidAmount or OutOfRange, as appropriate, and the state is unchanged |
| TransferProperties.OtherFieldsIgnored | Forge.Wallet/Plugin.cs:81-83 | a text commit to any other field changes nothing |
| TransferProperties.HandlersFailClosed | Forge.Wallet/Plugin.cs:77-142 | without either wallet permission, text commits, clicks and item use change no state; commits and clicks report NoPermission for every field and button |
| TransferProperties.CommandFailsClosed | Forge.Wallet/Plugin.cs:331-335 | without either wallet permission `/wallet` reports NoPermission and changes no state |
| TransferProperties.PermissionIsEitherGrant | Forge.Wallet/Plugin.cs:203-212 | permission holds iff the player was granted "forge.wallet" or "forge.wallet.use" |
| TransferProperties.ConfirmValidationOrder | Forge.Wallet/Plugin.cs:218-261 | checks in order: no selection, receiver unresolvable, self, range, experience, cooldown; first failure wins; success iff all pass; failures leave balances, cooldowns and amount unchanged, and only the unresolvable receiver clears the selection |
| TransferProperties.SelfTransferRejected | Forge.Wallet/Plugin.cs:236-240 | confirming with oneself selected reports SelfTransfer and changes nothing |
| TransferProperties.SuccessDebitsSender | Forge.Wallet/Plugin.cs:252-293 | on success the sender had enough experience and loses exactly the amount without wrapping; all third parties are untouched |
| TransferProperties.SuccessConservesExperience | Forge.Wallet/Plugin.cs:290-293 | without receiver overflow, the receiver gains exactly the amount and the pair's sum is conserved |
| TransferProperties.ReceiverOverflowWraps | Forge.Wallet/Plugin.cs:293 | with receiver overflow the receiver ends lower than before and the pair's sum drops by 2^32 |
| TransferProperties.SuccessBookkeeping | Forge.Wallet/Plugin.cs:263-295 | after success the sender's last-transfer time is `now`, every other entry is unchanged, the selection is cleared and the staged amount kept |
| TransferProperties.CooldownBoundaryInclusive | Forge.Wallet/Plugin.cs:280 | exactly `cooldownSeconds` after the last success the gate opens; one second earlier it reports 1 second left |
| TransferProperties.NoSecondSuccessWithinCooldown | Forge.Wallet/Plugin.cs:273-288 | after a success at t0, no confirm by the same sender at any time before t0 + cooldown succeeds (even with the clock set back), and the gate reports cooldown - (now - t0) |
| TransferProperties.ReceiverDisconnectBlocksConfirm | Forge.Wallet/Plugin.cs:62-75 | after the selected receiver disconnects, the next confirm by anyone reports NoPlayerSelected and moves nothing |
| TransferProperties.OtherDisconnectIgnored | Forge.Wallet/Plugin.cs:64 | a disconnect by any other player leaves the state unchanged |
| TransferProperties.SelectionButtonSelects | Forge.Wallet/Plugin.cs:177-197 | `forge.transfer_wallet_<id>` selects an online id and keeps the staged amount; an offline id reports PlayerNotFound and changes nothing |
| TransferProperties.SelectionAcceptsLeadingZeros | Forge.Wallet/Plugin.cs:181-187 | the suffix "007" selects player 7 when that player is online, as `ulong.TryParse` accepts leading zeros |
| TransferProperties.OtherButtonsChangeNothing | Forge.Wallet/Plugin.cs:179-187 | an unprefixed name is ignored, a non-numeric or oversized suffix is rejected, and no such button changes the staged amount |
| TransferProperties.CloseButtonKeepsAmount | Forge.Wallet/Plugin.cs:111-113 | the close button clears the selection and nothing else |
| Trace.Step | Forge.Wallet/Plugin.cs:39-42 | a success only comes from a confirm click by its sender while the gate is open, and only a success writes the cooldown map, stamping the sender with the event time |
| Trace.Run | Forge.Wallet/Plugin.cs:35-42 | a run visits one state per event and each consecutive pair of states is one handler step |
| Trace.CooldownEntryPersists | Forge.Wallet/Plugin.cs:295 | with a monotone clock or a non-negative cooldown, after a sender's success their cooldown entry never drops below that success's time |
| Trace.SuccessesRespectCooldown | Forge.Wallet/Plugin.cs:273-295 | with a monotone clock or a non-negative cooldown, two successes by the same sender along any run are at least `cooldownSeconds` apart |
| Trace.InitConsistent | Forge.Wallet/Plugin.cs:27-29 | the initial state has nothing selected and nothing staged |
| Trace.StepKeepsConsistent | Forge.Wallet/Plugin.cs:62-101 | every handler keeps the staged amount at the initial zero or in range, and keeps the selection either Nil or an online player |
| Trace.RunKeepsConsistent | Forge.Wallet/Plugin.cs:62-101 | every state of a run from a consistent start is consistent |
| Trace.ConsistentConfirmResolvesReceiver | Forge.Wallet/Plugin.cs:228-234 | in a consistent state the confirm never reports PlayerNotFound |
| Scenarios.FirstTransferScenario | Forge.Wallet/Plugin.cs:218-301 | defaults, Alice 500 and Bob 0: `/wallet bob`, staging "200" and confirming at second 1000 leaves 300/200, clears the selection and stamps Alice's cooldown |
| Scenarios.CooldownRetryScenario | Forge.Wallet/Plugin.cs:273-288 | continuing, reselecting Bob and staging "50" 30 seconds later: the confirm reports Cooldown(30) and no experience moves |
| Scenarios.SharedSelectionSlot | Forge.Wallet/Plugin.cs:27-28 | with one global slot, a third player's confirm pays the receiver that another player selected, using that player's staged amount |

## Left out

- UI transport: widget flags, `sendUIEffect*` and `askEffectClearByID` are host calls. Only their effect on `_receiverID` is modelled.
- Chat messages, the translation table and `LogTransaction` are localisation and I/O. The `Outcome` names the message that would be sent.
- `DateTime.Now` becomes an integer `now` in seconds, so `TimeSpan.TotalSeconds` and the `(int)` cast in the cooldown message are exact. Sub-second truncation and `int` overflow of the reported wait are not modelled.
- The `catch` blocks depend on failures in host calls, which the model does not have.
- `GetSenderForReceiver` scans the host's client list for the first player with the modal flag. The model leaves it out and keeps only the handler's effect, clearing the slot.
- `Load`/`Unload` subscription is represented only by `Trace.Step` dispatching each event to its handler.
- `UnturnedPlayer.FromName`, `FromCSteamID` and `HasPermission` are host lookups. They become a name map restricted to online players, membership in the online set, and a map of granted permission names. Rocket's wildcard and group permissions are not modelled.
- .NET `TryParse` also accepts surrounding whitespace, a sign and culture-specific forms. The model accepts plain ASCII digit strings only.
- `StartsWith` with its default culture-sensitive comparison is modelled as an ordinal prefix test.
- Wallet.OnPerformingAid: the `null` checks on the two players become "both players are online", since the host hands the handler only live players. The `shouldAllow` flag is never written by the handler and is not modelled.
- Trace.SuccessesRespectCooldown: with both a clock that steps back and a negative configured cooldown the gap is not bounded; the lemma covers every run where either is excluded.
