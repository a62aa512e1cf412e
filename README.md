# V0 Carries bot: reaction roles, tickets and ticket ordering in Dafny

This project models the rule-bearing core of the V0 Carries Discord bot
(`index.js`), leaving out the Discord and Express glue around it.

- **Reaction-role store** (`ReactionRoles`). The dashboard keeps an in-memory
  map `rr` from a published message id to its channel, its emoji/role
  pairs and its embed fields. Every mutation is written through to
  `reactionroles.json`, modelled as a `saved` snapshot.
  - The create, update and delete routes are methods of the `RoleStore`
    class. Their contracts give the reply and the whole new map on every
    path, including the rejections.
  - The form's `emoji_<i>` / `role_<i>` fields become pairs through the
    same filter/map pipeline as the source.
  - The reaction listeners add or remove the role of the first matching
    pair from a `Member`'s role set.
- **Guild state** (`Guilds`, `Tickets`). A guild is a `Guild` object that
  holds:
  - its channels, each with an id, a name, a kind, a parent, an
    overwrite map and a position;
  - its roles;
  - the channel deletions it has scheduled.

  Each button handler is a method that returns the kind of reply the user
  sees and changes the guild as the source does. The handlers cover
  opening slayer and support tickets, claim, unclaim, close, close
  confirmation and verification.
- **Entitlement** (`Entitlement`). These are the rules that read names:
  - which roles may see and claim a slayer ticket (`/tier\s*(\d+)/i` on
    role names, compared with the ticket's tier);
  - how the slayer and the tier are read back from a ticket channel's name
    (`split("-t")` and `/\d/`);
  - the tier `sortTickets` uses (`/-t(\d)/`).
- **Ordering** (`TicketOrder`). `sortTickets` sorts a category's ticket
  channels stably by descending tier, then gives them positions
  0, 1, 2, … in that order.
- **Routing** (`Tags`). This module decides which listeners a button's
  custom id reaches, and with what arguments.
- **JavaScript built-ins** (`Text`, `Seqs`). These model the behaviour the
  code relies on: `split`, `includes`, `indexOf`, `replace` with a string
  pattern, `parseInt` (with and without radix 16), `find` and `filter`.
  Case folding is ASCII only.

## Kept as written

Several behaviours are kept exactly as the code has them, even where they
look unintended:

- Channel names are read with one tier digit, but role names with many
  (`Entitlement.MultiDigitTier`). A ticket opened at tier 10 admits only
  roles of tier 10 and above. Its name claims and sorts as tier 1.
- A claim revokes send permission from every other overwrite that had it,
  including the ticket owner's, and denies it to them explicitly
  (`Guilds.ClaimExclusive`). The guild's own overwrite does not deny
  sending, so the explicit deny is what keeps the owner from writing in
  their own ticket once it is claimed.
- An unclaim grants send permission to the entitled roles only. Anyone may
  press it.
- The code does not reply in several cases:
  - unknown button ids;
  - `claim_`/`unclaim_`/`close_` for a channel that does not exist;
  - a claim on a channel whose name has no tier digit.

  These interactions get no acknowledgement at all (`NoReply`, and
  `Tags.Handlers` returns no action).
- A `close_<id>` button schedules a deletion without asking for
  confirmation. `confirm_close` deletes at once, with no delay.
- The support-ticket close button `close_ticket` also has the `close_`
  prefix. The slayer listener therefore sees it too, with channel id
  `"ticket"` (`Tags.CloseButtonRoundTrip`).
- A slayer ticket opened without a tier gets the tier text `"undefined"`,
  which is not a number. No role then sees the ticket
  (`Tickets.NoTierNoRoles`).

## Model

| member | source | states |
|---|---|---|
| Text.IndexOfFrom | index.js:585-586 | `indexOf`/`includes`: finds the first occurrence at or after the start, and `None` means there is none |
| Text.SplitJoin | index.js:170 | `split(sep)` cuts a string into pieces that `join(sep)` puts back together exactly |
| Text.SplitPiecesFree | index.js:567 | no piece of a split contains the separator |
| Text.ParseWholeNumeral | index.js:603-604 | `parseInt` of a whole decimal or hexadecimal numeral is the numeral's value |
| Text.HexNumeralValue | index.js:180 | a number below 16^w, written with w hexadecimal digits, reads back as itself |
| Text.Capitalize | index.js:768-770 | `capitalize` keeps the length, upper-cases only the first character and leaves the lower-case form unchanged |
| Seqs.FirstIndex | index.js:244 | `find` returns the first element that passes the test; `None` exactly when none passes |
| Seqs.FilterBefore | index.js:753-755 | `filter` keeps the relative order of what it keeps and adds no new order |
| ReactionRoles.Field | index.js:167 | a form field is present exactly when the form has that key, and its value is that of the first entry with the key |
| ReactionRoles.PairAt | index.js:171-172 | index `i` yields a pair exactly when both `emoji_i` and `role_i` are non-empty; both parts of the pair are non-empty |
| ReactionRoles.PairsFrom | index.js:168-172 | the pipeline yields at most one pair per key, and each pair has non-empty parts |
| ReactionRoles.PairsFromAppend | index.js:168-172 | the pairs follow the order of the keys: the pairs of two runs of keys are the pairs of the first run followed by those of the second |
| ReactionRoles.PairsFromOne | index.js:169-172 | one key contributes exactly its index's pair when it is an `emoji_` key whose emoji and role fields are both non-empty, and nothing otherwise |
| ReactionRoles.ExtractPairsMembers | index.js:168-172 | a pair is extracted if and only if some `emoji_…` key names an index whose emoji and role fields are non-empty and form that pair |
| ReactionRoles.ResolveRole | index.js:244 | the role of the first pair with the reaction's emoji; `None` exactly when no pair has it |
| ReactionRoles.EmbedColorRoundTrip | index.js:180 | a colour `#` + six hex digits renders as the number it spells |
| ReactionRoles.EmbedColorDefault | index.js:180 | a missing or empty colour renders as 0xFFD700 |
| ReactionRoles.RoleStore.Load | index.js:115-118 | the store starts as the saved snapshot, with the file and the map in step |
| ReactionRoles.RoleStore.Create | index.js:166-196 | no pairs: rejected, map unchanged; a failed publish: error, map unchanged; otherwise only the new message's key is set, to the channel, pairs and embed fields |
| ReactionRoles.RoleStore.Update | index.js:199-224 | unknown id: rejected, map unchanged; a failed edit: no response, map unchanged; otherwise only that record's pairs and embed change, keeping its channel |
| ReactionRoles.RoleStore.Delete | index.js:226-240 | unknown id: rejected, map unchanged; a failed delete: error, map unchanged; otherwise exactly that key is removed |
| ReactionRoles.RoleStore.ReactionRole | index.js:243-245 | bots and untracked messages get no role; otherwise the role is the first matching pair's |
| ReactionRoles.RoleStore.OnReactionAdd | index.js:242-248 | the resolved role is added to the member's roles; nothing changes when there is none |
| ReactionRoles.RoleStore.OnReactionRemove | index.js:249-255 | the resolved role is removed from the member's roles; nothing changes when there is none |
| Guilds.ChannelIndex | index.js:667 | `channels.cache.get(id)`: a channel with that id, or `None` exactly when there is none |
| Guilds.EditSend | index.js:706-710 | editing one principal's SendMessages flag sets that flag (creating the overwrite if missing) and changes no other flag or principal |
| Guilds.TicketOverwrites | index.js:614-621 | a new ticket's overwrites: guild hidden, owner and every listed role allowed; exactly those keys, and exactly the owner and the roles may send |
| Guilds.ClaimExclusive | index.js:703-711 | after a claim the claimer is the only principal allowed to send; every other principal that was allowed is now explicitly denied SendMessages, and the claimer's overwrite does not deny it |
| Guilds.ClaimOnlySend | index.js:703-711 | a claim changes only SendMessages flags, adds at most the claimer's overwrite, and leaves non-senders untouched |
| Guilds.UnclaimGrants | index.js:735-737 | after an unclaim the senders are the previous senders plus exactly the listed roles, none of which is still denied SendMessages; other overwrites are untouched |
| Entitlement.TicketCategory | index.js:547-554 | the category name is defined exactly for the six slayers |
| Entitlement.CategoryNamed | index.js:547-554 | each category is the capitalised slayer followed by " Slayer" |
| Entitlement.TierFrom | index.js:602 | `/tier\s*(\d+)/i`: no tier exactly when the pattern matches nowhere; otherwise the number at the leftmost match |
| Entitlement.EntitledRolesMembers | index.js:597-606 | a role id is entitled if and only if its lower-cased name contains the slayer and it declares a tier no lower than the ticket's |
| Entitlement.NeverEntitled | index.js:602-603 | a role without a tier, or any role when the ticket tier is not a number, is never entitled |
| Entitlement.EntitledMonotone | index.js:605 | raising the tier can only shrink the entitled roles |
| Entitlement.FirstDigit | index.js:673-675 | `/\d/`: the first decimal digit, and `None` exactly when there is no digit |
| Entitlement.SortTier | index.js:758 | the sort tier is one digit |
| Entitlement.SortTierLeftmost | index.js:758 | `/-t(\d)/` with 0 as the default: the sort tier is the digit of the leftmost `-t<digit>`, and 0 when the name has none |
| Entitlement.TierlessSortsLast | index.js:758 | a ticket opened without a tier (`<slayer>-tundefined-<user>`) sorts as tier 0 unless its user name supplies a `-t<digit>` |
| Entitlement.OpenClaimAgree | index.js:672-685 | a ticket opened at a one-digit tier reads back as that slayer and tier, for the claim (hence the same entitled roles) and for the sort |
| Entitlement.MultiDigitTier | index.js:672-675 | a ticket opened at tier "10" admits tier ≥ 10 but claims and sorts as tier 1 |
| TicketOrder.SortByTierSorted | index.js:757-761 | the sort orders by non-increasing tier |
| TicketOrder.SortByTierPermutation | index.js:757-761 | the sort is a permutation |
| TicketOrder.SortByTierStable | index.js:757-761 | the sort is stable: the channels of each tier keep their order |
| TicketOrder.SortByTierDistinct | index.js:757-761 | sorting keeps channel ids distinct |
| TicketOrder.Reposition | index.js:763-765 | assigning positions changes nothing about a channel but its position |
| TicketOrder.RepositionAt | index.js:763-765 | each listed channel ends at its index in the list; every other channel is untouched |
| TicketOrder.PlaceOf | index.js:752-766 | a channel is sorted to a place exactly when it is a ticket child of the category, and then ends at that place's position |
| TicketOrder.SortChangesOnlyTicketPositions | index.js:752-766 | `sortTickets` changes only the positions of the category's `-t` children; they get distinct positions in 0..n-1 |
| TicketOrder.SortHigherTierFirst | index.js:757-765 | a higher tier ends at a lower position |
| TicketOrder.SortKeepsTies | index.js:757-765 | channels of equal tier keep their guild order |
| Tags.SlayerAction | index.js:566-666 | the slayer listener acts exactly on ids starting `open_ticket_`, `claim_`, `unclaim_` or `close_` |
| Tags.SplitOpenId | index.js:567 | an `open_ticket_` id always splits into at least three pieces |
| Tags.ChannelIdOf | index.js:666 | the channel id is the second `_`-piece |
| Tags.OpenTagRoundTrip | index.js:566-567 | `open_ticket_<slayer>_<tier>` reaches only the open handler, with that slayer and tier |
| Tags.OpenTagWithoutTier | index.js:567 | `open_ticket_<slayer>` opens with an undefined tier |
| Tags.TicketButtonsRoundTrip | index.js:632-640 | a ticket's claim and unclaim buttons reach only their handler, with the ticket's channel id |
| Tags.CloseButtonRoundTrip | index.js:640-644 | a ticket's close button reaches the close handler, and the confirmation prompt too when the channel id is `ticket` |
| Tickets.FindCategory | index.js:570-572 | the first category with the slayer's name; `None` exactly when no category has it, so always for an unknown slayer |
| Tickets.FindSupportCategory | index.js:337-339 | the first category named SUPPORT TICKETS in any letter case; `None` exactly when there is none |
| Tickets.FindOpenSlayerTicket | index.js:583-587 | the first child of the category whose name contains `<slayer>-t` and the lower-cased user name; `None` exactly when no channel matches |
| Tickets.FindOpenSupportTicket | index.js:349-351 | the first child of the category named `ticket-<lower-cased user name>`; `None` exactly when no channel matches |
| Tickets.NewSlayerTicket | index.js:609-622 | the new ticket is a text channel under the category, named `<slayer>-t<tier>-<user>`; it is hidden from the guild, the owner and each entitled role get view, send and attach, there is no other overwrite, and exactly the owner and those roles may send |
| Tickets.NewSupportTicket | index.js:361-370 | the support ticket is named `ticket-<user>` under the category; it is hidden from the guild, the owner gets view, send and attach, there is no other overwrite, and only the owner may send |
| Tickets.UndefinedTierIsNaN | index.js:605 | `parseInt("undefined")` is NaN |
| Tickets.NoTierNoRoles | index.js:597-621 | a ticket opened without a tier has overwrites for the guild and the owner only |
| Tickets.ClaimRewrite | index.js:703-711 | the claim loop over the overwrites computes the claim rewrite |
| Tickets.UnclaimRewrite | index.js:735-737 | the unclaim loop over the entitled roles computes the unclaim rewrite |
| Tickets.VerifiedRole | index.js:493 | the verified role is the first role named "💎 Verified"; `None` exactly when there is none |
| Tickets.VerifyStep | index.js:493-506 | a missing role is reported and nothing changes; otherwise the member ends holding the role, and it is added only when missing |
| Tickets.VerifyIdempotent | index.js:501-506 | a second press answers "already verified" and changes nothing |
| Tickets.Guild.constructor | index.js:562 | a guild starts with the given channels and roles and nothing scheduled |
| Tickets.Guild.SortTickets | index.js:752-766 | the position loop leaves the channels exactly as the sorted-positions function says |
| Tickets.Guild.OpenSlayerTicket | index.js:566-661 | category missing: rejected, no change; a duplicate: that channel reported, no change; a failed create: no reply, no change; otherwise the new ticket is added and the category re-sorted |
| Tickets.Guild.CreateSupportTicket | index.js:330-393 | category missing: rejected; a duplicate: reported; a failed create: no reply; otherwise the support ticket is added; nothing else changes |
| Tickets.Guild.ClaimTicket | index.js:669-712 | no channel or no tier digit: no reply, no change; a failed member fetch: no reply, no change; no entitled role held: denied, no change; otherwise claimed, with only that channel's overwrites rewritten |
| Tickets.Guild.UnclaimTicket | index.js:714-738 | any existing channel: unclaimed; with a tier digit, the entitled roles may send again; nothing else changes |
| Tickets.Guild.CloseSlayerTicket | index.js:740-747 | an existing channel's deletion is scheduled; otherwise no reply and no change |
| Tickets.Guild.CloseTicketPrompt | index.js:472-476 | `close_ticket` asks for confirmation |
| Tickets.Guild.ConfirmClose | index.js:478-482 | `confirm_close` replies, then removes the channel it was pressed in; a failed deletion leaves the channels as they were |
| Tickets.Guild.CancelClose | index.js:483-485 | `cancel_close` only replies |
| Tickets.Guild.Verify | index.js:489-507 | the reply and the member's new roles are those of the verification rule; a failed member fetch, or a failed role grant, gives no reply and no new role |
| Tickets.ConfirmCloseRemoves | index.js:478-482 | after a confirmed close no channel has that id, and every other channel remains in its order |
| Tickets.OpenThenDuplicate | index.js:583-595 | after a ticket is opened, the same user opening the same slayer finds the same category and a duplicate |
| Tickets.SupportThenDuplicate | index.js:349-358 | after a support ticket is opened, the same user finds a duplicate |

## Left out

- Express, sessions, Discord OAuth, the dashboard page and the `/send`
  embed route (index.js:50-163): HTTP plumbing over libraries that are
  not part of this model. The colour rule the `/send` route shares with
  the reaction-role routes is modelled once (`EmbedColor`).
- JSON serialisation of `rr`: the file is modelled as a snapshot equal to
  the map after each mutation.
- Embed and button construction, `channel.send`, `msg.react`, reaction
  removal, `bulkDelete`, the ready-time panels and the welcome message:
  these are remote effects. They appear only as reply kinds, or as the
  `published`/`edited`/`deleted` outcome parameters of the store methods.
  - After a successful update the source re-adds reactions. A failure there
    leaves the map changed without a redirect; this is not modelled.
- Slash-command loading and `command.execute` (index.js:261-298): external
  modules not part of this model.
- The duplicate listeners (index.js:395-400 and 408-466) and the stray
  statements at 402-406: one handler per tag is modelled (index.js:330-393
  and 470-486). The several replies the duplicates would produce are not
  modelled.
- The `setTimeout` deletions: modelled as a `deletionRequests` list, not as
  a later removal.
- The unawaited `forEach(async …)` in claim and unclaim: modelled as a
  sequential loop. Interleavings and failed edits are not modelled.
- The unawaited `sortTickets(category)` after a ticket is opened
  (index.js:659): modelled as completing before the handler returns, so
  the reply and the re-sort are not interleaved with later events.
- The order in which a claim's `forEach` visits overwrites does not matter,
  so the loop visits them in an arbitrary order.
- Unicode case mapping: `toLowerCase`/`toUpperCase` and the `i` flag are
  ASCII-only here. Emoji and names are opaque strings.
- The platform normalises channel names. Only its lower-casing is
  modelled; Discord's replacement of spaces and other characters is not.
- Channel ids are assumed fresh. `OpenSlayerTicket` and
  `CreateSupportTicket` require that the id the platform assigns is not
  already used.
- A new channel is placed last (position = number of channels). Discord's
  own placement, and the way `setPosition` shifts neighbouring channels,
  are not modelled.
- Integers are unbounded: `parseInt` results above 2^53 lose precision in
  JavaScript but not here.
- Message ids that name inherited object properties (`constructor`,
  `__proto__`) behave differently in JavaScript's `rr[...]` lookup. The
  model treats every id as an ordinary key.
- Which listener answers a button first, and replies that fail because the
  interaction was already answered, are not modelled. `Tags.Handlers`
  lists the actions in registration order.
- Entitlement.SortTier: its contract states only that the tier is one
  digit. Its value is stated by the lemma `SortTierLeftmost`, which keeps
  the nested quantifiers out of every proof that uses the sort key.
- ReactionRoles.Field: the form is a list of string fields, so a key may
  appear twice and the first entry wins. In the source the body parser
  turns a repeated field into an array, which the handlers then store as
  an emoji or role; the model does not capture array-valued fields.
- Failures of `interaction.reply` and `channel.send` are not modelled. A
  failed `ticketChannel.send` would leave a new ticket unannounced and
  unsorted. The other platform calls on the ticket path
  (`guild.channels.create`, `guild.members.fetch`, `channel.delete`,
  `member.roles.add`) take outcome parameters, as the store methods do.
