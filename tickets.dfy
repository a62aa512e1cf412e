/** The ticket and verification handlers of one guild (index.js:330-393,
    470-507, 557-749): the guild's channels and roles are state the
    handlers read and change, and each handler returns the kind of reply
    the user sees. */
module Tickets {
  import opened Options
  import opened Text
  import opened Seqs
  import opened Platform
  import opened Guilds
  import opened Entitlement
  import opened TicketOrder

  datatype Reply =
    | NoReply
    | CategoryMissing(categoryName: Option<string>)
    | DuplicateTicket(existing: Snowflake)
    | TicketCreated(channelId: Snowflake)
    | ClaimDenied
    | Claimed(claimer: Snowflake)
    | Unclaimed(releaser: Snowflake)
    | Closing
    | ConfirmPrompt
    | ClosedConfirmed
    | CloseCancelled
    | VerifiedRoleMissing
    | AlreadyVerified
    | VerifiedNow

  // ---------------------------------------------------------------------
  // Lookups
  // ---------------------------------------------------------------------

  function IsCategoryCalled(name: Option<string>): Channel -> bool {
    (c: Channel) => Some(c.name) == name && c.kind == GuildCategory
  }

  /** `channels.find(c => c.name === categoryName && c.type === 4)`
      (index.js:570-572); an unknown slayer names no category. */
  function FindCategory(cs: seq<Channel>, name: Option<string>): (r: Option<nat>)
    ensures r.Some? ==> r.value < |cs| && cs[r.value].kind == GuildCategory && name == Some(cs[r.value].name)
    ensures r.Some? ==> forall j :: 0 <= j < r.value ==> !(cs[j].kind == GuildCategory && name == Some(cs[j].name))
    ensures r.None? <==> forall j :: 0 <= j < |cs| ==> !(cs[j].kind == GuildCategory && name == Some(cs[j].name))
    ensures name.None? ==> r.None?
  {
    FirstIndex(cs, IsCategoryCalled(name))
  }

  function IsSupportCategory(c: Channel): bool {
    Upper(c.name) == "SUPPORT TICKETS" && c.kind == GuildCategory
  }

  /** The support category, matched in any letter case (index.js:337-339). */
  function FindSupportCategory(cs: seq<Channel>): (r: Option<nat>)
    ensures r.Some? ==> r.value < |cs| && cs[r.value].kind == GuildCategory
                        && Upper(cs[r.value].name) == "SUPPORT TICKETS"
    ensures r.Some? ==> forall j :: 0 <= j < r.value ==> !IsSupportCategory(cs[j])
    ensures r.None? <==> forall j :: 0 <= j < |cs| ==> !IsSupportCategory(cs[j])
  {
    FirstIndex(cs, IsSupportCategory)
  }

  function IsOpenSlayerTicket(categoryId: Snowflake, slayer: string, username: string): Channel -> bool {
    (c: Channel) => c.parentId == Some(categoryId) && Contains(c.name, slayer + "-t") && Contains(c.name, Lower(username))
  }

  /** The duplicate check (index.js:583-587): a channel of the category
      whose name mentions both `<slayer>-t` and the lower-cased user name. */
  function FindOpenSlayerTicket(cs: seq<Channel>, categoryId: Snowflake, slayer: string, username: string): (r: Option<nat>)
    ensures r.Some? ==> && r.value < |cs| && cs[r.value].parentId == Some(categoryId)
                        && Contains(cs[r.value].name, slayer + "-t") && Contains(cs[r.value].name, Lower(username))
    ensures r.Some? ==> forall j :: 0 <= j < r.value ==> !IsOpenSlayerTicket(categoryId, slayer, username)(cs[j])
    ensures r.None? <==> forall j :: 0 <= j < |cs| ==>
      !(cs[j].parentId == Some(categoryId) && Contains(cs[j].name, slayer + "-t") && Contains(cs[j].name, Lower(username)))
  {
    FirstIndex(cs, IsOpenSlayerTicket(categoryId, slayer, username))
  }

  function IsOpenSupportTicket(categoryId: Snowflake, username: string): Channel -> bool {
    (c: Channel) => c.parentId == Some(categoryId) && c.name == "ticket-" + Lower(username)
  }

  /** The support duplicate check (index.js:349-351). */
  function FindOpenSupportTicket(cs: seq<Channel>, categoryId: Snowflake, username: string): (r: Option<nat>)
    ensures r.Some? ==> && r.value < |cs| && cs[r.value].parentId == Some(categoryId)
                        && cs[r.value].name == "ticket-" + Lower(username)
    ensures r.Some? ==> forall j :: 0 <= j < r.value ==> !IsOpenSupportTicket(categoryId, username)(cs[j])
    ensures r.None? <==> forall j :: 0 <= j < |cs| ==>
      !(cs[j].parentId == Some(categoryId) && cs[j].name == "ticket-" + Lower(username))
  {
    FirstIndex(cs, IsOpenSupportTicket(categoryId, username))
  }

  // ---------------------------------------------------------------------
  // New channels
  // ---------------------------------------------------------------------

  /** The slayer ticket `guild.channels.create` makes (index.js:609-622):
      a missing tier is written as "undefined", which is not a number, so
      that no role is entitled. The platform lower-cases the name; the
      new channel is placed last. */
  function NewSlayerTicket(guildId: Snowflake, slayer: string, tier: Option<string>, user: Snowflake,
                           username: string, categoryId: Snowflake, newId: Snowflake,
                           roles: seq<Role>, position: int): (c: Channel)
    ensures c.id == newId && c.kind == GuildText && c.parentId == Some(categoryId)
    ensures c.name == TicketName(slayer, tier.GetOr("undefined"), username)
    ensures var entitled := EntitledRoles(roles, slayer, JsParseInt(tier.GetOr("undefined"), Auto));
      && c.overwrites.Keys == {guildId, user} + (set r | r in entitled)
      && c.overwrites[user] == Access
      && (forall r :: r in entitled ==> c.overwrites[r] == Access)
      && (guildId != user && guildId !in entitled ==> c.overwrites[guildId] == Hidden)
      && Senders(c.overwrites) == {user} + (set r | r in entitled)
  {
    var tierText := tier.GetOr("undefined");
    Channel(newId, TicketName(slayer, tierText, username), GuildText, Some(categoryId),
            TicketOverwrites(guildId, user, EntitledRoles(roles, slayer, JsParseInt(tierText, Auto))), position)
  }

  /** The support ticket (index.js:361-370): hidden from the guild, and
      only its owner may see it. */
  function NewSupportTicket(guildId: Snowflake, user: Snowflake, username: string, categoryId: Snowflake,
                            newId: Snowflake, position: int): (c: Channel)
    ensures c.id == newId && c.kind == GuildText && c.parentId == Some(categoryId)
    ensures c.name == "ticket-" + Lower(username)
    ensures c.overwrites.Keys == {guildId, user} && Senders(c.overwrites) == {user}
    ensures c.overwrites[user] == Access
    ensures guildId != user ==> c.overwrites[guildId] == Hidden
  {
    LowerAppend("ticket-", username);
    Channel(newId, Lower("ticket-" + username), GuildText, Some(categoryId),
            TicketOverwrites(guildId, user, []), position)
  }

  /** "undefined" is not a number. */
  lemma UndefinedTierIsNaN()
    ensures JsParseInt("undefined", Auto).None?
  {
    assert SkipSpace("undefined", 0) == 0;
    assert "undefined"[0..] == "undefined";
    assert DigitRun("undefined", false) == [];
  }

  /** A ticket opened without a tier is visible to no role at all. */
  lemma NoTierNoRoles(guildId: Snowflake, slayer: string, user: Snowflake, username: string,
                      categoryId: Snowflake, newId: Snowflake, roles: seq<Role>, position: int)
    ensures NewSlayerTicket(guildId, slayer, None, user, username, categoryId, newId, roles, position).overwrites.Keys
      == {guildId, user}
  {
    UndefinedTierIsNaN();
    var ids := EntitledRoles(roles, slayer, None);
    forall id | id in ids ensures false {
      EntitledRolesMembers(roles, slayer, None, id);
    }
  }

  // ---------------------------------------------------------------------
  // Overwrite rewrites, as the handlers run them
  // ---------------------------------------------------------------------

  /** The claim's `overwrites.forEach(...)` then the edit of the claimer's
      own overwrite (index.js:703-711), one overwrite at a time. */
  method ClaimRewrite(ow: Overwrites, actor: Snowflake) returns (result: Overwrites)
    ensures result == ClaimOverwrites(ow, actor)
  {
    var pending := ow.Keys;
    result := ow;
    while pending != {}
      invariant pending <= ow.Keys && result.Keys == ow.Keys
      invariant forall k :: k in ow && k !in pending ==> result[k] == RevokeOthers(ow, actor)[k]
      invariant forall k :: k in pending ==> result[k] == ow[k]
      decreases pending
    {
      var k :| k in pending;
      RevokeStep(ow, result, actor, k);
      if SendMessages in result[k].allow && k != actor {
        result := EditSend(result, k, false);
      }
      pending := pending - {k};
    }
    assert result == RevokeOthers(ow, actor);
    result := EditSend(result, actor, true);
  }

  /** The unclaim's `allowed.forEach(...)` (index.js:735-737). */
  method UnclaimRewrite(ow: Overwrites, roleIds: seq<Snowflake>) returns (result: Overwrites)
    ensures result == UnclaimOverwrites(ow, roleIds)
  {
    result := ow;
    var i := 0;
    while i < |roleIds|
      invariant 0 <= i <= |roleIds|
      invariant UnclaimOverwrites(result, roleIds[i..]) == UnclaimOverwrites(ow, roleIds)
    {
      assert roleIds[i..][1..] == roleIds[i + 1..];
      result := EditSend(result, roleIds[i], true);
      i := i + 1;
    }
    assert roleIds[i..] == [];
  }

  /** `member.roles.cache.some(r => allowed.has(r.id))`. */
  predicate HoldsAny(held: set<Snowflake>, allowed: seq<Snowflake>) {
    exists r :: r in allowed && r in held
  }

  // ---------------------------------------------------------------------
  // Verification (index.js:489-507)
  // ---------------------------------------------------------------------

  const VerifiedRoleName := "\U{1F48E} Verified"

  function IsVerifiedRole(r: Role): bool { r.name == VerifiedRoleName }

  /** The first role named "💎 Verified". */
  function VerifiedRole(roles: seq<Role>): (r: Option<Snowflake>)
    ensures r.Some? ==> exists i :: 0 <= i < |roles| && roles[i].id == r.value && roles[i].name == VerifiedRoleName
                                    && forall j :: 0 <= j < i ==> roles[j].name != VerifiedRoleName
    ensures r.None? <==> forall i :: 0 <= i < |roles| ==> roles[i].name != VerifiedRoleName
  {
    match FirstIndex(roles, IsVerifiedRole)
    case None => None
    case Some(i) => Some(roles[i].id)
  }

  /** The reply and the member's new roles: a missing role is reported, a
      held role is not added again, otherwise the role is added. */
  function VerifyStep(roles: seq<Role>, held: set<Snowflake>): (out: (Reply, set<Snowflake>))
    ensures out.1 >= held
    ensures out.0 == VerifiedNow <==> out.1 != held
    ensures VerifiedRole(roles).None? <==> out.0 == VerifiedRoleMissing
    ensures VerifiedRole(roles).Some? ==> VerifiedRole(roles).value in out.1 && out.1 == held + {VerifiedRole(roles).value}
  {
    match VerifiedRole(roles)
    case None => (VerifiedRoleMissing, held)
    case Some(r) => if r in held then (AlreadyVerified, held) else (VerifiedNow, held + {r})
  }

  /** Pressing the button a second time changes nothing. */
  lemma VerifyIdempotent(roles: seq<Role>, held: set<Snowflake>)
    requires VerifiedRole(roles).Some?
    ensures var once := VerifyStep(roles, held);
      VerifyStep(roles, once.1) == (AlreadyVerified, once.1)
  {
  }

  // ---------------------------------------------------------------------
  // The guild
  // ---------------------------------------------------------------------

  class Guild {
    const id: Snowflake
    /** `guild.channels.cache`, in the platform's order. */
    var channels: seq<Channel>
    /** `guild.roles.cache`, in the platform's order. */
    var roles: seq<Role>
    /** Channels whose deletion has been scheduled (`setTimeout(..., 2000)`). */
    var deletionRequests: seq<Snowflake>

    /** Channel ids are unique. */
    ghost predicate Valid()
      reads this
    {
      DistinctIds(channels)
    }

    constructor (id: Snowflake, channels: seq<Channel>, roles: seq<Role>)
      requires DistinctIds(channels)
      ensures Valid() && this.id == id && this.channels == channels && this.roles == roles
      ensures deletionRequests == []
    {
      this.id := id;
      this.channels := channels;
      this.roles := roles;
      deletionRequests := [];
    }

    /** `sortTickets(category)` (index.js:752-766): the library sort, then
        `setPosition(i)` on each sorted channel in turn. */
    method SortTickets(categoryId: Snowflake)
      requires Valid()
      modifies this
      ensures Valid()
      ensures channels == SortedPositions(old(channels), categoryId)
      ensures roles == old(roles) && deletionRequests == old(deletionRequests)
    {
      var order := SortByTier(TicketChildren(channels, categoryId));
      ghost var start := channels;
      var i := 0;
      while i < |order|
        invariant 0 <= i <= |order|
        invariant channels == Reposition(start, order[..i])
        invariant roles == old(roles) && deletionRequests == old(deletionRequests)
      {
        assert order[..i + 1][..i] == order[..i];
        channels := SetPosition(channels, order[i].id, i);
        i := i + 1;
      }
      assert order[..|order|] == order;
      assert DistinctIds(channels) by {
        forall a, b | 0 <= a < b < |channels| ensures IdOf(channels[a]) != IdOf(channels[b]) {
          assert IdOf(start[a]) != IdOf(start[b]);
        }
      }
    }

    /** An `open_ticket_<slayer>_<tier>` press (index.js:566-661). `newId`
        is the id the platform gives the new channel; `created` is false when
        `guild.channels.create` rejects, which ends the handler with no
        reply. */
    method OpenSlayerTicket(slayer: string, tier: Option<string>, user: Member, newId: Snowflake, created: bool)
      returns (reply: Reply)
      requires Valid() && ChannelIndex(channels, newId).None?
      modifies this
      ensures Valid()
      ensures roles == old(roles) && deletionRequests == old(deletionRequests)
      ensures match FindCategory(old(channels), TicketCategory(slayer))
        case None =>
          reply == CategoryMissing(TicketCategory(slayer)) && channels == old(channels)
        case Some(k) =>
          var cat := old(channels)[k].id;
          match FindOpenSlayerTicket(old(channels), cat, slayer, user.username)
          case Some(e) =>
            reply == DuplicateTicket(old(channels)[e].id) && channels == old(channels)
          case None =>
            if !created then reply == NoReply && channels == old(channels)
            else
              reply == TicketCreated(newId)
              && channels == SortedPositions(old(channels) + [NewSlayerTicket(id, slayer, tier, user.userId,
                   user.username, cat, newId, old(roles), |old(channels)|)], cat)
    {
      var k := FindCategory(channels, TicketCategory(slayer));
      if k.None? {
        return CategoryMissing(TicketCategory(slayer));
      }
      var cat := channels[k.value].id;
      var existing := FindOpenSlayerTicket(channels, cat, slayer, user.username);
      if existing.Some? {
        return DuplicateTicket(channels[existing.value].id);
      }
      if !created {
        return NoReply;
      }
      var ticket := NewSlayerTicket(id, slayer, tier, user.userId, user.username, cat, newId, roles, |channels|);
      AppendFresh(channels, ticket);
      channels := channels + [ticket];
      reply := TicketCreated(newId);
      SortTickets(cat);
    }

    /** A `create_support_ticket` press (index.js:330-393); `created` is
        false when `guild.channels.create` rejects. */
    method CreateSupportTicket(user: Member, newId: Snowflake, created: bool) returns (reply: Reply)
      requires Valid() && ChannelIndex(channels, newId).None?
      modifies this
      ensures Valid()
      ensures roles == old(roles) && deletionRequests == old(deletionRequests)
      ensures match FindSupportCategory(old(channels))
        case None =>
          reply == CategoryMissing(Some("SUPPORT TICKETS")) && channels == old(channels)
        case Some(k) =>
          var cat := old(channels)[k].id;
          match FindOpenSupportTicket(old(channels), cat, user.username)
          case Some(e) =>
            reply == DuplicateTicket(old(channels)[e].id) && channels == old(channels)
          case None =>
            if !created then reply == NoReply && channels == old(channels)
            else
              reply == TicketCreated(newId)
              && channels == old(channels) + [NewSupportTicket(id, user.userId, user.username, cat, newId, |old(channels)|)]
    {
      var k := FindSupportCategory(channels);
      if k.None? {
        return CategoryMissing(Some("SUPPORT TICKETS"));
      }
      var cat := channels[k.value].id;
      var existing := FindOpenSupportTicket(channels, cat, user.username);
      if existing.Some? {
        return DuplicateTicket(channels[existing.value].id);
      }
      if !created {
        return NoReply;
      }
      var ticket := NewSupportTicket(id, user.userId, user.username, cat, newId, |channels|);
      AppendFresh(channels, ticket);
      channels := channels + [ticket];
      reply := TicketCreated(newId);
    }

    /** A `claim_<channelId>` press (index.js:669-712); `fetched` is false
        when `guild.members.fetch` rejects, which ends the handler with no
        reply. */
    method ClaimTicket(channelId: Snowflake, actor: Member, fetched: bool) returns (reply: Reply)
      requires Valid()
      modifies this
      ensures Valid()
      ensures roles == old(roles) && deletionRequests == old(deletionRequests)
      ensures match ChannelIndex(old(channels), channelId)
        case None => reply == NoReply && channels == old(channels)
        case Some(k) =>
          var c := old(channels)[k];
          match ClaimTier(c.name)
          case None => reply == NoReply && channels == old(channels)
          case Some(t) =>
            if !fetched then reply == NoReply && channels == old(channels)
            else if !HoldsAny(actor.roles, EntitledRoles(old(roles), ClaimSlayer(c.name), Some(t))) then
              reply == ClaimDenied && channels == old(channels)
            else
              reply == Claimed(actor.userId)
              && channels == old(channels)[k := c.(overwrites := ClaimOverwrites(c.overwrites, actor.userId))]
    {
      var k := ChannelIndex(channels, channelId);
      if k.None? {
        return NoReply;
      }
      var c := channels[k.value];
      var t := ClaimTier(c.name);
      if t.None? {
        return NoReply;
      }
      var allowed := EntitledRoles(roles, ClaimSlayer(c.name), Some(t.value));
      if !fetched {
        return NoReply;
      }
      if !HoldsAny(actor.roles, allowed) {
        return ClaimDenied;
      }
      reply := Claimed(actor.userId);
      var ow := ClaimRewrite(c.overwrites, actor.userId);
      ReplaceKeepsIds(channels, k.value, c.(overwrites := ow));
      channels := channels[k.value := c.(overwrites := ow)];
    }

    /** An `unclaim_<channelId>` press (index.js:714-738): anyone may press
        it; the reply comes first, then the entitled roles may send again. */
    method UnclaimTicket(channelId: Snowflake, actor: Member) returns (reply: Reply)
      requires Valid()
      modifies this
      ensures Valid()
      ensures roles == old(roles) && deletionRequests == old(deletionRequests)
      ensures match ChannelIndex(old(channels), channelId)
        case None => reply == NoReply && channels == old(channels)
        case Some(k) =>
          var c := old(channels)[k];
          reply == Unclaimed(actor.userId)
          && match ClaimTier(c.name)
             case None => channels == old(channels)
             case Some(t) =>
               channels == old(channels)[k := c.(overwrites := UnclaimOverwrites(c.overwrites,
                 EntitledRoles(old(roles), ClaimSlayer(c.name), Some(t))))]
    {
      var k := ChannelIndex(channels, channelId);
      if k.None? {
        return NoReply;
      }
      reply := Unclaimed(actor.userId);
      var c := channels[k.value];
      var t := ClaimTier(c.name);
      if t.None? {
        return;
      }
      var allowed := EntitledRoles(roles, ClaimSlayer(c.name), Some(t.value));
      var ow := UnclaimRewrite(c.overwrites, allowed);
      ReplaceKeepsIds(channels, k.value, c.(overwrites := ow));
      channels := channels[k.value := c.(overwrites := ow)];
    }

    /** A `close_<channelId>` press (index.js:740-747): the deletion is
        scheduled, not done. */
    method CloseSlayerTicket(channelId: Snowflake) returns (reply: Reply)
      requires Valid()
      modifies this
      ensures Valid()
      ensures channels == old(channels) && roles == old(roles)
      ensures ChannelIndex(channels, channelId).None? ==> reply == NoReply && deletionRequests == old(deletionRequests)
      ensures ChannelIndex(channels, channelId).Some? ==>
        reply == Closing && deletionRequests == old(deletionRequests) + [channelId]
    {
      if ChannelIndex(channels, channelId).None? {
        return NoReply;
      }
      deletionRequests := deletionRequests + [channelId];
      reply := Closing;
    }

    /** A `close_ticket` press (index.js:472-476) asks for confirmation. */
    method CloseTicketPrompt() returns (reply: Reply)
      ensures reply == ConfirmPrompt
    {
      reply := ConfirmPrompt;
    }

    /** A `confirm_close` press (index.js:478-482) in channel `here`
        replies, then deletes that channel at once; `deleted` is false when
        the deletion fails, which the handler only logs. */
    method ConfirmClose(here: Snowflake, deleted: bool) returns (reply: Reply)
      requires Valid()
      modifies this
      ensures Valid()
      ensures reply == ClosedConfirmed
      ensures deleted ==> channels == Filter(old(channels), NotId(here))
      ensures !deleted ==> channels == old(channels)
      ensures roles == old(roles) && deletionRequests == old(deletionRequests)
    {
      reply := ClosedConfirmed;
      if deleted {
        FilterDistinctBy(channels, NotId(here), IdOf);
        channels := Filter(channels, NotId(here));
      }
    }

    /** A `cancel_close` press (index.js:483-485). */
    method CancelClose() returns (reply: Reply)
      ensures reply == CloseCancelled
    {
      reply := CloseCancelled;
    }

    /** A `verify_user` press (index.js:489-507). `fetched` is false when
        `guild.members.fetch` rejects and `granted` false when
        `member.roles.add` does; either ends the handler with no reply and
        no new role. */
    method Verify(member: Member, fetched: bool, granted: bool) returns (reply: Reply)
      modifies member
      ensures var (answer, held) := VerifyStep(roles, old(member.roles));
        if !fetched || (answer == VerifiedNow && !granted) then reply == NoReply && member.roles == old(member.roles)
        else reply == answer && member.roles == held
    {
      if !fetched {
        return NoReply;
      }
      var r := VerifiedRole(roles);
      if r.None? {
        return VerifiedRoleMissing;
      }
      if r.value in member.roles {
        return AlreadyVerified;
      }
      if !granted {
        return NoReply;
      }
      member.roles := member.roles + {r.value};
      reply := VerifiedNow;
    }
  }

  function NotId(id: Snowflake): Channel -> bool {
    (c: Channel) => c.id != id
  }

  /** Deleting a channel removes it and keeps every other channel, in order. */
  lemma ConfirmCloseRemoves(cs: seq<Channel>, here: Snowflake)
    ensures ChannelIndex(Filter(cs, NotId(here)), here).None?
    ensures forall c :: c in cs && c.id != here ==> c in Filter(cs, NotId(here))
    ensures forall c, d :: Before(cs, c, d) && c.id != here && d.id != here ==> Before(Filter(cs, NotId(here)), c, d)
  {
    var r := Filter(cs, NotId(here));
    forall j | 0 <= j < |r| ensures r[j].id != here {
      assert r[j] in r;
    }
    forall c, d | Before(cs, c, d) && c.id != here && d.id != here ensures Before(r, c, d) {
      FilterBefore(cs, NotId(here), c, d);
    }
  }

  /** Once a user has opened a slayer's ticket, opening it again finds the
      same category and reports a duplicate (index.js:583-595): at most one
      open ticket per user and slayer. */
  lemma OpenThenDuplicate(guildId: Snowflake, cs: seq<Channel>, roles: seq<Role>, slayer: string,
                          tier: Option<string>, user: Snowflake, username: string, newId: Snowflake)
    requires FindCategory(cs, TicketCategory(slayer)).Some?
    ensures var k := FindCategory(cs, TicketCategory(slayer)).value;
      var cat := cs[k].id;
      var after := SortedPositions(cs + [NewSlayerTicket(guildId, slayer, tier, user, username, cat, newId, roles, |cs|)], cat);
      && FindCategory(after, TicketCategory(slayer)) == Some(k)
      && FindOpenSlayerTicket(after, cat, slayer, username).Some?
  {
    var k := FindCategory(cs, TicketCategory(slayer)).value;
    var cat := cs[k].id;
    var t := NewSlayerTicket(guildId, slayer, tier, user, username, cat, newId, roles, |cs|);
    var grown := cs + [t];
    var after := SortedPositions(grown, cat);
    var p := IsCategoryCalled(TicketCategory(slayer));
    FirstIndexAppend(cs, t, p);
    FirstIndexAgree(grown, p, after, p);
    TicketNameParts(slayer, tier.GetOr("undefined"), username);
    NewTicketFound(t, cat, slayer, username, Lower(tier.GetOr("undefined")));
    assert after[|cs|] == t.(position := after[|cs|].position);
    assert IsOpenSlayerTicket(cat, slayer, username)(after[|cs|]);
  }

  /** A channel named `<slayer>-t<rest>-<lower-cased user name>` in the
      category is what the duplicate check looks for. */
  lemma NewTicketFound(t: Channel, cat: Snowflake, slayer: string, username: string, tierText: string)
    requires t.parentId == Some(cat) && t.name == slayer + "-t" + (tierText + "-" + Lower(username))
    ensures IsOpenSlayerTicket(cat, slayer, username)(t)
  {
    assert OccursAt(t.name, slayer + "-t", 0) by {
      assert t.name[..|slayer + "-t"|] == slayer + "-t";
    }
    ContainsAt(t.name, slayer + "-t", 0);
    var u := Lower(username);
    var i := |t.name| - |u|;
    assert OccursAt(t.name, u, i) by {
      assert t.name[i..i + |u|] == u;
    }
    ContainsAt(t.name, u, i);
  }

  /** Once a user has opened a support ticket, opening another one reports
      a duplicate (index.js:349-358). */
  lemma SupportThenDuplicate(guildId: Snowflake, cs: seq<Channel>, user: Snowflake, username: string, newId: Snowflake)
    requires FindSupportCategory(cs).Some?
    ensures var k := FindSupportCategory(cs).value;
      var cat := cs[k].id;
      var after := cs + [NewSupportTicket(guildId, user, username, cat, newId, |cs|)];
      && FindSupportCategory(after) == Some(k)
      && FindOpenSupportTicket(after, cat, username).Some?
  {
    var k := FindSupportCategory(cs).value;
    var cat := cs[k].id;
    var t := NewSupportTicket(guildId, user, username, cat, newId, |cs|);
    FirstIndexAppend(cs, t, IsSupportCategory);
    assert (cs + [t])[|cs|] == t;
    assert IsOpenSupportTicket(cat, username)(t);
  }

  lemma AppendFresh(cs: seq<Channel>, c: Channel)
    requires DistinctIds(cs) && ChannelIndex(cs, c.id).None?
    ensures DistinctIds(cs + [c])
  {
    var s := cs + [c];
    forall i, j | 0 <= i < j < |s| ensures IdOf(s[i]) != IdOf(s[j]) {
      if j == |cs| {
        assert s[i] == cs[i];
      } else {
        assert s[i] == cs[i] && s[j] == cs[j];
      }
    }
  }

  lemma ReplaceKeepsIds(cs: seq<Channel>, k: nat, c: Channel)
    requires DistinctIds(cs) && k < |cs| && c.id == cs[k].id
    ensures DistinctIds(cs[k := c])
  {
    var s := cs[k := c];
    forall i, j | 0 <= i < j < |s| ensures IdOf(s[i]) != IdOf(s[j]) {
      assert IdOf(s[i]) == IdOf(cs[i]) && IdOf(s[j]) == IdOf(cs[j]);
    }
  }
}
