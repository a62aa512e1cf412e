/** The guild state the ticket handlers read and change: channels (text
    channels and categories, each with its permission overwrites and its
    position) and roles, and the edits the handlers make to a channel's
    overwrites. */
module Guilds {
  import opened Options
  import opened Seqs
  import opened Platform

  /** Channel types 0 (text) and 4 (category); all others are alike here. */
  datatype ChannelType = GuildText | GuildCategory | OtherChannel

  datatype Permission = ViewChannel | SendMessages | AttachFiles

  /** One permission overwrite: what it explicitly allows and denies. */
  datatype Perms = Perms(allow: set<Permission>, deny: set<Permission>)

  /** A channel's overwrites, keyed by the user or role they apply to. */
  type Overwrites = map<Snowflake, Perms>

  datatype Channel = Channel(
    id: Snowflake,
    name: string,
    kind: ChannelType,
    parentId: Option<Snowflake>,
    overwrites: Overwrites,
    position: int)

  datatype Role = Role(id: Snowflake, name: string)

  function IdOf(c: Channel): Snowflake { c.id }

  /** Channel ids are unique within a guild. */
  ghost predicate DistinctIds(cs: seq<Channel>) {
    DistinctBy(cs, IdOf)
  }

  /** `guild.channels.cache.get(id)`: the position of the channel with that id. */
  function ChannelIndex(cs: seq<Channel>, id: Snowflake): (r: Option<nat>)
    ensures r.Some? ==> r.value < |cs| && cs[r.value].id == id
    ensures r.None? <==> forall j :: 0 <= j < |cs| ==> cs[j].id != id
  {
    FirstIndex(cs, (c: Channel) => c.id == id)
  }

  // ---------------------------------------------------------------------
  // Overwrites
  // ---------------------------------------------------------------------

  /** The overwrite of a principal that has none yet. */
  const Neutral := Perms({}, {})

  /** `{ deny: ["ViewChannel"] }`: what the guild default (@everyone) gets. */
  const Hidden := Perms({}, {ViewChannel})

  /** `{ allow: ["ViewChannel", "SendMessages", "AttachFiles"] }`. */
  const Access := Perms({ViewChannel, SendMessages, AttachFiles}, {})

  function OverwriteOf(ow: Overwrites, id: Snowflake): Perms {
    if id in ow then ow[id] else Neutral
  }

  /** `permissionOverwrites.edit(id, { SendMessages: send })`: sets the one
      flag, creating the overwrite when the principal has none. */
  function EditSend(ow: Overwrites, id: Snowflake, send: bool): (r: Overwrites)
    ensures r.Keys == ow.Keys + {id}
    ensures send ==> SendMessages in r[id].allow && SendMessages !in r[id].deny
    ensures !send ==> SendMessages !in r[id].allow && SendMessages in r[id].deny
    ensures r[id].allow - {SendMessages} == OverwriteOf(ow, id).allow - {SendMessages}
    ensures r[id].deny - {SendMessages} == OverwriteOf(ow, id).deny - {SendMessages}
    ensures forall k :: k in ow && k != id ==> r[k] == ow[k]
  {
    var p := OverwriteOf(ow, id);
    ow[id := if send then Perms(p.allow + {SendMessages}, p.deny - {SendMessages})
             else Perms(p.allow - {SendMessages}, p.deny + {SendMessages})]
  }

  /** The principals an overwrite explicitly allows to send messages. */
  function Senders(ow: Overwrites): set<Snowflake> {
    set k | k in ow && SendMessages in ow[k].allow
  }

  /** The overwrites a new ticket is created with (index.js:614-621 and
      366-369): the guild default is hidden, the owner and every listed
      role get access; for a principal listed twice the later entry wins. */
  function TicketOverwrites(guildId: Snowflake, ownerId: Snowflake, roleIds: seq<Snowflake>): (ow: Overwrites)
    ensures ow.Keys == {guildId, ownerId} + set r | r in roleIds
    ensures ow[ownerId] == Access
    ensures forall r :: r in roleIds ==> ow[r] == Access
    ensures guildId != ownerId && guildId !in roleIds ==> ow[guildId] == Hidden
    ensures Senders(ow) == {ownerId} + set r | r in roleIds
  {
    map k | k in {guildId, ownerId} + (set r | r in roleIds) ::
      if k == ownerId || k in roleIds then Access else Hidden
  }

  /** Claiming a ticket (index.js:703-711): every overwrite other than the
      actor's that allows sending is edited to deny it, then the actor's
      is edited to allow it. */
  function ClaimOverwrites(ow: Overwrites, actor: Snowflake): Overwrites {
    EditSend(RevokeOthers(ow, actor), actor, true)
  }

  function RevokeOthers(ow: Overwrites, actor: Snowflake): (r: Overwrites)
    ensures r.Keys == ow.Keys
  {
    map k | k in ow :: if SendMessages in ow[k].allow && k != actor then EditSend(ow, k, false)[k] else ow[k]
  }

  /** One step of the claim's loop over the overwrites: visiting `k`, not
      yet visited, gives it its revoked value and touches no other entry. */
  lemma RevokeStep(ow: Overwrites, result: Overwrites, actor: Snowflake, k: Snowflake)
    requires k in ow && result.Keys == ow.Keys && result[k] == ow[k]
    ensures var next := if SendMessages in result[k].allow && k != actor then EditSend(result, k, false) else result;
      && next.Keys == ow.Keys && next[k] == RevokeOthers(ow, actor)[k]
      && forall j :: j in ow && j != k ==> next[j] == result[j]
  {
  }

  /** After a claim only the claimer may send: every other principal that
      was allowed to send is now explicitly denied it (so a guild-level
      permission cannot give it back), and the claimer's overwrite allows
      sending and does not deny it. In particular the ticket's owner loses
      the right unless the owner is the claimer. */
  lemma ClaimExclusive(ow: Overwrites, actor: Snowflake)
    ensures Senders(ClaimOverwrites(ow, actor)) == {actor}
    ensures forall k :: k in ow && k != actor && SendMessages in ow[k].allow ==>
      SendMessages in ClaimOverwrites(ow, actor)[k].deny
    ensures SendMessages !in ClaimOverwrites(ow, actor)[actor].deny
  {
    var r := RevokeOthers(ow, actor);
    var c := ClaimOverwrites(ow, actor);
    forall k | k in c && k != actor
      ensures SendMessages !in c[k].allow
      ensures k in ow && SendMessages in ow[k].allow ==> SendMessages in c[k].deny
    {
      assert c[k] == r[k];
      if SendMessages in ow[k].allow {
        assert r[k] == EditSend(ow, k, false)[k];
      }
    }
  }

  /** A claim edits only the SendMessages flag: no overwrite disappears,
      only the actor's may appear, and every other flag is as before;
      overwrites that did not allow sending (other than the actor's) stay as
      they were. */
  lemma ClaimOnlySend(ow: Overwrites, actor: Snowflake)
    ensures var c := ClaimOverwrites(ow, actor);
      && c.Keys == ow.Keys + {actor}
      && (forall k :: k in c ==> c[k].allow - {SendMessages} == OverwriteOf(ow, k).allow - {SendMessages})
      && (forall k :: k in c ==> c[k].deny - {SendMessages} == OverwriteOf(ow, k).deny - {SendMessages})
      && (forall k :: k in ow && k != actor && SendMessages !in ow[k].allow ==> c[k] == ow[k])
  {
    var r := RevokeOthers(ow, actor);
    var c := ClaimOverwrites(ow, actor);
    forall k | k in c
      ensures c[k].allow - {SendMessages} == OverwriteOf(ow, k).allow - {SendMessages}
      ensures c[k].deny - {SendMessages} == OverwriteOf(ow, k).deny - {SendMessages}
    {
      if k == actor {
        assert OverwriteOf(r, k) == OverwriteOf(ow, k);
      } else {
        assert c[k] == r[k];
        if SendMessages in ow[k].allow {
          assert r[k] == EditSend(ow, k, false)[k];
        }
      }
    }
  }

  /** Unclaiming (index.js:735-737): each listed role, in order, is edited
      to allow sending. */
  function UnclaimOverwrites(ow: Overwrites, roleIds: seq<Snowflake>): Overwrites
    decreases |roleIds|
  {
    if roleIds == [] then ow else UnclaimOverwrites(EditSend(ow, roleIds[0], true), roleIds[1..])
  }

  /** After an unclaim the senders are those before plus exactly the
      listed roles, none of which is still denied sending (the deny a claim
      gave them is lifted); the overwrites of principals not listed are
      untouched. */
  lemma {:induction false} UnclaimGrants(ow: Overwrites, roleIds: seq<Snowflake>)
    decreases |roleIds|
    ensures var u := UnclaimOverwrites(ow, roleIds);
      && u.Keys == ow.Keys + (set r | r in roleIds)
      && Senders(u) == Senders(ow) + (set r | r in roleIds)
      && (forall r :: r in roleIds ==> SendMessages !in u[r].deny)
      && forall k :: k in ow && k !in roleIds ==> u[k] == ow[k]
  {
    UnclaimFrame(ow, roleIds);
    UnclaimSenders(ow, roleIds);
    UnclaimLiftsDeny(ow, roleIds);
  }

  /** An unclaim adds exactly the listed roles to the senders. */
  lemma {:induction false} UnclaimSenders(ow: Overwrites, roleIds: seq<Snowflake>)
    decreases |roleIds|
    ensures Senders(UnclaimOverwrites(ow, roleIds)) == Senders(ow) + (set r | r in roleIds)
  {
    if roleIds != [] {
      var e := EditSend(ow, roleIds[0], true);
      UnclaimSenders(e, roleIds[1..]);
      GrantSend(ow, roleIds[0]);
      assert (set r | r in roleIds) == {roleIds[0]} + (set r | r in roleIds[1..]);
    }
  }

  /** Allowing one principal to send adds exactly that principal to the senders. */
  lemma GrantSend(ow: Overwrites, id: Snowflake)
    ensures Senders(EditSend(ow, id, true)) == Senders(ow) + {id}
  {
  }

  /** An unclaim adds exactly the listed roles' overwrites and leaves the
      others as they were. */
  lemma {:induction false} UnclaimFrame(ow: Overwrites, roleIds: seq<Snowflake>)
    decreases |roleIds|
    ensures var u := UnclaimOverwrites(ow, roleIds);
      && u.Keys == ow.Keys + (set r | r in roleIds)
      && forall k :: k in ow && k !in roleIds ==> u[k] == ow[k]
  {
    if roleIds != [] {
      UnclaimFrame(EditSend(ow, roleIds[0], true), roleIds[1..]);
      assert (set r | r in roleIds) == {roleIds[0]} + (set r | r in roleIds[1..]);
    }
  }

  /** After an unclaim no listed role is denied sending. */
  lemma {:induction false} UnclaimLiftsDeny(ow: Overwrites, roleIds: seq<Snowflake>)
    decreases |roleIds|
    ensures forall r :: r in roleIds ==> r in UnclaimOverwrites(ow, roleIds) && SendMessages !in UnclaimOverwrites(ow, roleIds)[r].deny
  {
    if roleIds != [] {
      var e := EditSend(ow, roleIds[0], true);
      var u := UnclaimOverwrites(ow, roleIds);
      UnclaimFrame(e, roleIds[1..]);
      UnclaimLiftsDeny(e, roleIds[1..]);
      assert u == UnclaimOverwrites(e, roleIds[1..]);
      forall r | r in roleIds ensures r in u && SendMessages !in u[r].deny {
        if r in roleIds[1..] {
        } else {
          assert r == roleIds[0];
          assert u[r] == e[r];
        }
      }
    }
  }
}
