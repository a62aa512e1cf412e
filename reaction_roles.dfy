/** The reaction-role store behind the dashboard (index.js:114-118,
    165-240) and the reaction listeners (index.js:242-255). The store maps
    the id of a published message to the channel it lives in, its
    emoji/role pairs and the embed fields it was published with; every
    mutation is written through to the JSON file, modelled as the `saved`
    snapshot. */
module ReactionRoles {
  import opened Options
  import opened Text
  import opened Seqs
  import opened Platform

  // ---------------------------------------------------------------------
  // The submitted dashboard form
  // ---------------------------------------------------------------------

  /** A url-encoded form body: its fields in the order `Object.keys`
      lists them. */
  type Form = seq<(string, string)>

  /** `req.body[key]`; `None` is `undefined`. */
  function Field(form: Form, key: string): (r: Option<string>)
    ensures r.Some? <==> exists k :: 0 <= k < |form| && form[k].0 == key
    ensures r.Some? ==> exists k :: 0 <= k < |form| && form[k].0 == key && r.value == form[k].1
                                    && forall j :: 0 <= j < k ==> form[j].0 != key
  {
    match FirstIndex(form, (e: (string, string)) => e.0 == key)
    case None => None
    case Some(k) => Some(form[k].1)
  }

  /** JavaScript truthiness of a form field: present and not empty. */
  predicate Truthy(form: Form, key: string) {
    Field(form, key).Some? && Field(form, key).value != ""
  }

  /** The field names of the form, in order (`Object.keys(req.body)`). */
  function Keys(form: Form): (keys: seq<string>)
    ensures |keys| == |form| && forall k :: 0 <= k < |form| ==> keys[k] == form[k].0
  {
    seq(|form|, k requires 0 <= k < |form| => form[k].0)
  }

  /** A key kept by `.filter((k) => k.startsWith("emoji_"))`. */
  predicate IsEmojiKey(k: string) {
    StartsWith(k, "emoji_")
  }

  /** `k.split("_")[1]`: the text between the first and second underscore. */
  function PairIndex(k: string): string
    requires IsEmojiKey(k)
  {
    EmojiKeySplit(k);
    Split(k, "_")[1]
  }

  lemma EmojiKeySplit(k: string)
    requires IsEmojiKey(k)
    ensures |Split(k, "_")| >= 2
  {
    assert k == "emoji" + ['_'] + k[6..];
    SplitAfterChar("emoji", '_', k[6..]);
  }

  datatype Pair = Pair(emoji: string, roleId: Snowflake)

  /** The pair a form holds for index `i`: present only when both
      `emoji_<i>` and `role_<i>` are non-empty. */
  function PairAt(form: Form, i: string): (r: Option<Pair>)
    ensures r.Some? <==> Truthy(form, "emoji_" + i) && Truthy(form, "role_" + i)
    ensures r.Some? ==> r.value.emoji != "" && r.value.roleId != ""
  {
    if Truthy(form, "emoji_" + i) && Truthy(form, "role_" + i)
    then Some(Pair(Field(form, "emoji_" + i).value, Field(form, "role_" + i).value))
    else None
  }

  /** The filter/map pipeline of index.js:168-172, over a list of keys. */
  function PairsFrom(form: Form, keys: seq<string>): (pairs: seq<Pair>)
    ensures |pairs| <= |keys|
    ensures forall k :: 0 <= k < |pairs| ==> pairs[k].emoji != "" && pairs[k].roleId != ""
  {
    if keys == [] then []
    else
      var rest := PairsFrom(form, keys[1..]);
      if IsEmojiKey(keys[0]) && PairAt(form, PairIndex(keys[0])).Some?
      then [PairAt(form, PairIndex(keys[0])).value] + rest
      else rest
  }

  /** The pipeline reads the keys in order: the pairs of a list of keys are
      the pairs of its first part followed by those of the rest. */
  lemma {:induction false} PairsFromAppend(form: Form, keys1: seq<string>, keys2: seq<string>)
    ensures PairsFrom(form, keys1 + keys2) == PairsFrom(form, keys1) + PairsFrom(form, keys2)
  {
    if keys1 != [] {
      assert (keys1 + keys2)[0] == keys1[0] && (keys1 + keys2)[1..] == keys1[1..] + keys2;
      PairsFromAppend(form, keys1[1..], keys2);
    } else {
      assert keys1 + keys2 == keys2;
    }
  }

  /** One key contributes its index's pair when it is an `emoji_` key whose
      pair is complete, and nothing otherwise. */
  lemma PairsFromOne(form: Form, key: string)
    ensures IsEmojiKey(key) && PairAt(form, PairIndex(key)).Some? ==>
      PairsFrom(form, [key]) == [PairAt(form, PairIndex(key)).value]
    ensures !(IsEmojiKey(key) && PairAt(form, PairIndex(key)).Some?) ==> PairsFrom(form, [key]) == []
  {
    assert [key][1..] == [];
  }

  /** The emoji/role pairs a dashboard submission describes. */
  function ExtractPairs(form: Form): seq<Pair> {
    PairsFrom(form, Keys(form))
  }

  /** A key of the list contributes the pair `p`. */
  ghost predicate Yields(form: Form, k: string, p: Pair) {
    IsEmojiKey(k) && PairAt(form, PairIndex(k)) == Some(p)
  }

  lemma {:induction false} PairsFromMembers(form: Form, keys: seq<string>, p: Pair)
    ensures p in PairsFrom(form, keys) <==> exists k :: k in keys && Yields(form, k, p)
  {
    if keys != [] {
      var head, tail := keys[0], keys[1..];
      PairsFromMembers(form, tail, p);
      var rest := PairsFrom(form, tail);
      var kept := IsEmojiKey(head) && PairAt(form, PairIndex(head)).Some?;
      assert PairsFrom(form, keys) == if kept then [PairAt(form, PairIndex(head)).value] + rest else rest;
      if p in PairsFrom(form, keys) {
        if p !in rest {
          assert Yields(form, head, p);
        } else {
          var k :| k in tail && Yields(form, k, p);
          assert k in keys;
        }
      }
      if exists k :: k in keys && Yields(form, k, p) {
        var k :| k in keys && Yields(form, k, p);
        if k != head {
          assert k in tail;
        }
      }
    }
  }

  /** A submission yields pair `p` exactly when some `emoji_...` field
      names an index `i` whose `emoji_<i>` and `role_<i>` fields are both
      non-empty and hold `p`; every other index is dropped. */
  lemma ExtractPairsMembers(form: Form, p: Pair)
    ensures p in ExtractPairs(form) <==>
      exists k :: k in Keys(form) && IsEmojiKey(k)
        && Truthy(form, "emoji_" + PairIndex(k)) && Truthy(form, "role_" + PairIndex(k))
        && p == Pair(Field(form, "emoji_" + PairIndex(k)).value, Field(form, "role_" + PairIndex(k)).value)
  {
    PairsFromMembers(form, Keys(form), p);
  }

  // ---------------------------------------------------------------------
  // Records and the store
  // ---------------------------------------------------------------------

  /** The embed fields as submitted (`{ title, description, color, footer }`). */
  datatype Embed = Embed(title: Option<string>, description: Option<string>,
                         color: Option<string>, footer: Option<string>)

  datatype Record = Record(channelId: Option<Snowflake>, channelName: string,
                           pairs: seq<Pair>, embed: Embed)

  function FormEmbed(form: Form): Embed {
    Embed(Field(form, "title"), Field(form, "description"), Field(form, "color"), Field(form, "footer"))
  }

  /** The property name JavaScript uses for `rr[messageId]`: an absent
      field is looked up under the name "undefined". */
  function MessageKey(form: Form): Snowflake {
    Field(form, "messageId").GetOr("undefined")
  }

  /** The first pair for an emoji decides the role (`pairs.find`). */
  function ResolveRole(pairs: seq<Pair>, emoji: string): (r: Option<Snowflake>)
    ensures r.None? <==> forall k :: 0 <= k < |pairs| ==> pairs[k].emoji != emoji
    ensures r.Some? ==> exists k :: 0 <= k < |pairs| && pairs[k] == Pair(emoji, r.value)
                          && forall j :: 0 <= j < k ==> pairs[j].emoji != emoji
  {
    match FirstIndex(pairs, (p: Pair) => p.emoji == emoji)
    case None => None
    case Some(k) => Some(pairs[k].roleId)
  }

  /** The colour an embed is rendered with:
      `parseInt((color || "#FFD700").replace("#", ""), 16)`; `None` is `NaN`. */
  function EmbedColor(color: Option<string>): Option<int> {
    var text := if color.Some? && color.value != "" then color.value else "#FFD700";
    JsParseInt(ReplaceFirst(text, "#", ""), Hex)
  }

  /** A colour written as `#` and six hexadecimal digits renders as its value. */
  lemma EmbedColorRoundTrip(n: nat)
    requires n < 0x100_0000
    ensures EmbedColor(Some("#" + HexNumeral(n, 6))) == Some(n)
  {
    var d := HexNumeral(n, 6);
    var text := "#" + d;
    assert OccursAt(text, "#", 0) by { assert text[0..1] == "#"; }
    assert IndexOf(text, "#") == Some(0);
    assert ReplaceFirst(text, "#", "") == d by { assert text[1..] == d; }
    assert Pow16(6) == 0x100_0000;
    HexNumeralValue(n, 6);
    ParseWholeNumeral(d, Hex);
  }

  /** A missing or empty colour renders as gold, 0xFFD700. */
  lemma EmbedColorDefault()
    ensures EmbedColor(None) == Some(0xFFD700)
    ensures EmbedColor(Some("")) == Some(0xFFD700)
  {
    DefaultColorText();
    GoldDigits();
  }

  lemma DefaultColorText()
    ensures ReplaceFirst("#FFD700", "#", "") == "FFD700"
  {
    var text := "#FFD700";
    assert text[0..1] == "#";
    assert OccursAt(text, "#", 0);
    assert IndexOf(text, "#") == Some(0);
    assert text[1..] == "FFD700";
  }

  lemma GoldDigits()
    ensures JsParseInt("FFD700", Hex) == Some(0xFFD700)
  {
    var d := "FFD700";
    assert forall j :: 0 <= j < |d| ==> IsHexDigit(d[j]);
    ParseWholeNumeral(d, Hex);
    assert NumeralValue("F", true) == 0xF by { assert "F"[..0] == ""; }
    assert NumeralValue("FF", true) == 0xFF by { assert "FF"[..1] == "F"; }
    assert NumeralValue("FFD", true) == 0xFFD by { assert "FFD"[..2] == "FF"; }
    assert NumeralValue("FFD7", true) == 0xFFD7 by { assert "FFD7"[..3] == "FFD"; }
    assert NumeralValue("FFD70", true) == 0xFFD70 by { assert "FFD70"[..4] == "FFD7"; }
    assert NumeralValue(d, true) == 0xFFD700 by { assert d[..5] == "FFD70"; }
  }

  /** The outcome of fetching the target channel, sending the embed and
      adding every reaction: the new message's id and the channel's name. */
  datatype Published = Published(messageId: Snowflake, channelName: string)

  /** What the dashboard answers. */
  datatype StoreReply =
    | NoPairs            // "❌ No emoji-role pairs."
    | UnknownMessage     // "❌ Unknown message ID."
    | Created(messageId: Snowflake)
    | Redirected         // back to the dashboard
    | CreateFailed       // HTTP 500 "Error creating reaction role"
    | DeleteFailed       // "Error deleting message."
    | NoResponse         // a platform call rejected outside any try/catch

  class RoleStore {
    /** The in-memory map `rr`, keyed by published message id. */
    var rr: map<Snowflake, Record>
    /** The contents of reactionroles.json. */
    var saved: map<Snowflake, Record>

    /** The file always mirrors the map between requests. */
    ghost predicate Valid()
      reads this
    {
      saved == rr
    }

    /** Start-up: the map is read from the file. */
    constructor Load(snapshot: map<Snowflake, Record>)
      ensures Valid() && rr == snapshot
    {
      rr := snapshot;
      saved := snapshot;
    }

    /** `POST /reactionrole` (index.js:166-196). */
    method Create(form: Form, published: Option<Published>) returns (reply: StoreReply)
      requires Valid()
      modifies this
      ensures Valid()
      ensures ExtractPairs(form) == [] ==> reply == NoPairs && rr == old(rr)
      ensures ExtractPairs(form) != [] && published.None? ==> reply == CreateFailed && rr == old(rr)
      ensures ExtractPairs(form) != [] && published.Some? ==>
        var id := published.value.messageId;
        && reply == Created(id)
        && rr == old(rr)[id := Record(Field(form, "channelId"), published.value.channelName,
                                      ExtractPairs(form), FormEmbed(form))]
    {
      var pairs := ExtractPairs(form);
      if pairs == [] {
        return NoPairs;
      }
      if published.None? {
        return CreateFailed;
      }
      var id := published.value.messageId;
      rr := rr[id := Record(Field(form, "channelId"), published.value.channelName, pairs, FormEmbed(form))];
      saved := rr;
      reply := Created(id);
    }

    /** `POST /reactionrole/update` (index.js:199-224): `edited` says whether
        fetching the channel and message and editing the embed succeeded. */
    method Update(form: Form, edited: bool) returns (reply: StoreReply)
      requires Valid()
      modifies this
      ensures Valid()
      ensures var key := MessageKey(form);
        && (key !in old(rr) ==> reply == UnknownMessage && rr == old(rr))
        && (key in old(rr) && !edited ==> reply == NoResponse && rr == old(rr))
        && (key in old(rr) && edited ==>
              reply == Redirected
              && rr == old(rr)[key := old(rr)[key].(pairs := ExtractPairs(form), embed := FormEmbed(form))])
    {
      var key := MessageKey(form);
      if key !in rr {
        return UnknownMessage;
      }
      if !edited {
        return NoResponse;
      }
      var data := rr[key];
      rr := rr[key := data.(pairs := ExtractPairs(form), embed := FormEmbed(form))];
      saved := rr;
      reply := Redirected;
    }

    /** `POST /reactionrole/delete` (index.js:226-240): `deleted` says whether
        fetching and deleting the published message succeeded. */
    method Delete(form: Form, deleted: bool) returns (reply: StoreReply)
      requires Valid()
      modifies this
      ensures Valid()
      ensures var key := MessageKey(form);
        && (key !in old(rr) ==> reply == UnknownMessage && rr == old(rr))
        && (key in old(rr) && !deleted ==> reply == DeleteFailed && rr == old(rr))
        && (key in old(rr) && deleted ==> reply == Redirected && rr == old(rr) - {key})
    {
      var key := MessageKey(form);
      if key !in rr {
        return UnknownMessage;
      }
      if !deleted {
        return DeleteFailed;
      }
      rr := rr - {key};
      saved := rr;
      reply := Redirected;
    }

    /** The role a reaction acts on: none for bot accounts, untracked
        messages and emoji without a pair. */
    function ReactionRole(messageId: Snowflake, emoji: string, bot: bool): (r: Option<Snowflake>)
      reads this
      ensures r.Some? ==> !bot && messageId in rr && Pair(emoji, r.value) in rr[messageId].pairs
      ensures !bot && messageId in rr ==> r == ResolveRole(rr[messageId].pairs, emoji)
    {
      if bot || messageId !in rr then None else ResolveRole(rr[messageId].pairs, emoji)
    }

    /** `messageReactionAdd` (index.js:242-248); `granted` says whether the
        platform accepted the role change (failures are swallowed). */
    method OnReactionAdd(messageId: Snowflake, emoji: string, member: Member, granted: bool)
      modifies member
      ensures match ReactionRole(messageId, emoji, member.bot)
        case None => member.roles == old(member.roles)
        case Some(role) => member.roles == if granted then old(member.roles) + {role} else old(member.roles)
    {
      var role := ReactionRole(messageId, emoji, member.bot);
      if role.Some? && granted {
        member.roles := member.roles + {role.value};
      }
    }

    /** `messageReactionRemove` (index.js:249-255). */
    method OnReactionRemove(messageId: Snowflake, emoji: string, member: Member, revoked: bool)
      modifies member
      ensures match ReactionRole(messageId, emoji, member.bot)
        case None => member.roles == old(member.roles)
        case Some(role) => member.roles == if revoked then old(member.roles) - {role} else old(member.roles)
    {
      var role := ReactionRole(messageId, emoji, member.bot);
      if role.Some? && revoked {
        member.roles := member.roles - {role.value};
      }
    }
  }
}
