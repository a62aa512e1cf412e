/** Which handlers a button's custom id reaches. Every `interactionCreate`
    listener sees every button press; each acts on the ids it recognises,
    in the order the listeners were registered. */
module Tags {
  import opened Options
  import opened Text
  import opened Platform

  datatype Action =
    | CreateSupportTicket                             // index.js:330-331
    | CloseTicketPrompt                               // index.js:472
    | ConfirmClose                                    // index.js:478
    | CancelClose                                     // index.js:483
    | VerifyUser                                      // index.js:490
    | OpenTicket(slayer: string, tier: Option<string>) // index.js:566-567
    | Claim(channelId: Snowflake)                     // index.js:670
    | Unclaim(channelId: Snowflake)                   // index.js:714
    | Close(channelId: Snowflake)                     // index.js:740

  const OpenPrefix := "open_ticket_"

  /** Splitting behind a prefix that ends in '_' and has one other '_'. */
  lemma SplitOpen(rest: string)
    ensures Split(OpenPrefix + rest, "_") == ["open", "ticket"] + Split(rest, "_")
  {
    OpenPrefixWords(rest);
    SplitAfterChar("open", '_', "ticket_" + rest);
    SplitAfterChar("ticket", '_', rest);
  }

  lemma OpenPrefixWords(rest: string)
    ensures OpenPrefix + rest == "open" + "_" + ("ticket_" + rest)
    ensures "ticket_" + rest == "ticket" + "_" + rest
  {
    assert OpenPrefix == "open" + "_" + "ticket_";
    assert "ticket_" == "ticket" + "_";
  }

  lemma SplitPrefixed(word: string, rest: string)
    requires '_' !in word
    ensures Split(word + "_" + rest, "_") == [word] + Split(rest, "_")
  {
    SplitAfterChar(word, '_', rest);
  }

  /** The slayer-ticket listener (index.js:557-749): `open_ticket_` ids are
      destructured as `[_, __, slayerName, tier] = id.split("_")`; the
      `claim_`, `unclaim_` and `close_` ids carry the channel id as the
      second "_" segment. */
  function SlayerAction(id: string): (r: Option<Action>)
    ensures r.Some? <==> StartsWith(id, OpenPrefix) || StartsWith(id, "claim_")
                         || StartsWith(id, "unclaim_") || StartsWith(id, "close_")
  {
    if StartsWith(id, OpenPrefix) then
      var parts := SplitOpenId(id);
      Some(OpenTicket(parts[2], if |parts| > 3 then Some(parts[3]) else None))
    else if StartsWith(id, "claim_") then Some(Claim(ChannelIdOf(id, "claim")))
    else if StartsWith(id, "unclaim_") then Some(Unclaim(ChannelIdOf(id, "unclaim")))
    else if StartsWith(id, "close_") then Some(Close(ChannelIdOf(id, "close")))
    else None
  }

  function SplitOpenId(id: string): (parts: seq<string>)
    requires StartsWith(id, OpenPrefix)
    ensures parts == Split(id, "_") && |parts| >= 3
  {
    assert id == OpenPrefix + id[|OpenPrefix|..];
    SplitOpen(id[|OpenPrefix|..]);
    Split(id, "_")
  }

  /** `id.split("_")[1]` for an id `word_...`. */
  function ChannelIdOf(id: string, word: string): (channelId: string)
    requires '_' !in word && StartsWith(id, word + "_")
    ensures |Split(id, "_")| >= 2 && channelId == Split(id, "_")[1]
  {
    assert |word + "_"| <= |id|;
    var rest := id[|word| + 1..];
    assert id == word + "_" + rest;
    SplitPrefixed(word, rest);
    Split(rest, "_")[0]
  }

  /** The listeners that compare the whole id (index.js:331, 472-483, 490). */
  function ExactAction(id: string): Option<Action> {
    if id == "create_support_ticket" then Some(CreateSupportTicket)
    else if id == "close_ticket" then Some(CloseTicketPrompt)
    else if id == "confirm_close" then Some(ConfirmClose)
    else if id == "cancel_close" then Some(CancelClose)
    else if id == "verify_user" then Some(VerifyUser)
    else None
  }

  /** The actions one button press triggers, in listener order: the
      listeners for whole ids were registered before the slayer listener. */
  function Handlers(id: string): seq<Action> {
    (match ExactAction(id) case Some(a) => [a] case None => [])
    + (match SlayerAction(id) case Some(a) => [a] case None => [])
  }

  /** A panel button `open_ticket_<slayer>_<tier>` opens that slayer's
      ticket at that tier, and nothing else happens. */
  lemma OpenTagRoundTrip(slayer: string, tier: string)
    requires '_' !in slayer && '_' !in tier
    ensures Handlers(OpenPrefix + slayer + "_" + tier) == [OpenTicket(slayer, Some(tier))]
  {
    var id := OpenPrefix + slayer + "_" + tier;
    assert OpenPrefix <= id;
    assert ExactAction(id) == None by { assert id[0] == 'o'; }
    assert id == OpenPrefix + (slayer + "_" + tier);
    SplitOpen(slayer + "_" + tier);
    SplitPrefixed(slayer, tier);
    SplitNoSeparator(tier, '_');
  }

  /** A panel button `open_ticket_<slayer>` opens a ticket whose tier is
      `undefined`. */
  lemma OpenTagWithoutTier(slayer: string)
    requires '_' !in slayer
    ensures Handlers(OpenPrefix + slayer) == [OpenTicket(slayer, None)]
  {
    var id := OpenPrefix + slayer;
    assert OpenPrefix <= id;
    assert ExactAction(id) == None by { assert id[0] == 'o'; }
    SplitOpen(slayer);
    SplitNoSeparator(slayer, '_');
  }

  /** The buttons posted in a new ticket (index.js:632-644) reach the claim,
      unclaim and close handlers with that ticket's channel id. */
  lemma TicketButtonsRoundTrip(channelId: Snowflake)
    requires '_' !in channelId
    ensures Handlers("claim_" + channelId) == [Claim(channelId)]
    ensures Handlers("unclaim_" + channelId) == [Unclaim(channelId)]
  {
    ButtonRoundTrip("claim", channelId);
    ButtonRoundTrip("unclaim", channelId);
    ClaimNotExact(channelId);
    UnclaimNotExact(channelId);
  }

  /** No whole-id listener answers a claim button. */
  lemma ClaimNotExact(channelId: Snowflake)
    ensures ExactAction("claim_" + channelId) == None
  {
    var claim := "claim_" + channelId;
    assert claim[..3] == "cla";
    DiffersAt(claim, "create_support_ticket", 1);
    DiffersAt(claim, "close_ticket", 2);
    DiffersAt(claim, "confirm_close", 1);
    DiffersAt(claim, "cancel_close", 1);
    DiffersAt(claim, "verify_user", 0);
  }

  /** No whole-id listener answers an unclaim button. */
  lemma UnclaimNotExact(channelId: Snowflake)
    ensures ExactAction("unclaim_" + channelId) == None
  {
    var unclaim := "unclaim_" + channelId;
    assert unclaim[0] == 'u';
    DiffersAt(unclaim, "create_support_ticket", 0);
    DiffersAt(unclaim, "close_ticket", 0);
    DiffersAt(unclaim, "confirm_close", 0);
    DiffersAt(unclaim, "cancel_close", 0);
    DiffersAt(unclaim, "verify_user", 0);
  }

  /** The close button of a slayer ticket reaches the slayer handler alone,
      except for the one channel id ("ticket") whose button reads
      `close_ticket`, which the close-confirmation listener also answers. */
  lemma CloseButtonRoundTrip(channelId: Snowflake)
    requires '_' !in channelId
    ensures Handlers("close_" + channelId)
      == (if channelId == "ticket" then [CloseTicketPrompt] else []) + [Close(channelId)]
  {
    ButtonRoundTrip("close", channelId);
    var id := "close_" + channelId;
    if channelId == "ticket" {
      assert id == "close_ticket";
    } else {
      CloseNotExact(channelId);
    }
  }

  /** Only the close button of channel "ticket" is a whole id. */
  lemma CloseNotExact(channelId: Snowflake)
    requires channelId != "ticket"
    ensures ExactAction("close_" + channelId) == None
  {
    var id := "close_" + channelId;
    assert id[..3] == "clo";
    DiffersAt(id, "create_support_ticket", 1);
    DiffersAt(id, "confirm_close", 1);
    DiffersAt(id, "cancel_close", 1);
    DiffersAt(id, "verify_user", 0);
    assert id[6..] == channelId;
    assert "close_ticket"[6..] == "ticket";
  }

  lemma DiffersAt(a: string, b: string, i: nat)
    requires i < |a| && i < |b| && a[i] != b[i]
    ensures a != b
  {
  }

  lemma ButtonRoundTrip(word: string, channelId: Snowflake)
    requires word in {"claim", "unclaim", "close"} && '_' !in channelId
    ensures SlayerAction(word + "_" + channelId)
      == Some(if word == "claim" then Claim(channelId)
              else if word == "unclaim" then Unclaim(channelId)
              else Close(channelId))
  {
    var id := word + "_" + channelId;
    SplitPrefixed(word, channelId);
    SplitNoSeparator(channelId, '_');
    assert !StartsWith(id, OpenPrefix) by {
      assert id[0] != 'o';
    }
    if word == "claim" {
      assert id[..6] == "claim_";
    } else if word == "unclaim" {
      assert id[0] == 'u' && id[..8] == "unclaim_";
      assert !StartsWith(id, "claim_");
    } else {
      assert id[2] == 'o' && id[0] == 'c' && id[..6] == "close_";
      assert !StartsWith(id, "claim_") by { assert "claim_"[2] == 'a'; }
      assert !StartsWith(id, "unclaim_") by { assert "unclaim_"[0] == 'u'; }
    }
  }
}
