/** Which roles may see and claim a slayer ticket, and how the slayer and
    tier are read back out of a ticket channel's name. */
module Entitlement {
  import opened Options
  import opened Text
  import opened Platform
  import opened Guilds

  // ---------------------------------------------------------------------
  // The slayer table (index.js:547-554)
  // ---------------------------------------------------------------------

  /** `ticketCategories[slayer]`: the category a slayer's tickets go in;
      `None` for any other key (the lookup yields `undefined`). */
  function TicketCategory(slayer: string): (r: Option<string>)
    ensures r.Some? <==> IsSlayer(slayer)
  {
    if slayer == "revenant" then Some("Revenant Slayer")
    else if slayer == "tarantula" then Some("Tarantula Slayer")
    else if slayer == "sven" then Some("Sven Slayer")
    else if slayer == "enderman" then Some("Enderman Slayer")
    else if slayer == "blaze" then Some("Blaze Slayer")
    else if slayer == "vampire" then Some("Vampire Slayer")
    else None
  }

  predicate IsSlayer(slayer: string) {
    slayer in {"revenant", "tarantula", "sven", "enderman", "blaze", "vampire"}
  }

  /** Each category is named after its capitalised slayer, as the ticket's
      embed footer `V0 | ${capitalize(slayerName)} Slayer` also is. */
  lemma CategoryNamed(slayer: string)
    requires IsSlayer(slayer)
    ensures TicketCategory(slayer) == Some(Capitalize(slayer) + " Slayer")
  {
    if slayer in {"revenant", "tarantula", "sven"} {
      FirstCategoriesNamed(slayer);
    } else {
      LastCategoriesNamed(slayer);
    }
  }

  /** `CategoryNamed` for the first three rows of the table. */
  lemma FirstCategoriesNamed(slayer: string)
    requires slayer in {"revenant", "tarantula", "sven"}
    ensures TicketCategory(slayer) == Some(Capitalize(slayer) + " Slayer")
  {
    if slayer == "revenant" {
      CapitalizedCategory(slayer, "Revenant Slayer");
    } else if slayer == "tarantula" {
      CapitalizedCategory(slayer, "Tarantula Slayer");
    } else {
      CapitalizedCategory(slayer, "Sven Slayer");
    }
  }

  /** `CategoryNamed` for the last three rows of the table. */
  lemma LastCategoriesNamed(slayer: string)
    requires slayer in {"enderman", "blaze", "vampire"}
    ensures TicketCategory(slayer) == Some(Capitalize(slayer) + " Slayer")
  {
    if slayer == "enderman" {
      CapitalizedCategory(slayer, "Enderman Slayer");
    } else if slayer == "blaze" {
      CapitalizedCategory(slayer, "Blaze Slayer");
    } else {
      CapitalizedCategory(slayer, "Vampire Slayer");
    }
  }

  /** A category name that is its slayer with the first letter upper-cased,
      then " Slayer". */
  lemma CapitalizedCategory(slayer: string, category: string)
    requires slayer != [] && |category| == |slayer| + 7
    requires category[0] == UpperChar(slayer[0])
    requires forall i :: 1 <= i < |slayer| ==> category[i] == slayer[i]
    requires category[|slayer|..] == " Slayer"
    ensures category == Capitalize(slayer) + " Slayer"
  {
  }

  /** Every slayer key is lower-case letters only. */
  lemma SlayerLetters(slayer: string)
    requires IsSlayer(slayer)
    ensures forall j :: 0 <= j < |slayer| ==> 'a' <= slayer[j] <= 'z'
  {
  }

  // ---------------------------------------------------------------------
  // The role-name tier: `name.match(/tier\s*(\d+)/i)` (index.js:602)
  // ---------------------------------------------------------------------

  /** The pattern matches at `p`: "tier" in any letter case, white space,
      then at least one decimal digit. */
  predicate TierMatchAt(s: string, p: nat) {
    p + 4 <= |s| && Lower(s[p..p + 4]) == "tier"
    && var k := SkipSpace(s, p + 4); k < |s| && IsDigit(s[k])
  }

  /** `parseInt(match[1])` for a match at `p`: the value of the digit run. */
  function TierNumberAt(s: string, p: nat): nat
    requires TierMatchAt(s, p)
  {
    NumeralValue(DigitRun(s[SkipSpace(s, p + 4)..], false), false)
  }

  /** The leftmost match at or after `p`, as a regular expression finds it. */
  function TierFrom(s: string, p: nat): (r: Option<nat>)
    decreases |s| - p
    ensures r.None? <==> forall q :: p <= q ==> !TierMatchAt(s, q)
    ensures r.Some? ==> exists q :: p <= q && TierMatchAt(s, q) && r.value == TierNumberAt(s, q)
                           && forall q' :: p <= q' < q ==> !TierMatchAt(s, q')
  {
    if p + 4 > |s| then None
    else if TierMatchAt(s, p) then Some(TierNumberAt(s, p))
    else TierFrom(s, p + 1)
  }

  /** The tier a role name declares, if any. */
  function RoleTier(name: string): Option<nat> {
    TierFrom(name, 0)
  }

  // ---------------------------------------------------------------------
  // Entitlement (index.js:597-606, 677-685, 725-733)
  // ---------------------------------------------------------------------

  /** A role is entitled for `slayer` at tier `minTier` when its lower-cased
      name contains the slayer and it declares a tier no lower than
      `minTier`; `minTier` is `None` when the tier is not a number (NaN),
      and a comparison with NaN never holds. */
  predicate Entitled(name: string, slayer: string, minTier: Option<int>) {
    Contains(Lower(name), slayer)
    && RoleTier(name).Some? && minTier.Some? && RoleTier(name).value >= minTier.value
  }

  /** The ids of the entitled roles, in the guild's role order. */
  function EntitledRoles(roles: seq<Role>, slayer: string, minTier: Option<int>): (ids: seq<Snowflake>)
    ensures |ids| <= |roles|
  {
    IdsWhere(roles, (r: Role) => Entitled(r.name, slayer, minTier))
  }

  /** `roles.filter(keep)`, as the ids of the roles kept, in order. */
  function IdsWhere(roles: seq<Role>, keep: Role -> bool): (ids: seq<Snowflake>)
    ensures |ids| <= |roles|
  {
    if roles == [] then []
    else (if keep(roles[0]) then [roles[0].id] else []) + IdsWhere(roles[1..], keep)
  }

  lemma {:induction false} IdsWhereMembers(roles: seq<Role>, keep: Role -> bool, id: Snowflake)
    ensures id in IdsWhere(roles, keep) <==> exists i :: 0 <= i < |roles| && roles[i].id == id && keep(roles[i])
  {
    if roles != [] {
      var tail := roles[1..];
      IdsWhereMembers(tail, keep, id);
      if id in IdsWhere(tail, keep) {
        var i :| 0 <= i < |tail| && tail[i].id == id && keep(tail[i]);
        assert roles[i + 1] == tail[i];
      }
      if exists i :: 0 <= i < |roles| && roles[i].id == id && keep(roles[i]) {
        var i :| 0 <= i < |roles| && roles[i].id == id && keep(roles[i]);
        if i > 0 {
          assert tail[i - 1] == roles[i];
        }
      }
    }
  }

  /** An id is listed exactly when some role with that id is entitled. */
  lemma EntitledRolesMembers(roles: seq<Role>, slayer: string, minTier: Option<int>, id: Snowflake)
    ensures id in EntitledRoles(roles, slayer, minTier)
      <==> exists i :: 0 <= i < |roles| && roles[i].id == id && Entitled(roles[i].name, slayer, minTier)
  {
    IdsWhereMembers(roles, (r: Role) => Entitled(r.name, slayer, minTier), id);
  }

  /** A role that declares no tier is never entitled, nor is any role when
      the ticket's tier is not a number. */
  lemma NeverEntitled(roles: seq<Role>, slayer: string, minTier: Option<int>, i: nat)
    requires i < |roles|
    requires RoleTier(roles[i].name).None? || minTier.None?
    ensures roles[i].id in EntitledRoles(roles, slayer, minTier)
      ==> exists j :: 0 <= j < |roles| && j != i && roles[j].id == roles[i].id
  {
    EntitledRolesMembers(roles, slayer, minTier, roles[i].id);
  }

  /** Raising the tier can only shrink the entitled roles. */
  lemma EntitledMonotone(roles: seq<Role>, slayer: string, low: int, high: int)
    requires low <= high
    ensures forall id :: id in EntitledRoles(roles, slayer, Some(high)) ==> id in EntitledRoles(roles, slayer, Some(low))
  {
    forall id | id in EntitledRoles(roles, slayer, Some(high))
      ensures id in EntitledRoles(roles, slayer, Some(low))
    {
      EntitledRolesMembers(roles, slayer, Some(high), id);
      EntitledRolesMembers(roles, slayer, Some(low), id);
    }
  }

  // ---------------------------------------------------------------------
  // Reading a ticket channel's name
  // ---------------------------------------------------------------------

  /** The name a new slayer ticket gets: `${slayer}-t${tier}-${username}`,
      lower-cased by the platform (index.js:611). */
  function TicketName(slayer: string, tierText: string, username: string): string {
    Lower(slayer + "-t" + tierText + "-" + username)
  }

  /** The first decimal digit of a string, as `s.match(/\d/)` finds it. */
  function FirstDigit(s: string): (r: Option<nat>)
    ensures r.None? <==> forall j :: 0 <= j < |s| ==> !IsDigit(s[j])
    ensures r.Some? ==> exists j :: 0 <= j < |s| && IsDigit(s[j]) && r.value == DigitValue(s[j])
                           && forall j' :: 0 <= j' < j ==> !IsDigit(s[j'])
  {
    if s == [] then None
    else if IsDigit(s[0]) then Some(DigitValue(s[0]))
    else
      var r := FirstDigit(s[1..]);
      assert forall j :: 0 < j < |s| ==> s[j] == s[1..][j - 1];
      r
  }

  /** `const [slayerName, tier] = channel.name.split("-t")` (index.js:672). */
  function ClaimSlayer(name: string): string {
    Split(name, "-t")[0]
  }

  /** `tier?.match(/\d/)` then `parseInt(match[0])` (index.js:673-675):
      the first digit of the segment after the first "-t", or `None` when
      there is no such segment or no digit in it. */
  function ClaimTier(name: string): Option<nat> {
    var parts := Split(name, "-t");
    if |parts| < 2 then None else FirstDigit(parts[1])
  }

  /** A "-t" followed by a digit starts at index `p` of `name`. */
  predicate MinusTDigitAt(name: string, p: int) {
    0 <= p && p + 2 < |name| && name[p] == '-' && name[p + 1] == 't' && IsDigit(name[p + 2])
  }

  /** `name.match(/-t(\d)/)?.[1] || 0` (index.js:758): the digit of the
      leftmost "-t<digit>", else 0. */
  function SortTier(name: string): (t: nat)
    ensures t < 10
  {
    if |name| < 3 then 0
    else if MinusTDigitAt(name, 0) then DigitValue(name[2])
    else SortTier(name[1..])
  }

  /** The sort tier is the digit of the leftmost "-t<digit>", and 0 when
      the name has none. */
  lemma {:induction false} SortTierLeftmost(name: string)
    ensures (forall p :: !MinusTDigitAt(name, p)) ==> SortTier(name) == 0
    ensures forall p :: MinusTDigitAt(name, p) && (forall q :: 0 <= q < p ==> !MinusTDigitAt(name, q)) ==>
      SortTier(name) == DigitValue(name[p + 2])
  {
    if |name| >= 3 && !MinusTDigitAt(name, 0) {
      SortTierLeftmost(name[1..]);
      MinusTDigitShift(name);
      LeftmostShift(name);
    }
  }

  /** Dropping the first character shifts every "-t<digit>" down by one. */
  lemma MinusTDigitShift(name: string)
    requires name != []
    ensures forall p :: 0 <= p ==> (MinusTDigitAt(name[1..], p) <==> MinusTDigitAt(name, p + 1))
  {
    forall p | 0 <= p ensures MinusTDigitAt(name[1..], p) <==> MinusTDigitAt(name, p + 1) {
      if 0 <= p && p + 2 < |name| - 1 {
        assert name[1..][p] == name[p + 1] && name[1..][p + 1] == name[p + 2] && name[1..][p + 2] == name[p + 3];
      }
    }
  }

  /** When "-t<digit>" does not start the name, its leftmost occurrence is
      the leftmost one of the rest, one place earlier. */
  lemma LeftmostShift(name: string)
    requires name != [] && !MinusTDigitAt(name, 0)
    ensures forall p :: MinusTDigitAt(name, p) && (forall q :: 0 <= q < p ==> !MinusTDigitAt(name, q)) ==>
      && p >= 1 && MinusTDigitAt(name[1..], p - 1) && name[1..][p + 1] == name[p + 2]
      && forall q :: 0 <= q < p - 1 ==> !MinusTDigitAt(name[1..], q)
  {
    MinusTDigitShift(name);
    forall p | MinusTDigitAt(name, p) && (forall q :: 0 <= q < p ==> !MinusTDigitAt(name, q))
      ensures p >= 1 && MinusTDigitAt(name[1..], p - 1) && name[1..][p + 1] == name[p + 2]
      ensures forall q :: 0 <= q < p - 1 ==> !MinusTDigitAt(name[1..], q)
    {
      assert MinusTDigitAt(name[1..], p - 1) <==> MinusTDigitAt(name, p - 1 + 1);
      forall q | 0 <= q < p - 1 ensures !MinusTDigitAt(name[1..], q) {
        assert !MinusTDigitAt(name, q + 1);
      }
    }
  }

  /** A string with no '-' has no "-t" anywhere, even one that runs into
      the "-t" written after it. */
  lemma NoHyphenSplit(a: string, b: string)
    requires '-' !in a
    ensures Split(a + "-t" + b, "-t") == [a] + Split(b, "-t")
  {
    forall j | 0 <= j < |a| ensures !OccursAt(a + "-t", "-t", j) {
      assert (a + "-t")[j] == a[j];
    }
    SplitAfter(a, "-t", b);
  }

  /** A ticket's name is the slayer, "-t", then the lower-cased rest. */
  lemma TicketNameParts(slayer: string, tierText: string, username: string)
    requires IsSlayer(slayer)
    ensures TicketName(slayer, tierText, username) == slayer + "-t" + (Lower(tierText) + "-" + Lower(username))
  {
    SlayerLetters(slayer);
    LowerOfLower(slayer);
    LowerAppend(slayer, "-t" + tierText + "-" + username);
    LowerAppend("-t", tierText + "-" + username);
    LowerAppend(tierText, "-" + username);
    LowerAppend("-", username);
    assert slayer + "-t" + tierText + "-" + username == slayer + ("-t" + (tierText + ("-" + username)));
  }

  /** Reading back a name `a-t<rest>` whose slayer part has no '-' and
      whose rest starts with a digit. */
  lemma ReadBack(a: string, rest: string)
    requires '-' !in a && rest != [] && IsDigit(rest[0])
    ensures ClaimSlayer(a + "-t" + rest) == a
    ensures ClaimTier(a + "-t" + rest) == Some(DigitValue(rest[0]))
    ensures SortTier(a + "-t" + rest) == DigitValue(rest[0])
  {
    NoHyphenSplit(a, rest);
    var tail := Split(rest, "-t");
    SplitHead(rest, "-t");
    SplitHeadNonEmpty(rest);
    assert tail[0][0] == rest[0];
    SortTierAt(a, rest);
  }

  /** The slayer and tier of a ticket opened with a one-digit tier read back
      as they were opened: the claim and unclaim handlers see the slayer
      and tier the ticket was opened with, and so the same entitled roles,
      and the sort sees the same tier. */
  lemma OpenClaimAgree(slayer: string, d: char, username: string, roles: seq<Role>)
    requires IsSlayer(slayer) && IsDigit(d)
    ensures var name := TicketName(slayer, [d], username);
      && ClaimSlayer(name) == slayer
      && ClaimTier(name) == Some(DigitValue(d))
      && SortTier(name) == DigitValue(d)
      && EntitledRoles(roles, ClaimSlayer(name), ClaimTier(name)) == EntitledRoles(roles, slayer, JsParseInt([d], Auto))
  {
    TicketNameParts(slayer, [d], username);
    assert Lower([d]) == [d];
    SlayerLetters(slayer);
    ReadBack(slayer, [d] + "-" + Lower(username));
    ParseWholeNumeral([d], Auto);
    assert NumeralValue([d], false) == DigitValue(d) by {
      assert [d][..0] == [];
    }
  }

  /** A ticket opened without a tier is named `<slayer>-tundefined-<user>`:
      unless the user name itself supplies a "-t<digit>" (with the "-"
      written before it), the sort reads tier 0 and puts it last. */
  lemma TierlessSortsLast(slayer: string, username: string)
    requires IsSlayer(slayer)
    requires forall p :: !MinusTDigitAt("-" + Lower(username), p)
    ensures SortTier(TicketName(slayer, "undefined", username)) == 0
  {
    var b := "-" + Lower(username);
    LowerOfLower("undefined");
    TicketNameShape(slayer, "undefined", username);
    SlayerLetters(slayer);
    SortTierPrefix(slayer, "-t" + "undefined" + b);
    UndefinedTierSkipped(b);
    SortTierLeftmost(b);
  }

  /** The name of a ticket whose tier text is already lower case. */
  lemma TicketNameShape(slayer: string, tierText: string, username: string)
    requires IsSlayer(slayer) && Lower(tierText) == tierText
    ensures TicketName(slayer, tierText, username) == slayer + ("-t" + tierText + ("-" + Lower(username)))
  {
    TicketNameParts(slayer, tierText, username);
  }

  /** The "-tundefined" of a tierless ticket name is no "-t<digit>". */
  lemma UndefinedTierSkipped(b: string)
    ensures SortTier("-t" + "undefined" + b) == SortTier(b)
  {
    var s := "-t" + "undefined" + b;
    assert s[2] == 'u' && s[1..] == "t" + "undefined" + b;
    assert SortTier(s) == SortTier(s[1..]);
    SortTierPrefix("t" + "undefined", b);
  }

  /** Characters other than '-' in front of a name do not change its sort tier. */
  lemma {:induction false} SortTierPrefix(a: string, b: string)
    requires forall j :: 0 <= j < |a| ==> a[j] != '-'
    ensures SortTier(a + b) == SortTier(b)
  {
    if a != [] {
      var s := a + b;
      assert s[0] == a[0] && s[1..] == a[1..] + b;
      SortTierPrefix(a[1..], b);
      if |s| >= 3 {
        assert !MinusTDigitAt(s, 0);
        assert SortTier(s) == SortTier(s[1..]);
      } else {
        assert SortTier(s) == 0 && SortTier(b) == 0;
      }
    } else {
      assert a + b == b;
    }
  }

  /** The first segment of a split is a prefix of the string. */
  lemma SplitHead(s: string, sep: string)
    requires sep != []
    ensures Split(s, sep)[0] <= s
  {
  }

  /** A string starting with a digit has a non-empty first "-t" segment. */
  lemma SplitHeadNonEmpty(s: string)
    requires s != [] && IsDigit(s[0])
    ensures Split(s, "-t")[0] != []
  {
    assert !OccursAt(s, "-t", 0);
  }

  /** The sort tier of `a + "-t" + rest`, when `a` has no '-' and `rest`
      starts with a digit, is that digit. */
  lemma {:induction false} SortTierAt(a: string, rest: string)
    requires '-' !in a && rest != [] && IsDigit(rest[0])
    ensures SortTier(a + "-t" + rest) == DigitValue(rest[0])
  {
    var s := a + "-t" + rest;
    if a != [] {
      assert !MinusTDigitAt(s, 0) by { assert s[0] == a[0]; }
      assert s[1..] == a[1..] + "-t" + rest;
      SortTierAt(a[1..], rest);
    } else {
      assert MinusTDigitAt(s, 0) && s[2] == rest[0];
    }
  }

  /** A ticket opened with tier "10" admits roles of tier 10 and above, but
      its name claims and sorts as tier 1: the one-digit reading of channel
      names and the many-digit reading of role names disagree. */
  lemma MultiDigitTier(slayer: string, username: string)
    requires IsSlayer(slayer)
    ensures JsParseInt("10", Auto) == Some(10)
    ensures ClaimTier(TicketName(slayer, "10", username)) == Some(1)
    ensures SortTier(TicketName(slayer, "10", username)) == 1
  {
    TicketNameParts(slayer, "10", username);
    assert Lower("10") == "10";
    SlayerLetters(slayer);
    ReadBack(slayer, "10" + "-" + Lower(username));
    ParseWholeNumeral("10", Auto);
    assert NumeralValue("10", false) == 10 by {
      assert "10"[..1] == "1";
      assert "1"[..0] == [];
    }
  }
}
