/**
  The owner-only commands' own logic (OwnerCmd.java): the blacklist dispatch over the global
  guild and user blacklists, the give-item cap, the player transfer, the statement rewrite of
  the Java evaluator, and the premium extension. Discord lookups are sets of ids that resolve,
  the database is maps and objects held by the caller, and replies are values.
*/
module Owner {
  import opened Wrappers
  import opened JavaLang

  // ---------------------------------------------------------------------------------------
  // blacklist

  /** What the blacklist command answers; Silent is a return without a message. */
  datatype BlacklistReply =
    | Silent
    | BlacklistedGuild(guild: string) | UnblacklistedGuild(guild: string)
    | BlacklistedUser(user: string) | UnblacklistedUser(user: string)
    | CantFindUser | UserNotInBlacklist
    | InvalidGuildScope | InvalidUserScope | InvalidScope
    | MissingArgument  // an ArrayIndexOutOfBoundsException on a missing argument

  predicate IsErrorReply(r: BlacklistReply)
  {
    r.Silent? || r.CantFindUser? || r.UserNotInBlacklist? || r.InvalidGuildScope? ||
    r.InvalidUserScope? || r.InvalidScope? || r.MissingArgument?
  }

  /** The two lists of MantaroObj the command edits. */
  datatype Blacklists = Blacklists(guilds: set<string>, users: set<string>)

  /**
    The blacklist command: scope args[0] ("guild" or "user"), action args[1] ("add" or
    "remove"), id args[2]. Adding a guild needs the guild to resolve (else a silent return);
    removing one needs it listed (else a silent return). Adding a user needs the user to
    resolve; removing one needs it listed; both answer when they refuse.
  */
  function Blacklist(args: seq<string>, knownGuilds: set<string>, knownUsers: set<string>, lists: Blacklists)
    : (BlacklistReply, Blacklists)
  {
    if |args| < 1 then (MissingArgument, lists)
    else if args[0] == "guild" then
      if |args| < 2 then (MissingArgument, lists)
      else if args[1] == "add" then
        if |args| < 3 then (MissingArgument, lists)
        else if args[2] !in knownGuilds then (Silent, lists)
        else (BlacklistedGuild(args[2]), lists.(guilds := lists.guilds + {args[2]}))
      else if args[1] == "remove" then
        if |args| < 3 then (MissingArgument, lists)
        else if args[2] !in lists.guilds then (Silent, lists)
        else (UnblacklistedGuild(args[2]), lists.(guilds := lists.guilds - {args[2]}))
      else (InvalidGuildScope, lists)
    else if args[0] == "user" then
      if |args| < 2 then (MissingArgument, lists)
      else if args[1] == "add" then
        if |args| < 3 then (MissingArgument, lists)
        else if args[2] !in knownUsers then (CantFindUser, lists)
        else (BlacklistedUser(args[2]), lists.(users := lists.users + {args[2]}))
      else if args[1] == "remove" then
        if |args| < 3 then (MissingArgument, lists)
        else if args[2] !in lists.users then (UserNotInBlacklist, lists)
        else (UnblacklistedUser(args[2]), lists.(users := lists.users - {args[2]}))
      else (InvalidUserScope, lists)
    else (InvalidScope, lists)
  }

  /**
    A refusal or error changes neither list; a success changes only the list of its scope,
    and by only the id it names, which is then listed (add) or not (remove).
  */
  lemma BlacklistReplyMatchesLists(args: seq<string>, knownGuilds: set<string>, knownUsers: set<string>, lists: Blacklists)
    ensures var (reply, after) := Blacklist(args, knownGuilds, knownUsers, lists);
      (IsErrorReply(reply) ==> after == lists) &&
      (reply.BlacklistedGuild? ==> after == lists.(guilds := lists.guilds + {reply.guild}) && reply.guild in knownGuilds) &&
      (reply.UnblacklistedGuild? ==> after == lists.(guilds := lists.guilds - {reply.guild}) && reply.guild in lists.guilds) &&
      (reply.BlacklistedUser? ==> after == lists.(users := lists.users + {reply.user}) && reply.user in knownUsers) &&
      (reply.UnblacklistedUser? ==> after == lists.(users := lists.users - {reply.user}) && reply.user in lists.users)
  {
  }

  /** Each scope has its own list: a guild command never touches users and vice versa. */
  lemma BlacklistScopes(args: seq<string>, knownGuilds: set<string>, knownUsers: set<string>, lists: Blacklists)
    ensures |args| >= 1 && args[0] == "guild" ==> Blacklist(args, knownGuilds, knownUsers, lists).1.users == lists.users
    ensures |args| >= 1 && args[0] == "user" ==> Blacklist(args, knownGuilds, knownUsers, lists).1.guilds == lists.guilds
    ensures |args| >= 1 && args[0] != "guild" && args[0] != "user" ==>
      Blacklist(args, knownGuilds, knownUsers, lists) == (InvalidScope, lists)
    ensures |args| >= 2 && args[0] == "guild" && args[1] != "add" && args[1] != "remove" ==>
      Blacklist(args, knownGuilds, knownUsers, lists) == (InvalidGuildScope, lists)
    ensures |args| >= 2 && args[0] == "user" && args[1] != "add" && args[1] != "remove" ==>
      Blacklist(args, knownGuilds, knownUsers, lists) == (InvalidUserScope, lists)
  {
  }

  /** Blacklisting a resolvable id that was not listed and then unblacklisting it restores the lists. */
  lemma BlacklistAddThenRemove(scope: string, id: string, knownGuilds: set<string>, knownUsers: set<string>, lists: Blacklists)
    requires scope == "guild" ==> id in knownGuilds && id !in lists.guilds
    requires scope == "user" ==> id in knownUsers && id !in lists.users
    ensures var added := Blacklist([scope, "add", id], knownGuilds, knownUsers, lists).1;
      Blacklist([scope, "remove", id], knownGuilds, knownUsers, added).1 == lists
  {
    if scope == "guild" {
      assert lists.guilds + {id} - {id} == lists.guilds;
    } else if scope == "user" {
      assert lists.users + {id} - {id} == lists.users;
    }
  }

  /** Adding twice is adding once. */
  lemma BlacklistAddIdempotent(scope: string, id: string, knownGuilds: set<string>, knownUsers: set<string>, lists: Blacklists)
    ensures var once := Blacklist([scope, "add", id], knownGuilds, knownUsers, lists).1;
      Blacklist([scope, "add", id], knownGuilds, knownUsers, once).1 == once
  {
  }

  /** MantaroObj, the global document holding the blacklists. */
  class MantaroObj {
    var blackListedGuilds: set<string>
    var blackListedUsers: set<string>

    constructor ()
      ensures blackListedGuilds == {} && blackListedUsers == {}
    {
      blackListedGuilds, blackListedUsers := {}, {};
    }

    function Lists(): Blacklists
      reads this
    {
      Blacklists(blackListedGuilds, blackListedUsers)
    }

    /** The blacklist command run against this document. */
    method RunBlacklist(args: seq<string>, knownGuilds: set<string>, knownUsers: set<string>)
      returns (reply: BlacklistReply)
      modifies this
      ensures (reply, Lists()) == Blacklist(args, knownGuilds, knownUsers, old(Lists()))
    {
      if |args| < 1 {
        return MissingArgument;
      }
      if args[0] == "guild" {
        if |args| < 2 {
          return MissingArgument;
        }
        if args[1] == "add" {
          if |args| < 3 {
            return MissingArgument;
          }
          if args[2] !in knownGuilds {
            return Silent;
          }
          blackListedGuilds := blackListedGuilds + {args[2]};
          return BlacklistedGuild(args[2]);
        } else if args[1] == "remove" {
          if |args| < 3 {
            return MissingArgument;
          }
          if args[2] !in blackListedGuilds {
            return Silent;
          }
          blackListedGuilds := blackListedGuilds - {args[2]};
          return UnblacklistedGuild(args[2]);
        }
        return InvalidGuildScope;
      }
      if args[0] == "user" {
        if |args| < 2 {
          return MissingArgument;
        }
        if args[1] == "add" {
          if |args| < 3 {
            return MissingArgument;
          }
          if args[2] !in knownUsers {
            return CantFindUser;
          }
          blackListedUsers := blackListedUsers + {args[2]};
          return BlacklistedUser(args[2]);
        } else if args[1] == "remove" {
          if |args| < 3 {
            return MissingArgument;
          }
          if args[2] !in blackListedUsers {
            return UserNotInBlacklist;
          }
          blackListedUsers := blackListedUsers - {args[2]};
          return UnblacklistedUser(args[2]);
        }
        return InvalidUserScope;
      }
      return InvalidScope;
    }
  }

  // ---------------------------------------------------------------------------------------
  // giveitem

  /** giveitem adds one more only while the player holds fewer than this many. */
  const ITEM_CAP: nat := 5000

  function Amount(items: map<string, nat>, item: string): nat
  {
    if item in items then items[item] else 0
  }

  /** The inventory after giveitem's guarded ItemStack(item, 1). */
  function AfterGive(items: map<string, nat>, item: string): (r: map<string, nat>)
    ensures Amount(items, item) < ITEM_CAP ==> Amount(r, item) == Amount(items, item) + 1
    ensures Amount(items, item) >= ITEM_CAP ==> r == items
    ensures Amount(items, item) <= ITEM_CAP ==> Amount(r, item) <= ITEM_CAP
    ensures forall other :: other != item ==> Amount(r, other) == Amount(items, other)
  {
    if Amount(items, item) < ITEM_CAP then items[item := Amount(items, item) + 1] else items
  }

  datatype GiveMessage = NeedItemName | ItemNotFound | TooManyOfItem | GaveYou(item: string)

  /** A player's inventory: item name to amount held. */
  class Inventory {
    var items: map<string, nat>

    constructor ()
      ensures items == map[]
    {
      items := map[];
    }

    /**
      The giveitem command; `found` is the item the content names, if any. At the cap the
      player is told there are too many and, as the command goes on, also "Gave you".
    */
    method GiveItem(content: string, found: Option<string>) returns (replies: seq<GiveMessage>)
      modifies this
      ensures content == [] ==> replies == [NeedItemName] && items == old(items)
      ensures content != [] && found.None? ==> replies == [ItemNotFound] && items == old(items)
      ensures content != [] && found.Some? ==>
        items == AfterGive(old(items), found.value) &&
        replies == (if Amount(old(items), found.value) < ITEM_CAP then [] else [TooManyOfItem]) + [GaveYou(found.value)]
    {
      if content == [] {
        return [NeedItemName];
      }
      if found.None? {
        return [ItemNotFound];
      }
      var item := found.value;
      replies := [];
      if Amount(items, item) < ITEM_CAP {
        items := items[item := Amount(items, item) + 1];
      } else {
        replies := replies + [TooManyOfItem];
      }
      replies := replies + [GaveYou(item)];
    }
  }

  // ---------------------------------------------------------------------------------------
  // transferplayer

  /** PlayerData: the fields the transfer copies, and the rest (kept by the target). */
  datatype PlayerData = PlayerData(
    experience: int, badges: seq<string>, showBadge: bool, marketUsed: int,
    mainBadge: Option<string>, gamesWon: int, others: map<string, string>)

  datatype Player = Player(money: int, level: int, reputation: int, inventory: map<string, nat>, data: PlayerData)

  /** Player.of(id): a player with nothing. */
  function FreshPlayer(): Player
  {
    Player(0, 0, 0, map[], PlayerData(0, [], false, 0, None, 0, map[]))
  }

  /** getPlayer: the stored player, or a fresh one. */
  function GetPlayer(db: map<string, Player>, id: string): Player
  {
    if id in db then db[id] else FreshPlayer()
  }

  /** Inventory.merge: amounts of the same item add up. */
  function Merge(into: map<string, nat>, from: map<string, nat>): (r: map<string, nat>)
    ensures forall item :: Amount(r, item) == Amount(into, item) + Amount(from, item)
  {
    map item | item in into.Keys + from.Keys :: Amount(into, item) + Amount(from, item)
  }

  /** The transfer request: the two ids, or None when they were not given. */
  function TransferRequest(content: string, args: seq<string>): (r: Option<(string, string)>)
    ensures r.None? <==> content == [] || |args| < 2
    ensures r.Some? ==> r.value == (args[0], args[1])
  {
    if content == [] || |args| < 2 then None else Some((args[0], args[1]))
  }

  datatype Answer = Ignored | Confirmed | Cancelled

  /** The confirmation dialogue: only the requester counts, with "yes" or "no" in any case. */
  function TransferAnswer(requester: int, responder: int, text: string): (a: Answer)
    ensures a == Confirmed <==> requester == responder && EqualsIgnoreCase(text, "yes")
    ensures a == Cancelled <==> requester == responder && EqualsIgnoreCase(text, "no")
  {
    if responder != requester then Ignored
    else if EqualsIgnoreCase(text, "yes") then Confirmed
    else if EqualsIgnoreCase(text, "no") then Cancelled
    else Ignored
  }

  /**
    The confirmed transfer: the target gets the source's money, level, reputation, experience,
    badges, showBadge, marketUsed, mainBadge and gamesWon, and the source's items merged into
    its own; the source is then saved fresh.
  */
  function Transfer(db: map<string, Player>, from: string, to: string): map<string, Player>
  {
    var source, target := GetPlayer(db, from), GetPlayer(db, to);
    var data := target.data.(experience := source.data.experience, badges := source.data.badges,
      showBadge := source.data.showBadge, marketUsed := source.data.marketUsed,
      mainBadge := source.data.mainBadge, gamesWon := source.data.gamesWon);
    var moved := Player(source.money, source.level, source.reputation,
      Merge(target.inventory, source.inventory), data);
    db[to := moved][from := FreshPlayer()]
  }

  /**
    What the transfer promises between two different players; every other player is untouched;
    and transferring a player to themselves leaves them fresh, as the reset is saved last.
  */
  lemma TransferMovesProgress(db: map<string, Player>, from: string, to: string)
    ensures var out := Transfer(db, from, to);
      out.Keys == db.Keys + {from, to} &&
      out[from] == FreshPlayer() &&
      (forall id :: id in db && id != from && id != to ==> out[id] == db[id]) &&
      (from != to ==>
        var source, target, moved := GetPlayer(db, from), GetPlayer(db, to), out[to];
        moved.money == source.money && moved.level == source.level &&
        moved.reputation == source.reputation &&
        moved.data == source.data.(others := target.data.others) &&
        forall item :: Amount(moved.inventory, item) == Amount(target.inventory, item) + Amount(source.inventory, item))
  {
  }

  // ---------------------------------------------------------------------------------------
  // The Java evaluator's statement: (code + ";").replaceAll(";{2,}", ";")

  /** The input after its leading run of ';'. */
  function DropSemicolons(s: string): (r: string)
    ensures |r| <= |s| && r == s[|s| - |r|..]
    ensures r == [] || r[0] != ';'
    ensures forall i :: 0 <= i < |s| - |r| ==> s[i] == ';'
  {
    if s != [] && s[0] == ';' then DropSemicolons(s[1..]) else s
  }

  /** replaceAll(";{2,}", ";"): every run of semicolons becomes a single one. */
  function CollapseSemicolons(s: string): (r: string)
    ensures r == [] <==> s == []
    ensures r != [] ==> (r[0] == ';' <==> s[0] == ';')
    decreases |s|
  {
    if s == [] then []
    else if s[0] == ';' then ";" + CollapseSemicolons(DropSemicolons(s))
    else [s[0]] + CollapseSemicolons(s[1..])
  }

  /** The statement spliced into the generated finally block. */
  function EvalStatement(code: string): string
  {
    CollapseSemicolons(code + ";")
  }

  predicate NoDoubleSemicolon(s: string)
  {
    forall i :: 0 <= i < |s| - 1 ==> !(s[i] == ';' && s[i + 1] == ';')
  }

  /** The characters other than ';', in order. */
  function WithoutSemicolons(s: string): string
  {
    if s == [] then [] else (if s[0] == ';' then [] else [s[0]]) + WithoutSemicolons(s[1..])
  }

  /** A text ends in ';' after collapsing exactly when it did before. */
  lemma {:induction false} CollapseLast(s: string)
    requires s != []
    ensures CollapseSemicolons(s)[|CollapseSemicolons(s)| - 1] == ';' <==> s[|s| - 1] == ';'
    decreases |s|
  {
    var rest := if s[0] == ';' then DropSemicolons(s) else s[1..];
    var r, tail := CollapseSemicolons(s), CollapseSemicolons(rest);
    assert r == [r[0]] + tail;
    if rest == [] {
      assert s[|s| - 1] == s[0];
    } else {
      CollapseLast(rest);
      assert s[|s| - 1] == rest[|rest| - 1];
    }
  }

  /** Collapsing leaves no two ';' in a row. */
  lemma {:induction false} CollapseNoDouble(s: string)
    ensures NoDoubleSemicolon(CollapseSemicolons(s))
    decreases |s|
  {
    if s != [] {
      var rest := if s[0] == ';' then DropSemicolons(s) else s[1..];
      CollapseNoDouble(rest);
      var r, tail := CollapseSemicolons(s), CollapseSemicolons(rest);
      assert r == [r[0]] + tail;
      forall i | 0 <= i < |r| - 1
        ensures !(r[i] == ';' && r[i + 1] == ';')
      {
        if i > 0 {
          assert r[i] == tail[i - 1] && r[i + 1] == tail[i];
        } else {
          assert r[1] == tail[0];
        }
      }
    }
  }

  lemma {:induction false} WithoutSemicolonsDrop(s: string)
    ensures WithoutSemicolons(DropSemicolons(s)) == WithoutSemicolons(s)
    decreases |s|
  {
    if s != [] && s[0] == ';' {
      WithoutSemicolonsDrop(s[1..]);
    }
  }

  /** Collapsing keeps every other character, in order. */
  lemma {:induction false} CollapseKeepsCode(s: string)
    ensures WithoutSemicolons(CollapseSemicolons(s)) == WithoutSemicolons(s)
    decreases |s|
  {
    if s != [] {
      if s[0] == ';' {
        CollapseKeepsCode(DropSemicolons(s));
        WithoutSemicolonsDrop(s);
        assert (";" + CollapseSemicolons(DropSemicolons(s)))[1..] == CollapseSemicolons(DropSemicolons(s));
      } else {
        CollapseKeepsCode(s[1..]);
        assert ([s[0]] + CollapseSemicolons(s[1..]))[1..] == CollapseSemicolons(s[1..]);
      }
    }
  }

  /** A text with no ";;" is left as it is. */
  lemma {:induction false} CollapseFixpoint(s: string)
    requires NoDoubleSemicolon(s)
    ensures CollapseSemicolons(s) == s
    decreases |s|
  {
    if s != [] {
      CollapseFixpoint(s[1..]);
      if s[0] == ';' {
        assert DropSemicolons(s) == s[1..];
      }
    }
  }

  /**
    The evaluator's statement ends in ';', holds no two ';' in a row, keeps the code's other
    characters in order, and rewriting it again changes nothing.
  */
  lemma EvalStatementShape(code: string)
    ensures var st := EvalStatement(code);
      |st| > 0 && st[|st| - 1] == ';' && NoDoubleSemicolon(st) &&
      WithoutSemicolons(st) == WithoutSemicolons(code) &&
      CollapseSemicolons(st) == st
  {
    var st := EvalStatement(code);
    CollapseLast(code + ";");
    CollapseNoDouble(code + ";");
    CollapseKeepsCode(code + ";");
    WithoutSemicolonsAppend(code, ";");
    CollapseFixpoint(st);
  }

  lemma {:induction false} WithoutSemicolonsAppend(a: string, b: string)
    ensures WithoutSemicolons(a + b) == WithoutSemicolons(a) + WithoutSemicolons(b)
    decreases |a|
  {
    if a == [] {
      assert a + b == b;
    } else {
      WithoutSemicolonsAppend(a[1..], b);
      assert (a + b)[0] == a[0];
      assert (a + b)[1..] == a[1..] + b;
    }
  }

  // ---------------------------------------------------------------------------------------
  // owner premium guild <id> <days>

  const MILLIS_PER_DAY: int := 86400000
  /** TimeUnit.DAYS.toMillis saturates beyond this many days either way. */
  const MAX_DAYS: int := LONG_MAX / MILLIS_PER_DAY

  /** TimeUnit.DAYS.toMillis: days times 86 400 000, saturated at the long range. */
  function DaysToMillis(days: int): (ms: int)
    requires IsInt64(days)
    ensures IsInt64(ms)
    ensures -MAX_DAYS <= days <= MAX_DAYS ==> ms == days * MILLIS_PER_DAY
    ensures days > MAX_DAYS ==> ms == LONG_MAX
    ensures days < -MAX_DAYS ==> ms == LONG_MIN
  {
    if days > MAX_DAYS then LONG_MAX
    else if days < -MAX_DAYS then LONG_MIN
    else days * MILLIS_PER_DAY
  }

  /** More days never give fewer milliseconds. */
  lemma DaysToMillisMonotone(d1: int, d2: int)
    requires IsInt64(d1) && IsInt64(d2) && d1 <= d2
    ensures DaysToMillis(d1) <= DaysToMillis(d2)
  {
  }

  datatype PremiumOutcome =
    | Extend(guild: string, millis: int)  // incrementPremium(millis) on the guild
    | NeedIdAndDays
    | Misuse                               // "You're not meant to use this incorrectly, silly."
    | Crash                                // an exception the command does not catch

  /** String.indexOf(char): the first index of `c`, or -1. */
  function IndexOfChar(s: string, c: char): (i: int)
    ensures -1 <= i < |s|
    ensures i >= 0 ==> s[i] == c && forall j :: 0 <= j < i ==> s[j] != c
    ensures i == -1 ==> forall j :: 0 <= j < |s| ==> s[j] != c
  {
    if s == [] then -1
    else if s[0] == c then 0
    else var k := IndexOfChar(s[1..], c); if k == -1 then -1 else k + 1
  }

  /**
    The owner command: content split once on whitespace; "premium" followed by "guild" up to
    the first space, then the id and the day count as the second and third pieces.
  */
  function PremiumCommand(content: string): PremiumOutcome
  {
    var args := SplitWhitespace(content, 2);
    if args[0] != "premium" then Misuse
    else if |args| < 2 then Crash
    else
      var space := IndexOfChar(args[1], ' ');
      if space < 0 then Crash
      else if args[1][..space] != "guild" then Misuse
      else
        var values := SplitWhitespace(args[1], 3);
        if |values| < 3 then NeedIdAndDays
        else match ParseLong(values[2])
          case None => Crash
          case Some(days) => Extend(values[1], DaysToMillis(days))
  }

  predicate NoSpaces(s: string) { forall i :: 0 <= i < |s| ==> !IsRegexSpace(s[i]) }

  lemma {:induction false} FirstSpaceOfWord(a: string, b: string)
    requires NoSpaces(a)
    ensures FirstSpace(a + " " + b) == |a|
    decreases |a|
  {
    if a != [] {
      FirstSpaceOfWord(a[1..], b);
      assert (a + " " + b)[1..] == a[1..] + " " + b;
    }
  }

  /** Splitting "a b" with a limit of two or more peels off `a`. */
  lemma SplitAtSpace(a: string, b: string, limit: nat)
    requires NoSpaces(a) && b != [] && !IsRegexSpace(b[0]) && limit >= 2
    ensures SplitWhitespace(a + " " + b, limit) == [a] + SplitWhitespace(b, limit - 1)
  {
    var s := a + " " + b;
    FirstSpaceOfWord(a, b);
    assert s[..|a|] == a;
    assert s[|a|..] == " " + b;
    assert DropSpaces(" " + b) == DropSpaces(b);
  }

  /** The command's steps on a content whose pieces are known. */
  lemma PremiumFromPieces(content: string, rest: string, id: string, digits: string, days: int)
    requires SplitWhitespace(content, 2) == ["premium", rest]
    requires IndexOfChar(rest, ' ') == 5 && rest[..5] == "guild"
    requires SplitWhitespace(rest, 3) == ["guild", id, digits]
    requires ParseLong(digits) == Some(days)
    ensures PremiumCommand(content) == Extend(id, DaysToMillis(days))
  {
  }

  /** A day count printed in decimal is one word that Long.parseLong reads back. */
  lemma DaysWord(days: nat)
    requires days <= LONG_MAX
    ensures NoSpaces(NatToString(days)) && NatToString(days) != []
    ensures ParseLong(NatToString(days)) == Some(days)
  {
    var digits := NatToString(days);
    NatToStringDigits(days);
    forall i | 0 <= i < |digits| ensures !IsRegexSpace(digits[i]) {
      assert IsDigit(digits[i]);
    }
    ParseIntegerToString(days, LONG_MIN, LONG_MAX);
    assert IntToString(days) == digits;
  }

  lemma {:induction false} IndexOfCharAfterWord(a: string, b: string, c: char)
    requires c !in a
    ensures IndexOfChar(a + [c] + b, c) == |a|
    ensures (a + [c] + b)[..|a|] == a
    decreases |a|
  {
    if a != [] {
      assert c !in a[1..] by {
        assert forall x :: x in a[1..] ==> x in a;
      }
      IndexOfCharAfterWord(a[1..], b, c);
      assert (a + [c] + b)[1..] == a[1..] + [c] + b;
    }
  }

  /** The first space of "guild ..." is the one after "guild". */
  lemma GuildIndex(x: string)
    ensures IndexOfChar("guild" + " " + x, ' ') == 5 && ("guild" + " " + x)[..5] == "guild"
  {
    IndexOfCharAfterWord("guild", x, ' ');
  }

  /** "id days" splits, with a limit of two, into the id and the days. */
  lemma IdAndDays(id: string, digits: string)
    requires NoSpaces(id) && digits != [] && NoSpaces(digits)
    ensures SplitWhitespace(id + " " + digits, 2) == [id, digits]
  {
    SplitAtSpace(id, digits, 2);
    assert SplitWhitespace(digits, 1) == [digits];
  }

  /** The part after "premium" splits, with a limit of three, into "guild", the id and the days. */
  lemma GuildArgument(id: string, digits: string)
    requires id != [] && NoSpaces(id) && digits != [] && NoSpaces(digits)
    ensures SplitWhitespace("guild" + " " + (id + " " + digits), 3) == ["guild", id, digits]
  {
    IdAndDays(id, digits);
    SplitAtSpace("guild", id + " " + digits, 3);
  }

  /** "premium rest" splits, with a limit of two, into "premium" and the rest. */
  lemma PremiumArgument(rest: string)
    requires rest != [] && !IsRegexSpace(rest[0])
    ensures SplitWhitespace("premium" + " " + rest, 2) == ["premium", rest]
  {
    SplitAtSpace("premium", rest, 2);
    assert SplitWhitespace(rest, 1) == [rest];
  }

  lemma CommandWords(id: string, digits: string)
    ensures "premium guild " + id + " " + digits == "premium" + " " + ("guild" + " " + (id + " " + digits))
  {
  }

  /** "premium guild <id> <days>" with a well-formed id and day count extends that guild. */
  lemma PremiumWellFormed(id: string, days: nat)
    requires id != [] && NoSpaces(id) && days <= LONG_MAX
    ensures PremiumCommand("premium guild " + id + " " + NatToString(days)) == Extend(id, DaysToMillis(days))
  {
    var digits := NatToString(days);
    DaysWord(days);
    var rest := "guild" + " " + (id + " " + digits);
    var content := "premium guild " + id + " " + digits;
    CommandWords(id, digits);
    PremiumArgument(rest);
    GuildArgument(id, digits);
    GuildIndex(id + " " + digits);
    PremiumFromPieces(content, rest, id, digits, days);
  }
}
