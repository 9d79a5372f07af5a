/**
  The daily birthday-role pass over one shard (BirthdayTask.java, handle). For every guild
  whose birthday channel and role are configured, resolve and may be used, each cached
  birthday of a guild member is compared, on its "dd-MM" prefix, with today: a member whose
  birthday it is gets the role (with an announcement), a member whose birthday it is not loses
  it, and a member with no stored date loses it without being counted. JDA, the database and
  the clock are inputs: guilds are values, the birthday cache is a sequence of entries in its
  iteration order, today is the "dd-MM" string, and the role requests queued are the output.
*/
module Birthday {
  import opened Wrappers
  import opened JavaLang
  import Emotes

  // ---------------------------------------------------------------------------------------
  // Inputs

  /** What the pass reads of a role: whether the bot may manage it, and its kind. */
  datatype RoleView = RoleView(selfCanInteract: bool, isPublic: bool, isManaged: bool)

  datatype MemberView = MemberView(effectiveName: string, roles: set<string>)

  /** The birthday settings of GuildData; None stands for null. */
  datatype GuildSettings = GuildSettings(
    birthdayChannel: Option<string>, birthdayRole: Option<string>,
    guildAutoRole: Option<string>, birthdayMessage: Option<string>)

  /**
    A guild of the shard: its settings, its roles and text channels by id (a channel maps to
    whether the bot can talk in it), and its members by user id.
  */
  datatype Guild = Guild(
    id: string, settings: GuildSettings, roles: map<string, RoleView>,
    channels: map<string, bool>, members: map<string, MemberView>)

  /** A cached birthday: a user id and the stored "dd-MM-yyyy" date, None when null. */
  datatype Entry = Entry(userId: string, birthday: Option<string>)

  datatype BirthdayCache = BirthdayCache(isDone: bool, entries: seq<Entry>)

  // ---------------------------------------------------------------------------------------
  // Outputs

  /** A role request queued on a guild member. */
  datatype RoleChange =
    | Assign(guild: string, member: string, role: string, announcement: string)
    | Divest(guild: string, member: string, role: string)
    | Cleanup(guild: string, member: string, role: string)  // removal for a null birthday

  /**
    Skipped: no cache or not ready, nothing done. Aborted: a stored date shorter than five
    UTF-16 units made substring throw; the requests queued until then stand and no summary is
    logged. Finished: all requests, with the two counters of the summary line.
  */
  datatype Outcome =
    | Skipped
    | Aborted(changes: seq<RoleChange>)
    | Finished(changes: seq<RoleChange>, added: nat, removed: nat)

  // ---------------------------------------------------------------------------------------
  // The guild guards

  /**
    The guild's birthday role when the guild takes part: channel and role configured and
    resolving, the bot able to manage the role and to talk in the channel, the role not the
    autorole, not public and not managed. None when any guard skips the guild.
  */
  function BirthdayRole(g: Guild): (role: Option<string>)
    ensures role.Some? <==>
      g.settings.birthdayChannel.Some? && g.settings.birthdayRole.Some? &&
      g.settings.birthdayChannel.value in g.channels && g.settings.birthdayRole.value in g.roles &&
      g.roles[g.settings.birthdayRole.value].selfCanInteract &&
      g.channels[g.settings.birthdayChannel.value] &&
      g.settings.guildAutoRole != g.settings.birthdayRole &&
      !g.roles[g.settings.birthdayRole.value].isPublic &&
      !g.roles[g.settings.birthdayRole.value].isManaged
    ensures role.Some? ==> role == g.settings.birthdayRole && role.value in g.roles
  {
    if g.settings.birthdayChannel.None? || g.settings.birthdayRole.None? then None
    else
      var channel, roleId := g.settings.birthdayChannel.value, g.settings.birthdayRole.value;
      if channel !in g.channels || roleId !in g.roles then None
      else if !g.roles[roleId].selfCanInteract then None
      else if !g.channels[channel] then None
      else if g.settings.guildAutoRole == Some(roleId) then None
      else if g.roles[roleId].isPublic then None
      else if g.roles[roleId].isManaged then None
      else Some(roleId)
  }

  // ---------------------------------------------------------------------------------------
  // The per-member rule

  /** The announcement: the custom message with "$(user)" replaced, else the default text. */
  function Announcement(custom: Option<string>, name: string): string
  {
    match custom
    case Some(m) => Replace(m, "$(user)", name)
    case None =>
      Emotes.ToString(Emotes.POPPER) + "**" + name + " is a year older now! Wish them a happy birthday.** :tada:"
  }

  /** A custom message without "$(user)" is sent as it is; one that is just "$(user)" is the name. */
  lemma AnnouncementCustom(m: string, name: string)
    ensures (forall i: nat :: !OccursAt(m, "$(user)", i)) ==> Announcement(Some(m), name) == m
    ensures Announcement(Some("$(user)"), name) == name
  {
    if forall i: nat :: !OccursAt(m, "$(user)", i) {
      ReplaceAbsent(m, "$(user)", name);
    }
    ReplaceWhole("$(user)", name);
  }

  /**
   * Every "$(user)" is replaced: up to the first occurrence the message is copied, the
   * occurrence becomes the name, and the rest is announced by the same rule.
   */
  lemma AnnouncementReplacesFirst(a: string, b: string, name: string)
    requires forall i: nat :: i < |a| ==> !OccursAt(a + "$(user)", "$(user)", i)
    ensures Announcement(Some(a + "$(user)" + b), name) == a + name + Announcement(Some(b), name)
  {
    ReplaceFirst(a, "$(user)", name, b);
  }

  /** The default announcement opens with the popper emote and names the member. */
  lemma AnnouncementDefault(name: string)
    ensures var text := Announcement(None, name);
      var prefix := Emotes.ToString(Emotes.POPPER) + "**";
      prefix <= text && text[|prefix|..|prefix| + |name|] == name
  {
  }

  /** What one cached entry leads to: a role request, nothing, or the crash of the pass. */
  datatype Step = Change(change: RoleChange) | Keep | Crash

  /**
    The "dd-MM" of a stored date equals today: String.substring(0, 5) and equals count UTF-16
    code units, so a character outside the Basic Multilingual Plane takes two of the five.
  */
  predicate IsToday(birthday: string, today: string)
    requires |Utf16Units(birthday)| >= 5
  {
    Utf16Units(birthday)[..5] == Utf16Units(today)
  }

  /**
    The rule for one guild member with the role `role`: with no stored date, remove the role
    if held; with a date shorter than five UTF-16 units, crash; with today's "dd-MM", assign the
    role if not held; with another date, remove the role if held.
  */
  function MemberStep(g: Guild, role: string, e: Entry, today: string): (s: Step)
    requires e.userId in g.members
    ensures s == Crash <==> e.birthday.Some? && |Utf16Units(e.birthday.value)| < 5
    ensures s.Change? ==> s.change.guild == g.id && s.change.member == e.userId && s.change.role == role
    ensures s.Change? && s.change.Assign? <==>
      e.birthday.Some? && |Utf16Units(e.birthday.value)| >= 5 && IsToday(e.birthday.value, today) &&
      role !in g.members[e.userId].roles
    ensures s.Change? && s.change.Assign? ==>
      s.change.announcement == Announcement(g.settings.birthdayMessage, g.members[e.userId].effectiveName)
    ensures s.Change? && s.change.Divest? <==>
      e.birthday.Some? && |Utf16Units(e.birthday.value)| >= 5 && !IsToday(e.birthday.value, today) &&
      role in g.members[e.userId].roles
    ensures s.Change? && s.change.Cleanup? <==> e.birthday.None? && role in g.members[e.userId].roles
  {
    var member := g.members[e.userId];
    match e.birthday
    case None =>
      if role in member.roles then Change(Cleanup(g.id, e.userId, role)) else Keep
    case Some(b) =>
      if |Utf16Units(b)| < 5 then Crash
      else if IsToday(b, today) then
        if role !in member.roles then
          Change(Assign(g.id, e.userId, role, Announcement(g.settings.birthdayMessage, member.effectiveName)))
        else Keep
      else if role in member.roles then Change(Divest(g.id, e.userId, role))
      else Keep
  }

  /**
    Length is counted in UTF-16 units: a date of two emoji and one letter is five units long,
    so it does not make substring throw; not being today, it removes a held role.
  */
  lemma WideCharactersCountTwice(g: Guild, role: string, e: Entry, today: string)
    requires e.userId in g.members && e.birthday == Some("\U{1F600}\U{1F600}x")
    requires |today| == 5 && forall k :: 0 <= k < 5 ==> today[k] as int < 0x80
    ensures MemberStep(g, role, e, today) != Crash
    ensures role in g.members[e.userId].roles ==> MemberStep(g, role, e, today) == Change(Divest(g.id, e.userId, role))
  {
    var units := Utf16Units("\U{1F600}\U{1F600}x");
    assert units == [0xD83D, 0xDE00, 0xD83D, 0xDE00, 'x' as int];
    assert Utf16Units(today)[0] == today[0] as int;
  }

  // ---------------------------------------------------------------------------------------
  // The pass, as folds over the cache and over the guilds

  /** The state of the pass: requests so far, the counters i and r, and whether it crashed. */
  datatype Run = Run(changes: seq<RoleChange>, added: nat, removed: nat, crashed: bool)

  const Empty: Run := Run([], 0, 0, false)

  function Apply(run: Run, s: Step): Run
  {
    match s
    case Keep => run
    case Crash => run.(crashed := true)
    case Change(c) =>
      Run(run.changes + [c], run.added + (if c.Assign? then 1 else 0),
          run.removed + (if c.Divest? then 1 else 0), run.crashed)
  }

  /** `after` continuing `before`. */
  function Join(before: Run, after: Run): Run
  {
    Run(before.changes + after.changes, before.added + after.added,
        before.removed + after.removed, after.crashed)
  }

  /** One guild's part: its members' cached entries in order, stopping at a crash. */
  function EntriesRun(g: Guild, role: string, entries: seq<Entry>, today: string): Run
  {
    if entries == [] then Empty
    else
      var prev := EntriesRun(g, role, entries[..|entries| - 1], today);
      var e := entries[|entries| - 1];
      if prev.crashed || e.userId !in g.members then prev
      else Apply(prev, MemberStep(g, role, e, today))
  }

  /** The guilds of the shard in order, each with its role when it takes part. */
  function ShardRun(guilds: seq<Guild>, entries: seq<Entry>, today: string): Run
  {
    if guilds == [] then Empty
    else
      var prev := ShardRun(guilds[..|guilds| - 1], entries, today);
      var g := guilds[|guilds| - 1];
      if prev.crashed then prev
      else match BirthdayRole(g)
        case None => prev
        case Some(role) => Join(prev, EntriesRun(g, role, entries, today))
  }

  /** handle(shardId): nothing without a finished cache, otherwise the pass. */
  function Handle(cache: Option<BirthdayCache>, guilds: seq<Guild>, today: string): (o: Outcome)
    ensures cache.None? || !cache.value.isDone ==> o == Skipped
  {
    if cache.None? || !cache.value.isDone then Skipped
    else
      var run := ShardRun(guilds, cache.value.entries, today);
      if run.crashed then Aborted(run.changes) else Finished(run.changes, run.added, run.removed)
  }

  // ---------------------------------------------------------------------------------------
  // handle, step by step

  lemma JoinApply(before: Run, run: Run, s: Step)
    requires !before.crashed
    ensures Join(before, Apply(run, s)) == Apply(Join(before, run), s)
  {
    if s.Change? {
      assert before.changes + (run.changes + [s.change]) == (before.changes + run.changes) + [s.change];
    }
  }

  lemma {:induction false} EntriesCrashPersists(g: Guild, role: string, entries: seq<Entry>, today: string, k: nat)
    requires k <= |entries| && EntriesRun(g, role, entries[..k], today).crashed
    ensures EntriesRun(g, role, entries, today) == EntriesRun(g, role, entries[..k], today)
    decreases |entries| - k
  {
    if k < |entries| {
      assert entries[..|entries| - 1][..k] == entries[..k];
      EntriesCrashPersists(g, role, entries[..|entries| - 1], today, k);
    } else {
      assert entries[..k] == entries;
    }
  }

  lemma {:induction false} ShardCrashPersists(guilds: seq<Guild>, entries: seq<Entry>, today: string, k: nat)
    requires k <= |guilds| && ShardRun(guilds[..k], entries, today).crashed
    ensures ShardRun(guilds, entries, today) == ShardRun(guilds[..k], entries, today)
    decreases |guilds| - k
  {
    if k < |guilds| {
      assert guilds[..|guilds| - 1][..k] == guilds[..k];
      ShardCrashPersists(guilds[..|guilds| - 1], entries, today, k);
    } else {
      assert guilds[..k] == guilds;
    }
  }

  /**
    The inner loop of handle for one guild that passed the guards: the cached entries of its
    members in cache order, each applying the per-member rule to the requests and counters
    carried in; `crashed` when a stored date is shorter than five UTF-16 units, the loop having
    stopped there.
  */
  method VisitMembers(g: Guild, role: string, message: Option<string>, entries: seq<Entry>, today: string,
                      changes0: seq<RoleChange>, i0: nat, r0: nat)
    returns (changes: seq<RoleChange>, i: nat, r: nat, crashed: bool)
    requires message == g.settings.birthdayMessage
    ensures Join(Run(changes0, i0, r0, false), EntriesRun(g, role, entries, today)) == Run(changes, i, r, crashed)
  {
    ghost var before := Run(changes0, i0, r0, false);
    changes, i, r := changes0, i0, r0;
    var now := Utf16Units(today);
    var j := 0;
    while j < |entries|
      invariant 0 <= j <= |entries|
      invariant !EntriesRun(g, role, entries[..j], today).crashed
      invariant Join(before, EntriesRun(g, role, entries[..j], today)) == Run(changes, i, r, false)
    {
      var e := entries[j];
      ghost var prev := EntriesRun(g, role, entries[..j], today);
      assert entries[..j + 1][..j] == entries[..j];
      j := j + 1;
      if e.userId !in g.members {
        continue;
      }
      var member := g.members[e.userId];
      ghost var step := MemberStep(g, role, e, today);
      JoinApply(before, prev, step);
      if e.birthday.None? {
        if role in member.roles {
          changes := changes + [Cleanup(g.id, e.userId, role)];
        }
        continue;
      }
      var units := Utf16Units(e.birthday.value);
      if |units| < 5 {
        assert step == Crash;
        EntriesCrashPersists(g, role, entries, today, j);
        assert entries[..|entries|] == entries;
        return changes, i, r, true;
      }
      assert IsToday(e.birthday.value, today) <==> units[..5] == now;
      if units[..5] == now {
        if role !in member.roles {
          var text := Announcement(message, member.effectiveName);
          changes := changes + [Assign(g.id, e.userId, role, text)];
          i := i + 1;
        }
      } else {
        if role in member.roles {
          changes := changes + [Divest(g.id, e.userId, role)];
          r := r + 1;
        }
      }
    }
    assert entries[..j] == entries;
    crashed := false;
  }

  /**
    BirthdayTask.handle on one shard: the guards skip a guild with `continue`, the cached
    entries of the guild's members are visited in cache order, `i` counts assignments and `r`
    removals, and a too-short date ends the pass where it stands.
  */
  method HandleShard(cache: Option<BirthdayCache>, guilds: seq<Guild>, today: string) returns (outcome: Outcome)
    ensures outcome == Handle(cache, guilds, today)
  {
    if cache.None? {
      return Skipped;
    }
    if !cache.value.isDone {
      return Skipped;
    }
    var entries := cache.value.entries;
    var i, r := 0, 0;
    var changes: seq<RoleChange> := [];
    var k := 0;
    while k < |guilds|
      invariant 0 <= k <= |guilds|
      invariant ShardRun(guilds[..k], entries, today) == Run(changes, i, r, false)
    {
      var g := guilds[k];
      assert guilds[..k + 1][..k] == guilds[..k];
      k := k + 1;
      var settings := g.settings;
      if settings.birthdayChannel.None? || settings.birthdayRole.None? {
        continue;
      }
      var role, channel := settings.birthdayRole.value, settings.birthdayChannel.value;
      if role !in g.roles || channel !in g.channels {
        continue;
      }
      if !g.roles[role].selfCanInteract {
        continue;
      }
      if !g.channels[channel] {
        continue;
      }
      if settings.guildAutoRole.Some? && role == settings.guildAutoRole.value {
        continue;
      }
      if g.roles[role].isPublic {
        continue;
      }
      if g.roles[role].isManaged {
        continue;
      }
      var crashed;
      changes, i, r, crashed := VisitMembers(g, role, settings.birthdayMessage, entries, today, changes, i, r);
      if crashed {
        ShardCrashPersists(guilds, entries, today, k);
        return Aborted(changes);
      }
    }
    assert guilds[..k] == guilds;
    return Finished(changes, i, r);
  }

  // ---------------------------------------------------------------------------------------
  // What the pass promises

  /** The number of assignments among the requests. */
  function Assigned(cs: seq<RoleChange>): nat
  {
    if cs == [] then 0 else Assigned(cs[..|cs| - 1]) + (if cs[|cs| - 1].Assign? then 1 else 0)
  }

  /** The number of counted removals among the requests (null-birthday removals excluded). */
  function Divested(cs: seq<RoleChange>): nat
  {
    if cs == [] then 0 else Divested(cs[..|cs| - 1]) + (if cs[|cs| - 1].Divest? then 1 else 0)
  }

  lemma {:induction false} CountsAppend(a: seq<RoleChange>, b: seq<RoleChange>)
    ensures Assigned(a + b) == Assigned(a) + Assigned(b)
    ensures Divested(a + b) == Divested(a) + Divested(b)
    decreases |b|
  {
    if b == [] {
      assert a + b == a;
    } else {
      CountsAppend(a, b[..|b| - 1]);
      assert (a + b)[..|a + b| - 1] == a + b[..|b| - 1];
    }
  }

  predicate Counted(run: Run)
  {
    run.added == Assigned(run.changes) && run.removed == Divested(run.changes)
  }

  lemma JoinCounted(before: Run, after: Run)
    requires Counted(before) && Counted(after)
    ensures Counted(Join(before, after))
  {
    CountsAppend(before.changes, after.changes);
  }

  lemma {:induction false} EntriesCounted(g: Guild, role: string, entries: seq<Entry>, today: string)
    ensures Counted(EntriesRun(g, role, entries, today))
    decreases |entries|
  {
    if entries != [] {
      var prev := EntriesRun(g, role, entries[..|entries| - 1], today);
      EntriesCounted(g, role, entries[..|entries| - 1], today);
      var e := entries[|entries| - 1];
      if !prev.crashed && e.userId in g.members {
        var s := MemberStep(g, role, e, today);
        if s.Change? {
          assert (prev.changes + [s.change])[..|prev.changes|] == prev.changes;
        }
      }
    }
  }

  lemma {:induction false} ShardCounted(guilds: seq<Guild>, entries: seq<Entry>, today: string)
    ensures Counted(ShardRun(guilds, entries, today))
    decreases |guilds|
  {
    if guilds != [] {
      var prev := ShardRun(guilds[..|guilds| - 1], entries, today);
      ShardCounted(guilds[..|guilds| - 1], entries, today);
      var g := guilds[|guilds| - 1];
      var role := BirthdayRole(g);
      if !prev.crashed && role.Some? {
        EntriesCounted(g, role.value, entries, today);
        JoinCounted(prev, EntriesRun(g, role.value, entries, today));
      }
    }
  }

  /**
    The summary counters: `i` is the number of role assignments queued and `r` the number of
    removals for a passed birthday; removals for a null birthday change neither.
  */
  lemma HandleCounters(cache: Option<BirthdayCache>, guilds: seq<Guild>, today: string)
    ensures var o := Handle(cache, guilds, today);
      o.Finished? ==> o.added == Assigned(o.changes) && o.removed == Divested(o.changes)
  {
    if cache.Some? && cache.value.isDone {
      ShardCounted(guilds, cache.value.entries, today);
    }
  }

  /**
    A request is justified by a guild that takes part with that role and by a cached entry of
    one of its members whose rule yields exactly that request.
  */
  ghost predicate Justified(c: RoleChange, g: Guild, entries: seq<Entry>, today: string)
  {
    g.id == c.guild && BirthdayRole(g) == Some(c.role) &&
    exists e :: e in entries && e.userId in g.members && MemberStep(g, c.role, e, today) == Change(c)
  }

  lemma {:induction false} EntriesSound(g: Guild, role: string, entries: seq<Entry>, today: string, c: RoleChange)
    requires BirthdayRole(g) == Some(role)
    requires c in EntriesRun(g, role, entries, today).changes
    ensures Justified(c, g, entries, today)
    decreases |entries|
  {
    var init := entries[..|entries| - 1];
    var prev := EntriesRun(g, role, init, today);
    var e := entries[|entries| - 1];
    if c in prev.changes {
      EntriesSound(g, role, init, today, c);
      var w :| w in init && w.userId in g.members && MemberStep(g, c.role, w, today) == Change(c);
      assert w in entries;
    } else {
      assert e in entries;
    }
  }

  /** Every request of the pass comes from a guild that passed every guard and from a member's cached entry. */
  lemma {:induction false} ShardSound(guilds: seq<Guild>, entries: seq<Entry>, today: string, c: RoleChange)
    requires c in ShardRun(guilds, entries, today).changes
    ensures exists k :: 0 <= k < |guilds| && Justified(c, guilds[k], entries, today)
    decreases |guilds|
  {
    var init := guilds[..|guilds| - 1];
    var prev := ShardRun(init, entries, today);
    var g := guilds[|guilds| - 1];
    if c in prev.changes {
      ShardSound(init, entries, today, c);
      var k :| 0 <= k < |init| && Justified(c, init[k], entries, today);
      assert guilds[k] == init[k];
    } else {
      EntriesSound(g, BirthdayRole(g).value, entries, today, c);
      assert guilds[|guilds| - 1] == g;
    }
  }

  lemma {:induction false} EntriesComplete(g: Guild, role: string, entries: seq<Entry>, today: string, e: Entry)
    requires !EntriesRun(g, role, entries, today).crashed
    requires e in entries && e.userId in g.members && MemberStep(g, role, e, today).Change?
    ensures MemberStep(g, role, e, today).change in EntriesRun(g, role, entries, today).changes
    decreases |entries|
  {
    var init := entries[..|entries| - 1];
    var prev := EntriesRun(g, role, init, today);
    var last := entries[|entries| - 1];
    assert !prev.crashed;
    if e != last {
      assert e in init by {
        assert entries == init + [last];
      }
      EntriesComplete(g, role, init, today, e);
      if last.userId in g.members {
        var s := MemberStep(g, role, last, today);
      }
    }
  }

  /**
    A run that does not crash makes every request the rule asks for, for every member with a
    cached entry in every guild that takes part.
  */
  lemma {:induction false} ShardComplete(guilds: seq<Guild>, entries: seq<Entry>, today: string, k: nat, e: Entry)
    requires !ShardRun(guilds, entries, today).crashed
    requires k < |guilds| && BirthdayRole(guilds[k]).Some?
    requires e in entries && e.userId in guilds[k].members
    requires MemberStep(guilds[k], BirthdayRole(guilds[k]).value, e, today).Change?
    ensures MemberStep(guilds[k], BirthdayRole(guilds[k]).value, e, today).change in ShardRun(guilds, entries, today).changes
    decreases |guilds|
  {
    var init := guilds[..|guilds| - 1];
    var prev := ShardRun(init, entries, today);
    var g := guilds[|guilds| - 1];
    assert !prev.crashed;
    if k < |guilds| - 1 {
      assert init[k] == guilds[k];
      ShardComplete(init, entries, today, k, e);
    } else {
      EntriesComplete(g, BirthdayRole(g).value, entries, today, e);
    }
  }

  /** A guild that fails any guard gets no request, under any id it shares. */
  lemma SkippedGuildUntouched(guilds: seq<Guild>, entries: seq<Entry>, today: string, id: string)
    requires forall k :: 0 <= k < |guilds| && guilds[k].id == id ==> BirthdayRole(guilds[k]).None?
    ensures forall c :: c in ShardRun(guilds, entries, today).changes ==> c.guild != id
  {
    forall c | c in ShardRun(guilds, entries, today).changes
      ensures c.guild != id
    {
      ShardSound(guilds, entries, today, c);
    }
  }
}
