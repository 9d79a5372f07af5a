# MantaroBot decision rules, modelled in Dafny

MantaroBot is a Discord bot. Most of its code is glue: command handlers that format replies, call
HTTP services and read or write a document store. This project models the small, self-contained
rules and state updates that live in those handlers, and proves what they promise. Discord
objects, the database, randomness and the clock become plain parameters.

- `Birthday` (BirthdayTask.handle) is the daily pass over one shard.
  - Per guild, guards decide whether the guild takes part.
  - For each cached birthday of a guild member, the "dd-MM" prefix of the date is compared with today.
  - The pass then queues role assignments and removals and counts them in `i` and `r`.
  - It is written as a method with nested loops. It is proved equal to a fold-based
    specification, and that specification is proved sound, complete and correctly counted.
- `Debug` (DebugCmds) covers two things.
  - The ping quote classifier.
  - The `status` command's loop over the shard list. It counts connecting, reconnecting, dead and
    high-latency shards, then derives the Okay/Warning verdict and the warning lines.
- `Fun` (FunCmds) covers five rules:
  - the coin-flip count and its heads/tails loop;
  - the waifu score;
  - the roll options and dice sum;
  - the luck badge;
  - the love pair, percentage and buckets.
- `Users` (UserData) holds the user document's fields and defaults, and the capped dust-level
  increase. Java `int` wrap-around is modelled.
- `Music` (GuildMusicManager) is the leave timer. Its state is the pending task, the
  awaiting-death flag and the queue.
- `Owner` (OwnerCmd) covers five owner commands:
  - the blacklist dispatch over the global guild and user blacklists;
  - the give-item cap;
  - the player transfer;
  - the Java evaluator's semicolon rewrite;
  - the premium extension.
- `Emotes` (EmoteReference) is the emote table and `toString`. The two getters are the two
  table functions `DiscordNotation` and `Unicode`, one row per constructor call.
- `JavaLang` holds the Java library behaviour the rules rely on:
  - `int`/`long` ranges and wrap-around;
  - `Integer.parseInt`/`Long.parseLong`, which read the decimal digits of every script in the
    Basic Multilingual Plane, as `Character.digit` does;
  - `String.replace` and `String.indexOf`;
  - `Pattern.split` on `\s+` with a limit;
  - the mention-normalising and whitespace-collapsing regex rewrites;
  - UTF-16 code units;
  - ASCII `equalsIgnoreCase`.

  `Wrappers` holds `Option` and `Result`.

## Model

| member | source | states |
|---|---|---|
| Birthday.BirthdayRole | src/main/java/net/kodehawa/mantarobot/commands/utils/birthday/BirthdayTask.java:69-84 | A guild takes part, with its configured role, exactly when all of these hold: its birthday channel and role are set and resolve; the bot can interact with the role and talk in the channel; the role is not the autorole, not public and not managed. |
| Birthday.MemberStep | src/main/java/net/kodehawa/mantarobot/commands/utils/birthday/BirthdayTask.java:89-148 | The per-member rule, each case an iff. A null date means a removal if the role is held. A date shorter than five UTF-16 code units crashes. A date whose first five code units are today's means an assignment, carrying the announcement, only if the role is not held. Any other date means a removal only if the role is held. |
| Birthday.AnnouncementCustom | src/main/java/net/kodehawa/mantarobot/commands/utils/birthday/BirthdayTask.java:110-112 | A custom message without "$(user)" is sent unchanged, and the message "$(user)" becomes the member's name. |
| Birthday.AnnouncementReplacesFirst | src/main/java/net/kodehawa/mantarobot/commands/utils/birthday/BirthdayTask.java:111 | Every "$(user)" is replaced: a message a + "$(user)" + b, with no earlier occurrence, announces a, then the name, then the announcement of b. |
| JavaLang.ReplaceFirst | src/main/java/net/kodehawa/mantarobot/commands/utils/birthday/BirthdayTask.java:111 | String.replace copies the text up to the first occurrence, puts the replacement in its place, and resumes the scan right after it. |
| Birthday.WideCharactersCountTwice | src/main/java/net/kodehawa/mantarobot/commands/utils/birthday/BirthdayTask.java:105 | A stored date "😀😀x", three characters but five UTF-16 units, does not crash; it is not today, so a held role is removed. |
| Birthday.AnnouncementDefault | src/main/java/net/kodehawa/mantarobot/commands/utils/birthday/BirthdayTask.java:107-108 | The default announcement opens with the popper emote and "**", followed by the member's name. |
| Birthday.Handle | src/main/java/net/kodehawa/mantarobot/commands/utils/birthday/BirthdayTask.java:50-54 | With no cache, or a cache not yet done, the pass does nothing. |
| Birthday.VisitMembers | src/main/java/net/kodehawa/mantarobot/commands/utils/birthday/BirthdayTask.java:86-150 | The inner loop continues the requests and counters exactly as the specification fold over the guild's member entries does, and stops at a crash. |
| Birthday.HandleShard | src/main/java/net/kodehawa/mantarobot/commands/utils/birthday/BirthdayTask.java:48-164 | The nested-loop pass with `continue` guards and counters `i`/`r` yields exactly the specified outcome: skipped, aborted with the requests queued so far, or finished with both counters. |
| Birthday.HandleCounters | src/main/java/net/kodehawa/mantarobot/commands/utils/birthday/BirthdayTask.java:117-148 | In a finished pass, `i` is the number of assignments and `r` the number of removals for a passed date; null-date removals count in neither. |
| Birthday.ShardSound | src/main/java/net/kodehawa/mantarobot/commands/utils/birthday/BirthdayTask.java:68-148 | Every request names a guild that passed all guards, with that guild's role, and comes from a cached entry of one of its members. The per-member rule yields exactly that request. |
| Birthday.ShardComplete | src/main/java/net/kodehawa/mantarobot/commands/utils/birthday/BirthdayTask.java:86-148 | When the pass does not crash, every request the rule asks for, for any cached member of any participating guild, is among the queued requests. |
| Birthday.SkippedGuildUntouched | src/main/java/net/kodehawa/mantarobot/commands/utils/birthday/BirthdayTask.java:70-84 | A guild that fails a guard receives no role request. |
| Debug.RatePing | src/main/java/net/kodehawa/mantarobot/commands/DebugCmds.java:286-317 | The "69" quote exactly when ping == 69. Otherwise: the smallest bucket of {1, 10, 100, 200, …, 900, 1600, 10000} that is at least the ping, and the default quote exactly above 10000. |
| Debug.RatePingMonotone | src/main/java/net/kodehawa/mantarobot/commands/DebugCmds.java:289-316 | A larger ping never gets a smaller bucket. |
| Debug.CountShards | src/main/java/net/kodehawa/mantarobot/commands/DebugCmds.java:215-233 | The loop's four counters equal the tally. A null shard counts as connecting. A shard queued for reconnection counts as reconnecting. Any other shard counts as dead above 50000 ms since its last event, and as high above 1650 ms. |
| Debug.SlotsPartition | src/main/java/net/kodehawa/mantarobot/commands/DebugCmds.java:220-233 | connecting + reconnecting + live shards == the length of the shard list. |
| Debug.DeadAtMostHigh | src/main/java/net/kodehawa/mantarobot/commands/DebugCmds.java:227-232 | dead ≤ high ≤ the number of live shards, those neither null nor queued for reconnection. |
| Debug.ConnectingCountsMissingShards | src/main/java/net/kodehawa/mantarobot/commands/DebugCmds.java:221-224 | With the started shards first and nulls after them, connecting is the number of shards not yet started. |
| Debug.Warnings | src/main/java/net/kodehawa/mantarobot/commands/DebugCmds.java:238-245 | Each warning line is present iff reconnecting > 10, high > 20 or dead > 5 respectively, and there are no others. |
| Debug.StatusLineVerdict | src/main/java/net/kodehawa/mantarobot/commands/DebugCmds.java:235-236 | The status line says "Okay" iff dead == 0 and (high == 0 or reconnecting > 10), and "Warning" otherwise. |
| Debug.ReportHeadOpensWithVerdict | src/main/java/net/kodehawa/mantarobot/commands/DebugCmds.java:235-245 | The report, status line followed by warnings, opens with that same verdict. |
| Debug.VerdictFromShards | src/main/java/net/kodehawa/mantarobot/commands/DebugCmds.java:215-245 | With no high-latency shard the verdict is Okay. With more than five dead shards it is Warning. |
| Fun.FlipTimes | src/main/java/net/kodehawa/mantarobot/commands/FunCmds.java:65-76 | With no arguments the count is 1. A non-numeric argument is rejected, and so is a value above 1000. Otherwise the count is the parsed int. |
| Fun.FlipTimesOfNumber | src/main/java/net/kodehawa/mantarobot/commands/FunCmds.java:65-76 | A printed int n is accepted as n exactly when n ≤ 1000. |
| Fun.FlipTimesOfUnicodeDigits | src/main/java/net/kodehawa/mantarobot/commands/FunCmds.java:68 | Arabic-Indic "٣" gives three flips and fullwidth "３０" thirty, as Integer.parseInt reads them. |
| JavaLang.ParseIntUnicodeDigits | src/main/java/net/kodehawa/mantarobot/commands/FunCmds.java:68 | parseInt reads "٣" as 3, "３０" as 30 and "-१०" as -10. |
| Fun.Coinflip | src/main/java/net/kodehawa/mantarobot/commands/FunCmds.java:64-85 | A rejected count flips nothing. Otherwise heads + tails == the number of iterations, max(0, times), and heads is the number of heads among those draws. |
| Fun.WaifuRate | src/main/java/net/kodehawa/mantarobot/commands/FunCmds.java:104-112 | There is no score ("nothing specified") exactly when there are no arguments. Otherwise "mantaro", in any ASCII case, scores exactly 100, and every score lies in -100..100, Java's `%` on the UTF-16 sum. |
| Fun.WaifuRateNonNegative | src/main/java/net/kodehawa/mantarobot/commands/FunCmds.java:111-112 | When the character sum cannot overflow, the score lies in 0..100. |
| Fun.ParsedOr | src/main/java/net/kodehawa/mantarobot/commands/FunCmds.java:152-166 | A missing or unparsable option leaves the default; a parsable one gives its value. |
| Fun.RollOptionsOf | src/main/java/net/kodehawa/mantarobot/commands/FunCmds.java:150-169 | Defaults are size 6 and amount 1. The amount is read from "amount", or from the bare argument. It is clamped, so it never exceeds 100. |
| Fun.Clamp | src/main/java/net/kodehawa/mantarobot/commands/FunCmds.java:168-169 | The clamped amount is the smaller of the amount and 100: at most both, and equal to one of them. |
| Fun.DiceTotalBounds | src/main/java/net/kodehawa/mantarobot/commands/FunCmds.java:269-273 | n draws in 0..size-1, each plus one, sum to a value in [n, n·size]. |
| Fun.DiceRoll | src/main/java/net/kodehawa/mantarobot/commands/FunCmds.java:269-273 | The error, a non-positive bound, occurs iff amount ≥ 1 and size ≤ 0. Otherwise the loop's sum is the specified total, lies in [amount, amount·size], is 0 when amount ≤ 0, and fits in a long. |
| Fun.LuckBadgeNeedsFewDice | src/main/java/net/kodehawa/mantarobot/commands/FunCmds.java:172-176 | The badge threshold on six-sided dice can only be met with at most six dice, and with one die only by rolling a six. |
| Fun.LovePair | src/main/java/net/kodehawa/mantarobot/commands/FunCmds.java:219-227 | No mention gives no pair. One mention gives (author, mentioned). Two or more give the first two mentions. |
| Fun.LovePercentage | src/main/java/net/kodehawa/mantarobot/commands/FunCmds.java:229 | The percentage is 101 exactly when the two ids are equal, and otherwise lies in 0..100. |
| Fun.LoveBucket | src/main/java/net/kodehawa/mantarobot/commands/FunCmds.java:231-242 | Each bucket is an iff: below 45 not ideal, 45..74 decent, 75..99 nice, 100 perfect, 101 the note about loving yourself. |
| Fun.LoveYourselfExactly | src/main/java/net/kodehawa/mantarobot/commands/FunCmds.java:229-242 | The yourself note appears exactly for equal ids, and "perfect" exactly for different ids with the top draw. |
| Fun.LoveSelfMention | src/main/java/net/kodehawa/mantarobot/commands/FunCmds.java:219-242 | Mentioning only yourself always gives the yourself note. |
| Users.DustStaysBelowCap | src/main/java/net/kodehawa/mantarobot/db/entities/helpers/UserData.java:68-75 | A level below 100 stays below 100 after any increase. |
| Users.DustIncrement | src/main/java/net/kodehawa/mantarobot/db/entities/helpers/UserData.java:69-71 | A positive increment adds exactly one and a non-positive one is added as it is. A sum reaching 100 keeps the old level. int overflow wraps as in Java. |
| Users.UserData.constructor | src/main/java/net/kodehawa/mantarobot/db/entities/helpers/UserData.java:33-55 | A fresh document has waifuSlots 3, empty waifus, keysClaimed and reminders, and Java defaults elsewhere. |
| Users.UserData.IncreaseDustLevel | src/main/java/net/kodehawa/mantarobot/db/entities/helpers/UserData.java:68-75 | Only dustLevel changes, to the capped increase. The return value is the field's new value, and a level below 100 stays below it. |
| Music.GuildMusicManager.constructor | src/main/java/net/kodehawa/mantarobot/commands/music/GuildMusicManager.java:39-49 | A new manager has no pending task, is not awaiting death and has an empty queue. |
| Music.GuildMusicManager.Leave | src/main/java/net/kodehawa/mantarobot/commands/music/GuildMusicManager.java:51-65 | With no guild nothing changes. Otherwise isAwaitingDeath becomes false and the queue is emptied, and the pending task is left as it is. |
| Music.GuildMusicManager.ScheduleLeave | src/main/java/net/kodehawa/mantarobot/commands/music/GuildMusicManager.java:67-71 | With a task pending nothing changes; otherwise the new task becomes pending. |
| Music.GuildMusicManager.CancelLeave | src/main/java/net/kodehawa/mantarobot/commands/music/GuildMusicManager.java:73-78 | With no task this is a no-op. Otherwise the pending task is cancelled and none is left. |
| Music.ScheduleTwiceThenCancel | src/main/java/net/kodehawa/mantarobot/commands/music/GuildMusicManager.java:67-78 | Scheduling twice and cancelling cancels the first task only, and returns to the no-task state. |
| Music.FiredTimerBlocksRescheduling | src/main/java/net/kodehawa/mantarobot/commands/music/GuildMusicManager.java:51-71 | After the timer's leave fires, the old task is still pending, so a new schedule is a no-op. |
| Owner.BlacklistReplyMatchesLists | src/main/java/net/kodehawa/mantarobot/commands/OwnerCmd.java:84-133 | A refusal, silent or with a message, changes neither list. A success changes only its scope's list, by exactly the id it names. An added guild or user resolves, and a removed one was listed. |
| Owner.BlacklistScopes | src/main/java/net/kodehawa/mantarobot/commands/OwnerCmd.java:85-133 | A guild command never touches the user list, and vice versa. An unknown scope or action gets the matching "Invalid … scope" reply and changes nothing. |
| Owner.BlacklistAddThenRemove | src/main/java/net/kodehawa/mantarobot/commands/OwnerCmd.java:86-122 | Adding an unlisted, resolvable id and then removing it restores both lists. |
| Owner.BlacklistAddIdempotent | src/main/java/net/kodehawa/mantarobot/commands/OwnerCmd.java:86-111 | Adding the same id twice equals adding it once. |
| Owner.MantaroObj.RunBlacklist | src/main/java/net/kodehawa/mantarobot/commands/OwnerCmd.java:84-133 | The reply, and the object's lists afterwards, are what the dispatch gives for the lists before. |
| Owner.AfterGive | src/main/java/net/kodehawa/mantarobot/commands/OwnerCmd.java:164-169 | Below 5000 the item gains exactly one; at 5000 or more the inventory is unchanged. No other item changes, and the cap is never exceeded. |
| Owner.Inventory.GiveItem | src/main/java/net/kodehawa/mantarobot/commands/OwnerCmd.java:152-172 | Empty content or an unknown item gets an error and leaves the inventory unchanged. Otherwise the capped gift is applied, and the reply is "Gave you", preceded by "Too many" at the cap. |
| Owner.Merge | src/main/java/net/kodehawa/mantarobot/commands/OwnerCmd.java:200 | Merged amounts are the sums of both inventories' amounts. |
| Owner.TransferRequest | src/main/java/net/kodehawa/mantarobot/commands/OwnerCmd.java:182-185 | The transfer needs non-empty content and at least two ids, and takes the first two. |
| Owner.TransferAnswer | src/main/java/net/kodehawa/mantarobot/commands/OwnerCmd.java:189-227 | Only the requester's "yes" confirms and only their "no" cancels, in any ASCII case. Everything else is ignored. |
| Owner.TransferMovesProgress | src/main/java/net/kodehawa/mantarobot/commands/OwnerCmd.java:194-215 | Between two different players, the target gets the source's money, level, reputation and the six data fields, and keeps its other data. Its items are merged with the source's. The source is reset to a fresh player and nobody else changes. A self-transfer leaves the player fresh. |
| Owner.CollapseSemicolons | src/main/java/net/kodehawa/mantarobot/commands/OwnerCmd.java:345 | The rewrite of `;{2,}` into `;` is empty iff its input is, and starts with ';' iff its input does. |
| Owner.CollapseLast | src/main/java/net/kodehawa/mantarobot/commands/OwnerCmd.java:345 | The rewrite ends in ';' iff its input does. |
| Owner.CollapseNoDouble | src/main/java/net/kodehawa/mantarobot/commands/OwnerCmd.java:345 | The rewrite never holds two ';' in a row. |
| Owner.CollapseKeepsCode | src/main/java/net/kodehawa/mantarobot/commands/OwnerCmd.java:345 | The rewrite keeps every other character, in order. |
| Owner.CollapseFixpoint | src/main/java/net/kodehawa/mantarobot/commands/OwnerCmd.java:345 | A string without a double ';' is left unchanged. |
| Owner.EvalStatementShape | src/main/java/net/kodehawa/mantarobot/commands/OwnerCmd.java:345 | `(code + ";")` rewritten ends in ';', has no double ';', keeps the code's other characters, and is a fixpoint of the rewrite. |
| Owner.DaysToMillis | src/main/java/net/kodehawa/mantarobot/commands/OwnerCmd.java:509 | Days become days × 86 400 000 ms, saturating at the long range as TimeUnit does. |
| Owner.DaysToMillisMonotone | src/main/java/net/kodehawa/mantarobot/commands/OwnerCmd.java:509 | More days never give fewer milliseconds. |
| Owner.PremiumWellFormed | src/main/java/net/kodehawa/mantarobot/commands/OwnerCmd.java:495-523 | `premium guild <id> <days>` extends the guild's premium by the days in milliseconds. |
| Emotes.ToStringChoosesForm | src/main/java/net/kodehawa/mantarobot/utils/commands/EmoteReference.java:118-120 | toString is the Unicode form plus one space when there is one, else the Discord notation plus one space. |
| Emotes.CustomEmotesRenderNotation | src/main/java/net/kodehawa/mantarobot/utils/commands/EmoteReference.java:88-107 | Exactly the custom emotes, LOOT_CRATE through BROKEN_STAR_ROD, lack a Unicode form, and so they render as their `<:name:id>` notation. |
| Emotes.RenderingNotInjective | src/main/java/net/kodehawa/mantarobot/utils/commands/EmoteReference.java:33-79 | POPPER and PARTY render the same text, and so do RUNNER and BOOSTER. |

## Left out

- **I/O and infrastructure.** Message sending, `.queue()` callbacks, i18n lookups, embeds and
  database saves are not modelled. A reply is a value, and a save is the new state.
- **Randomness.** Random draws are parameters in their ranges.
- **Clock.** The clock is the "dd-MM" string `today`.
- **Birthday.HandleShard**
  - It counts every queued request. Exceptions thrown by the Discord library when a role request
    is built are not modelled, on any path: those in the assignment and removal branches are
    caught, and the null-date removal has no catch.
  - The `int` counters do not wrap.
  - The guild's member map and the cache are a sequence of entries in the cache's iteration
    order, which Java's HashMap leaves unspecified.
  - The `member != null` check in the removal branch always holds, because entries are filtered
    to members first.
- Debug.DeadAtMostHigh: each shard's time since its last event is read once. The source calls
  getLastJDAEventTimeDiff() twice, once per threshold, and the two calls could return different
  values; the model assumes they agree.
- **Debug.ReportHeadOpensWithVerdict.** The "high ping breakdown" appended after the warnings,
  and the other statistics of `status`, are not modelled.
- **Fun.LoveBucket.** The bucket's display text and the love embed are not modelled.
- **Fun.Coinflip and Fun.DiceRoll.** The flip and die results are passed in as draws, and the
  loop helper that runs the flips is assumed to run the body exactly `times` times.
- **Fun.RollOptionsOf.** The option parser is not part of this model. Options arrive as a map
  from option name, or None for the bare argument, to its text.
- **Fun.WaifuRate**
  - The characters' UTF-16 code units are summed as Java does.
  - Case folding is ASCII only.
- **Owner.TransferAnswer.** The 30-second dialogue timeout is not modelled, and case folding is
  ASCII only.
- **Owner.TransferMovesProgress.** Player.of is assumed to create a player with zero money,
  level and reputation, an empty inventory and default data.
- **Owner.Merge and Owner.AfterGive.** Inventory.merge, getAmount and process are assumed to add
  amounts per item; the Inventory class is not part of this model.
- **Owner.PremiumWellFormed**
  - DBGuild.incrementPremium is modelled as the returned `Extend(guild, millis)`.
  - The "Not enough arguments" reply is unreachable, because splitting with a limit always
    yields at least one piece.
  - Only the well-formed command is proved. The error paths are defined by `Owner.PremiumCommand`:
    - a first word other than "premium", or a sub-option other than "guild", is misuse;
    - fewer than three pieces asks for the id and days;
    - a missing space or an unparsable day count is an uncaught exception.
- **Java evaluator.** The JavaScript and Java evaluators themselves, including script engines,
  compilation and class loading, are dynamic code execution. Only the semicolon rewrite of the
  statement is modelled.
- **Owner.MantaroObj.RunBlacklist.** The blacklists are modelled as sets of ids, and the
  document's other fields are not modelled.
- Owner.BlacklistAddIdempotent: idempotence comes from modelling the blacklists as sets. The
  MantaroObj class and its list type are not part of this model, so whether a repeated add stores
  a duplicate is not captured.
- **Users.UserData.constructor.** PlayerEquipment (equippedItems) is not part of this model, so
  the document's equipment field is left out.
- **Music.GuildMusicManager.ScheduleLeave.** The executor is not modelled: a pending task is an
  abstract token. The track scheduler's queue is a sequence, and leaving the voice channel and
  closing the audio connection are not modelled.
- **Emotes.** Java's UTF-16 surrogate pairs in the Unicode column are written as the scalar
  value they encode.
- **Outside the rules modelled here.** These parts of the repository contain none of the rules
  modelled here:
  - MantaroShard (connection lifecycle);
  - ImageCmds and Action (HTTP image fetches and random choices);
  - CustomMessage, whose argument splitting is not shown;
  - the Redis-backed rate limiter;
  - floating-point statistics.
