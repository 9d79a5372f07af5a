/**
  The emote table the bot prefixes its replies with (EmoteReference.java). Each enum constant
  is constructed with its Discord notation and, for the standard emoji, its Unicode form; the
  custom server emotes have no Unicode form (null, here None). The two columns of the table are
  the two getters. Java's UTF-16 surrogate pairs are written as the one Unicode scalar value
  they encode.
*/
module Emotes {
  import opened Wrappers

  /** The enum constants, in declaration order. */
  datatype EmoteReference =
    | ERROR | ERROR2 | DICE | SAD | CORRECT | OK | STOP | TALKING | CRYING | WARNING | POPPER | ZAP
    | MEGA | CONFUSED | WORRIED | THINKING | STOPWATCH | BUY | SELL | MARKET | MONEY | PENCIL
    | SMILE | PICK | HEART | RUNNER | POTION1 | POTION2 | CREDITCARD | POUCH | REP | MAGAZINE | AXE
    | DOLLAR | WOOD | EYES | PENNY | RING | WIND | BOOSTER | JOY | CROSSED_SWORD | MAG | KEY | DOG
    | DOOR | LOVE_LETTER | NECKLACE | DIAMOND | TUXEDO | DRESS | COOKIE | CHOCOLATE | CLOTHES
    | SHOES | ROSE | PARTY | STAR | HOUSE | MARKER | BLUE_SMALL_MARKER | DUST | TROPHY | WRENCH
    | LOOT_CRATE | MINE_CRATE | FISH_CRATE | DIAMOND_PICK | STAR_PICK | COMET_PICK | SPARKLE_PICK
    | STAR_ROD | COMET_ROD | SPARKLE_ROD | PREMIUM_MINE_CRATE | PREMIUM_FISH_CRATE | SPARKLE_WRENCH
    | COMET_WRENCH | BROKEN_SPARKLE_PICK | BROKEN_COMET_PICK | BROKEN_STAR_PICK | BROKEN_SPARKLE_ROD
    | BROKEN_COMET_ROD | BROKEN_STAR_ROD

  /** getDiscordNotation(): the first constructor argument of each constant. */
  function DiscordNotation(e: EmoteReference): string
  {
    match e
    case ERROR => ":heavy_multiplication_x:"
    case ERROR2 => ":x:"
    case DICE => ":game_die:"
    case SAD => ":frowning:"
    case CORRECT => ":white_check_mark:"
    case OK => ":ok_hand:"
    case STOP => ":octagonal_sign:"
    case TALKING => ":speech_balloon:"
    case CRYING => ":sob:"
    case WARNING => ":warning:"
    case POPPER => ":tada:"
    case ZAP => ":zap:"
    case MEGA => ":mega:"
    case CONFUSED => ":confused:"
    case WORRIED => ":worried:"
    case THINKING => ":thinking:"
    case STOPWATCH => ":stopwatch:"
    case BUY => ":inbox_tray:"
    case SELL => ":outbox_tray:"
    case MARKET => ":shopping_car:"
    case MONEY => ":money_bag:"
    case PENCIL => ":pencil:"
    case SMILE => ":smile:"
    case PICK => ":pick:"
    case HEART => ":heart:"
    case RUNNER => ":runner:"
    case POTION1 => ":milk:"
    case POTION2 => ":champagne:"
    case CREDITCARD => ":credit_card:"
    case POUCH => ":pouch:"
    case REP => ":military_medal:"
    case MAGAZINE => ":newspaper:"
    case AXE => ":hammer_pick:"
    case DOLLAR => ":dollar:"
    case WOOD => ":bamboo:"
    case EYES => ":eyes:"
    case PENNY => ":cd:"
    case RING => ":ring:"
    case WIND => ":wind_blowing_face:"
    case BOOSTER => ":runner:"
    case JOY => ":joy:"
    case CROSSED_SWORD => ":crossed_sword:"
    case MAG => ":mag_right:"
    case KEY => ":key:"
    case DOG => ":dog:"
    case DOOR => ":door:"
    case LOVE_LETTER => ":love_letter:"
    case NECKLACE => ":prayer_beads:"
    case DIAMOND => ":gem:"
    case TUXEDO => ":man_in_tuxedo:"
    case DRESS => ":dress:"
    case COOKIE => ":cookie:"
    case CHOCOLATE => ":chocolate_bar:"
    case CLOTHES => ":shirt:"
    case SHOES => ":athletic_shoe:"
    case ROSE => ":rose:"
    case PARTY => ":tada:"
    case STAR => ":star:"
    case HOUSE => ":house:"
    case MARKER => ":large_orange_diamond:"
    case BLUE_SMALL_MARKER => ":small_blue_diamond:"
    case DUST => ":dash:"
    case TROPHY => ":trophy:"
    case WRENCH => ":wrench:"
    case LOOT_CRATE => "<:lootbox:556992254749966346>"
    case MINE_CRATE => "<:mine_lootbox:556992254623875073>"
    case FISH_CRATE => "<:fish_lootbox:556992254770937876>"
    case DIAMOND_PICK => "<:diamond_pick:492882142557372458>"
    case STAR_PICK => "<:star_pick:492882142993580038>"
    case COMET_PICK => "<:comet_pick:492882142788059146>"
    case SPARKLE_PICK => "<:sparkle_pick:492882143404359690>"
    case STAR_ROD => "<:star_rod:492882143354028064>"
    case COMET_ROD => "<:comet_rod:492882142779670528>"
    case SPARKLE_ROD => "<:sparkle_rod:492882143505154048>"
    case PREMIUM_MINE_CRATE => "<:premium_mine_lootbox:556992254472880129>"
    case PREMIUM_FISH_CRATE => "<:premium_fish_lootbox:556992254724538417>"
    case SPARKLE_WRENCH => "<:sparkle_wrench:551979816262434819>"
    case COMET_WRENCH => "<:comet_wrench:551979816174354443>"
    case BROKEN_SPARKLE_PICK => "<:broken_sparkle_pickaxe:553769632926924813>"
    case BROKEN_COMET_PICK => "<:broken_comet_pickaxe:553769633266532389>"
    case BROKEN_STAR_PICK => "<:broken_star_pickaxe:557349870726414347>"
    case BROKEN_SPARKLE_ROD => "<:broken_sparkle_rod:560885907562037248>"
    case BROKEN_COMET_ROD => "<:broken_comet_rod:560885907004325889>"
    case BROKEN_STAR_ROD => "<:broken_star_rod:560885906857263116>"
  }

  /** getUnicode(): the second constructor argument of each constant, None standing for null. */
  function Unicode(e: EmoteReference): Option<string>
  {
    match e
    case ERROR => Some("\U{2716}")
    case ERROR2 => Some("\U{274C}")
    case DICE => Some("\U{1F3B2}")
    case SAD => Some("\U{1F626}")
    case CORRECT => Some("\U{2705}")
    case OK => Some("\U{1F44C}")
    case STOP => Some("\U{1F6D1}")
    case TALKING => Some("\U{1F4AC}")
    case CRYING => Some("\U{1F62D}")
    case WARNING => Some("\U{26A0}")
    case POPPER => Some("\U{1F389}")
    case ZAP => Some("\U{26A1}")
    case MEGA => Some("\U{1F4E3}")
    case CONFUSED => Some("\U{1F615}")
    case WORRIED => Some("\U{1F61F}")
    case THINKING => Some("\U{1F914}")
    case STOPWATCH => Some("\U{23F1}")
    case BUY => Some("\U{1F4E5}")
    case SELL => Some("\U{1F4E4}")
    case MARKET => Some("\U{1F6D2}")
    case MONEY => Some("\U{1F4B0}")
    case PENCIL => Some("\U{1F4DD}")
    case SMILE => Some("\U{1F604}")
    case PICK => Some("\U{26CF}")
    case HEART => Some("\U{2764}")
    case RUNNER => Some("\U{1F3C3}")
    case POTION1 => Some("\U{1F95B}")
    case POTION2 => Some("\U{1F37E}")
    case CREDITCARD => Some("\U{1F4B3}")
    case POUCH => Some("\U{1F45D}")
    case REP => Some("\U{1F396}")
    case MAGAZINE => Some("\U{1F4F0}")
    case AXE => Some("\U{2692}")
    case DOLLAR => Some("\U{1F4B5}")
    case WOOD => Some("\U{1F38D}")
    case EYES => Some("\U{1F440}")
    case PENNY => Some("\U{1F4BF}")
    case RING => Some("\U{1F48D}")
    case WIND => Some("\U{1F32C}")
    case BOOSTER => Some("\U{1F3C3}")
    case JOY => Some("\U{1F602}")
    case CROSSED_SWORD => Some("\U{2694}")
    case MAG => Some("\U{1F50E}")
    case KEY => Some("\U{1F511}")
    case DOG => Some("\U{1F436}")
    case DOOR => Some("\U{1F6AA}")
    case LOVE_LETTER => Some("\U{1F48C}")
    case NECKLACE => Some("\U{1F4FF}")
    case DIAMOND => Some("\U{1F48E}")
    case TUXEDO => Some("\U{1F935}")
    case DRESS => Some("\U{1F457}")
    case COOKIE => Some("\U{1F36A}")
    case CHOCOLATE => Some("\U{1F36B}")
    case CLOTHES => Some("\U{1F455}")
    case SHOES => Some("\U{1F45F}")
    case ROSE => Some("\U{1F339}")
    case PARTY => Some("\U{1F389}")
    case STAR => Some("\U{2B50}")
    case HOUSE => Some("\U{1F3E0}")
    case MARKER => Some("\U{1F536}")
    case BLUE_SMALL_MARKER => Some("\U{1F539}")
    case DUST => Some("\U{1F4A8}")
    case TROPHY => Some("\U{1F3C6}")
    case WRENCH => Some("\U{1F527}")
    case LOOT_CRATE => None
    case MINE_CRATE => None
    case FISH_CRATE => None
    case DIAMOND_PICK => None
    case STAR_PICK => None
    case COMET_PICK => None
    case SPARKLE_PICK => None
    case STAR_ROD => None
    case COMET_ROD => None
    case SPARKLE_ROD => None
    case PREMIUM_MINE_CRATE => None
    case PREMIUM_FISH_CRATE => None
    case SPARKLE_WRENCH => None
    case COMET_WRENCH => None
    case BROKEN_SPARKLE_PICK => None
    case BROKEN_COMET_PICK => None
    case BROKEN_STAR_PICK => None
    case BROKEN_SPARKLE_ROD => None
    case BROKEN_COMET_ROD => None
    case BROKEN_STAR_ROD => None
  }

  /** toString(): the Unicode form when there is one, else the Discord notation, then one space. */
  function ToString(e: EmoteReference): string
  {
    (match Unicode(e) case Some(u) => u case None => DiscordNotation(e)) + " "
  }

  /** The constants declared under "Custom emotes": LOOT_CRATE through BROKEN_STAR_ROD. */
  predicate IsCustom(e: EmoteReference)
  {
    match e
    case LOOT_CRATE | MINE_CRATE | FISH_CRATE | DIAMOND_PICK | STAR_PICK | COMET_PICK | SPARKLE_PICK
      | STAR_ROD | COMET_ROD | SPARKLE_ROD | PREMIUM_MINE_CRATE | PREMIUM_FISH_CRATE | SPARKLE_WRENCH
      | COMET_WRENCH | BROKEN_SPARKLE_PICK | BROKEN_COMET_PICK | BROKEN_STAR_PICK | BROKEN_SPARKLE_ROD
      | BROKEN_COMET_ROD | BROKEN_STAR_ROD => true
    case _ => false
  }

  /** toString prefers the Unicode form and falls back to the Discord notation, adding one space. */
  lemma ToStringChoosesForm(e: EmoteReference)
    ensures Unicode(e).Some? ==> ToString(e) == Unicode(e).value + " "
    ensures Unicode(e).None? ==> ToString(e) == DiscordNotation(e) + " "
    ensures ToString(e)[|ToString(e)| - 1] == ' '
  {
  }

  /** Exactly the custom emotes lack a Unicode form, so exactly they render as their notation. */
  lemma CustomEmotesRenderNotation(e: EmoteReference)
    ensures IsCustom(e) <==> Unicode(e).None?
    ensures IsCustom(e) ==> ToString(e) == DiscordNotation(e) + " "
  {
    match e
    case ERROR => case ERROR2 => case DICE => case SAD => case CORRECT => case OK =>
    case STOP => case TALKING => case CRYING => case WARNING => case POPPER => case ZAP =>
    case MEGA => case CONFUSED => case WORRIED => case THINKING => case STOPWATCH =>
    case BUY => case SELL => case MARKET => case MONEY => case PENCIL => case SMILE =>
    case PICK => case HEART => case RUNNER => case POTION1 => case POTION2 =>
    case CREDITCARD => case POUCH => case REP => case MAGAZINE => case AXE => case DOLLAR =>
    case WOOD => case EYES => case PENNY => case RING => case WIND => case BOOSTER =>
    case JOY => case CROSSED_SWORD => case MAG => case KEY => case DOG => case DOOR =>
    case LOVE_LETTER => case NECKLACE => case DIAMOND => case TUXEDO => case DRESS =>
    case COOKIE => case CHOCOLATE => case CLOTHES => case SHOES => case ROSE =>
    case PARTY => case STAR => case HOUSE => case MARKER => case BLUE_SMALL_MARKER =>
    case DUST => case TROPHY => case WRENCH => case LOOT_CRATE => case MINE_CRATE =>
    case FISH_CRATE => case DIAMOND_PICK => case STAR_PICK => case COMET_PICK =>
    case SPARKLE_PICK => case STAR_ROD => case COMET_ROD => case SPARKLE_ROD =>
    case PREMIUM_MINE_CRATE => case PREMIUM_FISH_CRATE => case SPARKLE_WRENCH =>
    case COMET_WRENCH => case BROKEN_SPARKLE_PICK => case BROKEN_COMET_PICK =>
    case BROKEN_STAR_PICK => case BROKEN_SPARKLE_ROD => case BROKEN_COMET_ROD =>
    case BROKEN_STAR_ROD =>
  }

  /** Rendering is not injective: two pairs of distinct constants print the same text. */
  lemma RenderingNotInjective()
    ensures POPPER != PARTY && ToString(POPPER) == ToString(PARTY)
    ensures RUNNER != BOOSTER && ToString(RUNNER) == ToString(BOOSTER)
  {
  }
}
