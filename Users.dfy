/**
  The per-user document stored for every Discord user (UserData.java): plain fields with their
  defaults, and the one piece of logic in the class, the capped dust-level increase.
*/
module Users {
  import opened Wrappers
  import opened JavaLang

  /** The dust level at which increases stop ("cap at 100"). */
  const DUST_CAP: int := 100

  function Min(a: int, b: int): int { if a <= b then a else b }

  /**
    The value increaseDustLevel leaves in dustLevel: the level plus min(1, increment), computed with
    Java int wrap-around, unless that sum reaches the cap, in which case the level is kept.
  */
  function NextDustLevel(level: int, increment: int): int
    requires IsInt32(level) && IsInt32(increment)
  {
    var increased := Wrap32(level + Min(1, increment));
    if increased >= DUST_CAP then level else increased
  }

  /** A level below the cap stays below it, whatever the increment. */
  lemma DustStaysBelowCap(level: int, increment: int)
    requires IsInt32(level) && IsInt32(increment)
    requires level < DUST_CAP
    ensures NextDustLevel(level, increment) < DUST_CAP
  {
  }

  /**
    The increment is min(1, increment): a positive increment adds exactly one while there is
    room, a non-positive one is added as it is while the sum stays in the int range, and a sum
    below Integer.MIN_VALUE wraps around by 2^32 before it is compared with the cap.
  */
  lemma DustIncrement(level: int, increment: int)
    requires IsInt32(level) && IsInt32(increment)
    ensures increment >= 1 && level + 1 < DUST_CAP ==> NextDustLevel(level, increment) == level + 1
    ensures increment >= 1 && level + 1 >= DUST_CAP && level < INT_MAX ==> NextDustLevel(level, increment) == level
    ensures increment >= 1 && level == INT_MAX ==> NextDustLevel(level, increment) == INT_MIN
    ensures increment <= 0 && INT_MIN <= level + increment && level + increment >= DUST_CAP ==>
      NextDustLevel(level, increment) == level
    ensures increment <= 0 && INT_MIN <= level + increment < DUST_CAP ==> NextDustLevel(level, increment) == level + increment
    ensures increment <= 0 && level + increment < INT_MIN ==>
      var wrapped := level + increment + 0x1_0000_0000;
      NextDustLevel(level, increment) == if wrapped >= DUST_CAP then level else wrapped
  {
  }

  class UserData {
    var birthday: Option<string>
    var hasReceivedFirstKey: bool
    var premiumKey: Option<string>
    var reminderN: int
    var timezone: Option<string>
    var lang: Option<string>
    var dustLevel: int  // percentage
    var equippedPick: int
    var equippedRod: int
    var receivedExpirationWarning: bool
    var keysClaimed: map<string, string>
    var marriageId: Option<string>
    var waifus: map<string, int>
    var waifuSlots: int
    var timesClaimed: int
    var reminders: seq<string>

    /** Every Java `int` field holds a 32-bit value. */
    ghost predicate Valid()
      reads this
    {
      IsInt32(reminderN) && IsInt32(dustLevel) && IsInt32(equippedPick) && IsInt32(equippedRod) &&
      IsInt32(waifuSlots) && IsInt32(timesClaimed)
    }

    /** The field initialisers: three waifu slots, empty collections, Java defaults elsewhere. */
    constructor ()
      ensures Valid()
      ensures waifuSlots == 3 && waifus == map[] && keysClaimed == map[] && reminders == []
      ensures birthday == None && premiumKey == None && timezone == None && lang == None
      ensures marriageId == None
      ensures !hasReceivedFirstKey && !receivedExpirationWarning
      ensures reminderN == 0 && dustLevel == 0 && equippedPick == 0 && equippedRod == 0
      ensures timesClaimed == 0
    {
      birthday, hasReceivedFirstKey, premiumKey, reminderN := None, false, None, 0;
      timezone, lang, dustLevel, equippedPick, equippedRod := None, None, 0, 0, 0;
      receivedExpirationWarning, keysClaimed, marriageId := false, map[], None;
      waifus, waifuSlots, timesClaimed, reminders := map[], 3, 0, [];
    }

    /**
      increaseDustLevel: store the increased level unless it would reach the cap, and return
      the field's value afterwards. No other field changes.
    */
    method IncreaseDustLevel(increment: int) returns (level: int)
      requires Valid() && IsInt32(increment)
      modifies this`dustLevel
      ensures Valid()
      ensures dustLevel == NextDustLevel(old(dustLevel), increment)
      ensures level == dustLevel
      ensures old(dustLevel) < DUST_CAP ==> dustLevel < DUST_CAP
    {
      var increased := Wrap32(dustLevel + Min(1, increment));
      if increased >= DUST_CAP {
        return dustLevel;
      }
      dustLevel := increased;
      level := dustLevel;
    }
  }
}
