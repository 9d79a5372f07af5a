/**
  The arithmetic of the fun commands (FunCmds.java): the coin-flip repetition rule and count,
  the deterministic waifu score, the roll options and the dice sum, and the love percentage
  and its verdict. Random draws are parameters holding what java.util.Random would return.
*/
module Fun {
  import opened Wrappers
  import opened JavaLang

  // ---------------------------------------------------------------------------------------
  // coinflip

  /** The largest accepted number of repetitions. */
  const MAX_FLIPS: int := 1000

  datatype CoinflipError = OverLimit | NoRepetitions

  /**
    How many times to flip: once with no argument, else the first argument as a Java int. A
    value above the limit and a non-numeric value are rejected before any flip; a zero or
    negative value is accepted.
  */
  function FlipTimes(content: string, args: seq<string>): (r: Result<int, CoinflipError>)
    ensures |args| == 0 || |content| == 0 ==> r == Ok(1)
    ensures |args| > 0 && |content| > 0 ==>
      (r == Err(NoRepetitions) <==> ParseInt(args[0]).None?) &&
      (r == Err(OverLimit) <==> ParseInt(args[0]).Some? && ParseInt(args[0]).value > MAX_FLIPS) &&
      (r.Ok? ==> ParseInt(args[0]) == Some(r.value))
    ensures r.Ok? ==> IsInt32(r.value) && r.value <= MAX_FLIPS
  {
    if |args| == 0 || |content| == 0 then Ok(1)
    else match ParseInt(args[0])
      case None => Err(NoRepetitions)
      case Some(n) => if n > MAX_FLIPS then Err(OverLimit) else Ok(n)
  }

  /** A number written out in decimal is accepted exactly when it is at most the limit. */
  lemma FlipTimesOfNumber(n: int)
    requires IsInt32(n)
    ensures FlipTimes(IntToString(n), [IntToString(n)]) == if n > MAX_FLIPS then Err(OverLimit) else Ok(n)
  {
    ParseIntToString(n);
  }

  /** Digits of other scripts count as Java's parseInt reads them: Arabic-Indic three, fullwidth thirty. */
  lemma FlipTimesOfUnicodeDigits()
    ensures FlipTimes("\U{0663}", ["\U{0663}"]) == Ok(3)
    ensures FlipTimes("\U{FF13}\U{FF10}", ["\U{FF13}\U{FF10}"]) == Ok(30)
  {
    ParseIntUnicodeDigits();
  }

  function Max0(n: int): nat { if n < 0 then 0 else n }

  /** The number of heads (true draws) in a sequence of coin draws. */
  function CountHeads(draws: seq<bool>): nat
    ensures CountHeads(draws) <= |draws|
  {
    if draws == [] then 0
    else CountHeads(draws[..|draws| - 1]) + (if draws[|draws| - 1] then 1 else 0)
  }

  /**
    The coinflip command: decide the repetitions, then flip that many times, one draw each
    (none when the count is not positive). `draws` holds the Random.nextBoolean() results, as
    many as the limit allows.
  */
  method Coinflip(content: string, args: seq<string>, draws: seq<bool>)
    returns (r: Result<(int, nat, nat), CoinflipError>)
    requires |draws| >= MAX_FLIPS
    ensures FlipTimes(content, args).Err? ==> r == Err(FlipTimes(content, args).error)
    ensures FlipTimes(content, args).Ok? ==> r.Ok? && r.value.0 == FlipTimes(content, args).value
    ensures r.Ok? ==> r.value.1 + r.value.2 == Max0(r.value.0)
    ensures r.Ok? ==> r.value.1 == CountHeads(draws[..Max0(r.value.0)])
  {
    var decided := FlipTimes(content, args);
    if decided.Err? {
      return Err(decided.error);
    }
    var times := decided.value;
    var heads, tails := 0, 0;
    var i := 0;
    while i < times
      invariant 0 <= Max0(i) <= Max0(times)
      invariant i > 0 ==> i <= times
      invariant heads == CountHeads(draws[..Max0(i)])
      invariant heads + tails == Max0(i)
    {
      assert draws[..i + 1][..i] == draws[..Max0(i)];
      if draws[i] {
        heads := heads + 1;
      } else {
        tails := tails + 1;
      }
      i := i + 1;
    }
    return Ok((times, heads, tails));
  }

  // ---------------------------------------------------------------------------------------
  // ratewaifu

  /**
    The waifu score, or None ("nothing specified") when the command has no arguments: whitespace
    runs collapsed, "<@!id>" mentions rewritten to "<@id>", the UTF-16 code units summed with int
    overflow, and Java's remainder by 101; content equal to "mantaro", ignoring case, scores 100.
  */
  function WaifuRate(content: string, args: seq<string>): (rate: Option<int>)
    ensures rate.None? <==> |args| == 0
    ensures |args| > 0 && EqualsIgnoreCase(content, "mantaro") ==> rate == Some(100)
    ensures rate.Some? ==> -100 <= rate.value <= 100
  {
    if |args| == 0 then None
    else if EqualsIgnoreCase(content, "mantaro") then Some(100)
    else Some(JavaRem(Wrap32(Sum(Utf16Units(NormalizeMentions(CollapseWhitespace(content))))), 101))
  }

  /**
    A non-negative score: for any content up to 16383 characters the code-unit sum cannot
    overflow an int, so the score lies in 0..100.
  */
  lemma WaifuRateNonNegative(content: string, args: seq<string>)
    requires |content| <= 16383
    ensures WaifuRate(content, args).Some? ==> 0 <= WaifuRate(content, args).value <= 100
  {
    var units := Utf16Units(NormalizeMentions(CollapseWhitespace(content)));
    SumBounds(units, 0xFFFF);
    assert |units| * 0xFFFF <= 2 * 16383 * 0xFFFF;
  }

  // ---------------------------------------------------------------------------------------
  // roll

  const DEFAULT_SIZE: int := 6
  const DEFAULT_AMOUNT: int := 1
  /** Amounts at or above this are clamped to it. */
  const MAX_AMOUNT: int := 100

  datatype RollOptions = RollOptions(size: int, amount: int)

  /** The Java int that `opts[key]` parses to, or `otherwise` when absent or unparsable. */
  function ParsedOr(opts: map<Option<string>, string>, key: Option<string>, otherwise: int): (n: int)
    ensures key !in opts ==> n == otherwise
    ensures key in opts && ParseInt(opts[key]).None? ==> n == otherwise
    ensures key in opts && ParseInt(opts[key]).Some? ==> n == ParseInt(opts[key]).value
  {
    if key in opts && ParseInt(opts[key]).Some? then ParseInt(opts[key]).value else otherwise
  }

  /**
    The roll options: "-size" and "-amount" as parsed options (the key None is the bare value
    an old-style "~>roll 3" leaves, consulted only without "-amount"); an unparsable value keeps
    the default, and the amount is clamped to 100.
  */
  function RollOptionsOf(opts: map<Option<string>, string>): (o: RollOptions)
    ensures o.size == ParsedOr(opts, Some("size"), DEFAULT_SIZE)
    ensures Some("amount") in opts ==> o.amount == Clamp(ParsedOr(opts, Some("amount"), DEFAULT_AMOUNT))
    ensures Some("amount") !in opts ==> o.amount == Clamp(ParsedOr(opts, None, DEFAULT_AMOUNT))
    ensures opts == map[] ==> o == RollOptions(DEFAULT_SIZE, DEFAULT_AMOUNT)
    ensures o.amount <= MAX_AMOUNT
  {
    var size := ParsedOr(opts, Some("size"), DEFAULT_SIZE);
    var amount :=
      if Some("amount") in opts then ParsedOr(opts, Some("amount"), DEFAULT_AMOUNT)
      else ParsedOr(opts, None, DEFAULT_AMOUNT);
    RollOptions(size, Clamp(amount))
  }

  /** The clamp: 100 and above become exactly 100, anything lower is kept. */
  function Clamp(amount: int): (c: int)
    ensures c <= MAX_AMOUNT && c <= amount
    ensures c == MAX_AMOUNT || c == amount
    ensures amount <= MAX_AMOUNT ==> c == amount
  {
    if amount >= MAX_AMOUNT then MAX_AMOUNT else amount
  }

  datatype RollError = NonPositiveBound

  /** The dice total of a run of Random.nextInt(size) draws: each draw plus one. */
  function DiceTotal(draws: seq<int>): int
  {
    if draws == [] then 0 else DiceTotal(draws[..|draws| - 1]) + draws[|draws| - 1] + 1
  }

  lemma {:induction false} DiceTotalBounds(draws: seq<int>, size: int)
    requires forall k :: 0 <= k < |draws| ==> 0 <= draws[k] < size
    ensures |draws| <= DiceTotal(draws) <= |draws| * size
    decreases |draws|
  {
    if draws != [] {
      DiceTotalBounds(draws[..|draws| - 1], size);
    }
  }

  /** Two positive Java ints multiply to a value that fits in a long. */
  lemma ProductFitsLong(a: int, b: int)
    requires 1 <= a <= INT_MAX && 1 <= b <= INT_MAX
    ensures a * b <= LONG_MAX
  {
    assert a * b <= INT_MAX * b;
    assert INT_MAX * b <= INT_MAX * INT_MAX;
  }

  /**
    diceRoll: the sum of `amount` rolls of a `size`-sided die, in a long. A positive amount
    with a bound that is not positive makes Random.nextInt throw, reported as an error.
  */
  method DiceRoll(size: int, amount: int, draws: seq<int>) returns (r: Result<int, RollError>)
    requires IsInt32(size) && IsInt32(amount)
    requires amount <= |draws|
    requires size > 0 ==> forall k :: 0 <= k < |draws| ==> 0 <= draws[k] < size
    ensures amount >= 1 && size <= 0 <==> r == Err(NonPositiveBound)
    ensures r.Ok? ==> r.value == DiceTotal(draws[..Max0(amount)])
    ensures r.Ok? && amount >= 1 ==> amount <= r.value <= amount * size
    ensures amount <= 0 ==> r == Ok(0)
    ensures r.Ok? ==> IsInt64(r.value)
  {
    var sum := 0;
    var i := 0;
    while i < amount
      invariant 0 <= Max0(i) <= Max0(amount)
      invariant i > 0 ==> i <= amount
      invariant sum == DiceTotal(draws[..Max0(i)])
      invariant i > 0 ==> size > 0
    {
      if size <= 0 {
        return Err(NonPositiveBound);
      }
      assert draws[..i + 1][..i] == draws[..Max0(i)];
      sum := sum + draws[i] + 1;
      i := i + 1;
    }
    if amount >= 1 {
      DiceTotalBounds(draws[..amount], size);
      ProductFitsLong(amount, size);
    }
    return Ok(sum);
  }

  /** A roll of the six-sided die whose result is 6 earns the luck badge. */
  predicate EarnsLuckBadge(size: int, result: int)
  {
    size == DEFAULT_SIZE && result == 6
  }

  /**
    The badge needs between one and six dice, and with a single die it is the draw of a six.
  */
  lemma LuckBadgeNeedsFewDice(draws: seq<int>)
    requires forall k :: 0 <= k < |draws| ==> 0 <= draws[k] < DEFAULT_SIZE
    requires EarnsLuckBadge(DEFAULT_SIZE, DiceTotal(draws))
    ensures 1 <= |draws| <= 6
    ensures |draws| == 1 ==> draws[0] == 5
  {
    DiceTotalBounds(draws, DEFAULT_SIZE);
    if |draws| == 1 {
      assert draws[..0] == [];
    }
  }

  // ---------------------------------------------------------------------------------------
  // love

  /**
    The two user ids compared: with one mention the author and the mentioned user, with two or
    more the first two mentions; with none the command refuses (None).
  */
  function LovePair(author: int, mentioned: seq<int>): (p: Option<(int, int)>)
    ensures p.None? <==> |mentioned| == 0
    ensures |mentioned| == 1 ==> p == Some((author, mentioned[0]))
    ensures |mentioned| >= 2 ==> p == Some((mentioned[0], mentioned[1]))
  {
    if |mentioned| < 1 then None
    else if |mentioned| > 1 then Some((mentioned[0], mentioned[1]))
    else Some((author, mentioned[0]))
  }

  /** The percentage: 101 for a user with themselves, else `draw` from nextInt(101). */
  function LovePercentage(pair: (int, int), draw: int): (p: int)
    requires 0 <= draw < 101
    ensures p == 101 <==> pair.0 == pair.1
    ensures pair.0 != pair.1 ==> 0 <= p <= 100
  {
    if pair.0 == pair.1 then 101 else draw
  }

  datatype LoveResult = NotIdeal | Decent | Nice | Perfect | YourselfNote

  function LoveBucket(percentage: int): (r: LoveResult)
    ensures r == NotIdeal <==> percentage < 45
    ensures r == Decent <==> 45 <= percentage < 75
    ensures r == Nice <==> 75 <= percentage < 100
    ensures r == Perfect <==> percentage >= 100 && percentage != 101
    ensures r == YourselfNote <==> percentage == 101
  {
    if percentage < 45 then NotIdeal
    else if percentage < 75 then Decent
    else if percentage < 100 then Nice
    else if percentage == 101 then YourselfNote
    else Perfect
  }

  /**
    The note about loving yourself appears exactly when both ids are the same user, and a
    perfect score is reachable between two different users only with the draw 100.
  */
  lemma LoveYourselfExactly(pair: (int, int), draw: int)
    requires 0 <= draw < 101
    ensures LoveBucket(LovePercentage(pair, draw)) == YourselfNote <==> pair.0 == pair.1
    ensures LoveBucket(LovePercentage(pair, draw)) == Perfect <==> pair.0 != pair.1 && draw == 100
  {
  }

  /** Mentioning only yourself always yields the note; mentioning two users never compares the author. */
  lemma LoveSelfMention(author: int, mentioned: seq<int>, draw: int)
    requires 0 <= draw < 101
    requires |mentioned| == 1 && mentioned[0] == author
    ensures LovePair(author, mentioned).Some?
    ensures LoveBucket(LovePercentage(LovePair(author, mentioned).value, draw)) == YourselfNote
  {
  }
}
