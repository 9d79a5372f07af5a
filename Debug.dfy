/**
  The two decision rules of the debug commands (DebugCmds.java): the latency classifier behind
  the ping reply, and the shard-health tally of the status command with its verdict and
  warning lines. The gateway, the shard list and the translated quote texts are inputs: a quote
  is returned as the i18n key it selects.
*/
module Debug {
  import opened Wrappers
  import opened JavaLang

  // ---------------------------------------------------------------------------------------
  // ratePing

  /** The thresholds of ratePing, in the order the if-chain tests them. */
  const PING_BUCKETS: seq<int> := [1, 10, 100, 200, 300, 400, 500, 600, 700, 800, 900, 1600, 10000]

  /** Which translated quote ratePing picks: the "69" quote, one bucket, or the default. */
  datatype PingQuote = Quote69 | UpTo(bucket: int) | QuoteDefault

  /**
    ratePing: the "69" quote exactly when the ping is 69; otherwise the smallest bucket that is
    at least the ping, and the default quote above the largest bucket.
  */
  function RatePing(ping: int): (q: PingQuote)
    ensures q == Quote69 <==> ping == 69
    ensures q.UpTo? ==> q.bucket in PING_BUCKETS && ping <= q.bucket
    ensures q.UpTo? ==> forall b :: b in PING_BUCKETS && ping <= b ==> q.bucket <= b
    ensures ping != 69 && ping <= 10000 ==> q.UpTo?
    ensures q == QuoteDefault <==> ping > 10000
  {
    if ping == 69 then Quote69
    else if ping <= 1 then UpTo(1)
    else if ping <= 10 then UpTo(10)
    else if ping <= 100 then UpTo(100)
    else if ping <= 200 then UpTo(200)
    else if ping <= 300 then UpTo(300)
    else if ping <= 400 then UpTo(400)
    else if ping <= 500 then UpTo(500)
    else if ping <= 600 then UpTo(600)
    else if ping <= 700 then UpTo(700)
    else if ping <= 800 then UpTo(800)
    else if ping <= 900 then UpTo(900)
    else if ping <= 1600 then UpTo(1600)
    else if ping <= 10000 then UpTo(10000)
    else QuoteDefault
  }

  /** The i18n key of a quote. */
  function QuoteKey(q: PingQuote): string
  {
    "commands.ping.quotes." +
    match q
    case Quote69 => "69"
    case UpTo(b) => IntToString(b)
    case QuoteDefault => "default"
  }

  /** A slower ping never gets a smaller bucket, unless it is the special 69. */
  lemma RatePingMonotone(p1: int, p2: int)
    requires p1 <= p2 && p1 != 69 && p2 != 69
    ensures RatePing(p2).UpTo? ==> RatePing(p1).UpTo? && RatePing(p1).bucket <= RatePing(p2).bucket
  {
  }

  // ---------------------------------------------------------------------------------------
  // The shard tally of the status command

  /** A shard's JDA status; only RECONNECT_QUEUED matters to the tally. */
  datatype ShardStatus = ReconnectQueued | OtherStatus

  /** What the tally reads of a started shard: its status and ms since its last JDA event. */
  datatype ShardView = ShardView(status: ShardStatus, lastEventDiff: int)

  /** A slot of the shard list; None is a shard not yet created (still connecting). */
  type Slot = Option<ShardView>

  /** A shard whose last event is older than this many ms is dead. */
  const DEAD_DIFF: int := 50000
  /** A shard whose last event is older than this many ms has a high event time. */
  const HIGH_DIFF: int := 1650

  predicate IsConnecting(s: Slot) { s.None? }
  predicate IsReconnecting(s: Slot) { s.Some? && s.value.status == ReconnectQueued }
  /** A created shard that is not queued for reconnection. */
  predicate IsLive(s: Slot) { s.Some? && s.value.status != ReconnectQueued }
  predicate IsDead(s: Slot) { IsLive(s) && s.value.lastEventDiff > DEAD_DIFF }
  predicate IsHigh(s: Slot) { IsLive(s) && s.value.lastEventDiff > HIGH_DIFF }

  /** The number of slots satisfying `p`. */
  function CountIf(shards: seq<Slot>, p: Slot -> bool): nat
  {
    if shards == [] then 0
    else CountIf(shards[..|shards| - 1], p) + (if p(shards[|shards| - 1]) then 1 else 0)
  }

  /** The four counters of the status command. */
  datatype Counts = Counts(dead: nat, reconnecting: nat, connecting: nat, high: nat)

  /** The counters the status loop should reach: each one the number of slots of its kind. */
  function Tally(shards: seq<Slot>): Counts
  {
    Counts(CountIf(shards, IsDead), CountIf(shards, IsReconnecting),
           CountIf(shards, IsConnecting), CountIf(shards, IsHigh))
  }

  /**
    The loop of the status command: a missing shard counts as connecting and nothing else; a
    shard queued for reconnection counts as reconnecting and nothing else; any other shard
    counts as dead and/or high by the age of its last event.
  */
  method CountShards(shards: seq<Slot>) returns (c: Counts)
    ensures c == Tally(shards)
  {
    c := Counts(0, 0, 0, 0);
    var k := 0;
    while k < |shards|
      invariant 0 <= k <= |shards|
      invariant c == Tally(shards[..k])
    {
      assert shards[..k + 1][..k] == shards[..k];
      var shard := shards[k];
      k := k + 1;
      if shard.None? {
        c := c.(connecting := c.connecting + 1);
        continue;
      }
      var reconnect := shard.value.status == ReconnectQueued;
      if shard.value.lastEventDiff > DEAD_DIFF && !reconnect {
        c := c.(dead := c.dead + 1);
      }
      if reconnect {
        c := c.(reconnecting := c.reconnecting + 1);
      }
      if shard.value.lastEventDiff > HIGH_DIFF && !reconnect {
        c := c.(high := c.high + 1);
      }
    }
    assert shards[..k] == shards;
  }

  lemma {:induction false} CountIfMonotone(shards: seq<Slot>, p: Slot -> bool, q: Slot -> bool)
    requires forall s :: p(s) ==> q(s)
    ensures CountIf(shards, p) <= CountIf(shards, q)
    decreases |shards|
  {
    if shards != [] {
      CountIfMonotone(shards[..|shards| - 1], p, q);
    }
  }

  lemma {:induction false} CountIfNone(shards: seq<Slot>, p: Slot -> bool)
    requires forall i :: 0 <= i < |shards| ==> !p(shards[i])
    ensures CountIf(shards, p) == 0
    decreases |shards|
  {
    if shards != [] {
      CountIfNone(shards[..|shards| - 1], p);
    }
  }

  /** Every slot is exactly one of connecting, reconnecting or live. */
  lemma {:induction false} SlotsPartition(shards: seq<Slot>)
    ensures CountIf(shards, IsConnecting) + CountIf(shards, IsReconnecting) + CountIf(shards, IsLive)
            == |shards|
    decreases |shards|
  {
    if shards != [] {
      SlotsPartition(shards[..|shards| - 1]);
    }
  }

  /** Every dead shard is also counted as high, so dead <= high <= live. */
  lemma DeadAtMostHigh(shards: seq<Slot>)
    ensures Tally(shards).dead <= Tally(shards).high <= CountIf(shards, IsLive)
  {
    CountIfMonotone(shards, IsDead, IsHigh);
    CountIfMonotone(shards, IsHigh, IsLive);
  }

  /** The connecting counter is the number of missing shards, whatever the other slots are. */
  lemma {:induction false} ConnectingCountsMissingShards(shards: seq<Slot>, started: seq<ShardView>)
    requires |started| <= |shards|
    requires forall i :: 0 <= i < |started| ==> shards[i] == Some(started[i])
    requires forall i :: |started| <= i < |shards| ==> shards[i] == None
    ensures Tally(shards).connecting == |shards| - |started|
    decreases |shards|
  {
    if |shards| > |started| {
      ConnectingCountsMissingShards(shards[..|shards| - 1], started);
    } else {
      CountIfNone(shards, IsConnecting);
    }
  }

  // ---------------------------------------------------------------------------------------
  // Verdict and warnings

  /** More than this many reconnecting shards is a warning, and also excuses high event times. */
  const RECONNECT_LIMIT: nat := 10
  /** More than this many high shards is a warning. */
  const HIGH_LIMIT: nat := 20
  /** More than this many dead shards is a warning. */
  const DEAD_LIMIT: nat := 5

  /** The status line's verdict. */
  predicate Okay(c: Counts)
  {
    c.dead == 0 && (c.high == 0 || c.reconnecting > RECONNECT_LIMIT)
  }

  datatype Warning = ManyReconnecting(count: nat) | ManyHigh | ManyDead(count: nat)

  /** The warning lines of the report, in the order they are appended. */
  function Warnings(c: Counts): (w: seq<Warning>)
    ensures ManyReconnecting(c.reconnecting) in w <==> c.reconnecting > RECONNECT_LIMIT
    ensures ManyHigh in w <==> c.high > HIGH_LIMIT
    ensures ManyDead(c.dead) in w <==> c.dead > DEAD_LIMIT
    ensures forall x :: x in w ==> x == ManyReconnecting(c.reconnecting) || x == ManyHigh || x == ManyDead(c.dead)
    ensures |w| <= 3
  {
    (if c.reconnecting > RECONNECT_LIMIT then [ManyReconnecting(c.reconnecting)] else []) +
    (if c.high > HIGH_LIMIT then [ManyHigh] else []) +
    (if c.dead > DEAD_LIMIT then [ManyDead(c.dead)] else [])
  }

  function WarningText(w: Warning): string
  {
    match w
    case ManyReconnecting(n) =>
      "WARNING: A large number of shards are reconnecting right now! Bot might be unavailable on several thousands guilds for some minutes! ("
      + IntToString(n) + " shards reconnecting now)\n"
    case ManyHigh =>
      "WARNING: A very large number of shards has a high last event time! A restart might be needed if this doesn't fix itself on some minutes!\n"
    case ManyDead(n) =>
      "WARNING: Several shards (" + IntToString(n) + ") appear to be dead! If this doesn't get fixed in 30 minutes please report this!\n"
  }

  function StatusLine(c: Counts): string
  {
    if Okay(c) then "Status: Okay :)\n\n" else "Status: Warning :(\n\n"
  }

  function ConcatWarnings(ws: seq<Warning>): string
  {
    if ws == [] then "" else WarningText(ws[0]) + ConcatWarnings(ws[1..])
  }

  /** The head of the report: the verdict line followed by the warning lines. */
  function ReportHead(c: Counts): string
  {
    StatusLine(c) + ConcatWarnings(Warnings(c))
  }

  /** The verdict line reads "Status: Okay" exactly when the verdict is Okay. */
  lemma StatusLineVerdict(c: Counts)
    ensures Okay(c) ==> "Status: Okay" <= StatusLine(c)
    ensures !Okay(c) ==> "Status: Warning" <= StatusLine(c) && !("Status: Okay" <= StatusLine(c))
  {
    if !Okay(c) {
      assert StatusLine(c)[8] == 'W';
    }
  }

  lemma PrefixOfAppend(p: string, a: string, b: string)
    ensures |p| <= |a| ==> (p <= a + b <==> p <= a)
  {
    if |p| <= |a| {
      assert (a + b)[..|p|] == a[..|p|];
    }
  }

  /** The report opens with its verdict line, so with "Status: Okay" exactly when Okay. */
  lemma ReportHeadOpensWithVerdict(c: Counts)
    ensures Okay(c) ==> "Status: Okay" <= ReportHead(c)
    ensures !Okay(c) ==> "Status: Warning" <= ReportHead(c) && !("Status: Okay" <= ReportHead(c))
  {
    var line, rest := StatusLine(c), ConcatWarnings(Warnings(c));
    StatusLineVerdict(c);
    PrefixOfAppend("Status: Okay", line, rest);
    PrefixOfAppend("Status: Warning", line, rest);
  }

  /**
    With no dead shard and every live shard's last event recent enough, the status is Okay, and
    with more than five dead shards it is never Okay and both the dead-shard and, as every dead
    shard is high, at least the high count is above five too.
  */
  lemma {:induction false} VerdictFromShards(shards: seq<Slot>)
    ensures (forall i :: 0 <= i < |shards| ==> !IsHigh(shards[i])) ==> Okay(Tally(shards))
    ensures Tally(shards).dead > DEAD_LIMIT ==>
      !Okay(Tally(shards)) && ManyDead(Tally(shards).dead) in Warnings(Tally(shards)) &&
      Tally(shards).high > DEAD_LIMIT
  {
    DeadAtMostHigh(shards);
    if forall i :: 0 <= i < |shards| ==> !IsHigh(shards[i]) {
      CountIfNone(shards, IsHigh);
    }
  }
}
