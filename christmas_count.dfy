/** The Christmas countdown card (components/christmascount.tsx): time left until 7 am on Christmas
    Day shown as four zero-padded blocks, over a field of fifty falling snowflakes. */
module ChristmasCount {
  import opened Countdown

  // ---------------------------------------------------------------- number display

  /** `n.toString()` for a number that is a whole, non-negative integer. */
  function ToDecimal(n: nat): (s: string)
    ensures |s| >= 1 && IsDigits(s)
    decreases n
  {
    if n < 10 then [DigitChar(n)] else ToDecimal(n / 10) + [DigitChar(n % 10)]
  }

  function DigitChar(d: nat): (c: char)
    requires d < 10
    ensures '0' <= c <= '9'
  {
    ['0', '1', '2', '3', '4', '5', '6', '7', '8', '9'][d]
  }

  /** The value a string of decimal digits denotes (leading zeros allowed). */
  function DigitsValue(s: string): nat
    requires IsDigits(s)
  {
    if |s| == 0 then 0 else DigitsValue(s[..|s| - 1]) * 10 + ((s[|s| - 1] as int) - ('0' as int))
  }

  /** Printing and reading back a number gives the number. */
  lemma {:induction false} DecimalRoundTrip(n: nat)
    ensures DigitsValue(ToDecimal(n)) == n
  {
    var s := ToDecimal(n);
    if n >= 10 {
      DecimalRoundTrip(n / 10);
      assert s[..|s| - 1] == ToDecimal(n / 10);
    }
  }

  /** A number prints with two or more digits exactly when it is 10 or more. */
  lemma {:induction false} DecimalLength(n: nat)
    ensures |ToDecimal(n)| >= 2 <==> n >= 10
  {
    if n >= 10 {
      DecimalLength(n / 10);
    }
  }

  /** Leading zeros do not change the value a digit string denotes. */
  lemma {:induction false} LeadingZeros(z: nat, s: string)
    requires IsDigits(s)
    ensures DigitsValue(seq(z, _ => '0') + s) == DigitsValue(s)
    decreases |s|
  {
    var t := seq(z, _ => '0') + s;
    if |s| == 0 {
      ZerosValue(z);
      assert t == seq(z, _ => '0');
    } else {
      assert t[..|t| - 1] == seq(z, _ => '0') + s[..|s| - 1];
      LeadingZeros(z, s[..|s| - 1]);
    }
  }

  lemma {:induction false} ZerosValue(z: nat)
    ensures DigitsValue(seq(z, _ => '0')) == 0
  {
    if z > 0 {
      assert seq(z, _ => '0')[..z - 1] == seq(z - 1, _ => '0');
      ZerosValue(z - 1);
    }
  }

  /** `s.padStart(width, fill)`. */
  function PadStart(s: string, width: nat, fill: char): (r: string)
    ensures |r| == if |s| >= width then |s| else width
    ensures r[|r| - |s|..] == s
    ensures forall i :: 0 <= i < |r| - |s| ==> r[i] == fill
  {
    if |s| >= width then s else seq(width - |s|, _ => fill) + s
  }

  predicate IsDigits(s: string) {
    forall i :: 0 <= i < |s| ==> '0' <= s[i] <= '9'
  }

  /** What `TimeBlock` shows for a value: `value.toString().padStart(2, '0')`. One leading zero for
      0 to 9, the plain digits otherwise; either way the text reads back as the value. */
  function TimeBlockText(value: nat): (r: string)
    ensures |r| >= 2 && IsDigits(r)
    ensures value < 10 ==> r == ['0'] + ToDecimal(value)
    ensures value >= 10 ==> r == ToDecimal(value)
    ensures value < 100 ==> |r| == 2
    ensures DigitsValue(r) == value
  {
    DecimalLength(value);
    ShortDecimal(value);
    TimeBlockValue(value);
    PadStart(ToDecimal(value), 2, '0')
  }

  /** The padded text reads back as the value. */
  lemma TimeBlockValue(value: nat)
    ensures DigitsValue(PadStart(ToDecimal(value), 2, '0')) == value
  {
    var s := ToDecimal(value);
    DecimalRoundTrip(value);
    if |s| < 2 {
      LeadingZeros(2 - |s|, s);
    }
  }

  /** The four blocks for a split whose fields are not negative. */
  function BlocksOf(s: Split): (blocks: seq<string>)
    requires s.days >= 0 && 0 <= s.hours < 24 && 0 <= s.minutes < 60 && 0 <= s.seconds < 60
    ensures |blocks| == 4 && |blocks[0]| >= 2 && |blocks[1]| == 2 && |blocks[2]| == 2 && |blocks[3]| == 2
    ensures IsDigits(blocks[0]) && IsDigits(blocks[1]) && IsDigits(blocks[2]) && IsDigits(blocks[3])
    ensures && DigitsValue(blocks[0]) == s.days && DigitsValue(blocks[1]) == s.hours
            && DigitsValue(blocks[2]) == s.minutes && DigitsValue(blocks[3]) == s.seconds
  {
    [TimeBlockText(s.days), TimeBlockText(s.hours), TimeBlockText(s.minutes), TimeBlockText(s.seconds)]
  }

  /** The four blocks the card shows for a remaining time: each reads back as its field of the split,
      days with two or more digits, the other three with exactly two. */
  function TimeBlocks(timeRemaining: nat): (blocks: seq<string>)
    ensures |blocks| == 4 && |blocks[0]| >= 2 && |blocks[1]| == 2 && |blocks[2]| == 2 && |blocks[3]| == 2
    ensures IsDigits(blocks[0]) && IsDigits(blocks[1]) && IsDigits(blocks[2]) && IsDigits(blocks[3])
    ensures var s := SplitMillis(timeRemaining);
      && DigitsValue(blocks[0]) == s.days && DigitsValue(blocks[1]) == s.hours
      && DigitsValue(blocks[2]) == s.minutes && DigitsValue(blocks[3]) == s.seconds
  {
    SplitMillisBounds(timeRemaining);
    BlocksOf(SplitMillis(timeRemaining))
  }

  /** A number below 100 prints with at most two digits. */
  lemma ShortDecimal(n: nat)
    ensures n < 100 ==> |ToDecimal(n)| <= 2
  {
  }

  // ---------------------------------------------------------------- snowflakes

  /** Positions and sizes are in pixels, the rotation in degrees, the speed in pixels per tick. */
  datatype Snowflake = Snowflake(x: real, y: real, size: real, rotation: real, speed: real)

  /** The five `Math.random()` values one snowflake draws. */
  datatype FlakeDraw = FlakeDraw(rx: real, ry: real, rsize: real, rrotation: real, rspeed: real)

  predicate ValidDraw(d: FlakeDraw) {
    && 0.0 <= d.rx < 1.0 && 0.0 <= d.ry < 1.0 && 0.0 <= d.rsize < 1.0
    && 0.0 <= d.rrotation < 1.0 && 0.0 <= d.rspeed < 1.0
  }

  const FLAKE_COUNT := 50

  function FlakeFrom(d: FlakeDraw, innerWidth: real, innerHeight: real): Snowflake {
    Snowflake(d.rx * innerWidth, -d.ry * innerHeight, d.rsize * 20.0 + 10.0, d.rrotation * 360.0, d.rspeed * 2.0 + 1.0)
  }

  /** `generateSnowflakes`: fifty flakes pushed one by one, each starting above the top edge. */
  method GenerateSnowflakes(draws: seq<FlakeDraw>, innerWidth: real, innerHeight: real) returns (flakes: seq<Snowflake>)
    requires |draws| == FLAKE_COUNT && forall i :: 0 <= i < |draws| ==> ValidDraw(draws[i])
    requires innerWidth >= 0.0 && innerHeight >= 0.0
    ensures |flakes| == FLAKE_COUNT
    ensures forall i :: 0 <= i < FLAKE_COUNT ==> flakes[i] == FlakeFrom(draws[i], innerWidth, innerHeight)
    ensures forall i :: 0 <= i < FLAKE_COUNT ==>
      && 10.0 <= flakes[i].size < 30.0 && 1.0 <= flakes[i].speed < 3.0
      && flakes[i].y <= 0.0 && 0.0 <= flakes[i].x
  {
    flakes := [];
    for i := 0 to FLAKE_COUNT
      invariant |flakes| == i
      invariant forall j :: 0 <= j < i ==> flakes[j] == FlakeFrom(draws[j], innerWidth, innerHeight)
      invariant forall j :: 0 <= j < i ==>
        && 10.0 <= flakes[j].size < 30.0 && 1.0 <= flakes[j].speed < 3.0
        && flakes[j].y <= 0.0 && 0.0 <= flakes[j].x
    {
      var d := draws[i];
      var flake := FlakeFrom(d, innerWidth, innerHeight);
      assert 0.0 <= d.ry * innerHeight && 0.0 <= d.rx * innerWidth by {
        NonNegativeProduct(d.ry, innerHeight);
        NonNegativeProduct(d.rx, innerWidth);
      }
      flakes := flakes + [flake];
    }
  }

  lemma NonNegativeProduct(a: real, b: real)
    requires a >= 0.0 && b >= 0.0
    ensures a * b >= 0.0
  {
  }

  /** One tick of a falling flake: down by its speed, or back above the top once past the bottom. */
  function Fall(f: Snowflake, innerHeight: real): (g: Snowflake)
    ensures g.x == f.x && g.size == f.size && g.rotation == f.rotation && g.speed == f.speed
    ensures f.y + f.speed > innerHeight ==> g.y == -f.size
    ensures f.y + f.speed <= innerHeight ==> g.y == f.y + f.speed && g.y <= innerHeight
  {
    f.(y := if f.y + f.speed > innerHeight then -f.size else f.y + f.speed)
  }

  /** The card's state: the time left and the flakes; the one-second interval refreshes both. */
  class ChristmasCountdown {
    var timeRemaining: int
    var snowflakes: seq<Snowflake>

    constructor ()
      ensures timeRemaining == 0 && snowflakes == []
    {
      timeRemaining, snowflakes := 0, [];
    }

    /** The mount effect: the first countdown value and a fresh field of flakes. `thisChristmas` and
        `nextChristmas` are 7 am on Dec 25 of this year and of the next. */
    method Mount(now: int, thisChristmas: int, nextChristmas: int,
                 draws: seq<FlakeDraw>, innerWidth: real, innerHeight: real)
      requires now <= nextChristmas
      requires |draws| == FLAKE_COUNT && forall i :: 0 <= i < |draws| ==> ValidDraw(draws[i])
      requires innerWidth >= 0.0 && innerHeight >= 0.0
      modifies this
      ensures timeRemaining == Remaining(now, thisChristmas, nextChristmas) && timeRemaining >= 0
      ensures |snowflakes| == FLAKE_COUNT
      ensures forall i :: 0 <= i < FLAKE_COUNT ==> snowflakes[i] == FlakeFrom(draws[i], innerWidth, innerHeight)
    {
      timeRemaining := Remaining(now, thisChristmas, nextChristmas);
      snowflakes := GenerateSnowflakes(draws, innerWidth, innerHeight);
    }

    /** One firing of the interval: a fresh countdown value, and every flake falls one step. */
    method Interval(now: int, thisChristmas: int, nextChristmas: int, innerHeight: real)
      requires now <= nextChristmas
      modifies this
      ensures timeRemaining == Remaining(now, thisChristmas, nextChristmas) && timeRemaining >= 0
      ensures |snowflakes| == |old(snowflakes)|
      ensures forall i :: 0 <= i < |snowflakes| ==> snowflakes[i] == Fall(old(snowflakes)[i], innerHeight)
    {
      timeRemaining := Remaining(now, thisChristmas, nextChristmas);
      snowflakes := seq(|snowflakes|, i requires 0 <= i < |snowflakes| reads this => Fall(snowflakes[i], innerHeight));
    }
  }
}
