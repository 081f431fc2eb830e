/** The Christmas games page (components/christmas.tsx): the countdown shown by the live tracker, the
    tracker's choice of Santa's current and next stop, and the elf gift-wrapping game. */
module Christmas {
  import opened Wrappers
  import opened Countdown
  import Seqs

  /** `calculateTimeToChristmas`: time left until midnight starting Dec 25 of this year, or of next year
      once that has passed. The two instants come from the calendar. */
  function CalculateTimeToChristmas(now: int, thisChristmas: int, nextChristmas: int): (t: Split)
    requires now <= nextChristmas
    ensures 0 <= t.days && 0 <= t.hours < 24 && 0 <= t.minutes < 60 && 0 <= t.seconds < 60
    ensures Millis(t) <= Remaining(now, thisChristmas, nextChristmas) < Millis(t) + SECOND
  {
    SplitMillisBounds(Remaining(now, thisChristmas, nextChristmas));
    SplitMillis(Remaining(now, thisChristmas, nextChristmas))
  }

  // ---------------------------------------------------------------- the gift-wrapping game

  datatype GiftType = GiftType(name: string, icon: string, points: int)

  const GIFT_TYPES: seq<GiftType> := [
    GiftType("Teddy Bear", "\U{1F9F8}", 10),
    GiftType("Toy Car", "\U{1F697}", 15),
    GiftType("Doll", "\U{1F38E}", 20),
    GiftType("LEGO Set", "\U{1F9E9}", 25),
    GiftType("Book", "\U{1F4D6}", 30)
  ]

  datatype Gift = Gift(id: string, giftType: GiftType, wrapped: bool)

  /** What one generated gift draws at random: a fresh id and a number in [0, 1). */
  datatype GiftDraw = GiftDraw(id: string, random: real)

  predicate ValidDraws(draws: seq<GiftDraw>) {
    forall i :: 0 <= i < |draws| ==> 0.0 <= draws[i].random < 1.0
  }

  /** `GIFT_TYPES[Math.floor(random * GIFT_TYPES.length)]`. */
  function PickType(random: real): (t: GiftType)
    requires 0.0 <= random < 1.0
    ensures t in GIFT_TYPES && t.points > 0
  {
    var k := (random * (|GIFT_TYPES| as real)).Floor;
    assert 0 <= k < |GIFT_TYPES|;
    GIFT_TYPES[k]
  }

  /** `generateNewGifts(count)`, with the random draws as input: `count` gifts, none wrapped. */
  function GenerateNewGifts(count: nat, draws: seq<GiftDraw>): (gifts: seq<Gift>)
    requires |draws| == count && ValidDraws(draws)
    ensures |gifts| == count
    ensures forall i :: 0 <= i < count ==>
      gifts[i].id == draws[i].id && !gifts[i].wrapped && gifts[i].giftType in GIFT_TYPES
  {
    seq(count, i requires 0 <= i < count => Gift(draws[i].id, PickType(draws[i].random), false))
  }

  const BATCH := 12
  const GAME_SECONDS := 60
  const BONUS_SECONDS := 10

  /** Every gift with the given id, wrapped; the others as they were. */
  function MarkWrapped(gifts: seq<Gift>, giftId: string): (r: seq<Gift>)
    ensures |r| == |gifts|
    ensures forall i :: 0 <= i < |gifts| ==>
      r[i] == (if gifts[i].id == giftId then gifts[i].(wrapped := true) else gifts[i])
  {
    seq(|gifts|, i requires 0 <= i < |gifts| => if gifts[i].id == giftId then gifts[i].(wrapped := true) else gifts[i])
  }

  predicate AllWrapped(gifts: seq<Gift>) {
    forall i :: 0 <= i < |gifts| ==> gifts[i].wrapped
  }

  /** The game's state: `gameState` and `gifts`. Each handler is one sequential transition. */
  class ElfGiftWrappingChallenge {
    var isActive: bool
    var score: int
    var timeLeft: int
    var highScore: int
    var gifts: seq<Gift>

    /** Scores, time and record are never negative, and every gift is one of the five kinds. */
    ghost predicate Valid()
      reads this
    {
      && 0 <= score && 0 <= timeLeft && 0 <= highScore
      && forall i :: 0 <= i < |gifts| ==> gifts[i].giftType in GIFT_TYPES
    }

    constructor ()
      ensures Valid()
      ensures !isActive && score == 0 && timeLeft == GAME_SECONDS && highScore == 0 && gifts == []
    {
      isActive, score, timeLeft, highScore, gifts := false, 0, GAME_SECONDS, 0, [];
    }

    /** `startGame`: a fresh batch of twelve, the clock back at 60 s; the record is kept. */
    method StartGame(draws: seq<GiftDraw>)
      requires Valid() && |draws| == BATCH && ValidDraws(draws)
      modifies this
      ensures Valid()
      ensures gifts == GenerateNewGifts(BATCH, draws) && |gifts| == BATCH && !exists i :: 0 <= i < BATCH && gifts[i].wrapped
      ensures isActive && score == 0 && timeLeft == GAME_SECONDS && highScore == old(highScore)
    {
      gifts := GenerateNewGifts(BATCH, draws);
      isActive, score, timeLeft := true, 0, GAME_SECONDS;
    }

    /** One firing of the one-second timer. The timer only runs while the game is active with time
        left; at one second or less the game ends and the record absorbs the score. */
    method Tick()
      requires Valid()
      modifies this
      ensures Valid()
      ensures gifts == old(gifts) && score == old(score)
      ensures highScore >= old(highScore)
      ensures !old(isActive) || old(timeLeft) <= 0 ==>
        isActive == old(isActive) && timeLeft == old(timeLeft) && highScore == old(highScore)
      ensures old(isActive) && old(timeLeft) > 1 ==>
        isActive && timeLeft == old(timeLeft) - 1 && highScore == old(highScore)
      ensures old(isActive) && 0 < old(timeLeft) <= 1 ==>
        !isActive && timeLeft == 0 && highScore == if old(score) > old(highScore) then old(score) else old(highScore)
    {
      if !isActive || timeLeft <= 0 {
        return;
      }
      if timeLeft <= 1 {
        isActive := false;
        timeLeft := 0;
        if score > highScore {
          highScore := score;
        }
      } else {
        timeLeft := timeLeft - 1;
      }
    }

    /** `wrapGift(giftId)`. `draws` is the batch generated if this wrap completes the current one. */
    method WrapGift(giftId: string, draws: seq<GiftDraw>)
      requires Valid() && |draws| == BATCH && ValidDraws(draws)
      modifies this
      ensures Valid()
      ensures isActive == old(isActive) && highScore == old(highScore)
      ensures var k := Seqs.FindFirst(old(gifts), (g: Gift) => g.id == giftId);
        if !old(isActive) || k.None? || old(gifts)[k.value].wrapped then
          score == old(score) && timeLeft == old(timeLeft) && gifts == old(gifts)
        else
          && score == old(score) + old(gifts)[k.value].giftType.points
          && score > old(score)
          && var marked := MarkWrapped(old(gifts), giftId);
          if AllWrapped(marked) then
            timeLeft == old(timeLeft) + BONUS_SECONDS && gifts == GenerateNewGifts(BATCH, draws)
          else
            timeLeft == old(timeLeft) && gifts == marked
    {
      if !isActive {
        return;
      }
      var k := Seqs.FindFirst(gifts, (g: Gift) => g.id == giftId);
      if k.None? || gifts[k.value].wrapped {
        return;
      }
      var gift := gifts[k.value];
      var updated := MarkWrapped(gifts, giftId);
      assert gift.giftType in GIFT_TYPES;
      score := score + gift.giftType.points;
      if AllWrapped(updated) {
        timeLeft := timeLeft + BONUS_SECONDS;
        gifts := GenerateNewGifts(BATCH, draws);
      } else {
        gifts := updated;
      }
    }
  }

  // ---------------------------------------------------------------- the live tracker

  datatype Coordinates = Coordinates(lat: real, lng: real)

  datatype SantaStop = SantaStop(id: string, arrival: int, departure: int, location: Coordinates,
                                 city: string, region: string, presentsDelivered: int)

  datatype Location = Location(city: string, region: string, coordinates: Coordinates)

  datatype NextStop = NextStop(city: string, region: string, arrival: int)

  /** The tracker's panel state, without the travel speed (see the README). */
  datatype SantaData = SantaData(currentLocation: Location, presentsDelivered: int, totalPresents: int,
                                 timeToChristmas: Split, nextStop: Option<NextStop>)

  const INITIAL_SANTA_DATA := SantaData(Location("North Pole", "Arctic", Coordinates(90.0, 0.0)), 0,
                                        7_000_000_000, Split(0, 0, 0, 0), None)

  /** Santa is at the stop: arrived and not yet departed, both ends included. */
  predicate AtStop(s: SantaStop, now: int) {
    s.arrival <= now && s.departure >= now
  }

  /** Presents delivered at the stops already left: the filter on `departure < now` summed by `reduce`. */
  function DeliveredBy(stops: seq<SantaStop>, now: int): int {
    if |stops| == 0 then 0
    else (if stops[0].departure < now then stops[0].presentsDelivered else 0) + DeliveredBy(stops[1..], now)
  }

  /** With no negative counts, the delivered total never shrinks as time passes. */
  lemma {:induction false} DeliveredByMonotone(stops: seq<SantaStop>, earlier: int, later: int)
    requires earlier <= later
    requires forall i :: 0 <= i < |stops| ==> stops[i].presentsDelivered >= 0
    ensures 0 <= DeliveredBy(stops, earlier) <= DeliveredBy(stops, later)
  {
    if |stops| > 0 {
      DeliveredByMonotone(stops[1..], earlier, later);
    }
  }

  function LocationOf(s: SantaStop): Location {
    Location(s.city, s.region, s.location)
  }

  /** `updateSantaStatus`: one refresh of the panel from the route, the clock and the countdown. */
  function UpdateSantaStatus(prev: SantaData, stops: seq<SantaStop>, now: int, countdown: Split): (r: SantaData)
    ensures r.timeToChristmas == countdown && r.totalPresents == prev.totalPresents
    ensures (forall j :: 0 <= j < |stops| ==> !AtStop(stops[j], now)) ==>
      r.currentLocation == prev.currentLocation && r.presentsDelivered == prev.presentsDelivered
    ensures forall k :: 0 <= k < |stops| && AtStop(stops[k], now) && (forall j :: 0 <= j < k ==> !AtStop(stops[j], now)) ==>
      r.currentLocation == LocationOf(stops[k]) && r.presentsDelivered == DeliveredBy(stops, now)
    ensures (forall j :: 0 <= j < |stops| ==> stops[j].arrival <= now) ==> r.nextStop.None?
    ensures forall k :: 0 <= k < |stops| && stops[k].arrival > now && (forall j :: 0 <= j < k ==> stops[j].arrival <= now) ==>
      r.nextStop == Some(NextStop(stops[k].city, stops[k].region, stops[k].arrival))
  {
    var current := Seqs.FindFirst(stops, (s: SantaStop) => AtStop(s, now));
    var next := Seqs.FindFirst(stops, (s: SantaStop) => s.arrival > now);
    prev.(
      timeToChristmas := countdown,
      currentLocation := if current.Some? then LocationOf(stops[current.value]) else prev.currentLocation,
      presentsDelivered := if current.Some? then DeliveredBy(stops, now) else prev.presentsDelivered,
      nextStop := if next.Some? then Some(NextStop(stops[next.value].city, stops[next.value].region, stops[next.value].arrival)) else None)
  }
}
