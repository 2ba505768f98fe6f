/** The rider-tracking simulation on the home screen: a 60-second countdown
    that drives a status, moves the rider in a straight line from the
    restaurant to the user and fits the map region around the three points.

    One value of `Tracker` is the screen's tracking state between two React
    renders; the functions below say how each event (the placed order
    changing, the one-second timer firing) turns one such state into the
    next, and the class `RiderTracker` performs them in place. */
module RiderTracking {
  import opened Common
  import MockServer
  import CartContext

  datatype Point = Point(lat: real, lng: real)

  /** A map region: its centre and its latitude and longitude spans. */
  datatype Region = Region(lat: real, lng: real, latDelta: real, lngDelta: real)

  /** The status line; `NoMessage` is the initial empty message. */
  datatype RiderStatus = NoMessage | Searching | RiderFound | PickedUp | Arrived

  const TotalDuration: int := 60
  /** The rider reaches the user this many seconds before the countdown ends. */
  const ArrivalLead: int := 5
  const MinDelta: real := 0.01
  const Padding: real := 1.5

  /** The user's fixed location (the state is never changed by the screen). */
  const UserLocation := Point(13.736717, 100.534847)
  /** Where the restaurant is assumed to be when the order carries no origin. */
  const FallbackOrigin := Point(13.7469, 100.5299)
  const InitialRegion := Region(UserLocation.lat, UserLocation.lng, 0.02, 0.02)

  // ----- Interpolation -----

  function Min(a: real, b: real): real { if a <= b then a else b }
  function Max(a: real, b: real): real { if a >= b then a else b }

  /** `Math.min(timeElapsed / (totalDuration - 5), 1)` at `countdown` seconds left. */
  function Progress(countdown: int): (p: real)
    ensures 0 <= countdown <= TotalDuration ==> 0.0 <= p <= 1.0
    ensures countdown == TotalDuration ==> p == 0.0
    ensures countdown <= ArrivalLead ==> p == 1.0
  {
    Min((TotalDuration - countdown) as real / (TotalDuration - ArrivalLead) as real, 1.0)
  }

  /** The point a fraction `t` of the way from `a` to `b`: `a` at 0, `b` at
      1, and between the two on each axis in between. */
  function Lerp(a: Point, b: Point, t: real): (x: Point)
    ensures t == 0.0 ==> x == a
    ensures t == 1.0 ==> x == b
    ensures 0.0 <= t <= 1.0 ==> Min(a.lat, b.lat) <= x.lat <= Max(a.lat, b.lat)
    ensures 0.0 <= t <= 1.0 ==> Min(a.lng, b.lng) <= x.lng <= Max(a.lng, b.lng)
  {
    Between(a.lat, b.lat, t);
    Between(a.lng, b.lng, t);
    Point(a.lat + (b.lat - a.lat) * t, a.lng + (b.lng - a.lng) * t)
  }

  lemma ProductNonNegative(x: real, y: real)
    ensures x >= 0.0 && y >= 0.0 ==> x * y >= 0.0
  {
  }

  /** One axis of `Lerp`: a fraction of the way lies between the ends. */
  lemma Between(u: real, v: real, t: real)
    ensures 0.0 <= t <= 1.0 ==> Min(u, v) <= u + (v - u) * t <= Max(u, v)
  {
    if 0.0 <= t <= 1.0 {
      ProductNonNegative(if v >= u then v - u else u - v, t);
      ProductNonNegative(if v >= u then v - u else u - v, 1.0 - t);
    }
  }

  /** Where the rider is drawn with `countdown` seconds left: at the
      restaurant at the start, at the user from five seconds before the end. */
  function RiderAt(restaurant: Point, countdown: int): (x: Point)
    ensures countdown == TotalDuration ==> x == restaurant
    ensures countdown <= ArrivalLead ==> x == UserLocation
  {
    Lerp(restaurant, UserLocation, Progress(countdown))
  }

  ghost predicate OnSegment(a: Point, b: Point, x: Point)
  {
    exists t: real :: 0.0 <= t <= 1.0 && x == Lerp(a, b, t)
  }

  /** The rider starts at the restaurant, is at the user from five seconds
      before the end on, and is always on the segment between the two. */
  lemma RiderPath(restaurant: Point, countdown: int)
    requires 0 <= countdown <= TotalDuration
    ensures RiderAt(restaurant, TotalDuration) == restaurant
    ensures countdown <= ArrivalLead ==> RiderAt(restaurant, countdown) == UserLocation
    ensures OnSegment(restaurant, UserLocation, RiderAt(restaurant, countdown))
  {
    var p := Progress(countdown);
    assert 0.0 <= p <= 1.0 && RiderAt(restaurant, countdown) == Lerp(restaurant, UserLocation, p);
  }

  // ----- Region fitting -----

  /** `Math.min(...)` of three values: one of them, and no greater than any. */
  function Min3(a: real, b: real, c: real): (m: real)
    ensures m <= a && m <= b && m <= c
    ensures m == a || m == b || m == c
  {
    Min(a, Min(b, c))
  }

  /** `Math.max(...)` of three values: one of them, and no less than any. */
  function Max3(a: real, b: real, c: real): (m: real)
    ensures m >= a && m >= b && m >= c
    ensures m == a || m == b || m == c
  {
    Max(a, Max(b, c))
  }

  predicate Covers(r: Region, p: Point)
  {
    r.lat - r.latDelta / 2.0 <= p.lat <= r.lat + r.latDelta / 2.0 &&
    r.lng - r.lngDelta / 2.0 <= p.lng <= r.lng + r.lngDelta / 2.0
  }

  function Abs(x: real): real { if x >= 0.0 then x else -x }

  /** The region's spans are at least half again the distance between `a`
      and `b` along each axis. */
  predicate Pads(r: Region, a: Point, b: Point)
  {
    Padding * Abs(a.lat - b.lat) <= r.latDelta && Padding * Abs(a.lng - b.lng) <= r.lngDelta
  }

  /** The region fitted around three points: centred between the extremes
      of each axis, padded by half again, never narrower than `MinDelta`.
      Each span is no larger than that: it is `MinDelta` or half again the
      distance of one pair, so with `Pads` it is the larger of `MinDelta`
      and half again the widest pair. */
  function FitRegion(p: Point, q: Point, r: Point): (reg: Region)
    ensures reg.latDelta >= MinDelta && reg.lngDelta >= MinDelta
    ensures Covers(reg, p) && Covers(reg, q) && Covers(reg, r)
    ensures Pads(reg, p, q) && Pads(reg, q, r) && Pads(reg, p, r)
    ensures 2.0 * reg.lat == Min3(p.lat, q.lat, r.lat) + Max3(p.lat, q.lat, r.lat)
    ensures 2.0 * reg.lng == Min3(p.lng, q.lng, r.lng) + Max3(p.lng, q.lng, r.lng)
    ensures || reg.latDelta == MinDelta
            || reg.latDelta == Padding * Abs(p.lat - q.lat)
            || reg.latDelta == Padding * Abs(q.lat - r.lat)
            || reg.latDelta == Padding * Abs(p.lat - r.lat)
    ensures || reg.lngDelta == MinDelta
            || reg.lngDelta == Padding * Abs(p.lng - q.lng)
            || reg.lngDelta == Padding * Abs(q.lng - r.lng)
            || reg.lngDelta == Padding * Abs(p.lng - r.lng)
    ensures p.lat == q.lat == r.lat ==> reg.lat == p.lat && reg.latDelta == MinDelta
    ensures p.lng == q.lng == r.lng ==> reg.lng == p.lng && reg.lngDelta == MinDelta
  {
    var minLat, maxLat := Min3(p.lat, q.lat, r.lat), Max3(p.lat, q.lat, r.lat);
    var minLng, maxLng := Min3(p.lng, q.lng, r.lng), Max3(p.lng, q.lng, r.lng);
    Region((minLat + maxLat) / 2.0, (minLng + maxLng) / 2.0,
           Max(MinDelta, (maxLat - minLat) * Padding), Max(MinDelta, (maxLng - minLng) * Padding))
  }

  // ----- The screen's tracking state -----

  datatype Tracker = Tracker(
    order: Option<map<string, Json>>,  // `lastPlacedOrder` as the screen sees it
    status: RiderStatus,
    countdown: int,
    complete: bool,
    restaurant: Option<Point>,
    rider: Option<Point>,
    region: Region)

  const Initial := Tracker(None, NoMessage, 0, false, None, None, InitialRegion)

  /** `lastPlacedOrder.completed`, read with JavaScript truthiness. */
  predicate OrderCompleted(order: map<string, Json>)
  {
    FieldTruthy(order, "completed")
  }

  /** A `{ latitude, longitude }` object read as a point. */
  function PointOf(j: Json): (r: Option<Point>)
    ensures r.Some? <==> j.JObj? && "latitude" in j.fields && "longitude" in j.fields &&
                         j.fields["latitude"].JNum? && j.fields["longitude"].JNum?
    ensures r.Some? ==> j.fields["latitude"] == JNum(r.value.lat) && j.fields["longitude"] == JNum(r.value.lng)
  {
    if j.JObj? && "latitude" in j.fields && "longitude" in j.fields
       && j.fields["latitude"].JNum? && j.fields["longitude"].JNum?
    then Some(Point(j.fields["latitude"].n, j.fields["longitude"].n))
    else None
  }

  /** The order's `restaurantOriginLocation`, or the fallback origin when it
      is absent. */
  function OriginOf(order: map<string, Json>): (p: Point)
    ensures "restaurantOriginLocation" !in order ==> p == FallbackOrigin
    ensures "restaurantOriginLocation" in order && PointOf(order["restaurantOriginLocation"]).Some? ==>
              order["restaurantOriginLocation"].fields["latitude"] == JNum(p.lat) &&
              order["restaurantOriginLocation"].fields["longitude"] == JNum(p.lng)
  {
    if "restaurantOriginLocation" in order && PointOf(order["restaurantOriginLocation"]).Some?
    then PointOf(order["restaurantOriginLocation"]).value
    else FallbackOrigin
  }

  /** The order effect's start block: a placed order that is not completed
      restarts the countdown and puts restaurant and rider at its origin. */
  function StartBlock(s: Tracker, order: Option<map<string, Json>>): (t: Tracker)
    ensures t.order == order && t.region == s.region
    ensures order.Some? && !OrderCompleted(order.value) ==>
              && t.countdown == TotalDuration && t.status == Searching && !t.complete
              && t.restaurant == Some(OriginOf(order.value)) && t.rider == t.restaurant
    ensures !(order.Some? && !OrderCompleted(order.value)) ==> t == s.(order := order)
    ensures Inv(s) ==> Inv(t)
  {
    if order.Some? && !OrderCompleted(order.value) then
      var origin := OriginOf(order.value);
      s.(order := order, status := Searching, countdown := TotalDuration, complete := false,
         restaurant := Some(origin), rider := Some(origin))
    else s.(order := order)
  }

  /** The tracking effect, reading the values of state `read` and applying
      its updates to state `write`. A render reads and writes the same state;
      the two differ only when an effect runs on stale values. */
  function EffectOn(read: Tracker, write: Tracker): (t: Tracker)
    ensures t.order == write.order && t.countdown == write.countdown && t.restaurant == write.restaurant
    ensures read.order.None? || read.complete ==> t == write
  {
    if read.order.None? || read.countdown <= 0 || read.complete then
      if read.order.Some? && read.countdown <= 0 && !read.complete
      then write.(status := Arrived, complete := true)
      else write
    else
      var w1 :=
        if read.countdown == 50 then write.(status := RiderFound)
        else if read.countdown == 20 then write.(status := PickedUp)
        else write;
      if read.restaurant.Some? && read.rider.Some? then
        var next := RiderAt(read.restaurant.value, read.countdown);
        var w2 := if read.rider.value != next then w1.(rider := Some(next)) else w1;
        w2.(region := FitRegion(UserLocation, read.restaurant.value, next))
      else w1
  }

  /** The effect never changes the order, the countdown or the restaurant,
      and leaves a state without an order or with a completed one alone. */
  function TrackingEffect(s: Tracker): (t: Tracker)
    ensures t.order == s.order && t.countdown == s.countdown && t.restaurant == s.restaurant
    ensures s.order.None? || s.complete ==> t == s
  {
    EffectOn(s, s)
  }

  /** The tracking effect leaves a one-second timer behind exactly when it
      passes its guard. */
  predicate TimerPending(s: Tracker)
  {
    s.order.Some? && s.countdown > 0 && !s.complete
  }

  /** A change of the placed order, as intended: the tracking effect runs on
      the values the order effect has just set. The screen then shows that
      order, and an order not yet completed starts its 60 seconds with a
      timer pending. The commit the screen actually performs is
      `OrderChangedAsWritten` below. */
  function OrderChanged(s: Tracker, order: Option<map<string, Json>>): (t: Tracker)
    ensures t.order == order
    ensures order.Some? && !OrderCompleted(order.value) ==>
              t.countdown == TotalDuration && t.status == Searching && !t.complete && TimerPending(t)
  {
    TrackingEffect(StartBlock(s, order))
  }

  /** The timer firing: the countdown drops by one and the tracking effect
      runs on the new value. Without a pending timer nothing happens. */
  function Ticked(s: Tracker): (t: Tracker)
    ensures t.order == s.order && t.restaurant == s.restaurant
    ensures t.countdown == if TimerPending(s) then s.countdown - 1 else s.countdown
  {
    if TimerPending(s) then TrackingEffect(s.(countdown := s.countdown - 1)) else s
  }

  /** The dismiss button: the placed order is cleared. */
  function Dismissed(s: Tracker): (t: Tracker)
    ensures t.order == None && !TimerPending(t)
  {
    OrderChanged(s, None)
  }

  /** The bounds that hold at every point of the screen's life. */
  ghost predicate Shape(s: Tracker)
  {
    && 0 <= s.countdown <= TotalDuration
    && (s.restaurant.Some? <==> s.rider.Some?)
    && (s.countdown > 0 ==> s.restaurant.Some?)
    && s.region.latDelta >= MinDelta && s.region.lngDelta >= MinDelta
  }

  /** What holds between renders: the rider is where the countdown puts it. */
  ghost predicate Inv(s: Tracker)
  {
    Shape(s) && (s.restaurant.Some? ==> s.rider.value == RiderAt(s.restaurant.value, s.countdown))
  }

  /** What holds when the tracking effect is about to run: the rider is
      where the countdown puts it, or, just after the timer fired, where the
      previous second put it. */
  ghost predicate BeforeEffect(s: Tracker)
  {
    Shape(s) &&
    (s.restaurant.Some? ==>
       s.rider.value == RiderAt(s.restaurant.value, s.countdown) ||
       (TimerPending(s.(countdown := s.countdown + 1)) &&
        s.rider.value == RiderAt(s.restaurant.value, s.countdown + 1)))
  }

  /** The status the trip shows with `countdown` seconds left. */
  function StatusAt(countdown: int): RiderStatus
  {
    if countdown > 50 then Searching
    else if countdown > 20 then RiderFound
    else if countdown > 0 then PickedUp
    else Arrived
  }

  lemma InitialInv()
    ensures Inv(Initial)
    ensures !TimerPending(Initial)
  {
  }

  /** The tracking effect re-establishes the invariant. */
  lemma EffectInv(s: Tracker)
    requires BeforeEffect(s)
    ensures Inv(TrackingEffect(s))
    ensures TrackingEffect(s).countdown == s.countdown
    ensures TrackingEffect(s).restaurant == s.restaurant
  {
    var t := TrackingEffect(s);
    if s.order.None? || s.countdown <= 0 || s.complete {
      assert t.rider == s.rider && t.region == s.region;
      if s.restaurant.Some? && s.countdown == 0 {
        RiderPath(s.restaurant.value, 0);
        RiderPath(s.restaurant.value, 1);
      }
    } else if s.restaurant.Some? {
      var next := RiderAt(s.restaurant.value, s.countdown);
      assert t.rider == Some(next);
      assert t.region == FitRegion(UserLocation, s.restaurant.value, next);
    }
  }

  /** Placing an order that is not completed restarts the trip: 60 seconds,
      searching, not complete, restaurant and rider at the order's origin
      (or the fallback origin), the region fitted around them, a timer
      pending. A completed order changes only the order. */
  lemma OrderChangedStarts(s: Tracker, order: map<string, Json>)
    requires Inv(s)
    ensures var t := OrderChanged(s, Some(order));
      && Inv(t)
      && (!OrderCompleted(order) ==>
            && t.countdown == TotalDuration && t.status == Searching && !t.complete
            && t.restaurant == Some(OriginOf(order)) && t.rider == Some(OriginOf(order))
            && t.region == FitRegion(UserLocation, OriginOf(order), OriginOf(order))
            && TimerPending(t))
  {
    var started := StartBlock(s, Some(order));
    if !OrderCompleted(order) {
      RiderPath(OriginOf(order), TotalDuration);
      assert Inv(started);
    }
    EffectInv(started);
  }

  /** One timer tick lowers the countdown by exactly one, only while a timer
      is pending, so the countdown never leaves [0, 60]; the status changes
      to RiderFound at 50, to PickedUp at 20 and to Arrived (completing the
      order) at 0, and is otherwise kept. */
  lemma TickStep(s: Tracker)
    requires Inv(s)
    ensures Inv(Ticked(s))
    ensures Ticked(s).countdown == if TimerPending(s) then s.countdown - 1 else s.countdown
    ensures TimerPending(s) ==>
      var c := s.countdown - 1;
      && Ticked(s).status == (if c == 0 then Arrived else if c == 50 then RiderFound
                            else if c == 20 then PickedUp else s.status)
      && Ticked(s).complete == (c == 0)
  {
    if TimerPending(s) {
      var d := s.(countdown := s.countdown - 1);
      assert BeforeEffect(d);
      EffectInv(d);
    }
  }

  /** While the countdown is still running, a tick moves the rider to its
      place for the new countdown and fits the region around user,
      restaurant and rider. */
  lemma TickMovesRider(s: Tracker)
    requires Inv(s) && TimerPending(s) && s.countdown > 1
    ensures Ticked(s).rider == Some(RiderAt(s.restaurant.value, s.countdown - 1))
    ensures Ticked(s).region == FitRegion(UserLocation, s.restaurant.value, Ticked(s).rider.value)
    ensures OnSegment(s.restaurant.value, UserLocation, Ticked(s).rider.value)
  {
    RiderPath(s.restaurant.value, s.countdown - 1);
  }

  /** Once the order is complete, or there is no order, ticks change nothing,
      and the tracking effect running again changes nothing either. */
  lemma StoppedIsStable(s: Tracker)
    requires !TimerPending(s)
    ensures Ticked(s) == s
    ensures s.complete ==> TrackingEffect(s) == s
  {
  }

  /** Dismissing clears the order; a tick after it does not restart anything. */
  lemma DismissStops(s: Tracker)
    requires Inv(s)
    ensures Dismissed(s).order == None
    ensures !TimerPending(Dismissed(s))
    ensures Ticked(Dismissed(s)) == Dismissed(s)
    ensures Inv(Dismissed(s))
  {
    EffectInv(StartBlock(s, None));
  }

  function Run(s: Tracker, ticks: nat): Tracker
  {
    if ticks == 0 then s else Ticked(Run(s, ticks - 1))
  }

  /** A trip for `order` with `countdown` seconds left: the status is the
      one for that many seconds, the rider is at its interpolated place and
      the order is complete exactly when the countdown is zero. */
  ghost predicate OnTrip(t: Tracker, order: map<string, Json>, countdown: int)
  {
    && Inv(t)
    && t.order == Some(order)
    && t.countdown == countdown
    && t.status == StatusAt(countdown)
    && t.complete == (countdown == 0)
    && t.restaurant == Some(OriginOf(order))
    && t.rider == Some(RiderAt(OriginOf(order), countdown))
  }

  /** One tick of a running trip is one second further along it. */
  lemma TripStep(t: Tracker, order: map<string, Json>, countdown: int)
    requires OnTrip(t, order, countdown) && countdown > 0
    ensures OnTrip(Ticked(t), order, countdown - 1)
  {
    TickStep(t);
    if countdown > 1 {
      TickMovesRider(t);
    } else {
      RiderPath(OriginOf(order), 0);
      RiderPath(OriginOf(order), 1);
    }
  }

  /** A trip started by an order runs its course: after k <= 60 ticks it has
      60 - k seconds left. */
  lemma {:induction false} TripRuns(s: Tracker, order: map<string, Json>, k: nat)
    requires Inv(s) && !OrderCompleted(order) && k <= TotalDuration
    ensures OnTrip(Run(OrderChanged(s, Some(order)), k), order, TotalDuration - k)
  {
    if k == 0 {
      OrderChangedStarts(s, order);
      RiderPath(OriginOf(order), TotalDuration);
    } else {
      TripRuns(s, order, k - 1);
      TripStep(Run(OrderChanged(s, Some(order)), k - 1), order, TotalDuration - (k - 1));
    }
  }

  /** The rider is at the user after 55 ticks, five seconds before the end. */
  lemma TripReachesUser(s: Tracker, order: map<string, Json>)
    requires Inv(s) && !OrderCompleted(order)
    ensures Run(OrderChanged(s, Some(order)), TotalDuration - ArrivalLead).rider == Some(UserLocation)
  {
    TripRuns(s, order, TotalDuration - ArrivalLead);
    RiderPath(OriginOf(order), ArrivalLead);
  }

  /** After 60 ticks the order is complete with status Arrived, and any
      further ticks change nothing. */
  lemma {:induction false} TripEnds(s: Tracker, order: map<string, Json>, extra: nat)
    requires Inv(s) && !OrderCompleted(order)
    ensures Run(OrderChanged(s, Some(order)), TotalDuration).status == Arrived
    ensures Run(OrderChanged(s, Some(order)), TotalDuration).complete
    ensures Run(OrderChanged(s, Some(order)), TotalDuration + extra) == Run(OrderChanged(s, Some(order)), TotalDuration)
  {
    TripRuns(s, order, TotalDuration);
    if extra > 0 {
      TripEnds(s, order, extra - 1);
      StoppedIsStable(Run(OrderChanged(s, Some(order)), TotalDuration));
    }
  }

  /** The order the mock server builds always carries its fixed origin, so a
      trip for it starts at that origin, which is also the fallback. */
  lemma ServerOrderStartsAtOrigin(s: Tracker, body: map<string, Json>, now: nat)
    requires Inv(s) && !OrderCompleted(MockServer.NewOrder(body, now))
    ensures OrderChanged(s, Some(MockServer.NewOrder(body, now))).restaurant == Some(FallbackOrigin)
  {
    var order := MockServer.NewOrder(body, now);
    assert order["restaurantOriginLocation"] == MockServer.OriginJson;
    OrderChangedStarts(s, order);
  }

  // ----- The countdown label -----

  /** `m:ss` with the minutes unpadded and the seconds padded to two digits,
      shown only while the countdown is positive. */
  function CountdownLabel(countdown: int): (shown: Option<string>)
    ensures shown.Some? <==> countdown > 0
    ensures shown.Some? ==> |shown.value| >= 4 && shown.value[|shown.value| - 3] == ':' &&
                            IsDigit(shown.value[|shown.value| - 2]) && IsDigit(shown.value[|shown.value| - 1])
  {
    if countdown > 0 then
      TwoDigits(countdown % 60);
      var text := Decimal(countdown / 60) + ":" + PadStart2(Decimal(countdown % 60));
      assert text[|text| - 3..] == ":" + PadStart2(Decimal(countdown % 60));
      Some(text)
    else None
  }

  lemma TwoDigits(n: nat)
    requires n < 100
    ensures PadStart2(Decimal(n)) == [DigitChar(n / 10), DigitChar(n % 10)]
  {
    if n >= 10 {
      assert Decimal(n) == Decimal(n / 10) + [DigitChar(n % 10)];
    }
  }

  lemma CountdownLabelFormat(countdown: int)
    ensures countdown <= 0 <==> CountdownLabel(countdown).None?
    ensures countdown > 0 ==>
      CountdownLabel(countdown) == Some(Decimal(countdown / 60) + ":" +
                                        [DigitChar(countdown % 60 / 10), DigitChar(countdown % 60 % 10)])
  {
    if countdown > 0 {
      TwoDigits(countdown % 60);
    }
  }

  /** The label at the start of a trip. */
  lemma CountdownLabelAtStart()
    ensures CountdownLabel(TotalDuration) == Some("1:00")
  {
    CountdownLabelFormat(60);
    assert 60 / 60 == 1 && 60 % 60 / 10 == 0 && 60 % 60 % 10 == 0;
    assert Decimal(1) == "1";
    assert DigitChar(0) == '0';
    assert "1" + ":" + ['0', '0'] == "1:00";
  }

  /** The label one second into a trip. */
  lemma CountdownLabelAfterOneSecond()
    ensures CountdownLabel(TotalDuration - 1) == Some("0:59")
  {
    CountdownLabelFormat(59);
    assert 59 / 60 == 0 && 59 % 60 / 10 == 5 && 59 % 60 % 10 == 9;
    assert Decimal(0) == "0";
    assert DigitChar(5) == '5' && DigitChar(9) == '9';
    assert "0" + ":" + ['5', '9'] == "0:59";
  }

  // ----- Finding: the two effects of one commit -----

  /** The commit in which the placed order changes, as the screen is written:
      the order effect and the tracking effect both run after the same
      render, so the tracking effect reads the countdown and completion of
      the previous order, and React applies its updates after the order
      effect's. The render that follows runs the tracking effect again on
      the batched state. */
  function OrderChangedAsWritten(s: Tracker, order: Option<map<string, Json>>): (t: Tracker)
    ensures t.order == order
    ensures order.Some? && !OrderCompleted(order.value) && s.countdown <= 0 && !s.complete ==>
              t.status == Arrived && t.complete && t.countdown == TotalDuration && !TimerPending(t)
  {
    var started := StartBlock(s, order);
    var batched := EffectOn(s.(order := order), started);
    TrackingEffect(batched)
  }

  /** The first order after the screen mounts is shown as arrived at once and
      its trip never runs, whereas the intended start is a running trip. */
  lemma FirstOrderArrivesAtOnce(order: map<string, Json>)
    requires !OrderCompleted(order)
    ensures var t := OrderChangedAsWritten(Initial, Some(order));
      t.status == Arrived && t.complete && t.countdown == TotalDuration && !TimerPending(t)
    ensures var t := OrderChanged(Initial, Some(order));
      t.status == Searching && !t.complete && TimerPending(t)
  {
    InitialInv();
    OrderChangedStarts(Initial, order);
  }

  /** The state a screen holds. Its methods apply the events above in place. */
  class RiderTracker {
    var order: Option<map<string, Json>>
    var status: RiderStatus
    var countdown: int
    var complete: bool
    var restaurant: Option<Point>
    var rider: Option<Point>
    var region: Region

    function State(): Tracker
      reads this
    {
      Tracker(order, status, countdown, complete, restaurant, rider, region)
    }

    ghost predicate Valid()
      reads this
    {
      Inv(State())
    }

    constructor ()
      ensures Valid() && State() == Initial
    {
      order, status, countdown, complete := None, NoMessage, 0, false;
      restaurant, rider, region := None, None, InitialRegion;
    }

    /** The tracking effect, run on the current state. */
    method RunEffect()
      requires BeforeEffect(State())
      modifies this
      ensures Valid()
      ensures State() == TrackingEffect(old(State()))
    {
      EffectInv(State());
      if order.None? || countdown <= 0 || complete {
        if order.Some? && countdown <= 0 && !complete {
          status := Arrived;
          complete := true;
        }
        return;
      }
      if countdown == 50 {
        status := RiderFound;
      } else if countdown == 20 {
        status := PickedUp;
      }
      if restaurant.Some? && rider.Some? {
        var next := RiderAt(restaurant.value, countdown);
        if rider.value != next {
          rider := Some(next);
        }
        region := FitRegion(UserLocation, restaurant.value, next);
      }
    }

    /** `setLastPlacedOrder(o)` as this screen observes it. */
    method OnOrderChanged(o: Option<map<string, Json>>)
      requires Valid()
      modifies this
      ensures Valid()
      ensures State() == OrderChanged(old(State()), o)
    {
      order := o;
      if o.Some? && !OrderCompleted(o.value) {
        var origin := OriginOf(o.value);
        status := Searching;
        countdown := TotalDuration;
        complete := false;
        restaurant := Some(origin);
        rider := Some(origin);
        RiderPath(origin, TotalDuration);
      }
      assert BeforeEffect(State());
      RunEffect();
    }

    /** One firing of the one-second timer. */
    method Tick()
      requires Valid()
      modifies this
      ensures Valid()
      ensures State() == Ticked(old(State()))
      ensures countdown == if TimerPending(old(State())) then old(countdown) - 1 else old(countdown)
    {
      if TimerPending(State()) {
        countdown := countdown - 1;
        RunEffect();
      }
    }

    /** The screen reads the order from the cart store: when the store's
        order differs from the one shown, the order effect and the tracking
        effect run; otherwise nothing happens. Afterwards the screen shows
        the store's order. */
    method Observe(store: CartContext.CartStore)
      requires Valid()
      modifies this
      ensures Valid()
      ensures order == store.lastPlacedOrder
      ensures State() == if old(order) == store.lastPlacedOrder then old(State())
                         else OrderChanged(old(State()), store.lastPlacedOrder)
    {
      if order != store.lastPlacedOrder {
        OnOrderChanged(store.lastPlacedOrder);
      }
    }

    /** The dismiss button: it clears the store's order, which the screen
        then observes. Cart lines and delivery option stay as they were. */
    method Dismiss(store: CartContext.CartStore)
      requires Valid() && store.Valid() && order == store.lastPlacedOrder
      modifies this, store
      ensures Valid() && store.Valid()
      ensures store.lastPlacedOrder == None && order == None
      ensures store.items == old(store.items) && store.delivery == old(store.delivery)
      ensures State() == Dismissed(old(State()))
      ensures !TimerPending(State())
    {
      store.SetLastPlacedOrder(None);
      OnOrderChanged(None);
    }
  }
}
