/**
 * The delivery-scheduling stub (`POST /api/festivals/schedule`): request
 * validation, the channel check, the schedule id, the delivery time (midnight
 * of the current local day when none is given) and the whole days left until
 * it.
 *
 * The three clock readings of the handler (`Date.now()` for the id, `new
 * Date()` for the default delivery time, `new Date()` for "now") and the local
 * time-zone offset are parameters; times are milliseconds since 1970.
 */
module Schedule {
  import opened Wrappers
  import opened Text
  import opened ScheduleText

  const DayMs: nat := 1000 * 60 * 60 * 24
  /** The JSON body; `scheduledTime` is the instant a given (truthy) time
      denotes. */
  datatype ScheduleRequest = ScheduleRequest(
    festivalId: Option<string>, imageUrl: Option<string>, deliveryChannels: Option<seq<string>>,
    scheduledTime: Option<int>, recipients: Option<seq<string>>)

  /** The clock readings, in the order the handler takes them, and the
      offset of local time from UTC. */
  datatype Clock = Clock(idTime: nat, createdAt: nat, now: nat, zoneOffsetMs: int)

  datatype ScheduleDetails = ScheduleDetails(
    festival: string, imageUrl: string, deliveryChannels: seq<string>, scheduledTime: int,
    recipientCount: nat, timeUntilDelivery: string, status: string)

  datatype ScheduleResponse =
    | Scheduled(scheduledId: string, message: string, details: ScheduleDetails)
    | Refused(status: nat, error: string)

  /** The first validation: an id, an image URL and a non-empty channel list. */
  predicate HasRequiredFields(r: ScheduleRequest) {
    Given(r.festivalId) && Given(r.imageUrl) && r.deliveryChannels.Some? && |r.deliveryChannels.value| > 0
  }

  predicate IsKnownChannel(c: string) {
    c == "whatsapp" || c == "email"
  }

  /** `deliveryChannels.some(channel => validChannels.includes(channel))`. */
  function SomeKnownChannel(channels: seq<string>): (r: bool)
    ensures r <==> exists i :: 0 <= i < |channels| && IsKnownChannel(channels[i])
  {
    if channels == [] then false
    else if IsKnownChannel(channels[0]) then true
    else
      var rest := SomeKnownChannel(channels[1..]);
      assert forall i :: 1 <= i < |channels| ==> channels[i] == channels[1..][i - 1];
      rest
  }

  function ScheduledId(festivalId: string, t: nat): string {
    IdPrefix + festivalId + "_" + NatToString(t)
  }

  /** `setHours(0, 0, 0, 0)`: the last local midnight at or before `t`. */
  function StartOfDay(t: int, zoneOffsetMs: int): (r: int)
    ensures r <= t < r + DayMs
    ensures (r + zoneOffsetMs) % DayMs == 0
  {
    t - (t + zoneOffsetMs) % DayMs
  }

  /** The delivery instant: the given time, or the start of the local day. */
  function DeliveryTime(r: ScheduleRequest, clock: Clock): int {
    if r.scheduledTime.Some? then r.scheduledTime.value else StartOfDay(clock.createdAt, clock.zoneOffsetMs)
  }

  /** `Math.ceil(ms / (1000 * 60 * 60 * 24))` for a non-negative `ms`: the
      fewest whole days that cover it. */
  function DaysUntil(ms: nat): (days: nat)
    ensures ms <= days * DayMs
    ensures days == 0 || (days - 1) * DayMs < ms
  {
    (ms + DayMs - 1) / DayMs
  }

  function Max(a: int, b: int): int {
    if a < b then b else a
  }

  /** `recipients?.length || 0`. */
  function RecipientCount(recipients: Option<seq<string>>): nat {
    if recipients.Some? then |recipients.value| else 0
  }

  /** `POST`: the two validations, then the schedule. */
  method Post(r: ScheduleRequest, clock: Clock) returns (response: ScheduleResponse)
    ensures !HasRequiredFields(r) ==> response == Refused(400, MissingFieldsError)
    ensures HasRequiredFields(r) && !SomeKnownChannel(r.deliveryChannels.value) ==>
      response == Refused(400, NoValidChannelError)
    ensures response.Scheduled? <==> HasRequiredFields(r) && SomeKnownChannel(r.deliveryChannels.value)
    ensures response.Scheduled? ==>
      && response.scheduledId == ScheduledId(r.festivalId.value, clock.idTime)
      && response.message == ScheduledMessage
      && response.details == ScheduleDetails(
           r.festivalId.value, r.imageUrl.value, r.deliveryChannels.value, DeliveryTime(r, clock),
           RecipientCount(r.recipients),
           NatToString(DaysUntil(Max(0, DeliveryTime(r, clock) - clock.now))) + " days", "scheduled")
  {
    if !Given(r.festivalId) || !Given(r.imageUrl) || r.deliveryChannels.None? || |r.deliveryChannels.value| == 0 {
      return Refused(400, MissingFieldsError);
    }
    var channels := r.deliveryChannels.value;
    if !SomeKnownChannel(channels) {
      return Refused(400, NoValidChannelError);
    }
    var scheduledId := ScheduledId(r.festivalId.value, clock.idTime);
    var deliveryTime := if r.scheduledTime.Some? then r.scheduledTime.value else clock.createdAt;
    if r.scheduledTime.None? {
      deliveryTime := StartOfDay(deliveryTime, clock.zoneOffsetMs);
    }
    var timeUntilDelivery := Max(0, deliveryTime - clock.now);
    var daysUntilDelivery := DaysUntil(timeUntilDelivery);
    var details := ScheduleDetails(
      r.festivalId.value, r.imageUrl.value, channels, deliveryTime, RecipientCount(r.recipients),
      NatToString(daysUntilDelivery) + " days", "scheduled");
    response := Scheduled(scheduledId, ScheduledMessage, details);
  }

  // ---------------------------------------------------------------------------
  // Properties

  /** Unknown channels are tolerated beside a known one; a list of only
      unknown channels is refused. */
  lemma ChannelCheck(known: string, others: seq<string>)
    requires IsKnownChannel(known)
    ensures SomeKnownChannel(others + [known]) && SomeKnownChannel([known] + others)
    ensures (forall i :: 0 <= i < |others| ==> !IsKnownChannel(others[i])) ==> !SomeKnownChannel(others)
  {
    assert (others + [known])[|others|] == known;
    assert ([known] + others)[0] == known;
  }

  /** The schedule id is the prefix, the festival id and `_`, followed by the
      timestamp, which reads back from it. */
  lemma ScheduledIdReadsBack(festivalId: string, t: nat)
    ensures var id := ScheduledId(festivalId, t);
      && id[..|IdPrefix + festivalId + "_"|] == IdPrefix + festivalId + "_"
      && ParseInt(id[|IdPrefix + festivalId + "_"|..]) == Some(t as int)
  {
    var head := IdPrefix + festivalId + "_";
    var id := ScheduledId(festivalId, t);
    assert id == head + NatToString(t);
    assert id[|head|..] == NatToString(t);
    ParseIntOfNatToString(t);
  }

  /** Two schedules of one festival taken at different times get different ids. */
  lemma ScheduledIdsDiffer(festivalId: string, t1: nat, t2: nat)
    requires t1 != t2
    ensures ScheduledId(festivalId, t1) != ScheduledId(festivalId, t2)
  {
    if ScheduledId(festivalId, t1) == ScheduledId(festivalId, t2) {
      ScheduledIdReadsBack(festivalId, t1);
      ScheduledIdReadsBack(festivalId, t2);
    }
  }

  /** Without a scheduled time the delivery is the local midnight that began
      the current day, which is already past when "now" is read: zero days. */
  lemma DefaultDeliveryIsPast(r: ScheduleRequest, clock: Clock)
    requires r.scheduledTime.None? && clock.createdAt <= clock.now
    ensures DeliveryTime(r, clock) <= clock.createdAt < DeliveryTime(r, clock) + DayMs
    ensures (DeliveryTime(r, clock) + clock.zoneOffsetMs) % DayMs == 0
    ensures DaysUntil(Max(0, DeliveryTime(r, clock) - clock.now)) == 0
  {
  }

  /** A delivery time in the past counts as zero days; one in the future
      counts the days it is away, rounded up. */
  lemma DaysLeft(delivery: int, now: int)
    ensures delivery <= now ==> DaysUntil(Max(0, delivery - now)) == 0
    ensures delivery > now ==>
      var days := DaysUntil(delivery - now);
      days >= 1 && now + (days - 1) * DayMs < delivery <= now + days * DayMs
  {
  }
}
