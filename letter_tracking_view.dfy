// components/LetterTrackingView.tsx: the values the tracking screen derives
// from a letter and the current time.

module LetterTrackingView {
  import opened Types
  import opened Strings
  import opened Constants

  const MsPerMinute: int := 60000

  /** Who the letter is "destined for": looked up among the seed contacts only. */
  datatype Recipient = Recipient(name: string, location: string, avatar: string)

  const UnknownRecipient: Recipient := Recipient("Friend", "Unknown", "")

  function TrackedRecipient(recipientId: string): (r: Recipient)
    ensures FindContact(MockContacts(), recipientId).None? ==> r == UnknownRecipient
    ensures FindContact(MockContacts(), recipientId).Some? ==>
      var c := FindContact(MockContacts(), recipientId).value;
      r == Recipient(c.name, c.location, c.avatar) && c.id == recipientId
  {
    match FindContact(MockContacts(), recipientId)
    case None => UnknownRecipient
    case Some(c) => Recipient(c.name, c.location, c.avatar)
  }

  /** A contact synced from the device is never among the seed contacts, so
      its letters are always tracked as going to "Friend". */
  lemma DeviceRecipientIsUnknown(recipientId: string)
    requires StartsWith(recipientId, "device-")
    ensures TrackedRecipient(recipientId) == UnknownRecipient
  {
    forall i | 0 <= i < |MockContacts()| ensures MockContacts()[i].id != recipientId {
      assert |MockContacts()[i].id| == 1;
    }
  }

  /** The journey's progress in percent. Above 100 it is cut to 100; it is not
      cut below 0. When delivery is due at the sending instant the division
      is by zero: a positive elapsed time gives +Infinity, cut to 100, and
      otherwise the result is not a finite number (None). */
  function Progress(sentAt: int, estimatedDeliveryAt: int, now: int): (p: Option<real>)
    ensures p.Some? ==> p.value <= 100.0
    ensures estimatedDeliveryAt != sentAt ==> p.Some?
    ensures estimatedDeliveryAt == sentAt ==> (p.Some? <==> now > sentAt)
    ensures estimatedDeliveryAt > sentAt && now >= estimatedDeliveryAt ==> p == Some(100.0)
    ensures estimatedDeliveryAt > sentAt && now < estimatedDeliveryAt ==>
      p.value < 100.0 && p.value * (estimatedDeliveryAt - sentAt) as real == 100.0 * (now - sentAt) as real
    ensures estimatedDeliveryAt > sentAt && now < sentAt ==> p.value < 0.0
    ensures estimatedDeliveryAt > sentAt && now >= sentAt ==> 0.0 <= p.value
    ensures estimatedDeliveryAt == sentAt && now > sentAt ==> p == Some(100.0)
    ensures estimatedDeliveryAt < sentAt && now <= estimatedDeliveryAt ==> p == Some(100.0)
    ensures estimatedDeliveryAt < sentAt && now > estimatedDeliveryAt ==>
      p.value < 100.0 && p.value * (estimatedDeliveryAt - sentAt) as real == 100.0 * (now - sentAt) as real
  {
    var elapsed := (now - sentAt) as real;
    var span := (estimatedDeliveryAt - sentAt) as real;
    if span != 0.0 then
      var ratio := elapsed / span * 100.0;
      assert (span > 0.0 && elapsed >= span) || (span < 0.0 && elapsed <= span) ==> ratio >= 100.0 by {
        if (span > 0.0 && elapsed >= span) || (span < 0.0 && elapsed <= span) {
          RatioAtLeastOne(elapsed, span);
        }
      }
      Some(if ratio < 100.0 then ratio else 100.0)
    else if elapsed > 0.0 then
      Some(100.0)
    else
      None
  }

  /** The courier only moves forward as time passes. */
  lemma ProgressMonotone(sentAt: int, estimatedDeliveryAt: int, now1: int, now2: int)
    requires estimatedDeliveryAt > sentAt && now1 <= now2
    ensures Progress(sentAt, estimatedDeliveryAt, now1).value <= Progress(sentAt, estimatedDeliveryAt, now2).value
  {
    var span := (estimatedDeliveryAt - sentAt) as real;
    var e1, e2 := (now1 - sentAt) as real, (now2 - sentAt) as real;
    assert e1 / span <= e2 / span by {
      DivideMonotone(e1, e2, span);
    }
  }

  lemma DivideMonotone(a: real, b: real, d: real)
    requires a <= b && d > 0.0
    ensures a / d <= b / d
  {
    assert b / d - a / d == (b - a) / d;
  }

  /** A ratio whose numerator is at least as far from 0 as its denominator,
      on the same side, is at least 1. */
  lemma RatioAtLeastOne(a: real, d: real)
    requires (d > 0.0 && a >= d) || (d < 0.0 && a <= d)
    ensures a / d >= 1.0
  {
    var q := a / d;
    assert q * d == a;
    assert (q - 1.0) * d == a - d;
  }

  /** Whole minutes left, rounded up, never below 0. */
  function MinutesLeft(estimatedDeliveryAt: int, now: int): (m: int)
    ensures m >= 0
    ensures m == 0 <==> now >= estimatedDeliveryAt
    ensures m > 0 ==> (m - 1) * MsPerMinute < estimatedDeliveryAt - now <= m * MsPerMinute
  {
    var remaining := estimatedDeliveryAt - now;
    var rounded := -((-remaining) / MsPerMinute);
    if rounded < 0 then 0 else rounded
  }

  /** Minutes left never go up as time passes. */
  lemma MinutesLeftAntitone(estimatedDeliveryAt: int, now1: int, now2: int)
    requires now1 <= now2
    ensures MinutesLeft(estimatedDeliveryAt, now2) <= MinutesLeft(estimatedDeliveryAt, now1)
  {
    var m1, m2 := MinutesLeft(estimatedDeliveryAt, now1), MinutesLeft(estimatedDeliveryAt, now2);
    if m2 > 0 {
      assert (m2 - 1) * MsPerMinute < estimatedDeliveryAt - now1 <= m1 * MsPerMinute;
    }
  }

  /** Where the courier marker is drawn on the 100 x 100 map for a progress
      in percent: on the straight line from the post house at (15, 75) to
      the destination at (85, 35). */
  function CourierPosition(progress: real): (pos: (real, real))
    ensures progress == 0.0 ==> pos == (15.0, 75.0)
    ensures progress == 100.0 ==> pos == (85.0, 35.0)
    ensures (pos.0 - 15.0) * 100.0 == (85.0 - 15.0) * progress
    ensures (75.0 - pos.1) * 100.0 == (75.0 - 35.0) * progress
    ensures (pos.0 - 15.0) * 40.0 == (75.0 - pos.1) * 70.0
    ensures 0.0 <= progress <= 100.0 ==> 15.0 <= pos.0 <= 85.0 && 35.0 <= pos.1 <= 75.0
  {
    (15.0 + 70.0 * progress / 100.0, 75.0 - 40.0 * progress / 100.0)
  }
}
