/** The turn countdown: whole seconds left until the deadline, measured on the
    server's clock (local time plus an offset), never below zero, and absent
    when there is no deadline. */
module CountDown {
  import opened GameTypes

  const MillisPerSecond := 1000
  const UrgentSeconds := 5
  const CriticalSeconds := 3

  /** Ceiling of d / 1000 on integers. */
  function CeilDiv1000(d: int): (r: int)
    ensures (r - 1) * MillisPerSecond < d <= r * MillisPerSecond
  {
    -((-d) / MillisPerSecond)
  }

  /** Seconds left before `endsAt`, with `now + offset` as the current server time. */
  function Remaining(endsAt: int, now: int, offset: int): nat
  {
    var c := CeilDiv1000(endsAt - (now + offset));
    if c < 0 then 0 else c
  }

  /** The count is zero exactly once the synchronised clock has reached the
      deadline; before that it is the number of started seconds left. */
  lemma RemainingSpec(endsAt: int, now: int, offset: int)
    ensures Remaining(endsAt, now, offset) == 0 <==> now + offset >= endsAt
    ensures var d := endsAt - (now + offset); var r := Remaining(endsAt, now, offset);
            d > 0 ==> (r - 1) * MillisPerSecond < d <= r * MillisPerSecond
  {
  }

  /** As local time advances with deadline and offset fixed, the count never goes up. */
  lemma RemainingNonIncreasing(endsAt: int, now1: int, now2: int, offset: int)
    requires now1 <= now2
    ensures Remaining(endsAt, now2, offset) <= Remaining(endsAt, now1, offset)
  {
    var d1 := endsAt - (now1 + offset);
    var d2 := endsAt - (now2 + offset);
    var c1 := CeilDiv1000(d1);
    var c2 := CeilDiv1000(d2);
    assert (c2 - 1) * MillisPerSecond < d2 <= d1 <= c1 * MillisPerSecond;
  }

  /** The deadline the countdown reads from the snapshot, if there is one. */
  function DeadlineOf(gs: Option<GameStateResponse>): Option<int>
  {
    match gs
    case Some(s) => Some(s.endAt)
    case None => None
  }

  /** The displayed value: nothing when the deadline is missing or zero,
      otherwise the seconds left. */
  function SecondsLeft(endsAt: Option<int>, now: int, offset: int): (r: Option<nat>)
    ensures r.None? <==> endsAt.None? || endsAt.value == 0
    ensures r.Some? ==> r.value == Remaining(endsAt.value, now, offset)
  {
    match endsAt
    case None => None
    case Some(e) => if e == 0 then None else Some(Remaining(e, now, offset))
  }

  predicate IsUrgent(secondsLeft: int)
  {
    secondsLeft <= UrgentSeconds
  }

  predicate IsCritical(secondsLeft: int)
  {
    secondsLeft <= CriticalSeconds
  }

  lemma CriticalIsUrgent(secondsLeft: int)
    ensures IsCritical(secondsLeft) ==> IsUrgent(secondsLeft)
  {
  }

  /** A JavaScript number as far as the countdown needs it: a whole number of
      milliseconds, or NaN. */
  datatype JsNumber = Finite(v: int) | NaN

  function JsAdd(a: JsNumber, b: JsNumber): JsNumber
  {
    if a.Finite? && b.Finite? then Finite(a.v + b.v) else NaN
  }

  function JsSub(a: JsNumber, b: JsNumber): JsNumber
  {
    if a.Finite? && b.Finite? then Finite(a.v - b.v) else NaN
  }

  /** Math.ceil(a / 1000). */
  function JsCeilDiv1000(a: JsNumber): JsNumber
  {
    if a.Finite? then Finite(CeilDiv1000(a.v)) else NaN
  }

  /** Math.max(0, a): NaN when a is NaN. */
  function JsMax0(a: JsNumber): JsNumber
  {
    if a.NaN? then NaN else if a.v < 0 then Finite(0) else a
  }

  /** The offset as the component reads it: the store has no `serverOffset`
      field, so the selector yields undefined, which addition turns into NaN. */
  const OffsetAsRead: JsNumber := NaN

  /** The displayed value as the component computes it with the offset it reads. */
  function SecondsLeftAsWritten(endsAt: Option<int>, now: int): Option<JsNumber>
  {
    match endsAt
    case None => None
    case Some(e) =>
      if e == 0 then None
      else Some(JsMax0(JsCeilDiv1000(JsSub(Finite(e), JsAdd(Finite(now), OffsetAsRead)))))
  }

  /** As written, every deadline is displayed as NaN; with the offset passed in,
      a deadline 9999 ms away at offset 0 shows 10 seconds. */
  lemma MissingOffsetShowsNaN(e: int, now: int)
    requires e != 0
    ensures SecondsLeftAsWritten(Some(e), now) == Some(NaN)
    ensures SecondsLeft(Some(9999), 0, 0) == Some(10)
  {
  }

  /** The component's `secondsLeft` state, refreshed by the effect and by each
      timer tick. */
  class CountDownTimer {
    var secondsLeft: Option<nat>

    constructor ()
      ensures secondsLeft == None
    {
      secondsLeft := None;
    }

    /** One timer tick while a deadline is set. */
    method UpdateTimer(endsAt: int, serverOffset: int, now: int)
      modifies this
      ensures secondsLeft == Some(Remaining(endsAt, now, serverOffset))
    {
      var syncedNow := now + serverOffset;
      var diff := endsAt - syncedNow;
      var c := CeilDiv1000(diff);
      secondsLeft := Some(if c < 0 then 0 else c);
    }

    /** The effect run when the snapshot's deadline or the offset changes: the
        count follows the deadline, and the timer is drawn exactly while the
        snapshot carries a non-zero deadline. */
    method Refresh(gs: Option<GameStateResponse>, serverOffset: int, now: int)
      modifies this
      ensures secondsLeft == SecondsLeft(DeadlineOf(gs), now, serverOffset)
      ensures Rendered() <==> gs.Some? && gs.value.endAt != 0
    {
      var endsAt := DeadlineOf(gs);
      if endsAt.None? || endsAt.value == 0 {
        secondsLeft := None;
        return;
      }
      UpdateTimer(endsAt.value, serverOffset, now);
    }

    /** The timer renders nothing while there is no count. */
    predicate Rendered()
      reads this
    {
      secondsLeft.Some?
    }
  }
}
