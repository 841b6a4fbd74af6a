/** The event-type protocol: event types are plain strings classified by prefix. */
module EventTypes {

  /** Prefix of the event types delivered by the timer service. */
  const TimerPrefix: string := "Timer-"

  /** Prefix of compensation event types (jBPM's `Metadata.EVENT_TYPE_COMPENSATION`). */
  const CompensationPrefix: string := "Compensation"

  /** Java's `String.startsWith`. */
  predicate StartsWith(s: string, prefix: string) {
    |prefix| <= |s| && s[..|prefix|] == prefix
  }

  predicate IsTimer(t: string) {
    StartsWith(t, TimerPrefix)
  }

  predicate IsCompensation(t: string) {
    StartsWith(t, CompensationPrefix)
  }

  /** No event type is both a timer and a compensation signal, so the compensation
      branch of the boundary routing never performs the timer correlation. */
  lemma CompensationIsNeverTimer(t: string)
    ensures !(IsTimer(t) && IsCompensation(t))
  {
    if IsTimer(t) {
      assert t[0] == t[..|TimerPrefix|][0] == 'T';
    }
    if IsCompensation(t) {
      assert t[0] == t[..|CompensationPrefix|][0] == 'C';
    }
  }
}
