/** When an atom's time to live has run out. Moments are nanoseconds; durations are 64-bit and wrap around. */
module Lifetimes {
  import opened Wrappers
  import opened AtomTypes
  import opened V2Types
  import opened Conversion

  const HOUR := 3_600_000_000_000
  const DAY := 86_400_000_000_000

  /** A product as Go computes it on 64 bits. */
  function Wrap64(x: int): int {
    (x + 0x8000_0000_0000_0000) % 0x1_0000_0000_0000_0000 - 0x8000_0000_0000_0000
  }

  function Lifespan(days: int32): int {
    Wrap64(Wrap64(days as int * 24) * HOUR)
  }

  predicate TTLExpired(atom: Atom, now: int) {
    var lifecycle := atom.spec.lifecycle;
    lifecycle.Some? && lifecycle.value.ttlInDays.Some? &&
    atom.meta.creationTimestamp + Lifespan(lifecycle.value.ttlInDays.value) < now
  }

  lemma LifespanExact(days: int32)
    ensures Lifespan(days) == days as int * DAY <==> -106751 <= days <= 106751
  {
    var d := days as int;
    assert Wrap64(d * 24) == d * 24;
    assert d * 24 * HOUR == d * DAY;
    if -106751 <= d <= 106751 {
      assert -0x8000_0000_0000_0000 <= d * DAY < 0x8000_0000_0000_0000;
    } else if d > 106751 {
      assert d * DAY >= 106752 * DAY > 0x8000_0000_0000_0000;
    } else {
      assert d * DAY <= -106752 * DAY < -0x8000_0000_0000_0000;
    }
  }

  /**
   * An atom expires that many days after its creation, at every moment, exactly when the number of days is
   * at most 106751 either way: beyond that the duration wraps around.
   */
  lemma ExpiryIsDaysAfterCreation(atom: Atom, days: int32)
    requires atom.spec.lifecycle == Some(Lifecycle(Some(days)))
    ensures (forall now :: TTLExpired(atom, now) <==> now > atom.meta.creationTimestamp + days as int * DAY)
            <==> -106751 <= days <= 106751
  {
    LifespanExact(days);
    var created, exact := atom.meta.creationTimestamp, days as int * DAY;
    if Lifespan(days) < exact {
      assert TTLExpired(atom, created + exact);
    } else if exact < Lifespan(days) {
      assert !TTLExpired(atom, created + Lifespan(days));
    }
  }

  /** An expired atom stays expired, and one without a time to live never expires. */
  lemma ExpiryIsFinal(atom: Atom, now: int, later: int)
    requires now <= later && TTLExpired(atom, now)
    ensures TTLExpired(atom, later)
    ensures atom.spec.lifecycle.Some? && atom.spec.lifecycle.value.ttlInDays.Some?
  {
  }

  /** A time to live set on a v2beta1 atom governs the converted atom unchanged exactly when it fits in 32 bits. */
  lemma ConvertedTTLGoverns(codec: Codec, host: string, clock: Clock, a: V2Atom, before: AtomSpec, days: int64)
    requires Hub(codec, host, clock, a, before).Ok? && SpokeTTL(a.kubernetes) == Some(days)
    ensures var lifecycle := Hub(codec, host, clock, a, before).value.spec.lifecycle;
            && lifecycle.Some? && lifecycle.value.ttlInDays.Some?
            && (lifecycle.value.ttlInDays.value as int == days as int <==> -0x8000_0000 <= days < 0x8000_0000)
  {
    TTLKeptExactly(days);
  }
}
