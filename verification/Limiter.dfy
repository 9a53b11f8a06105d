/** internal/concurrency/limiter.go: per-provider slots and their once-only release closures. */
module Limiter {
  import opened Wrappers

  function Count(inFlight: map<string, int>, provider: string): int {
    if provider in inFlight then inFlight[provider] else 0
  }

  function Taken(inFlight: map<string, int>, provider: string): map<string, int> {
    inFlight[provider := Count(inFlight, provider) + 1]
  }

  function Released(inFlight: map<string, int>, provider: string): map<string, int> {
    if Count(inFlight, provider) > 1 then inFlight[provider := Count(inFlight, provider) - 1] else inFlight - {provider}
  }

  /** A limited provider that is full gives no slot; an unlimited one always answers, and takes none. */
  predicate Refuses(inFlight: map<string, int>, provider: string, limit: int) {
    limit > 0 && Count(inFlight, provider) >= limit
  }

  class Limiter {
    var inFlight: map<string, int>

    constructor ()
      ensures inFlight == map[]
    {
      inFlight := map[];
    }

    /** The slot is None when the provider is at its limit. */
    method Acquire(provider: string, limit: int) returns (slot: Option<Slot>)
      modifies this
      ensures slot.None? <==> Refuses(old(inFlight), provider, limit)
      ensures inFlight == if slot.None? || limit <= 0 then old(inFlight) else Taken(old(inFlight), provider)
      ensures slot.Some? ==>
                && fresh(slot.value) && slot.value.limiter == this
                && slot.value.provider == provider && slot.value.owed == (limit > 0)
    {
      if limit <= 0 {
        var s := new Slot(this, provider, false);
        return Some(s);
      }
      var n := if provider in inFlight then inFlight[provider] else 0;
      if n >= limit {
        return None;
      }
      inFlight := inFlight[provider := n + 1];
      var s := new Slot(this, provider, true);
      return Some(s);
    }

    method Release(provider: string)
      modifies this
      ensures inFlight == Released(old(inFlight), provider)
    {
      var n := if provider in inFlight then inFlight[provider] else 0;
      if n > 1 {
        inFlight := inFlight[provider := n - 1];
        return;
      }
      inFlight := inFlight - {provider};
    }
  }

  /** The closure Acquire returns; `owed` says that its release is still to come. */
  class Slot {
    const limiter: Limiter
    const provider: string
    var owed: bool

    constructor (limiter: Limiter, provider: string, owed: bool)
      ensures this.limiter == limiter && this.provider == provider && this.owed == owed
    {
      this.limiter, this.provider, this.owed := limiter, provider, owed;
    }

    /** Only the first call of a limited slot releases anything. */
    method Call()
      modifies this, limiter
      ensures !owed
      ensures limiter.inFlight == if old(owed) then Released(old(limiter.inFlight), provider) else old(limiter.inFlight)
    {
      if owed {
        owed := false;
        limiter.Release(provider);
      }
    }
  }

  /** Taking and releasing move the count of their own provider by one, and no other. */
  lemma TakeCounts(inFlight: map<string, int>, mine: string, other: string)
    ensures Count(Taken(inFlight, mine), other) == Count(inFlight, other) + if other == mine then 1 else 0
  {
  }

  lemma ReleaseCounts(inFlight: map<string, int>, mine: string, other: string)
    requires Count(inFlight, mine) >= 1
    ensures Count(Released(inFlight, mine), other) == Count(inFlight, other) - if other == mine then 1 else 0
  {
  }

  /** A release undoes the acquire it belongs to, whatever was held before, as long as no zero is stored. */
  lemma ReleaseUndoesTake(inFlight: map<string, int>, provider: string)
    requires forall p :: p in inFlight ==> inFlight[p] > 0
    ensures Released(Taken(inFlight, provider), provider) == inFlight
  {
    var after := Released(Taken(inFlight, provider), provider);
    forall p ensures p in after <==> p in inFlight {
    }
    assert after.Keys == inFlight.Keys;
    assert forall p :: p in after ==> after[p] == inFlight[p];
  }

  /** Releases commute with the other requests' acquires and releases, so the order in which requests end
      does not matter. */
  lemma ReleaseCommutes(inFlight: map<string, int>, mine: string, other: string)
    requires forall p :: p in inFlight ==> inFlight[p] > 0
    requires mine in inFlight
    ensures Released(Taken(inFlight, other), mine) == Taken(Released(inFlight, mine), other)
  {
    var a, b := Released(Taken(inFlight, other), mine), Taken(Released(inFlight, mine), other);
    assert a.Keys == b.Keys;
    assert forall p :: p in a ==> a[p] == b[p];
  }
}
