/**
 The fencing lease over whole runs: epochs only grow, each epoch belongs to one instance, and
 tenures do not overlap.
 */
module FencingLaws {
  import opened RateTables
  import opened RateAuthority

  predicate IsGrant(e: LeaseEvent) {
    !e.kind.Refused?
  }

  /** Event `i` is the last grant recorded for its epoch. */
  ghost predicate LastOfEpoch(events: seq<LeaseEvent>, i: nat) {
    && i < |events|
    && IsGrant(events[i])
    && forall k :: i < k < |events| && IsGrant(events[k]) ==> events[k].resultingEpoch != events[i].resultingEpoch
  }

  /** Event `i` opened epoch `e`. */
  predicate Opened(events: seq<LeaseEvent>, i: int, e: int) {
    0 <= i < |events| && events[i].kind.Acquired? && events[i].resultingEpoch == e
  }

  /** The event log in itself: growing epochs, one owner per epoch, no overlapping tenures. */
  ghost predicate EpochsOrdered(events: seq<LeaseEvent>) {
    && (forall i :: 0 <= i < |events| ==> 1 <= events[i].previousEpoch <= events[i].resultingEpoch)
    && (forall i :: 0 <= i < |events| && IsGrant(events[i]) ==> events[i].expires.Some?)
    && (forall i, j :: 0 <= i < j < |events| ==> events[i].resultingEpoch <= events[j].previousEpoch)
    && (forall i :: 0 <= i < |events| && events[i].kind.Acquired? ==>
      events[i].resultingEpoch == events[i].previousEpoch + 1)
  }

  ghost predicate OneOwnerPerEpoch(events: seq<LeaseEvent>) {
    forall i, j :: 0 <= i < j < |events| && IsGrant(events[i]) && IsGrant(events[j])
                   && events[i].resultingEpoch == events[j].resultingEpoch
                   ==> events[i].instance == events[j].instance
  }

  /** No grant of a later epoch is decided before the last recorded expiry of an earlier one. */
  ghost predicate TenuresDisjoint(events: seq<LeaseEvent>) {
    forall i: nat, j :: LastOfEpoch(events, i) && i < j < |events| && IsGrant(events[j])
                        && events[i].resultingEpoch < events[j].resultingEpoch
                        ==> events[i].expires.Some? && events[i].expires.value <= events[j].at
  }

  /** Some acquisition opened epoch `e`. */
  ghost predicate WasOpened(events: seq<LeaseEvent>, e: int) {
    exists i :: Opened(events, i, e)
  }

  /** Every epoch above the initial one was opened by some acquisition. */
  ghost predicate EpochsOpened(events: seq<LeaseEvent>, epoch: int) {
    forall e :: 2 <= e <= epoch ==> WasOpened(events, e)
  }

  /** The fencing row agrees with the log. */
  ghost predicate RowMatchesLog(f: Fencing, events: seq<LeaseEvent>) {
    && f.epoch >= 1
    && (f.lease.Some? ==> f.lease.value.acquired <= f.lease.value.renewed < f.lease.value.expires)
    && (f.lease.None? ==> f.epoch == 1 && forall i :: 0 <= i < |events| ==> !IsGrant(events[i]))
    && (forall i :: 0 <= i < |events| ==> events[i].resultingEpoch <= f.epoch)
    && (forall i :: 0 <= i < |events| && IsGrant(events[i]) && events[i].resultingEpoch == f.epoch
          ==> events[i].instance == f.holder)
    && (forall i: nat :: LastOfEpoch(events, i) && f.lease.Some? ==>
          if events[i].resultingEpoch == f.epoch then events[i].expires == Some(f.lease.value.expires)
          else events[i].expires.Some? && events[i].expires.value <= f.lease.value.acquired)
  }

  ghost predicate FencingInv(s: State) {
    && EpochsOrdered(s.events)
    && OneOwnerPerEpoch(s.events)
    && TenuresDisjoint(s.events)
    && EpochsOpened(s.events, s.fencing.epoch)
    && RowMatchesLog(s.fencing, s.events)
  }

  lemma LastOfEpochShrinks(events: seq<LeaseEvent>, e: LeaseEvent, i: nat)
    requires LastOfEpoch(events + [e], i) && i < |events|
    ensures LastOfEpoch(events, i)
    ensures IsGrant(e) ==> e.resultingEpoch != events[i].resultingEpoch
  {
    var longer := events + [e];
    assert longer[|events|] == e;
    forall k | i < k < |events| && IsGrant(events[k])
      ensures events[k].resultingEpoch != events[i].resultingEpoch
    {
      assert longer[k] == events[k];
    }
  }

  lemma KeepOpened(events: seq<LeaseEvent>, e: LeaseEvent, epoch: int)
    requires EpochsOpened(events, epoch)
    ensures EpochsOpened(events + [e], epoch)
  {
    forall k | 2 <= k <= epoch ensures WasOpened(events + [e], k) {
      assert WasOpened(events, k);
      var i :| Opened(events, i, k);
      assert Opened(events + [e], i, k);
    }
  }

  lemma KeepOrdered(f: Fencing, events: seq<LeaseEvent>, e: LeaseEvent)
    requires EpochsOrdered(events) && RowMatchesLog(f, events)
    requires e.previousEpoch == f.epoch
    requires e.resultingEpoch == if e.kind.Acquired? then f.epoch + 1 else f.epoch
    requires IsGrant(e) ==> e.expires.Some?
    ensures EpochsOrdered(events + [e])
  {
  }

  lemma KeepOwners(f: Fencing, events: seq<LeaseEvent>, e: LeaseEvent)
    requires OneOwnerPerEpoch(events) && RowMatchesLog(f, events)
    requires IsGrant(e) ==> e.resultingEpoch > f.epoch || (e.resultingEpoch == f.epoch && e.instance == f.holder)
    ensures OneOwnerPerEpoch(events + [e])
  {
  }

  /** What every earlier epoch's last expiry is bounded by once `e` is granted. */
  lemma EarlierTenure(f: Fencing, events: seq<LeaseEvent>, e: LeaseEvent, i: nat)
    requires RowMatchesLog(f, events)
    requires LastOfEpoch(events + [e], i) && i < |events| && IsGrant(e) && e.resultingEpoch >= f.epoch
    ensures f.lease.Some? && events[i].expires.Some? && events[i].resultingEpoch < e.resultingEpoch
    ensures e.resultingEpoch == f.epoch ==> events[i].expires.value <= f.lease.value.acquired
    ensures events[i].expires.value <= f.lease.value.expires
  {
    LastOfEpochShrinks(events, e, i);
  }

  lemma KeepTenures(f: Fencing, events: seq<LeaseEvent>, e: LeaseEvent)
    requires TenuresDisjoint(events) && RowMatchesLog(f, events)
    requires IsGrant(e) && e.resultingEpoch >= f.epoch
    requires f.lease.Some? ==>
      (if e.resultingEpoch == f.epoch then f.lease.value.acquired else f.lease.value.expires) <= e.at
    ensures TenuresDisjoint(events + [e])
  {
    var longer := events + [e];
    forall i: nat, j | LastOfEpoch(longer, i) && i < j < |longer| && IsGrant(longer[j])
                       && longer[i].resultingEpoch < longer[j].resultingEpoch
      ensures longer[i].expires.Some? && longer[i].expires.value <= longer[j].at
    {
      if j < |events| {
        LastOfEpochShrinks(events, e, i);
        assert longer[i] == events[i] && longer[j] == events[j];
      } else {
        EarlierTenure(f, events, e, i);
      }
    }
  }

  lemma KeepRow(f: Fencing, events: seq<LeaseEvent>, e: LeaseEvent, after: Fencing)
    requires RowMatchesLog(f, events)
    requires IsGrant(e) && after.lease.Some? && e.expires == Some(after.lease.value.expires)
    requires e.resultingEpoch == after.epoch && e.instance == after.holder
    requires after.lease.value.acquired <= after.lease.value.renewed < after.lease.value.expires
    requires if e.kind.Acquired?
             then after.epoch == f.epoch + 1 && (f.lease.Some? ==> f.lease.value.expires <= after.lease.value.acquired)
             else after.epoch == f.epoch && after.holder == f.holder
                  && f.lease.Some? && after.lease.value.acquired == f.lease.value.acquired
    ensures RowMatchesLog(after, events + [e])
  {
    var longer := events + [e];
    forall i: nat | LastOfEpoch(longer, i)
      ensures if longer[i].resultingEpoch == after.epoch then longer[i].expires == Some(after.lease.value.expires)
              else longer[i].expires.Some? && longer[i].expires.value <= after.lease.value.acquired
    {
      if i < |events| {
        EarlierTenure(f, events, e, i);
      }
    }
  }

  /** A refused request only lengthens the log. */
  lemma RefusalKeeps(f: Fencing, events: seq<LeaseEvent>, e: LeaseEvent)
    requires TenuresDisjoint(events) && RowMatchesLog(f, events)
    requires e.kind.Refused? && e.resultingEpoch == f.epoch
    ensures TenuresDisjoint(events + [e]) && RowMatchesLog(f, events + [e])
  {
    var longer := events + [e];
    forall i: nat | LastOfEpoch(longer, i) ensures LastOfEpoch(events, i) && longer[i] == events[i] {
      LastOfEpochShrinks(events, e, i);
    }
  }

  lemma RefusalKeepsInv(s: State, e: LeaseEvent)
    requires FencingInv(s)
    requires e.kind.Refused? && e.previousEpoch == e.resultingEpoch == s.fencing.epoch
    ensures FencingInv(s.(events := s.events + [e]))
  {
    KeepOrdered(s.fencing, s.events, e);
    KeepOwners(s.fencing, s.events, e);
    KeepOpened(s.events, e, s.fencing.epoch);
    RefusalKeeps(s.fencing, s.events, e);
  }

  lemma RenewalKeepsInv(s: State, e: LeaseEvent, lease: Lease)
    requires FencingInv(s) && s.fencing.lease.Some?
    requires e.kind.Renewed? && e.previousEpoch == e.resultingEpoch == s.fencing.epoch
    requires e.instance == s.fencing.holder && e.expires == Some(lease.expires) && e.at == lease.renewed
    requires s.fencing.lease.value.acquired == lease.acquired <= lease.renewed < lease.expires
    ensures FencingInv(s.(fencing := s.fencing.(lease := Some(lease)), events := s.events + [e]))
  {
    KeepOrdered(s.fencing, s.events, e);
    KeepOwners(s.fencing, s.events, e);
    KeepOpened(s.events, e, s.fencing.epoch);
    KeepTenures(s.fencing, s.events, e);
    KeepRow(s.fencing, s.events, e, s.fencing.(lease := Some(lease)));
  }

  lemma TakeoverKeepsInv(s: State, e: LeaseEvent)
    requires FencingInv(s)
    requires e.kind.Acquired? && e.previousEpoch == s.fencing.epoch && e.resultingEpoch == s.fencing.epoch + 1
    requires e.expires.Some? && e.at < e.expires.value
    requires s.fencing.lease.Some? ==> s.fencing.lease.value.expires <= e.at
    ensures FencingInv(s.(fencing := Fencing(e.resultingEpoch, e.instance, Some(Lease(e.at, e.at, e.expires.value))),
                          events := s.events + [e]))
  {
    KeepOrdered(s.fencing, s.events, e);
    KeepOwners(s.fencing, s.events, e);
    KeepOpened(s.events, e, s.fencing.epoch);
    KeepTenures(s.fencing, s.events, e);
    KeepRow(s.fencing, s.events, e, Fencing(e.resultingEpoch, e.instance, Some(Lease(e.at, e.at, e.expires.value))));
    assert Opened(s.events + [e], |s.events|, e.resultingEpoch);
  }

  /** The only ways a request can change the fencing row and its log. */
  ghost predicate LeaseTransition(s: State, after: State, e: LeaseEvent) {
    && after.events == s.events + [e]
    && e.previousEpoch == s.fencing.epoch
    && match e.kind
       case Refused => after.fencing == s.fencing && e.resultingEpoch == s.fencing.epoch
       case Renewed =>
         && s.fencing.lease.Some? && after.fencing.lease.Some?
         && after.fencing == s.fencing.(lease := after.fencing.lease)
         && e.resultingEpoch == s.fencing.epoch && e.instance == s.fencing.holder
         && var lease := after.fencing.lease.value;
            e.expires == Some(lease.expires) && e.at == lease.renewed
            && s.fencing.lease.value.acquired == lease.acquired <= lease.renewed < lease.expires
       case Acquired =>
         && e.resultingEpoch == s.fencing.epoch + 1
         && e.expires.Some? && e.at < e.expires.value
         && (s.fencing.lease.Some? ==> s.fencing.lease.value.expires <= e.at)
         && after.fencing == Fencing(e.resultingEpoch, e.instance, Some(Lease(e.at, e.at, e.expires.value)))
  }

  lemma AcquireTransition(s: State, instance: string, expected: int, ttl: int, now: Time) returns (e: LeaseEvent)
    ensures var o := Acquire(s, instance, expected, ttl, now);
            if o.reply.Aborted? || o.reply == LeaseDenied(FencingRequestInvalid, s.fencing.epoch) then o.state == s
            else LeaseTransition(s, o.state, e)
  {
    var o := Acquire(s, instance, expected, ttl, now);
    if o.reply.Aborted? || o.reply == LeaseDenied(FencingRequestInvalid, s.fencing.epoch) {
      e := LeaseEvent(instance, 0, 0, Refused, None, now);
    } else {
      e := o.state.events[|s.events|];
    }
  }

  lemma TransitionKeepsFencing(s: State, after: State, e: LeaseEvent)
    requires FencingInv(s) && LeaseTransition(s, after, e)
    ensures FencingInv(after)
  {
    match e.kind
    case Refused => RefusalKeepsInv(s, e);
    case Renewed => RenewalKeepsInv(s, e, after.fencing.lease.value);
    case Acquired => TakeoverKeepsInv(s, e);
  }

  /** Acquire keeps the whole fencing invariant, for every request and clock reading. */
  lemma AcquireKeepsFencing(s: State, instance: string, expected: int, ttl: int, now: Time)
    requires FencingInv(s)
    ensures FencingInv(Acquire(s, instance, expected, ttl, now).state)
  {
    var o := Acquire(s, instance, expected, ttl, now);
    var e := AcquireTransition(s, instance, expected, ttl, now);
    if !o.reply.Aborted? && o.reply != LeaseDenied(FencingRequestInvalid, s.fencing.epoch) {
      TransitionKeepsFencing(s, o.state, e);
    }
  }

  /** A lease is granted exactly to the caller who knows the epoch and does not meet another's live lease. */
  lemma LeaseGrantedIff(s: State, instance: string, expected: int, ttl: int, now: Time)
    ensures Acquire(s, instance, expected, ttl, now).reply.LeaseGranted? <==>
      && instance != "" && instance != UNINITIALIZED && 1 <= ttl <= 300
      && expected == s.fencing.epoch
      && (s.fencing.lease.Some? && s.fencing.lease.value.expires > now ==>
            s.fencing.holder == instance && now >= s.fencing.lease.value.acquired)
    ensures Acquire(s, instance, expected, ttl, now).reply.LeaseGranted? ==>
      var after := Acquire(s, instance, expected, ttl, now).state.fencing;
      after.holder == instance && LeaseCurrent(after, after.epoch, now)
  {
  }
}
