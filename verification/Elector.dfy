/** One coordinator's side of the leader election: its lock-protected fields, and the lease it campaigns for. */
module Electors {
  import opened Text
  import opened Stores

  // `acquired` is the term a running campaign holds between the acquire script and the assignment of
  // its result; `live` says that the leader context has not been cancelled.
  datatype Elector = Elector(leader: bool, term: nat, live: bool, campaigning: bool, acquired: Option<nat>)

  const FRESH := Elector(false, 0, false, false, None)

  predicate Leads(e: Elector) { e.leader && e.live }

  function TermOf(e: Elector): nat { if Leads(e) then e.term else 0 }

  // Term() > 0 && IsLeader()
  predicate HoldsTerm(e: Elector, term: nat) { term > 0 && Leads(e) && e.term == term }

  function Begun(e: Elector): Elector {
    if Leads(e) || e.campaigning then e else e.(campaigning := true)
  }

  predicate MayAcquire(e: Elector) { e.campaigning && e.acquired.None? }

  function Assigned(e: Elector): Elector {
    if e.acquired.Some? then Elector(true, e.acquired.value, true, false, None) else e
  }

  function Lost(e: Elector): Elector {
    e.(leader := false, term := 0, live := false)
  }

  // The acquire script reported an error: leadership is dropped and the campaign ends.
  function AcquireFailed(e: Elector): Elector {
    Lost(e).(campaigning := false, acquired := None)
  }

  class RedisElector {
    const token: string
    var leader: bool
    var term: nat
    var live: bool
    var campaigning: bool
    var acquired: Option<nat>

    ghost function State(): Elector
      reads this
    {
      Elector(leader, term, live, campaigning, acquired)
    }

    constructor (token: string)
      ensures State() == FRESH && this.token == token
    {
      this.token := token;
      leader, term, live, campaigning, acquired := false, 0, false, false, None;
    }

    method BeginCampaign() returns (started: bool)
      modifies this
      ensures State() == Begun(old(State()))
      ensures started <==> !(old(leader) && old(live)) && !old(campaigning)
      ensures campaigning == (old(campaigning) || started)
      ensures leader == old(leader) && term == old(term) && live == old(live) && acquired == old(acquired)
    {
      if (leader && live) || campaigning { return false; }
      campaigning := true;
      return true;
    }

    // SET NX on the lease and INCR of the durable term, as one script.
    method Acquire(store: Store) returns (won: bool)
      requires MayAcquire(State())
      modifies this`acquired, store`lease, store`term
      ensures won == old(store.lease).None?
      ensures store.State() == AfterAcquire(old(store.State()), token)
      ensures State() == if won then old(State()).(acquired := Some(store.term)) else old(State())
    {
      if store.lease.Some? { return false; }
      store.lease := Some(token);
      store.term := store.term + 1;
      acquired := Some(store.term);
      return true;
    }

    method BecomeLeader()
      requires acquired.Some?
      modifies this
      ensures State() == Assigned(old(State()))
      ensures leader && live && term == old(acquired).value && !campaigning && acquired.None?
    {
      leader, term, live := true, acquired.value, true;
      campaigning, acquired := false, None;
    }

    method LoseLeadership()
      modifies this
      ensures State() == Lost(old(State()))
      ensures !leader && term == 0 && !live && campaigning == old(campaigning) && acquired == old(acquired)
    {
      leader, term := false, 0;
      live := false;
    }

    // One turn of the renew loop: only an answer that the token still matches keeps the leadership. Without an
    // answer the lease may have been renewed all the same.
    method Renew(store: Store, answered: bool)
      modifies this
      ensures State() == if answered && store.lease == Some(token) then old(State()) else Lost(old(State()))
      ensures !answered || store.lease != Some(token) ==> !leader && term == 0 && !live
    {
      if !answered {
        LoseLeadership();
        return;
      }
      if store.lease != Some(token) { LoseLeadership(); }
    }

    method ReleaseToken(store: Store)
      modifies store`lease
      ensures store.State() == AfterRelease(old(store.State()), token)
      ensures store.lease == if old(store.lease) == Some(token) then None else old(store.lease)
    {
      if store.lease == Some(token) { store.lease := None; }
    }

    method Term() returns (t: nat)
      ensures t == TermOf(State()) == if leader && live then term else 0
    {
      if !leader || !live { return 0; }
      return term;
    }
  }
}
