/**
 Publisher sessions: which publisher is current, which ones are retired, and the epoch number each
 one was given.  `PublisherEpochTracker` is the mutable object; `State` is its value.
 */
module PublisherEpoch {
  import opened Wrappers

  const MAXIMUM_IMPLEMENTATION_BYTES: nat := 256
  const MAXIMUM_GID_BYTES: nat := 256

  datatype Identity = Identity(implementation: string, gid: seq<bv8>)

  datatype Status = Accepted | Retired | Invalid | Exhausted

  datatype Observation = Observation(status: Status, epoch: nat, sessionChanged: bool)

  datatype Limits = Limits(retiredIdentities: nat, epoch: nat)

  datatype State = State(retired: seq<Identity>, current: Option<Identity>, epoch: nat)

  const INITIAL: State := State([], None, 0)

  predicate ValidIdentity(identity: Identity) {
    && 0 < |identity.implementation| <= MAXIMUM_IMPLEMENTATION_BYTES
    && 0 < |identity.gid| <= MAXIMUM_GID_BYTES
    && exists k :: 0 <= k < |identity.gid| && identity.gid[k] != 0
  }

  /** One observation: the tracker's next value and the answer it gives. */
  function Observed(limits: Limits, s: State, identity: Identity): (State, Observation) {
    if !ValidIdentity(identity) then
      (s, Observation(Invalid, s.epoch, false))
    else if s.current == Some(identity) then
      (s, Observation(Accepted, s.epoch, false))
    else if identity in s.retired then
      (s, Observation(Retired, s.epoch, false))
    else if s.epoch >= limits.epoch then
      (s, Observation(Exhausted, s.epoch, false))
    else if s.current.None? then
      (State(s.retired, Some(identity), s.epoch + 1), Observation(Accepted, s.epoch + 1, true))
    else if |s.retired| >= limits.retiredIdentities then
      (s, Observation(Exhausted, s.epoch, false))
    else
      (State(s.retired + [s.current.value], Some(identity), s.epoch + 1),
       Observation(Accepted, s.epoch + 1, true))
  }

  /** All sessions ever opened, oldest first; the session of epoch `e` is at index `e - 1`. */
  function Sessions(s: State): seq<Identity> {
    s.retired + if s.current.Some? then [s.current.value] else []
  }

  ghost predicate Valid(s: State) {
    && s.epoch == |Sessions(s)|
    && (s.current.None? ==> s.retired == [])
    && forall i, j :: 0 <= i < j < |Sessions(s)| ==> Sessions(s)[i] != Sessions(s)[j]
  }

  predicate Newest(sessions: seq<Identity>, identity: Identity) {
    sessions != [] && sessions[|sessions| - 1] == identity
  }

  /** A publisher that names itself: an implementation and an identifier, each of at most 256 bytes and not blank. */
  predicate Named(identity: Identity) {
    && 1 <= |identity.implementation| <= 256 && 1 <= |identity.gid| <= 256
    && !forall k :: 0 <= k < |identity.gid| ==> identity.gid[k] == 0
  }

  /**
   What the sessions so far say about a publisher: the newest is accepted, an older one is retired, and a new one is
   accepted while there is room for its session and for the one it retires.
   */
  lemma StatusBySessions(limits: Limits, s: State, identity: Identity)
    requires Valid(s)
    ensures
      var status, n := Observed(limits, s, identity).1.status, |Sessions(s)|;
      && (status.Invalid? <==> !Named(identity))
      && (status.Retired? <==> Named(identity) && identity in Sessions(s) && !Newest(Sessions(s), identity))
      && (status.Accepted? <==>
            && Named(identity)
            && (|| Newest(Sessions(s), identity)
                || (identity !in Sessions(s) && n < limits.epoch && (n == 0 || n <= limits.retiredIdentities))))
  {
    if s.current.Some? && identity in Sessions(s) {
      var k :| 0 <= k < |Sessions(s)| && Sessions(s)[k] == identity;
      assert k < |s.retired| ==> s.retired[k] == identity;
    }
    assert Sessions(s) == [] <==> s.current.None?;
    if identity in s.retired {
      var k :| 0 <= k < |s.retired| && s.retired[k] == identity;
      assert Sessions(s)[k] == identity;
    }
  }

  /** One observation opens at most one session, and an accepted publisher is the newest session. */
  lemma ObserveExtendsSessions(limits: Limits, s: State, identity: Identity)
    requires Valid(s)
    ensures var (s', r) := Observed(limits, s, identity);
            && Valid(s')
            && Sessions(s) <= Sessions(s')
            && (r.status.Accepted? ==>
                  && 0 < r.epoch == |Sessions(s')|
                  && Sessions(s')[r.epoch - 1] == identity
                  && (r.sessionChanged <==> identity !in Sessions(s)))
            && (!r.status.Accepted? ==> s' == s && !r.sessionChanged)
            && (r.status.Retired? ==> identity in Sessions(s))
  {
    var (s', r) := Observed(limits, s, identity);
    if r.status.Accepted? {
      assert Sessions(s') == if r.sessionChanged then Sessions(s) + [identity] else Sessions(s);
    }
  }

  // ---------------------------------------------------------------------------------------------
  // Whole runs
  // ---------------------------------------------------------------------------------------------

  function After(limits: Limits, identities: seq<Identity>): State {
    if identities == [] then INITIAL
    else
      var last := |identities| - 1;
      Observed(limits, After(limits, identities[..last]), identities[last]).0
  }

  /** The answer to the `i`-th observation of the run. */
  function Answer(limits: Limits, identities: seq<Identity>, i: nat): Observation
    requires i < |identities|
  {
    Observed(limits, After(limits, identities[..i]), identities[i]).1
  }

  lemma {:induction false} AfterIsValid(limits: Limits, identities: seq<Identity>)
    ensures Valid(After(limits, identities))
  {
    if identities != [] {
      var last := |identities| - 1;
      AfterIsValid(limits, identities[..last]);
      ObserveExtendsSessions(limits, After(limits, identities[..last]), identities[last]);
    }
  }

  lemma {:induction false} SessionsGrow(limits: Limits, identities: seq<Identity>, i: nat)
    requires i <= |identities|
    ensures Sessions(After(limits, identities[..i])) <= Sessions(After(limits, identities))
  {
    if i == |identities| {
      assert identities[..i] == identities;
    } else {
      var last := |identities| - 1;
      assert identities[..last][..i] == identities[..i];
      SessionsGrow(limits, identities[..last], i);
      AfterIsValid(limits, identities[..last]);
      ObserveExtendsSessions(limits, After(limits, identities[..last]), identities[last]);
    }
  }

  lemma AnswerInRun(limits: Limits, identities: seq<Identity>, i: nat)
    requires i < |identities|
    ensures Valid(After(limits, identities))
    ensures var r := Answer(limits, identities, i);
            r.status.Accepted? ==>
              && 0 < r.epoch == |Sessions(After(limits, identities[..i + 1]))|
              && r.epoch <= |Sessions(After(limits, identities))|
              && Sessions(After(limits, identities))[r.epoch - 1] == identities[i]
              && (r.sessionChanged <==> identities[i] !in Sessions(After(limits, identities[..i])))
  {
    AfterIsValid(limits, identities);
    AfterIsValid(limits, identities[..i]);
    assert identities[..i + 1][..i] == identities[..i];
    ObserveExtendsSessions(limits, After(limits, identities[..i]), identities[i]);
    SessionsGrow(limits, identities, i + 1);
  }

  /**
   Over every run an epoch number names exactly one publisher and a publisher has exactly one epoch
   number; epochs never go back, so once another publisher has been accepted the earlier one is never
   accepted again.
   */
  lemma EpochIdentifiesPublisher(limits: Limits, identities: seq<Identity>, i: nat, j: nat)
    requires i <= j < |identities|
    requires Answer(limits, identities, i).status.Accepted?
    requires Answer(limits, identities, j).status.Accepted?
    ensures Answer(limits, identities, i).epoch <= Answer(limits, identities, j).epoch
    ensures Answer(limits, identities, i).epoch == Answer(limits, identities, j).epoch
            <==> identities[i] == identities[j]
    ensures i < j && Answer(limits, identities, j).sessionChanged ==> identities[i] != identities[j]
  {
    AnswerInRun(limits, identities, i);
    AnswerInRun(limits, identities, j);
    if i < j {
      AnswerInRun(limits, identities[..j], i);
      assert identities[..j][..i] == identities[..i];
      assert identities[..j][..i + 1] == identities[..i + 1];
      assert identities[..j + 1][..i + 1] == identities[..i + 1];
      SessionsGrow(limits, identities[..j + 1], i + 1);
    }
  }

  // ---------------------------------------------------------------------------------------------
  // The object
  // ---------------------------------------------------------------------------------------------

  class PublisherEpochTracker {
    const limits: Limits
    var retired: seq<Identity>
    var current: Option<Identity>
    var epoch: nat

    constructor (limits: Limits)
      ensures this.limits == limits && View() == INITIAL
    {
      this.limits := limits;
      retired, current, epoch := [], None, 0;
    }

    constructor Clone(other: PublisherEpochTracker)
      ensures limits == other.limits && View() == other.View()
    {
      limits := other.limits;
      retired, current, epoch := other.retired, other.current, other.epoch;
    }

    ghost function View(): State
      reads this
    {
      State(retired, current, epoch)
    }

    method Observe(identity: Identity) returns (r: Observation)
      modifies this
      ensures (View(), r) == Observed(limits, old(View()), identity)
    {
      if !ValidIdentity(identity) {
        return Observation(Invalid, epoch, false);
      }
      if current == Some(identity) {
        return Observation(Accepted, epoch, false);
      }
      if identity in retired {
        return Observation(Retired, epoch, false);
      }
      if epoch >= limits.epoch {
        return Observation(Exhausted, epoch, false);
      }
      if current.Some? {
        if |retired| >= limits.retiredIdentities {
          return Observation(Exhausted, epoch, false);
        }
        retired := retired + [current.value];
      }
      current := Some(identity);
      epoch := epoch + 1;
      return Observation(Accepted, epoch, true);
    }
  }
}
