/** Device admission at the node: a device counts for 300 seconds after it was last seen. */
module Devices {
  import opened Sorting
  import opened Ledger

  type Device = nat

  const LIFETIME := 300_000

  type Seen = map<Device, int>

  datatype Event =
    | Closing(user: User, device: Device, now: int)             // a report that names its device
    | Admit(user: User, device: Device, limit: nat, now: int)

  /** `touchDevice`: record the device, then forget those unseen for more than the lifetime. */
  function Touch(seen: Seen, device: Device, now: int): Seen {
    var m := seen[device := now];
    map d | d in m && now - m[d] <= LIFETIME :: m[d]
  }

  function SeenBy(s: map<User, Seen>, user: User): Seen {
    if user in s then s[user] else map[]
  }

  /** A limit of zero admits without looking; otherwise the device is recorded before it is counted. */
  function Next(s: map<User, Seen>, e: Event): map<User, Seen> {
    if e.Admit? && e.limit == 0 then s else s[e.user := Touch(SeenBy(s, e.user), e.device, e.now)]
  }

  predicate Admitted(s: map<User, Seen>, e: Event) {
    e.Admit? && (e.limit == 0 || |Next(s, e)[e.user]| <= e.limit)
  }

  predicate Clocked(es: seq<Event>, from: int) {
    es == [] || (from <= es[0].now && Clocked(es[1..], es[0].now))
  }

  /** Every admission of the user carries the same limit. */
  predicate Limited(es: seq<Event>, user: User, limit: nat) {
    es == [] || ((es[0].Admit? && es[0].user == user ==> es[0].limit == limit) && Limited(es[1..], user, limit))
  }

  /** The devices of `user` admitted at a time in the closed window [t, t + 300 s]. */
  function AdmittedIn(s: map<User, Seen>, es: seq<Event>, user: User, t: int): set<Device>
    decreases |es|
  {
    if es == [] then {}
    else Joining(s, es[0], user, t) + AdmittedIn(Next(s, es[0]), es[1..], user, t)
  }

  lemma {:induction false} LateAdmitsNothing(s: map<User, Seen>, es: seq<Event>, user: User, t: int, from: int)
    requires Clocked(es, from) && from > t + LIFETIME
    ensures AdmittedIn(s, es, user, t) == {}
    decreases |es|
  {
    if es != [] {
      LateAdmitsNothing(Next(s, es[0]), es[1..], user, t, es[0].now);
    }
  }

  function Joining(s: map<User, Seen>, e: Event, user: User, t: int): set<Device> {
    if e.user == user && t <= e.now <= t + LIFETIME && Admitted(s, e) then {e.device} else {}
  }

  /** `admitted` have all been seen since `t`, and are no more than the limit. */
  ghost predicate Kept(s: map<User, Seen>, user: User, t: int, limit: nat, admitted: set<Device>) {
    |admitted| <= limit && forall d :: d in admitted ==> d in SeenBy(s, user) && t <= SeenBy(s, user)[d]
  }

  /** While the window lasts, every device admitted in it is still recorded, so the recorded count bounds them. */
  lemma KeptStep(s: map<User, Seen>, e: Event, user: User, t: int, limit: nat, admitted: set<Device>)
    requires limit > 0 && Kept(s, user, t, limit, admitted) && e.now <= t + LIFETIME
    requires admitted != {} ==> t <= e.now
    requires e.Admit? && e.user == user ==> e.limit == limit
    ensures Kept(Next(s, e), user, t, limit, admitted + Joining(s, e, user, t))
  {
    var admitted', seen' := admitted + Joining(s, e, user, t), SeenBy(Next(s, e), user);
    forall d | d in admitted' ensures d in seen' && t <= seen'[d] { }
    if Joining(s, e, user, t) == {} {
      assert admitted' == admitted;
    } else {
      SmallerSet(admitted', seen'.Keys);
      assert |seen'.Keys| == |seen'|;
    }
  }

  lemma UnionAssociates(a: set<Device>, b: set<Device>, c: set<Device>)
    ensures a + (b + c) == (a + b) + c
  {
  }

  lemma {:induction false} WindowBound(s: map<User, Seen>, es: seq<Event>, user: User, t: int, limit: nat,
                                       admitted: set<Device>, from: int)
    requires limit > 0 && Clocked(es, from) && Limited(es, user, limit) && Kept(s, user, t, limit, admitted)
    requires admitted != {} ==> t <= from
    ensures |admitted + AdmittedIn(s, es, user, t)| <= limit
    decreases |es|
  {
    if es == [] {
      assert admitted + {} == admitted;
    } else if es[0].now > t + LIFETIME {
      LateAdmitsNothing(Next(s, es[0]), es[1..], user, t, es[0].now);
      assert admitted + AdmittedIn(s, es, user, t) == admitted;
    } else {
      var joining := Joining(s, es[0], user, t);
      KeptStep(s, es[0], user, t, limit, admitted);
      WindowBound(Next(s, es[0]), es[1..], user, t, limit, admitted + joining, es[0].now);
      UnionAssociates(admitted, joining, AdmittedIn(Next(s, es[0]), es[1..], user, t));
    }
  }

  /**
   * Over any run with a clock that does not go back, at most `limit` distinct devices of a user get in per 300
   * seconds.
   */
  lemma DeviceLimitHolds(s: map<User, Seen>, es: seq<Event>, user: User, t: int, limit: nat, from: int)
    requires limit > 0 && Clocked(es, from) && Limited(es, user, limit)
    ensures |AdmittedIn(s, es, user, t)| <= limit
  {
    WindowBound(s, es, user, t, limit, {}, from);
    assert {} + AdmittedIn(s, es, user, t) == AdmittedIn(s, es, user, t);
  }

  // ----- who gets in -----

  function After(s: map<User, Seen>, es: seq<Event>): map<User, Seen>
    decreases |es|
  {
    if es == [] then s else After(Next(s, es[0]), es[1..])
  }

  /** The event names a device of the user and is recorded: all do but an admission without a limit. */
  predicate Records(e: Event, user: User) {
    e.user == user && (e.Admit? ==> e.limit != 0)
  }

  /** The devices that the user's recorded events have named in the 300 seconds up to `now`. */
  function Recent(es: seq<Event>, user: User, now: int): set<Device> {
    set i | 0 <= i < |es| && Records(es[i], user) && now - es[i].now <= 300_000 :: es[i].device
  }

  /** What the object remembers of the events so far, the last of which is no later than `now`. */
  ghost predicate Remembers(seen: Seen, es: seq<Event>, user: User, now: int) {
    && (forall i :: 0 <= i < |es| ==> es[i].now <= now)
    && (forall d :: d in seen ==> exists i :: 0 <= i < |es| && Names(es[i], user, d) && es[i].now == seen[d])
    && (forall i :: 0 <= i < |es| && Records(es[i], user) && now - es[i].now <= 300_000 ==>
          es[i].device in seen && es[i].now <= seen[es[i].device])
  }

  predicate Names(e: Event, user: User, d: Device) {
    Records(e, user) && e.device == d
  }

  lemma RemembersStep(s: map<User, Seen>, es: seq<Event>, e: Event, user: User, now: int)
    requires Remembers(SeenBy(s, user), es, user, now) && now <= e.now
    ensures Remembers(SeenBy(Next(s, e), user), es + [e], user, e.now)
  {
    var seen, seen', all := SeenBy(s, user), SeenBy(Next(s, e), user), es + [e];
    assert all[|es|] == e && forall i :: 0 <= i < |es| ==> all[i] == es[i];
    forall d | d in seen' ensures exists i :: 0 <= i < |all| && Names(all[i], user, d) && all[i].now == seen'[d] {
      if Names(e, user, d) {
        assert seen'[d] == e.now && Names(all[|es|], user, d);
      } else {
        var i :| 0 <= i < |es| && Names(es[i], user, d) && es[i].now == seen[d];
        assert Names(all[i], user, d);
      }
    }
  }

  lemma {:induction false} RemembersRun(s: map<User, Seen>, past: seq<Event>, es: seq<Event>, user: User, now: int)
    requires Remembers(SeenBy(s, user), past, user, now) && Clocked(es, now)
    ensures var last := if es == [] then now else es[|es| - 1].now;
      Remembers(SeenBy(After(s, es), user), past + es, user, last)
    decreases |es|
  {
    if es == [] {
      assert past + es == past;
    } else {
      RemembersStep(s, past, es[0], user, now);
      RemembersRun(Next(s, es[0]), past + [es[0]], es[1..], user, es[0].now);
      assert past + [es[0]] + es[1..] == past + es;
    }
  }

  /**
   * From a new object and with a clock that does not go back, an admission under a limit passes if and only if the
   * distinct devices the user's recorded events have named in the last 300 seconds, this one included, are no more than
   * the limit.  Rejected attempts and closing reports count.
   */
  lemma AdmittedIff(es: seq<Event>, e: Event, from: int)
    requires Clocked(es + [e], from) && e.Admit? && e.limit > 0
    ensures Admitted(After(map[], es), e) <==> |Recent(es + [e], e.user, e.now)| <= e.limit
  {
    ClockedPrefix(es, e, from);
    RemembersRun(map[], [], es, e.user, from);
    assert [] + es == es;
    var last := if es == [] then from else es[|es| - 1].now;
    RemembersStep(After(map[], es), es, e, e.user, last);
    RememberedAreRecent(SeenBy(Next(After(map[], es), e), e.user), es + [e], e.user, e.now);
  }

  /** Once pruned, the recorded devices are the recent ones. */
  lemma RememberedAreRecent(seen: Seen, es: seq<Event>, user: User, now: int)
    requires Remembers(seen, es, user, now) && forall d :: d in seen ==> now - seen[d] <= 300_000
    ensures |seen| == |Recent(es, user, now)|
  {
    forall d | d in seen.Keys ensures d in Recent(es, user, now) {
      var i :| 0 <= i < |es| && Names(es[i], user, d) && es[i].now == seen[d];
    }
    assert seen.Keys == Recent(es, user, now) && |seen| == |seen.Keys|;
  }

  lemma {:induction false} ClockedPrefix(es: seq<Event>, e: Event, from: int)
    requires Clocked(es + [e], from)
    ensures Clocked(es, from) && (if es == [] then from else es[|es| - 1].now) <= e.now
    decreases |es|
  {
    if es != [] {
      assert (es + [e])[1..] == es[1..] + [e];
      ClockedPrefix(es[1..], e, es[0].now);
    } else {
      assert (es + [e])[0] == e;
    }
  }

  /** The object: its `devices` map and the loop that prunes it. */
  class Gate {
    var devices: map<User, Seen>

    constructor ()
      ensures devices == map[]
    {
      devices := map[];
    }

    method TouchDevice(user: User, device: Device, now: int)
      modifies this
      ensures devices == old(devices)[user := Touch(SeenBy(old(devices), user), device, now)]
    {
      var all := (if user in devices then devices[user] else map[])[device := now];
      var kept, todo := all, all.Keys;
      while todo != {}
        invariant todo <= all.Keys
        invariant kept == map d | d in all && (d in todo || now - all[d] <= LIFETIME) :: all[d]
        decreases todo
      {
        var d :| d in todo;
        if now - all[d] > LIFETIME { kept := kept - {d}; }
        todo := todo - {d};
      }
      assert kept == Touch(SeenBy(devices, user), device, now);
      devices := devices[user := kept];
    }

    method Admit(user: User, device: Device, limit: nat, now: int) returns (ok: bool)
      modifies this
      ensures devices == Next(old(devices), Event.Admit(user, device, limit, now))
      ensures ok == Admitted(old(devices), Event.Admit(user, device, limit, now))
    {
      if limit == 0 { return true; }
      TouchDevice(user, device, now);
      ok := |devices[user]| <= limit;
    }
  }
}
