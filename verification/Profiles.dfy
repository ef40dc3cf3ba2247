/** Which profile is active: the state that a fence closes and an activation opens again. */
module Profiles {
  import opened Types
  import opened Conditions

  /** A binding list that `Configure` accepts: well-formed, with one profile per subject and
      name, and one per subject and user. */
  predicate WellFormed(b: Binding) {
    Identifier(b.subject) && Identifier(b.profile) && |b.user| < 20 && (b.user != "" ==> Identifier(b.user))
  }

  predicate Distinct(bindings: seq<Binding>) {
    forall i, j :: 0 <= i < j < |bindings| ==>
      && (bindings[i].subject, bindings[i].profile) != (bindings[j].subject, bindings[j].profile)
      && (bindings[i].subject, bindings[i].user) != (bindings[j].subject, bindings[j].user)
  }

  predicate Acceptable(bindings: seq<Binding>) {
    && 1 <= |bindings| <= 64
    && (forall i :: 0 <= i < |bindings| ==> WellFormed(bindings[i]))
    && Distinct(bindings)
  }

  predicate Known(bindings: seq<Binding>, user: string) {
    exists i :: 0 <= i < |bindings| && bindings[i].user == user
  }

  predicate Bound(bindings: seq<Binding>, subject: string, profile: string) {
    exists i :: 0 <= i < |bindings| && bindings[i].subject == subject && bindings[i].profile == profile
  }

  /** The profile of `subject` belongs to `user`. */
  predicate Owns(bindings: seq<Binding>, subject: string, profile: string, user: string) {
    exists i :: 0 <= i < |bindings| && bindings[i] == Binding(subject, user, profile)
  }

  /** What `Check` answers: the status it refuses with, or nothing. */
  function Refusal(enabled: bool, ready: bool, active: string, bindings: seq<Binding>, subject: string,
                   profile: string): Option<Status> {
    if !enabled then None
    else if !Bound(bindings, subject, profile) then Some(EACCES)
    else if !ready then Some(EBUSY)
    else if Owns(bindings, subject, profile, active) then None
    else Some(EACCES)
  }

  function ProfilesOf(bindings: seq<Binding>): set<(string, string)> {
    set i | 0 <= i < |bindings| :: (bindings[i].subject, bindings[i].profile)
  }

  function UsersOf(bindings: seq<Binding>): set<(string, string)> {
    set i | 0 <= i < |bindings| :: (bindings[i].subject, bindings[i].user)
  }

  lemma NothingBound(list: seq<Binding>)
    ensures Distinct(list[..0]) && ProfilesOf(list[..0]) == {} && UsersOf(list[..0]) == {}
  {
  }

  /** One more binding is admissible exactly when neither pair was seen before. */
  lemma OneMore(list: seq<Binding>, i: nat)
    requires i < |list| && Distinct(list[..i])
    ensures var b := list[i];
            && ProfilesOf(list[..i + 1]) == ProfilesOf(list[..i]) + {(b.subject, b.profile)}
            && UsersOf(list[..i + 1]) == UsersOf(list[..i]) + {(b.subject, b.user)}
            && (if (b.subject, b.profile) in ProfilesOf(list[..i]) || (b.subject, b.user) in UsersOf(list[..i])
                then !Distinct(list) else Distinct(list[..i + 1]))
  {
    var b, s, t := list[i], list[..i], list[..i + 1];
    assert t == s + [b];
    if (b.subject, b.profile) in ProfilesOf(s) {
      var k :| 0 <= k < i && (s[k].subject, s[k].profile) == (b.subject, b.profile);
      assert (list[k].subject, list[k].profile) == (list[i].subject, list[i].profile);
    } else if (b.subject, b.user) in UsersOf(s) {
      var k :| 0 <= k < i && (s[k].subject, s[k].user) == (b.subject, b.user);
      assert (list[k].subject, list[k].user) == (list[i].subject, list[i].user);
    } else {
      forall k | 0 <= k < i
        ensures (t[k].subject, t[k].profile) != (t[i].subject, t[i].profile)
                && (t[k].subject, t[k].user) != (t[i].subject, t[i].user)
      {
        assert t[k] == s[k];
        assert (s[k].subject, s[k].profile) in ProfilesOf(s) && (s[k].subject, s[k].user) in UsersOf(s);
      }
    }
    SetsGrow(s, b);
  }

  lemma SetsGrow(s: seq<Binding>, b: Binding)
    ensures ProfilesOf(s + [b]) == ProfilesOf(s) + {(b.subject, b.profile)}
    ensures UsersOf(s + [b]) == UsersOf(s) + {(b.subject, b.user)}
  {
    var t := s + [b];
    forall i | 0 <= i < |s| ensures t[i] == s[i] {
    }
    assert t[|s|] == b;
    forall x | x in ProfilesOf(s) ensures x in ProfilesOf(t) {
      var i :| 0 <= i < |s| && (s[i].subject, s[i].profile) == x;
      assert t[i] == s[i];
    }
    forall x | x in UsersOf(s) ensures x in UsersOf(t) {
      var i :| 0 <= i < |s| && (s[i].subject, s[i].user) == x;
      assert t[i] == s[i];
    }
  }

  class ProfileState {
    var enabled: bool
    var bindings: seq<Binding>
    var generation: nat
    var ready: bool
    var active: string

    ghost predicate Valid()
      reads this
    {
      (enabled ==> Acceptable(bindings)) && (!enabled ==> bindings == [])
      && (ready ==> enabled && Known(bindings, active))
    }

    constructor ()
      ensures Valid() && !enabled && !ready && generation == 0
    {
      enabled, bindings, generation, ready, active := false, [], 0, false, "";
    }

    /** Takes the bindings once; refuses lists with repeated or malformed entries. */
    method Configure(list: seq<Binding>) returns (ok: bool)
      requires Valid()
      modifies this
      ensures Valid()
      ensures ok <==> !old(enabled) && Acceptable(list)
      ensures ok ==> enabled && bindings == list && generation == old(generation) + 1
      ensures !ok ==> enabled == old(enabled) && bindings == old(bindings) && generation == old(generation)
      ensures ready == old(ready) && active == old(active)
    {
      if enabled || list == [] || |list| > 64 { return false; }
      hide WellFormed, Distinct, ProfilesOf, UsersOf;
      var profiles: set<(string, string)> := {};
      var users: set<(string, string)> := {};
      NothingBound(list);
      for i := 0 to |list|
        invariant unchanged(this)
        invariant forall k :: 0 <= k < i ==> WellFormed(list[k])
        invariant Distinct(list[..i]) && profiles == ProfilesOf(list[..i]) && users == UsersOf(list[..i])
      {
        var b := list[i];
        OneMore(list, i);
        if !WellFormed(b) || (b.subject, b.profile) in profiles || (b.subject, b.user) in users { return false; }
        profiles := profiles + {(b.subject, b.profile)};
        users := users + {(b.subject, b.user)};
      }
      assert list[..|list|] == list;
      bindings, enabled, generation := list, true, generation + 1;
      return true;
    }

    method Fence() returns (fenced: nat)
      requires Valid()
      modifies this`ready, this`generation
      ensures Valid() && !ready && fenced == generation == old(generation) + 1
    {
      ready := false;
      generation := generation + 1;
      return generation;
    }

    /** Takes effect only in the generation it was prepared for. */
    method Activate(prepared: nat, user: string) returns (ok: bool)
      requires Valid()
      modifies this`ready, this`active
      ensures Valid()
      ensures ok <==> enabled && prepared == generation && Known(bindings, user)
      ensures ok ==> ready && active == user
      ensures !ok ==> ready == old(ready) && active == old(active)
    {
      if !enabled || prepared != generation { return false; }
      var known := false;
      for i := 0 to |bindings|
        invariant known <==> exists k :: 0 <= k < i && bindings[k].user == user
      {
        known := known || bindings[i].user == user;
      }
      if !known { return false; }
      active, ready := user, true;
      return true;
    }

    method Check(subject: string, profile: string) returns (refusal: Option<Status>)
      requires Valid()
      ensures refusal == Refusal(enabled, ready, active, bindings, subject, profile)
    {
      if !enabled { return None; }
      for i := 0 to |bindings|
        invariant forall k :: 0 <= k < i ==> !(bindings[k].subject == subject && bindings[k].profile == profile)
      {
        var b := bindings[i];
        if b.subject == subject && b.profile == profile {
          if !ready { return Some(EBUSY); }
          return if b.user == active then None else Some(EACCES);
        }
      }
      return Some(EACCES);
    }
  }
}
