/**
 * User profile records, the one write this handler makes to them (`updateUserTier`)
 * and the status read.
 */
module Profiles {
  import opened Wrappers
  import opened Plans
  import opened Tiers

  /** The attributes of a profile record this handler reads or writes. */
  datatype Profile = Profile(
    email: Option<string>,
    tier: Option<string>,
    stripeSubscriptionId: Option<string>,
    stripeCustomerId: Option<string>,
    updatedAt: Option<string>)

  /** The table's composite key of a user's profile record. */
  datatype Key = Key(pk: string, sk: string)

  const USER_PREFIX: string := "USER#"
  const PROFILE_SK: string := "PROFILE"

  function ProfileKey(userId: string): (k: Key)
    ensures k.sk == PROFILE_SK
    ensures |k.pk| == |USER_PREFIX| + |userId| && k.pk[..|USER_PREFIX|] == USER_PREFIX
    ensures k.pk[|USER_PREFIX|..] == userId
  {
    Key(USER_PREFIX + userId, PROFILE_SK)
  }

  /** Distinct users have distinct keys, so the table may be indexed by user id. */
  lemma ProfileKeyInjective(a: string, b: string)
    requires ProfileKey(a) == ProfileKey(b)
    ensures a == b
  {
  }

  /** The profile table, indexed by user id (the record at `ProfileKey(userId)`). */
  type Users = map<string, Profile>

  /** One call of `updateUserTier(userId, tier, subscriptionId)`. */
  datatype TierWrite = TierWrite(userId: string, tier: string, subscriptionId: Option<string>)

  /**
   * The state after `updateUserTier`: an unconditional update of three attributes on
   * one record, which creates the record when it does not exist yet.
   */
  function ApplyWrite(users: Users, w: TierWrite, now: string): (r: Users)
    ensures r.Keys == users.Keys + {w.userId}
    ensures r[w.userId].tier == Some(w.tier)
    ensures r[w.userId].stripeSubscriptionId == w.subscriptionId
    ensures r[w.userId].updatedAt == Some(now)
    ensures w.userId in users ==>
              r[w.userId].email == users[w.userId].email
              && r[w.userId].stripeCustomerId == users[w.userId].stripeCustomerId
    ensures w.userId !in users ==>
              r[w.userId].email == None && r[w.userId].stripeCustomerId == None
    ensures forall u :: u in users && u != w.userId ==> r[u] == users[u]
  {
    var before := if w.userId in users then users[w.userId] else Profile(None, None, None, None, None);
    users[w.userId := before.(tier := Some(w.tier), stripeSubscriptionId := w.subscriptionId, updatedAt := Some(now))]
  }

  /** Repeating a write gives the state of writing once, at the later time. */
  lemma ApplyWriteIdempotent(users: Users, w: TierWrite, t1: string, t2: string)
    ensures ApplyWrite(ApplyWrite(users, w, t1), w, t2) == ApplyWrite(users, w, t2)
  {
  }

  /** Two writes to different users commute. */
  lemma ApplyWriteCommutes(users: Users, w1: TierWrite, t1: string, w2: TierWrite, t2: string)
    requires w1.userId != w2.userId
    ensures ApplyWrite(ApplyWrite(users, w1, t1), w2, t2) == ApplyWrite(ApplyWrite(users, w2, t2), w1, t1)
  {
    var a := ApplyWrite(ApplyWrite(users, w1, t1), w2, t2);
    var b := ApplyWrite(ApplyWrite(users, w2, t2), w1, t1);
    assert a.Keys == b.Keys;
    assert forall u :: u in a ==> a[u] == b[u];
  }

  /** The body of a successful status response. */
  datatype Status = Status(tier: string, subscriptionId: Option<string>, limits: Limits)

  /**
   * The status read: the stored tier (free when the record or the tier is missing or
   * empty), the stored subscription id (null when missing or empty) and the limits
   * that belong to the reported tier.
   */
  function StatusOf(users: Users, userId: string): (s: Status)
    ensures userId !in users ==> s == Status(FREE, None, LimitsFor(Some(FREE)))
    ensures userId in users && Truthy(users[userId].tier) ==> s.tier == users[userId].tier.value
    ensures userId in users && !Truthy(users[userId].tier) ==> s.tier == FREE
    ensures userId in users && Truthy(users[userId].stripeSubscriptionId) ==>
              s.subscriptionId == users[userId].stripeSubscriptionId
    ensures userId in users && !Truthy(users[userId].stripeSubscriptionId) ==> s.subscriptionId == None
    ensures s.tier != ""
    ensures s.limits == LimitsFor(Some(s.tier))
  {
    var user := Field(users, userId);
    var tier := if user.Some? then user.value.tier else None;
    var subscriptionId := if user.Some? then user.value.stripeSubscriptionId else None;
    Status(OrElse(tier, FREE), OrNull(subscriptionId), LimitsFor(tier))
  }

  /** Right after a write, the status read reports the written tier and subscription id. */
  lemma StatusAfterWrite(users: Users, w: TierWrite, now: string)
    requires w.tier != ""
    requires w.subscriptionId == None || Truthy(w.subscriptionId)
    ensures StatusOf(ApplyWrite(users, w, now), w.userId) == Status(w.tier, w.subscriptionId, LimitsFor(Some(w.tier)))
  {
  }

  /** An empty subscription id written by a write reads back as null. */
  lemma EmptySubscriptionReadsAsNull(users: Users, userId: string, tier: string, now: string)
    ensures StatusOf(ApplyWrite(users, TierWrite(userId, tier, Some("")), now), userId).subscriptionId == None
  {
  }
}
