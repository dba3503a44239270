/**
 * The backend's user entitlement rules: users are created with a seven-day
 * trial on their first Google sign-in, the trial is switched off lazily on a
 * later login, subscription fields are merged in from the payment side, and
 * access is granted by an unexpired active subscription or trial.
 *
 * The Mongoose `User` collection is an in-memory map from document id to
 * user, with the unique index on `googleId` kept beside it; `findOne`,
 * `findById` and `save` are reads and writes of these maps. The clock
 * readings of one call are the one explicit parameter `now` (milliseconds).
 */
module Auth {
  import opened Days

  type UserId = nat

  /** The verified profile fields a Google identity token yields. */
  datatype GoogleProfile = GoogleProfile(
    googleId: string,
    email: string,
    name: string,
    picture: Option<string>)

  /** The `subscription` sub-document; its dates are absent until the payment side sets them. */
  datatype Subscription = Subscription(
    isActive: bool,
    planId: Option<string>,
    planName: Option<string>,
    stripeCustomerId: Option<string>,
    stripeSubscriptionId: Option<string>,
    startDate: Option<int>,
    endDate: Option<int>)

  /** The sub-document a new user gets from the schema defaults. */
  const DefaultSubscription: Subscription :=
    Subscription(false, None, None, None, None, None, None)

  datatype User = User(
    id: UserId,
    googleId: string,
    email: string,
    name: string,
    picture: Option<string>,
    trialStartDate: int,
    trialEndDate: int,
    isTrialActive: bool,
    subscription: Subscription,
    createdAt: int,
    lastLogin: int)

  datatype AuthError =
    | InvalidProfile   // a `required` string field is empty
    | DuplicateEmail   // the unique index on `email` refuses the new document
    | UserNotFound

  datatype Result<T> = Ok(value: T) | Err(error: AuthError)

  /** One field of a partial update object: absent, or present with a value. */
  datatype Field<T> = Keep | Set(value: T)

  /** The `subscriptionData` object passed to `updateUserSubscription`. */
  datatype SubscriptionPatch = SubscriptionPatch(
    isActive: Field<bool>,
    planId: Field<Option<string>>,
    planName: Field<Option<string>>,
    stripeCustomerId: Field<Option<string>>,
    stripeSubscriptionId: Field<Option<string>>,
    startDate: Field<Option<int>>,
    endDate: Field<Option<int>>)

  const EmptyPatch: SubscriptionPatch :=
    SubscriptionPatch(Keep, Keep, Keep, Keep, Keep, Keep, Keep)

  /** Mongoose's `required` validator refuses an empty string. */
  predicate ProfileComplete(p: GoogleProfile)
    ensures p.googleId == "" || p.email == "" || p.name == "" ==> !ProfileComplete(p)
    ensures ProfileComplete(p) ==> |p.googleId| > 0 && |p.email| > 0 && |p.name| > 0
  {
    p.googleId != "" && p.email != "" && p.name != ""
  }

  /** The document a first sign-in creates: a trial running for seven days from `now`. */
  function NewUser(id: UserId, p: GoogleProfile, now: int): (u: User)
    ensures u.id == id && u.googleId == p.googleId && u.email == p.email
    ensures u.name == p.name && u.picture == p.picture
    ensures u.trialStartDate == now && u.trialEndDate == now + WEEK_MS && u.isTrialActive
    ensures !u.subscription.isActive && u.subscription == DefaultSubscription
    ensures u.createdAt == now && u.lastLogin == now
  {
    User(id, p.googleId, p.email, p.name, p.picture,
         now, now + WEEK_MS, true, DefaultSubscription, now, now)
  }

  /**
   * What a later login does to an existing document: the login time is
   * recorded and a trial whose end lies strictly before `now` is switched
   * off. Nothing else changes.
   */
  function LoggedIn(u: User, now: int): (r: User)
    ensures r.lastLogin == now
    ensures r.isTrialActive <==> u.isTrialActive && !(u.trialEndDate < now)
    ensures r.isTrialActive ==> u.isTrialActive
    ensures r == u.(lastLogin := now, isTrialActive := r.isTrialActive)
  {
    var u1 := u.(lastLogin := now);
    if u1.isTrialActive && u1.trialEndDate < now then u1.(isTrialActive := false) else u1
  }

  /** The subscription branch of `hasActiveAccess`: an absent end date compares false. */
  predicate SubscriptionGrants(s: Subscription, now: int)
    ensures !s.isActive || s.endDate.None? ==> !SubscriptionGrants(s, now)
    ensures SubscriptionGrants(s, now) ==> s.endDate.Some? && now < s.endDate.value
  {
    s.isActive && s.endDate.Some? && s.endDate.value > now
  }

  /** The trial branch of `hasActiveAccess`. */
  predicate TrialGrants(u: User, now: int)
    ensures !u.isTrialActive || u.trialEndDate <= now ==> !TrialGrants(u, now)
    ensures TrialGrants(u, now) ==> now < u.trialEndDate
  {
    u.isTrialActive && u.trialEndDate > now
  }

  /** `hasActiveAccess` for a user that exists. */
  predicate HasAccess(u: User, now: int)
    ensures !u.subscription.isActive && !u.isTrialActive ==> !HasAccess(u, now)
    ensures HasAccess(u, now) ==>
      now < u.trialEndDate || (u.subscription.endDate.Some? && now < u.subscription.endDate.value)
  {
    SubscriptionGrants(u.subscription, now) || TrialGrants(u, now)
  }

  /** One field of `{...prev, ...patch}`. */
  function Override<T>(f: Field<T>, prev: T): (r: T)
    ensures f.Set? ==> r == f.value
    ensures f.Keep? ==> r == prev
  {
    match f
    case Keep => prev
    case Set(v) => v
  }

  /** `{...user.subscription, ...subscriptionData}`: the shallow merge. */
  function MergeSubscription(s: Subscription, p: SubscriptionPatch): (r: Subscription)
    ensures r.isActive == Override(p.isActive, s.isActive)
    ensures r.planId == Override(p.planId, s.planId)
    ensures r.planName == Override(p.planName, s.planName)
    ensures r.stripeCustomerId == Override(p.stripeCustomerId, s.stripeCustomerId)
    ensures r.stripeSubscriptionId == Override(p.stripeSubscriptionId, s.stripeSubscriptionId)
    ensures r.startDate == Override(p.startDate, s.startDate)
    ensures r.endDate == Override(p.endDate, s.endDate)
  {
    Subscription(
      Override(p.isActive, s.isActive),
      Override(p.planId, s.planId),
      Override(p.planName, s.planName),
      Override(p.stripeCustomerId, s.stripeCustomerId),
      Override(p.stripeSubscriptionId, s.stripeSubscriptionId),
      Override(p.startDate, s.startDate),
      Override(p.endDate, s.endDate))
  }

  /** One field of `{...p, ...q}`: the later object wins where it has the field. */
  function Later<T>(f: Field<T>, g: Field<T>): (h: Field<T>) {
    if g.Set? then g else f
  }

  /** `{...p, ...q}`: two update objects spread one after the other. */
  function ThenPatch(p: SubscriptionPatch, q: SubscriptionPatch): (pq: SubscriptionPatch) {
    SubscriptionPatch(
      Later(p.isActive, q.isActive),
      Later(p.planId, q.planId),
      Later(p.planName, q.planName),
      Later(p.stripeCustomerId, q.stripeCustomerId),
      Later(p.stripeSubscriptionId, q.stripeSubscriptionId),
      Later(p.startDate, q.startDate),
      Later(p.endDate, q.endDate))
  }

  /** An update with no fields leaves the subscription as it was. */
  lemma MergeEmpty(s: Subscription)
    ensures MergeSubscription(s, EmptyPatch) == s
  {
  }

  /** Two updates in a row are one update with both objects spread in order. */
  lemma MergeCompose(s: Subscription, p: SubscriptionPatch, q: SubscriptionPatch)
    ensures MergeSubscription(MergeSubscription(s, p), q) == MergeSubscription(s, ThenPatch(p, q))
  {
  }

  /** Applying the same update twice is applying it once. */
  lemma MergeIdempotent(s: Subscription, p: SubscriptionPatch)
    ensures MergeSubscription(MergeSubscription(s, p), p) == MergeSubscription(s, p)
  {
    MergeCompose(s, p, p);
    assert ThenPatch(p, p) == p;
  }

  /** For a fixed user record, access that holds at `t` holds at every earlier instant. */
  lemma AccessAntitone(u: User, t: int, t': int)
    requires t' <= t && HasAccess(u, t)
    ensures HasAccess(u, t')
  {
  }

  /** Login's lazy expiry never changes the access verdict at the same instant. */
  lemma LoginKeepsAccess(u: User, now: int)
    ensures HasAccess(LoggedIn(u, now), now) == HasAccess(u, now)
  {
  }

  /** Logging in twice at the same instant is logging in once. */
  lemma LoginIdempotent(u: User, now: int)
    ensures LoggedIn(LoggedIn(u, now), now) == LoggedIn(u, now)
  {
  }

  /**
   * At the very instant a trial ends, login (`trialEndDate < now`) leaves it
   * marked active, while access (`trialEndDate > now`) no longer counts it.
   */
  lemma LoginBoundary(u: User)
    requires u.isTrialActive
    ensures LoggedIn(u, u.trialEndDate).isTrialActive
    ensures !TrialGrants(LoggedIn(u, u.trialEndDate), u.trialEndDate)
  {
  }

  /** The document after a sequence of logins at the given instants, in order. */
  function LoginsAt(u: User, times: seq<int>): (v: User)
    decreases |times|
  {
    if times == [] then u else LoginsAt(LoggedIn(u, times[0]), times[1..])
  }

  /**
   * However many logins follow, the trial stays on exactly when it was on and
   * no login came strictly after its end; the trial dates and the
   * subscription never change, so a switched-off trial is never switched on.
   */
  lemma {:induction false} LoginsNeverReactivate(u: User, times: seq<int>)
    ensures var v := LoginsAt(u, times);
      && (v.isTrialActive <==>
            u.isTrialActive && forall i :: 0 <= i < |times| ==> times[i] <= u.trialEndDate)
      && v.trialStartDate == u.trialStartDate && v.trialEndDate == u.trialEndDate
      && v.subscription == u.subscription
    decreases |times|
  {
    if times != [] {
      var u' := LoggedIn(u, times[0]);
      LoginsNeverReactivate(u', times[1..]);
      assert forall i :: 0 <= i < |times[1..]| ==> times[1..][i] == times[i + 1];
    }
  }

  /** A user created at `t` has access exactly until `t + 7 days`. */
  lemma NewUserAccessForAWeek(id: UserId, p: GoogleProfile, t: int, now: int)
    ensures HasAccess(NewUser(id, p, t), now) <==> now < t + WEEK_MS
  {
  }

  /** An update that activates a subscription ending after `now` grants access, whatever the trial. */
  lemma PaidUpdateGrantsAccess(u: User, p: SubscriptionPatch, e: int, now: int)
    requires p.isActive == Set(true) && p.endDate == Set(Some(e)) && e > now
    ensures HasAccess(u.(subscription := MergeSubscription(u.subscription, p)), now)
  {
  }

  /**
   * The state of the `User` collection: the `googleId` index names every
   * document by its `googleId` and nothing else; documents are stored under
   * their own id, below the next id to hand out; required fields are
   * non-empty; e-mail addresses are unique; every trial lasts exactly a week.
   */
  ghost predicate Indexed(users: map<UserId, User>, byGoogleId: map<string, UserId>, nextId: UserId) {
    && (forall g :: g in byGoogleId ==>
          byGoogleId[g] in users && users[byGoogleId[g]].googleId == g)
    && (forall k :: k in users ==>
          && k < nextId
          && users[k].id == k
          && users[k].googleId in byGoogleId
          && byGoogleId[users[k].googleId] == k
          && users[k].googleId != "" && users[k].email != "" && users[k].name != ""
          && users[k].trialEndDate == users[k].trialStartDate + WEEK_MS)
    && (forall i, j :: i in users && j in users && i != j ==> users[i].email != users[j].email)
  }

  /** Rewriting a document without touching its identity, e-mail or trial dates keeps the collection indexed. */
  lemma ReplaceKeepsIndexed(users: map<UserId, User>, byGoogleId: map<string, UserId>, nextId: UserId,
                            k: UserId, u: User)
    requires Indexed(users, byGoogleId, nextId) && k in users
    requires u.id == k && u.googleId == users[k].googleId && u.email == users[k].email
    requires u.name == users[k].name
    requires u.trialStartDate == users[k].trialStartDate && u.trialEndDate == users[k].trialEndDate
    ensures Indexed(users[k := u], byGoogleId, nextId)
  {
    var users' := users[k := u];
    forall i, j | i in users' && j in users' && i != j
      ensures users'[i].email != users'[j].email
    {
      assert users'[i].email == users[i].email && users'[j].email == users[j].email;
    }
  }

  /** Adding a complete document under the next id, with an unused `googleId` and e-mail, keeps the collection indexed. */
  lemma InsertKeepsIndexed(users: map<UserId, User>, byGoogleId: map<string, UserId>, nextId: UserId, u: User)
    requires Indexed(users, byGoogleId, nextId)
    requires u.id == nextId && u.googleId !in byGoogleId
    requires u.googleId != "" && u.email != "" && u.name != ""
    requires u.trialEndDate == u.trialStartDate + WEEK_MS
    requires forall k :: k in users ==> users[k].email != u.email
    ensures nextId !in users
    ensures Indexed(users[nextId := u], byGoogleId[u.googleId := nextId], nextId + 1)
  {
    var users', byGoogleId' := users[nextId := u], byGoogleId[u.googleId := nextId];
    forall i, j | i in users' && j in users' && i != j
      ensures users'[i].email != users'[j].email
    {
      if i != nextId && j != nextId {
        assert users'[i] == users[i] && users'[j] == users[j];
      }
    }
  }

  /** The `User` collection with its unique indexes. */
  class UserStore {
    var users: map<UserId, User>
    var byGoogleId: map<string, UserId>
    var nextId: UserId

    ghost predicate Valid()
      reads this
    {
      Indexed(users, byGoogleId, nextId)
    }

    constructor ()
      ensures Valid() && users == map[] && byGoogleId == map[]
    {
      users, byGoogleId, nextId := map[], map[], 0;
    }

    /**
     * `createOrUpdateUser`: a known `googleId` logs in; an unknown one gets a
     * new document with a fresh trial, unless a required field is empty or its
     * e-mail address is already taken.
     */
    method CreateOrUpdateUser(p: GoogleProfile, now: int) returns (r: Result<User>)
      requires Valid()
      modifies this
      ensures Valid()
      ensures p.googleId in old(byGoogleId) ==>
        var id := old(byGoogleId[p.googleId]);
        && users == old(users)[id := LoggedIn(old(users[id]), now)]
        && r == Ok(users[id])
        && byGoogleId == old(byGoogleId) && nextId == old(nextId)
      ensures p.googleId !in old(byGoogleId) && !ProfileComplete(p) ==>
        && r == Err(InvalidProfile)
        && users == old(users) && byGoogleId == old(byGoogleId) && nextId == old(nextId)
      ensures p.googleId !in old(byGoogleId) && ProfileComplete(p)
              && (exists k :: k in old(users) && old(users[k]).email == p.email) ==>
        && r == Err(DuplicateEmail)
        && users == old(users) && byGoogleId == old(byGoogleId) && nextId == old(nextId)
      ensures p.googleId !in old(byGoogleId) && ProfileComplete(p)
              && !(exists k :: k in old(users) && old(users[k]).email == p.email) ==>
        && r == Ok(NewUser(old(nextId), p, now))
        && old(nextId) !in old(users)
        && users == old(users)[old(nextId) := NewUser(old(nextId), p, now)]
        && byGoogleId == old(byGoogleId)[p.googleId := old(nextId)]
    {
      if p.googleId in byGoogleId {
        var id := byGoogleId[p.googleId];
        var user := users[id];
        user := user.(lastLogin := now);
        if user.isTrialActive && user.trialEndDate < now {
          user := user.(isTrialActive := false);
        }
        ReplaceKeepsIndexed(users, byGoogleId, nextId, id, user);
        users := users[id := user];
        return Ok(user);
      }
      if !ProfileComplete(p) {
        return Err(InvalidProfile);
      }
      if exists k :: k in users && users[k].email == p.email {
        return Err(DuplicateEmail);
      }
      var user := NewUser(nextId, p, now);
      InsertKeepsIndexed(users, byGoogleId, nextId, user);
      users := users[nextId := user];
      byGoogleId := byGoogleId[p.googleId := nextId];
      nextId := nextId + 1;
      return Ok(user);
    }

    /** `getUserById`. */
    method GetUserById(id: UserId) returns (u: Option<User>)
      requires Valid()
      ensures u.Some? <==> id in users
      ensures u.Some? ==> u.value == users[id] && u.value.id == id
    {
      if id in users {
        return Some(users[id]);
      }
      return None;
    }

    /**
     * `updateUserSubscription`: the update's fields override the stored
     * subscription's, nothing else of any user changes; an unknown id fails.
     */
    method UpdateUserSubscription(id: UserId, patch: SubscriptionPatch) returns (r: Result<User>)
      requires Valid()
      modifies this
      ensures Valid()
      ensures byGoogleId == old(byGoogleId) && nextId == old(nextId)
      ensures id !in old(users) ==> r == Err(UserNotFound) && users == old(users)
      ensures id in old(users) ==>
        && users == old(users)[id := old(users[id]).(subscription :=
                                        MergeSubscription(old(users[id]).subscription, patch))]
        && r == Ok(users[id])
    {
      if id !in users {
        return Err(UserNotFound);
      }
      var user := users[id];
      user := user.(subscription := MergeSubscription(user.subscription, patch));
      ReplaceKeepsIndexed(users, byGoogleId, nextId, id, user);
      users := users[id := user];
      return Ok(user);
    }

    /** `hasActiveAccess`: an unknown id has no access; nothing is written. */
    method HasActiveAccess(id: UserId, now: int) returns (access: bool)
      ensures access <==>
        id in users
        && ((users[id].subscription.isActive
             && users[id].subscription.endDate.Some?
             && users[id].subscription.endDate.value > now)
            || (users[id].isTrialActive && users[id].trialEndDate > now))
      ensures access <==> id in users && HasAccess(users[id], now)
    {
      if id !in users {
        return false;
      }
      var user := users[id];
      if user.subscription.isActive && user.subscription.endDate.Some?
         && user.subscription.endDate.value > now {
        return true;
      }
      if user.isTrialActive && user.trialEndDate > now {
        return true;
      }
      return false;
    }
  }
}
