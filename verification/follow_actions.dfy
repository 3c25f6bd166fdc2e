/**
 * The follow-graph action creators of the client: a table of twelve action
 * types and four thunks (load followers, load following, follow, unfollow).
 *
 * A thunk talks to four collaborators: the store's `dispatch`, `notify`, the
 * remote API and the session (`getState().authUser`, `localStorage`). Here the
 * store, the notifier and the API are three append-only logs held by a
 * `FollowCoordinator`; the remote settlement and the session values are
 * inputs of each call. Each invocation runs to completion before the next.
 */
module FollowActions {
  import opened Wrappers
  import Js

  /** The four operations of the follow graph. */
  datatype Op = FollowerLoad | FollowingLoad | Follow | Unfollow

  /** The phases of one invocation: started, then settled one of two ways. */
  datatype Phase = Init | Done | Error

  /** The `actionTypes` table: the action type of each operation and phase. */
  function Tag(op: Op, phase: Phase): string {
    match op
    case FollowerLoad =>
      (match phase
       case Init => "FOLLOW.FOLLOWER.LOAD.INIT"
       case Done => "FOLLOW.FOLLOWER.LOAD.DONE"
       case Error => "FOLLOW.FOLLOWER.LOAD.ERROR")
    case FollowingLoad =>
      (match phase
       case Init => "FOLLOW.FOLLOWING.LOAD.INIT"
       case Done => "FOLLOW.FOLLOWING.LOAD.DONE"
       case Error => "FOLLOW.FOLLOWING.LOAD.ERROR")
    case Follow =>
      (match phase
       case Init => "FOLLOW.FOLLOW.INIT"
       case Done => "FOLLOW.FOLLOW.DONE"
       case Error => "FOLLOW.FOLLOW.ERROR")
    case Unfollow =>
      (match phase
       case Init => "FOLLOW.UNFOLLOW.INIT"
       case Done => "FOLLOW.UNFOLLOW.DONE"
       case Error => "FOLLOW.UNFOLLOW.ERROR")
  }

  /** What a reducer recognises: the operation and phase of an action type, if any. */
  function ParseTag(s: string): Option<(Op, Phase)> {
    if s == "FOLLOW.FOLLOWER.LOAD.INIT" then Some((FollowerLoad, Init))
    else if s == "FOLLOW.FOLLOWER.LOAD.DONE" then Some((FollowerLoad, Done))
    else if s == "FOLLOW.FOLLOWER.LOAD.ERROR" then Some((FollowerLoad, Error))
    else if s == "FOLLOW.FOLLOWING.LOAD.INIT" then Some((FollowingLoad, Init))
    else if s == "FOLLOW.FOLLOWING.LOAD.DONE" then Some((FollowingLoad, Done))
    else if s == "FOLLOW.FOLLOWING.LOAD.ERROR" then Some((FollowingLoad, Error))
    else if s == "FOLLOW.FOLLOW.INIT" then Some((Follow, Init))
    else if s == "FOLLOW.FOLLOW.DONE" then Some((Follow, Done))
    else if s == "FOLLOW.FOLLOW.ERROR" then Some((Follow, Error))
    else if s == "FOLLOW.UNFOLLOW.INIT" then Some((Unfollow, Init))
    else if s == "FOLLOW.UNFOLLOW.DONE" then Some((Unfollow, Done))
    else if s == "FOLLOW.UNFOLLOW.ERROR" then Some((Unfollow, Error))
    else None
  }

  /** Every action type reads back as the operation and phase it was made for. */
  lemma TagRoundTrip(op: Op, phase: Phase)
    ensures ParseTag(Tag(op, phase)) == Some((op, phase))
  {
  }

  /** The twelve action types are pairwise distinct. */
  lemma TagsDistinct(op1: Op, phase1: Phase, op2: Op, phase2: Phase)
    ensures Tag(op1, phase1) == Tag(op2, phase2) <==> op1 == op2 && phase1 == phase2
  {
  }

  /** The opaque rejection value of a remote call. */
  datatype Reason = Reason(description: string)

  /** One entry of a followers/following list, as the remote API returns it. */
  datatype UserSummary = UserSummary(username: string)

  /**
   * A dispatched action: its type, the target `username`, and the optional
   * keys `count`, `results` and `reason` (None when the key is absent).
   */
  datatype Event = Event(
    tag: string,
    username: string,
    count: Option<int>,
    results: Option<seq<UserSummary>>,
    reason: Option<Reason>)

  /** A user-facing notification; the thunks only raise `notify.danger`. */
  datatype Notice = Danger(message: string)

  /**
   * A remote API call. `FollowOpCall` is `sc2Operations.follow(actor, target,
   * flag)`; `flag` is None when the third argument is not passed.
   */
  datatype ApiCall =
    | GetFollowersCall(username: string, count: int)
    | GetFollowingCall(username: string, count: int)
    | FollowOpCall(actor: Option<string>, target: string, flag: Option<bool>)

  /** How the promise a thunk returns settles. */
  datatype Settlement = Resolved | Rejected

  /** Everything one invocation adds to the three logs, and how it settles. */
  datatype Effects = Effects(events: seq<Event>, notices: seq<Notice>, calls: seq<ApiCall>, settled: Settlement)

  /** The default of the `count` parameter, taken when it is `undefined`. */
  const DefaultCount := 1000

  const LoginFirst := "Please login first!"
  const LogInFirst := "Please log in first!"

  predicate IsLoad(op: Op) {
    op == FollowerLoad || op == FollowingLoad
  }

  /**
   * The count a load uses: the argument, or 1000 when it is omitted. `None`
   * stands for `undefined` only; an explicit `null` is not modelled.
   */
  function EffectiveCount(count: Option<int>): int {
    match count
    case Some(c) => c
    case None => DefaultCount
  }

  /** The operation a remote call belongs to. */
  function CallOp(call: ApiCall): Op {
    match call
    case GetFollowersCall(_, _) => FollowerLoad
    case GetFollowingCall(_, _) => FollowingLoad
    case FollowOpCall(_, _, flag) => if flag == Some(true) then Unfollow else Follow
  }

  /** The effects of `getFollowers(username, count)` / `getFollowing(username, count)`. */
  function LoadEffects(op: Op, username: string, count: Option<int>,
                       response: Result<seq<UserSummary>, Reason>): Effects
    requires IsLoad(op)
  {
    var c := EffectiveCount(count);
    var call := if op == FollowerLoad then GetFollowersCall(username, c) else GetFollowingCall(username, c);
    var terminal := match response
      case Success(results) => Event(Tag(op, Done), username, Some(c), Some(results), None)
      case Failure(reason) => Event(Tag(op, Error), username, Some(c), None, Some(reason));
    Effects([Event(Tag(op, Init), username, Some(c), None, None), terminal], [], [call], Resolved)
  }

  /** The INIT and terminal action of a logged-in `follow`/`unfollow`. */
  function MutateEvents(op: Op, username: string, response: Result<(), Reason>): seq<Event> {
    var terminal := match response
      case Success(_) => Event(Tag(op, Done), username, None, None, None)
      case Failure(reason) => Event(Tag(op, Error), username, None, None, Some(reason));
    [Event(Tag(op, Init), username, None, None, None), terminal]
  }

  /**
   * The effects of `follow(username)` with `authUser.username` equal to
   * `authUser`: the checked value is also the actor.
   */
  function FollowEffects(username: string, authUser: Option<string>, response: Result<(), Reason>): Effects {
    if Js.FalsyString(authUser) then Effects([], [Danger(LoginFirst)], [], Rejected)
    else Effects(MutateEvents(Follow, username, response), [], [FollowOpCall(authUser, username, None)], Resolved)
  }

  /**
   * The effects of `unfollow(username)`: the login check reads `authUser`,
   * but the actor submitted is `stored`, the `username` item of localStorage.
   */
  function UnfollowEffects(username: string, authUser: Option<string>, stored: Option<string>,
                           response: Result<(), Reason>): Effects {
    if Js.FalsyString(authUser) then Effects([], [Danger(LogInFirst)], [], Rejected)
    else Effects(MutateEvents(Unfollow, username, response), [], [FollowOpCall(stored, username, Some(true))], Resolved)
  }

  // ---------------------------------------------------------------------------
  // Properties of one invocation

  /**
   * A load adds INIT and then exactly one terminal action: DONE with the
   * results on success, ERROR with the reason on failure. Both carry the
   * `username` and `count` of the INIT.
   */
  lemma LoadLifecycle(op: Op, username: string, count: Option<int>, response: Result<seq<UserSummary>, Reason>)
    requires IsLoad(op)
    ensures var evs := LoadEffects(op, username, count, response).events;
      && |evs| == 2
      && evs[0] == Event(Tag(op, Init), username, Some(EffectiveCount(count)), None, None)
      && (evs[1].tag == Tag(op, Done) <==> response.Success?)
      && (evs[1].tag == Tag(op, Error) <==> response.Failure?)
      && (response.Success? ==> evs[1].results == Some(response.value) && evs[1].reason == None)
      && (response.Failure? ==> evs[1].reason == Some(response.error) && evs[1].results == None)
      && evs[1].username == evs[0].username
      && evs[1].count == evs[0].count
  {
  }

  /** An omitted count is 1000 on every action and on the API call; a given one is used as is. */
  lemma LoadCount(op: Op, username: string, count: Option<int>, response: Result<seq<UserSummary>, Reason>)
    requires IsLoad(op)
    ensures var eff := LoadEffects(op, username, count, response);
      && (forall i :: 0 <= i < |eff.events| ==>
            eff.events[i].count == Some(if count.None? then 1000 else count.value))
      && eff.calls[0].count == (if count.None? then 1000 else count.value)
  {
  }

  /**
   * A load never notifies, calls the matching API method exactly once with
   * `(username, count)`, and always resolves.
   */
  lemma LoadSideEffects(op: Op, username: string, count: Option<int>, response: Result<seq<UserSummary>, Reason>)
    requires IsLoad(op)
    ensures var eff := LoadEffects(op, username, count, response);
      && eff.notices == []
      && |eff.calls| == 1
      && CallOp(eff.calls[0]) == op
      && eff.calls[0].username == username
      && eff.calls[0].count == EffectiveCount(count)
      && eff.settled == Resolved
  {
  }

  /**
   * Without a logged-in user, `follow` and `unfollow` notify once with their
   * own message, dispatch nothing, call nothing and reject.
   */
  lemma NotLoggedIn(username: string, authUser: Option<string>, stored: Option<string>, response: Result<(), Reason>)
    requires authUser == None || authUser == Some("")
    ensures FollowEffects(username, authUser, response)
         == Effects([], [Danger("Please login first!")], [], Rejected)
    ensures UnfollowEffects(username, authUser, stored, response)
         == Effects([], [Danger("Please log in first!")], [], Rejected)
  {
  }

  /**
   * A logged-in `follow` dispatches FOLLOW_INIT first and submits the follow
   * as the very user that passed the check, without the unfollow flag.
   */
  lemma FollowLoggedIn(username: string, authUser: Option<string>, response: Result<(), Reason>)
    requires authUser.Some? && authUser.value != ""
    ensures var eff := FollowEffects(username, authUser, response);
      && eff.events[0] == Event("FOLLOW.FOLLOW.INIT", username, None, None, None)
      && eff.calls == [FollowOpCall(authUser, username, None)]
      && eff.notices == []
      && eff.settled == Resolved
  {
  }

  /**
   * A logged-in `unfollow` dispatches UNFOLLOW_INIT first and submits as the
   * localStorage user with the flag `true`, whatever user passed the check.
   */
  lemma UnfollowLoggedIn(username: string, authUser: Option<string>, stored: Option<string>, response: Result<(), Reason>)
    requires authUser.Some? && authUser.value != ""
    ensures var eff := UnfollowEffects(username, authUser, stored, response);
      && eff.events[0] == Event("FOLLOW.UNFOLLOW.INIT", username, None, None, None)
      && eff.calls == [FollowOpCall(stored, username, Some(true))]
      && eff.notices == []
      && eff.settled == Resolved
  {
  }

  /**
   * Only the login check rejects: a thunk's promise is rejected exactly when
   * it is `follow`/`unfollow` with a falsy `authUser.username`; remote
   * failures resolve.
   */
  lemma OnlyLoginRejects(username: string, count: Option<int>, authUser: Option<string>, stored: Option<string>,
                         loaded: Result<seq<UserSummary>, Reason>, submitted: Result<(), Reason>)
    ensures LoadEffects(FollowerLoad, username, count, loaded).settled == Resolved
    ensures LoadEffects(FollowingLoad, username, count, loaded).settled == Resolved
    ensures FollowEffects(username, authUser, submitted).settled == Rejected
        <==> authUser == None || authUser == Some("")
    ensures UnfollowEffects(username, authUser, stored, submitted).settled == Rejected
        <==> authUser == None || authUser == Some("")
  {
  }

  /**
   * The actions of `follow`/`unfollow` carry only the type and the target
   * `username`, plus `reason` on ERROR: never `count` or `results`. A remote
   * failure becomes exactly one ERROR action with the reason.
   */
  lemma MutateEventsShape(op: Op, username: string, response: Result<(), Reason>)
    requires op == Follow || op == Unfollow
    ensures var evs := MutateEvents(op, username, response);
      && |evs| == 2
      && evs[0].tag == Tag(op, Init)
      && (forall i :: 0 <= i < 2 ==> evs[i].username == username && evs[i].count == None && evs[i].results == None)
      && (response.Success? ==> evs[1].tag == Tag(op, Done) && evs[1].reason == None)
      && (response.Failure? ==> evs[1].tag == Tag(op, Error) && evs[1].reason == Some(response.error))
      && evs[0].reason == None
  {
  }

  // ---------------------------------------------------------------------------
  // Properties of the logs

  /** How many actions of a given type a log holds. */
  function CountTag(log: seq<Event>, tag: string): nat {
    if log == [] then 0 else (if log[0].tag == tag then 1 else 0) + CountTag(log[1..], tag)
  }

  /** How many remote calls of a given operation a log holds. */
  function CountCalls(calls: seq<ApiCall>, op: Op): nat {
    if calls == [] then 0 else (if CallOp(calls[0]) == op then 1 else 0) + CountCalls(calls[1..], op)
  }

  lemma {:induction false} CountTagAppend(a: seq<Event>, b: seq<Event>, tag: string)
    ensures CountTag(a + b, tag) == CountTag(a, tag) + CountTag(b, tag)
  {
    if a != [] {
      CountTagAppend(a[1..], b, tag);
      assert (a + b)[1..] == a[1..] + b;
    } else {
      assert a + b == b;
    }
  }

  lemma {:induction false} CountCallsAppend(a: seq<ApiCall>, b: seq<ApiCall>, op: Op)
    ensures CountCalls(a + b, op) == CountCalls(a, op) + CountCalls(b, op)
  {
    if a != [] {
      CountCallsAppend(a[1..], b, op);
      assert (a + b)[1..] == a[1..] + b;
    } else {
      assert a + b == b;
    }
  }

  /**
   * For one operation, every INIT in the log was followed by one terminal
   * action, and each INIT went with one remote call of that operation.
   */
  predicate Balanced(events: seq<Event>, calls: seq<ApiCall>, op: Op) {
    && CountTag(events, Tag(op, Init)) == CountTag(events, Tag(op, Done)) + CountTag(events, Tag(op, Error))
    && CountTag(events, Tag(op, Init)) == CountCalls(calls, op)
  }

  /** Two balanced logs appended are balanced. */
  lemma BalancedAppend(e1: seq<Event>, c1: seq<ApiCall>, e2: seq<Event>, c2: seq<ApiCall>, op: Op)
    requires Balanced(e1, c1, op) && Balanced(e2, c2, op)
    ensures Balanced(e1 + e2, c1 + c2, op)
  {
    CountTagAppend(e1, e2, Tag(op, Init));
    CountTagAppend(e1, e2, Tag(op, Done));
    CountTagAppend(e1, e2, Tag(op, Error));
    CountCallsAppend(c1, c2, op);
  }

  /** The two actions and one call of a load are balanced for every operation. */
  lemma LoadEffectsBalanced(op: Op, username: string, count: Option<int>,
                            response: Result<seq<UserSummary>, Reason>, other: Op)
    requires IsLoad(op)
    ensures var eff := LoadEffects(op, username, count, response); Balanced(eff.events, eff.calls, other)
  {
    var eff := LoadEffects(op, username, count, response);
    TwoEventsBalanced(op, eff.events, eff.calls, other);
  }

  /** Whatever `follow` adds is balanced for every operation. */
  lemma FollowEffectsBalanced(username: string, authUser: Option<string>, response: Result<(), Reason>, other: Op)
    ensures var eff := FollowEffects(username, authUser, response); Balanced(eff.events, eff.calls, other)
  {
    var eff := FollowEffects(username, authUser, response);
    if !Js.FalsyString(authUser) {
      TwoEventsBalanced(Follow, eff.events, eff.calls, other);
    }
  }

  /** Whatever `unfollow` adds is balanced for every operation. */
  lemma UnfollowEffectsBalanced(username: string, authUser: Option<string>, stored: Option<string>,
                                response: Result<(), Reason>, other: Op)
    ensures var eff := UnfollowEffects(username, authUser, stored, response); Balanced(eff.events, eff.calls, other)
  {
    var eff := UnfollowEffects(username, authUser, stored, response);
    if !Js.FalsyString(authUser) {
      TwoEventsBalanced(Unfollow, eff.events, eff.calls, other);
    }
  }

  /** An INIT, a terminal action and one call, all of `op`, are balanced for every operation. */
  lemma TwoEventsBalanced(op: Op, events: seq<Event>, calls: seq<ApiCall>, other: Op)
    requires |events| == 2 && events[0].tag == Tag(op, Init)
    requires events[1].tag == Tag(op, Done) || events[1].tag == Tag(op, Error)
    requires |calls| == 1 && CallOp(calls[0]) == op
    ensures Balanced(events, calls, other)
  {
    forall p: Phase, q: Phase {
      TagsDistinct(op, p, other, q);
    }
    assert events[1..][1..] == [];
    assert calls[1..] == [];
    forall tag: string ensures CountTag(events, tag) ==
        (if events[0].tag == tag then 1 else 0) + (if events[1].tag == tag then 1 else 0) {
      assert CountTag(events[1..][1..], tag) == 0;
    }
    assert CountCalls(calls, other) == if op == other then 1 else 0 by {
      assert CountCalls(calls[1..], other) == 0;
    }
  }

  /** Appending a log that is balanced for every operation keeps the invariant. */
  lemma AllBalancedAppend(e1: seq<Event>, c1: seq<ApiCall>, e2: seq<Event>, c2: seq<ApiCall>)
    requires forall op: Op :: Balanced(e1, c1, op)
    requires forall op: Op :: Balanced(e2, c2, op)
    ensures forall op: Op :: Balanced(e1 + e2, c1 + c2, op)
  {
    forall op: Op {
      BalancedAppend(e1, c1, e2, c2, op);
    }
  }

  /**
   * The store, the notifier and the remote API, seen as the logs the four
   * thunks append to; `events := events + [e]` is `dispatch(e)`.
   * `authUser` arguments are `getState().authUser.username`, with `None`
   * for `undefined` or `null`.
   */
  class FollowCoordinator {
    var events: seq<Event>
    var notices: seq<Notice>
    var apiCalls: seq<ApiCall>

    /** Every invocation so far has settled with one terminal action and one remote call. */
    ghost predicate Valid()
      reads this
    {
      forall op: Op :: Balanced(events, apiCalls, op)
    }

    constructor ()
      ensures Valid()
      ensures events == [] && notices == [] && apiCalls == []
    {
      events, notices, apiCalls := [], [], [];
    }

    /** `getFollowers(username, count)`. */
    method GetFollowers(username: string, count: Option<int>, response: Result<seq<UserSummary>, Reason>)
      returns (settled: Settlement)
      requires Valid()
      modifies this
      ensures Valid()
      ensures var eff := LoadEffects(FollowerLoad, username, count, response);
        && events == old(events) + eff.events
        && notices == old(notices) + eff.notices
        && apiCalls == old(apiCalls) + eff.calls
        && settled == eff.settled
    {
      var c := if count.None? then DefaultCount else count.value;
      events := events + [Event(Tag(FollowerLoad, Init), username, Some(c), None, None)];
      apiCalls := apiCalls + [GetFollowersCall(username, c)];
      match response {
      case Success(results) =>
        events := events + [Event(Tag(FollowerLoad, Done), username, Some(c), Some(results), None)];
      case Failure(reason) =>
        events := events + [Event(Tag(FollowerLoad, Error), username, Some(c), None, Some(reason))];
      }
      settled := Resolved;
      ghost var eff := LoadEffects(FollowerLoad, username, count, response);
      forall other: Op ensures Balanced(eff.events, eff.calls, other) {
        LoadEffectsBalanced(FollowerLoad, username, count, response, other);
      }
      assert events == old(events) + eff.events && apiCalls == old(apiCalls) + eff.calls;
      AllBalancedAppend(old(events), old(apiCalls), eff.events, eff.calls);
    }

    /** `getFollowing(username, count)`. */
    method GetFollowing(username: string, count: Option<int>, response: Result<seq<UserSummary>, Reason>)
      returns (settled: Settlement)
      requires Valid()
      modifies this
      ensures Valid()
      ensures var eff := LoadEffects(FollowingLoad, username, count, response);
        && events == old(events) + eff.events
        && notices == old(notices) + eff.notices
        && apiCalls == old(apiCalls) + eff.calls
        && settled == eff.settled
    {
      var c := if count.None? then DefaultCount else count.value;
      events := events + [Event(Tag(FollowingLoad, Init), username, Some(c), None, None)];
      apiCalls := apiCalls + [GetFollowingCall(username, c)];
      match response {
      case Success(results) =>
        events := events + [Event(Tag(FollowingLoad, Done), username, Some(c), Some(results), None)];
      case Failure(reason) =>
        events := events + [Event(Tag(FollowingLoad, Error), username, Some(c), None, Some(reason))];
      }
      settled := Resolved;
      ghost var eff := LoadEffects(FollowingLoad, username, count, response);
      forall other: Op ensures Balanced(eff.events, eff.calls, other) {
        LoadEffectsBalanced(FollowingLoad, username, count, response, other);
      }
      assert events == old(events) + eff.events && apiCalls == old(apiCalls) + eff.calls;
      AllBalancedAppend(old(events), old(apiCalls), eff.events, eff.calls);
    }

    /** `follow(username)`, with `authUser` the value of `getState().authUser.username`. */
    method Follow(username: string, authUser: Option<string>, response: Result<(), Reason>)
      returns (settled: Settlement)
      requires Valid()
      modifies this
      ensures Valid()
      ensures var eff := FollowEffects(username, authUser, response);
        && events == old(events) + eff.events
        && notices == old(notices) + eff.notices
        && apiCalls == old(apiCalls) + eff.calls
        && settled == eff.settled
    {
      var currentUser := authUser;
      if currentUser.None? || currentUser.value == "" {
        notices := notices + [Danger(LoginFirst)];
        settled := Rejected;
      } else {
        events := events + [Event(Tag(Op.Follow, Init), username, None, None, None)];
        apiCalls := apiCalls + [FollowOpCall(currentUser, username, None)];
        match response {
        case Success(_) =>
          events := events + [Event(Tag(Op.Follow, Done), username, None, None, None)];
        case Failure(reason) =>
          events := events + [Event(Tag(Op.Follow, Error), username, None, None, Some(reason))];
        }
        settled := Resolved;
      }
      ghost var eff := FollowEffects(username, authUser, response);
      forall other: Op ensures Balanced(eff.events, eff.calls, other) {
        FollowEffectsBalanced(username, authUser, response, other);
      }
      assert events == old(events) + eff.events && apiCalls == old(apiCalls) + eff.calls;
      AllBalancedAppend(old(events), old(apiCalls), eff.events, eff.calls);
    }

    /**
     * `unfollow(username)`, with `authUser` the value of
     * `getState().authUser.username` and `stored` that of
     * `localStorage.getItem('username')`.
     */
    method Unfollow(username: string, authUser: Option<string>, stored: Option<string>, response: Result<(), Reason>)
      returns (settled: Settlement)
      requires Valid()
      modifies this
      ensures Valid()
      ensures var eff := UnfollowEffects(username, authUser, stored, response);
        && events == old(events) + eff.events
        && notices == old(notices) + eff.notices
        && apiCalls == old(apiCalls) + eff.calls
        && settled == eff.settled
    {
      var currentUser := authUser;
      if currentUser.None? || currentUser.value == "" {
        notices := notices + [Danger(LogInFirst)];
        settled := Rejected;
      } else {
        events := events + [Event(Tag(Op.Unfollow, Init), username, None, None, None)];
        apiCalls := apiCalls + [FollowOpCall(stored, username, Some(true))];
        match response {
        case Success(_) =>
          events := events + [Event(Tag(Op.Unfollow, Done), username, None, None, None)];
        case Failure(reason) =>
          events := events + [Event(Tag(Op.Unfollow, Error), username, None, None, Some(reason))];
        }
        settled := Resolved;
      }
      ghost var eff := UnfollowEffects(username, authUser, stored, response);
      forall other: Op ensures Balanced(eff.events, eff.calls, other) {
        UnfollowEffectsBalanced(username, authUser, stored, response, other);
      }
      assert events == old(events) + eff.events && apiCalls == old(apiCalls) + eff.calls;
      AllBalancedAppend(old(events), old(apiCalls), eff.events, eff.calls);
    }
  }
}
