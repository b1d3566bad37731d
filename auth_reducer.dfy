/** The client's auth reducer: the `isAuthenticated` flag and the current
    `user` object, updated by `SET_CURRENT_USER` and `REGISTER_USER`. */
module AuthReducer {
  import opened Http

  datatype ActionType = GetErrors | SetCurrentUser | RegisterUser | Other(name: string)

  /** A Redux action `{ type, payload }`. */
  datatype Action = Action(kind: ActionType, payload: JsonObject)

  datatype AuthState = AuthState(isAuthenticated: bool, user: JsonObject)

  /** The two phases of a client session. */
  datatype Phase = Anonymous | Authenticated

  /** `isEmpty` on an object: it has no keys. */
  predicate IsEmpty(o: JsonObject) {
    |o| == 0
  }

  /** The state's flag agrees with its user object. */
  predicate Consistent(s: AuthState) {
    s.isAuthenticated <==> !IsEmpty(s.user)
  }

  function PhaseOf(s: AuthState): Phase {
    if s.isAuthenticated then Authenticated else Anonymous
  }

  /** The state Redux starts from (the reducer is first called with
      `state` undefined and falls back to it). */
  function Initial(): (s: AuthState)
    ensures Consistent(s) && PhaseOf(s) == Anonymous
  {
    AuthState(false, map[])
  }

  function Reduce(state: AuthState, action: Action): (r: AuthState)
  {
    match action.kind
    case RegisterUser => state.(user := action.payload)
    case SetCurrentUser => state.(isAuthenticated := !IsEmpty(action.payload), user := action.payload)
    case _ => state
  }

  /** SET_CURRENT_USER installs its payload as the user and re-establishes the
      invariant from any state, consistent or not. */
  lemma SetCurrentUserEstablishes(s: AuthState, p: JsonObject)
    ensures Reduce(s, Action(SetCurrentUser, p)).user == p
    ensures Reduce(s, Action(SetCurrentUser, p)).isAuthenticated == (|p| > 0)
    ensures Consistent(Reduce(s, Action(SetCurrentUser, p)))
  {
  }

  /** An action of neither handled type returns the state unchanged. */
  lemma UnhandledKeepsState(s: AuthState, a: Action)
    requires a.kind != SetCurrentUser && a.kind != RegisterUser
    ensures Reduce(s, a) == s
  {
  }

  /** REGISTER_USER replaces only the user. */
  lemma RegisterUserKeepsFlag(s: AuthState, p: JsonObject)
    ensures Reduce(s, Action(RegisterUser, p)) == AuthState(s.isAuthenticated, p)
  {
  }

  /** REGISTER_USER with a non-empty payload, from the initial state, breaks
      the invariant: the user is set but the flag stays false. */
  lemma RegisterUserCanBreakInvariant()
    ensures !Consistent(Reduce(Initial(), Action(RegisterUser, map["name" := "a"])))
  {
    assert "name" in map["name" := "a"];
  }

  /** Dispatching the same SET_CURRENT_USER twice equals dispatching it once. */
  lemma SetCurrentUserIdempotent(s: AuthState, p: JsonObject)
    ensures Reduce(Reduce(s, Action(SetCurrentUser, p)), Action(SetCurrentUser, p))
            == Reduce(s, Action(SetCurrentUser, p))
  {
  }

  /** SET_CURRENT_USER with `{}` (what logout dispatches) drives any state
      back to the initial one. */
  lemma EmptyUserResets(s: AuthState)
    ensures Reduce(s, Action(SetCurrentUser, map[])) == Initial()
  {
  }

  /** The reducer applied to a sequence of actions, in order. */
  function Run(s: AuthState, actions: seq<Action>): AuthState
    decreases |actions|
  {
    if actions == [] then s else Run(Reduce(s, actions[0]), actions[1..])
  }

  predicate NoRegisterUser(actions: seq<Action>) {
    forall i :: 0 <= i < |actions| ==> actions[i].kind != RegisterUser
  }

  /** The invariant holds after any run that has no REGISTER_USER action. */
  lemma {:induction false} RunKeepsConsistent(s: AuthState, actions: seq<Action>)
    requires Consistent(s)
    requires NoRegisterUser(actions)
    ensures Consistent(Run(s, actions))
    decreases |actions|
  {
    if actions != [] {
      assert actions[0].kind != RegisterUser;
      RunKeepsConsistent(Reduce(s, actions[0]), actions[1..]);
    }
  }

  /** The index of the last SET_CURRENT_USER in `actions`, or -1. */
  function LastSetCurrentUser(actions: seq<Action>): (k: int)
    ensures -1 <= k < |actions|
    ensures 0 <= k ==> actions[k].kind == SetCurrentUser
    ensures forall j :: k < j < |actions| ==> actions[j].kind != SetCurrentUser
    decreases |actions|
  {
    if actions == [] then -1
    else if actions[|actions| - 1].kind == SetCurrentUser then |actions| - 1
    else LastSetCurrentUser(actions[..|actions| - 1])
  }

  lemma {:induction false} RunSnoc(s: AuthState, actions: seq<Action>, a: Action)
    ensures Run(s, actions + [a]) == Reduce(Run(s, actions), a)
    decreases |actions|
  {
    if actions == [] {
      assert actions + [a] == [a];
    } else {
      assert (actions + [a])[1..] == actions[1..] + [a];
      RunSnoc(Reduce(s, actions[0]), actions[1..], a);
    }
  }

  /** Without REGISTER_USER, the state after a run is decided by the last
      SET_CURRENT_USER alone: its payload is the user, and the flag says
      whether it is non-empty; with none, the state is unchanged. */
  lemma {:induction false} RunIsLastSetCurrentUser(s: AuthState, actions: seq<Action>)
    requires NoRegisterUser(actions)
    ensures var k := LastSetCurrentUser(actions);
            Run(s, actions) == if k < 0 then s
                               else AuthState(!IsEmpty(actions[k].payload), actions[k].payload)
    decreases |actions|
  {
    if actions != [] {
      var n := |actions| - 1;
      var init := actions[..n];
      assert actions == init + [actions[n]];
      RunSnoc(s, init, actions[n]);
      assert NoRegisterUser(init) by {
        forall i | 0 <= i < |init| ensures init[i].kind != RegisterUser {
          assert init[i] == actions[i];
        }
      }
      RunIsLastSetCurrentUser(s, init);
      assert actions[n].kind != RegisterUser;
    }
  }
}
