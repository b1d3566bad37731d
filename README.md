# Social-profile app: post interactions, accounts and the client session

This project is a Dafny model of the logic in a small social-profile web
application. It covers three parts, and for each one it proves what the
handlers promise.

- **Post interaction rules** (`routes/api/post.js`). A post has a list of
  likes and a list of comments. The model covers creating and deleting a
  post, like, unlike, adding a comment and deleting a comment. The posts
  collection is a class, `PostStore`, holding a map from post id to post.
  Each handler is a method that loads the post, changes its `likes` or
  `comments` sequence the way the JavaScript does (`push`, a `filter`
  reassignment, `unshift`, `splice`) and stores it back. The store keeps
  two invariants: every post sits under its own id, and no user likes a
  post twice.
- **Account rules** (`routes/api/user.js`). Register rejects an email
  that is already taken. Otherwise it stores a record whose password is
  `hash(password, salt)`. Login has three outcomes: 404 for an unknown
  email, 400 for a password mismatch, or `"Bearer " + sign({id, name,
  avatar}, secret, {expiresIn: 7200})`. `/current` returns exactly
  `{name, id, email}`. bcrypt, jsonwebtoken and gravatar are uninterpreted
  function values, bundled in a `Crypto` datatype.
- **Client session** (`client/src/actions/authActions.js`,
  `client/src/reducers/authReducer.js`).
  - `loginUser`, `logoutUser` and `registerUser` act on the local-storage
    slot `"jwtToken"`, the request Authorization header, the dispatched
    actions and the router history.
  - The pure functions `AfterLogin`, `AfterLogout` and `AfterRegister`
    describe these effects. The methods of the class `Session` are proved
    equal to them.
  - The reducer keeps `isAuthenticated` equal to "the user object is
    non-empty". That invariant holds through any sequence of logins,
    logouts and registrations.
  - A request that fails without any response makes the `.catch` handler
    throw on `err.response.data`, so nothing is dispatched and nothing
    changes.

Modules:

| file | module |
|---|---|
| `http.dfy` | `Http`: JSON objects and handler replies (`Ok(body)` or `Err(status, errorObject)`) |
| `js_array.dfy` | `JsArray`: `indexOf` and `splice(start, 1)` with JavaScript's rules for -1 and negative starts |
| `post_routes.dfy` | `PostRoutes` |
| `user_routes.dfy` | `UserRoutes` |
| `auth_reducer.dfy` | `AuthReducer` |
| `auth_actions.dfy` | `AuthActions` |

What the model takes as parameters:
- The requester id, which the JWT middleware would supply.
- The ObjectIds Mongoose generates for a new post, comment or user, and the bcrypt salt.
- The post-input validator, as a function from the request body to `{errors, isValid}`.
- The server's reply, as seen by the client.
- `jwt-decode`, as a function from token string to JSON object.

Behaviour the model keeps as the code has it:
- Login tells "unknown email" apart from "wrong password" (404 against 400).
- Register replies with the whole stored record, password hash included.
- The client never checks token expiry.
- A token that cannot be decoded is not handled. See "Left out".

## Model

| member | source | states |
|---|---|---|
| `JsArray.IndexOf` | routes/api/post.js:85 | -1 exactly when the element is absent; otherwise an index that holds it, with no earlier occurrence |
| `JsArray.SpliceStart` | routes/api/post.js:190 | definition: the start `splice` normalises to (negative counts back from the end, clamped to the bounds); `SpliceOneAt` and `SpliceOneAtMinusOne` state what it means for the splice |
| `JsArray.SpliceOne` | routes/api/post.js:190 | definition: the array left by `splice(start, 1)`; `SpliceOneAt` and `SpliceOneAtMinusOne` state its meaning |
| `JsArray.SpliceOneAt` | routes/api/post.js:190 | `splice(i, 1)` at an index inside the array removes exactly that one element |
| `JsArray.SpliceOneAtMinusOne` | routes/api/post.js:185-190 | `splice(-1, 1)` removes the last element, so a missing id must be caught before the splice |
| `PostRoutes.LikeUsers` | routes/api/post.js:85 | `likes.map(item => item.user)`, defined by walking the likes from the front; proved by induction to have the same length, with the i-th entry the i-th like's user. `HasLikedIff` builds on it |
| `PostRoutes.CommentIds` | routes/api/post.js:186 | `comments.map(item => item._id)`, defined by walking the comments from the front; proved by induction to have the same length, with the i-th entry the i-th comment's id. `FirstCommentIndex` and `CommentGuardAgrees` build on it |
| `PostRoutes.HasLiked` | routes/api/post.js:85 | definition: the like route's `indexOf(...) >= 0` test; `HasLikedIff` states its meaning |
| `PostRoutes.HasLikedIff` | routes/api/post.js:85 | the `map`/`indexOf` test holds exactly when some like belongs to the user |
| `PostRoutes.WithoutUser` | routes/api/post.js:114-116 | definition: the unlike filter; its promises are `WithoutUserAppend`, `WithoutUserMembers`, `WithoutUserRemovesAll`, `WithoutUserAbsent`, `WithoutUserIdempotent` and `WithoutUserKeepsDistinct` |
| `PostRoutes.WithoutUserAppend` | routes/api/post.js:113-116 | the unlike filter distributes over concatenation, so the kept likes stay in their original order |
| `PostRoutes.WithoutUserMembers` | routes/api/post.js:114-116 | a like survives unlike iff it was present and belongs to another user |
| `PostRoutes.WithoutUserRemovesAll` | routes/api/post.js:114-116 | after unlike, no like by the requester remains |
| `PostRoutes.WithoutUserAbsent` | routes/api/post.js:112-116 | unlike by a user who had not liked leaves the likes unchanged |
| `PostRoutes.WithoutUserIdempotent` | routes/api/post.js:112-116 | unliking twice gives the same likes as unliking once |
| `PostRoutes.WithoutUserKeepsDistinct` | routes/api/post.js:112-116 | unlike keeps "no user liked twice" |
| `PostRoutes.LikeKeepsDistinct` | routes/api/post.js:84-87 | appending a like for a user who is absent keeps "no user liked twice", and afterwards the user has liked |
| `PostRoutes.CommentsWithId` | routes/api/post.js:181-183 | definition: the delete-comment existence filter; `CommentGuardAgrees` and `RemoveFirstWithIdAbsent` state its meaning |
| `PostRoutes.RemoveFirstWithId` | routes/api/post.js:180-190 | definition: the reference "remove the first comment with this id"; `SpliceRemovesFirstMatch` proves the handler's splice equal to it |
| `PostRoutes.CommentGuardAgrees` | routes/api/post.js:180-187 | the filter-length check and the `indexOf` lookup agree, so the splice never gets -1 |
| `PostRoutes.RemoveFirstAt` | routes/api/post.js:185-190 | removing the first comment with an id drops the one at its index and keeps everything before and after it |
| `PostRoutes.FirstCommentIndex` | routes/api/post.js:185-187 | the looked-up index holds a comment with that id and no earlier comment has it |
| `PostRoutes.SpliceRemovesFirstMatch` | routes/api/post.js:180-190 | the handler's splice equals "remove the first comment with that id": one comment shorter, the rest in their relative order |
| `PostRoutes.RemoveFirstWithIdAbsent` | routes/api/post.js:180-184 | for an id no comment has, the removal specification leaves the comments unchanged |
| `PostRoutes.PostStore.CreatePost` | routes/api/post.js:36-52 | invalid input: 400 with the validator's errors and no store change; valid input: exactly one new post, owned by the requester, with the body's text, name and avatar and no likes or comments |
| `PostRoutes.PostStore.DeletePost` | routes/api/post.js:63-66 | removes the post only when both id and owner match and replies with it (the `{ post }` wrapper is not modelled); otherwise 404 `nopostfound` and the store is unchanged |
| `PostRoutes.PostStore.LikePost` | routes/api/post.js:81-96 | missing post: 400 `postnotfound`; already liked: 400 `alreadylike`, store unchanged; otherwise exactly `Like(requester)` is appended at the end and nothing else changes |
| `PostRoutes.PostStore.UnlikePost` | routes/api/post.js:109-125 | missing post: 404 `likenotfound`; otherwise the likes become the requester-free filter (never an error) and nothing else changes |
| `PostRoutes.PostStore.AddComment` | routes/api/post.js:140-166 | invalid input: 400 before any lookup; missing post: 404 `{}`; otherwise the requester's new comment is put at index 0 ahead of the old comments |
| `PostRoutes.PostStore.DeleteComment` | routes/api/post.js:177-206 | missing post: 404 `{}`; no comment with that id: 404 `commentnotfound`, store unchanged; otherwise exactly the first comment with that id is removed |
| `UserRoutes.PayloadOf` | routes/api/user.js:68 | definition: the payload `{id, name, avatar}` of a user; `Login` and `RegisterThenLogin` state what is signed |
| `UserRoutes.TokenFor` | routes/api/user.js:71-75 | definition: `"Bearer "` followed by the signature of that payload with `expiresIn` 7200; `Login` states when it is issued |
| `UserRoutes.Login` | routes/api/user.js:57-79 | 404 `{email: "User not found"}` iff the email is unknown; 400 `password` error iff it is known and the comparison fails; otherwise `success: true` with the token for the matched user |
| `UserRoutes.Current` | routes/api/user.js:91 | definition: `/current` is a projection onto name, id and email, with no contract beyond that; `CurrentMatchesLogin` ties it to login |
| `UserRoutes.RegisterThenLogin` | routes/api/user.js:15-82 | logging in right after registering, with the same password, yields the token over the new id, name and avatar, provided bcrypt accepts a password against its own hash |
| `UserRoutes.RegisterKeepsOtherLogins` | routes/api/user.js:57 | registering one email does not change the login outcome for any other email |
| `UserRoutes.CurrentMatchesLogin` | routes/api/user.js:57-91 | after a successful login, `/current` for the matched user reports the email used to log in, and its id and name are the ones signed into the issued token |
| `UserRoutes.NewUser` | routes/api/user.js:20-38 | definition: the record register saves; `UserStore.Register` is proved to save exactly it |
| `UserRoutes.UserStore.Register` | routes/api/user.js:15-41 | a taken email: 400 `email` error and no user created; a new email: exactly one user added under it, with name and email copied, avatar from gravatar (size 100, rating pg, default mm) and password `hash(password, salt)` |
| `AuthReducer.Reduce` | client/src/reducers/authReducer.js:9-23 | definition of the reducer; its promises are the lemmas below |
| `AuthReducer.Initial` | client/src/reducers/authReducer.js:4-7 | the initial state is not authenticated, has an empty user and satisfies the invariant |
| `AuthReducer.SetCurrentUserEstablishes` | client/src/reducers/authReducer.js:14-19 | SET_CURRENT_USER sets the user to the payload and the flag to "payload non-empty", restoring the invariant from any state |
| `AuthReducer.UnhandledKeepsState` | client/src/reducers/authReducer.js:21-22 | any other action type returns the state unchanged |
| `AuthReducer.RegisterUserKeepsFlag` | client/src/reducers/authReducer.js:11-12 | REGISTER_USER replaces only the user and leaves `isAuthenticated` as it was |
| `AuthReducer.RegisterUserCanBreakInvariant` | client/src/reducers/authReducer.js:11-12 | a REGISTER_USER with a non-empty payload from the initial state gives a user but `isAuthenticated = false` |
| `AuthReducer.SetCurrentUserIdempotent` | client/src/reducers/authReducer.js:14-19 | applying SET_CURRENT_USER twice with the same payload equals applying it once |
| `AuthReducer.EmptyUserResets` | client/src/reducers/authReducer.js:17 | SET_CURRENT_USER with `{}` leads to the initial state from any state |
| `AuthReducer.RunKeepsConsistent` | client/src/reducers/authReducer.js:9-23 | the invariant holds after any sequence of actions that has no REGISTER_USER |
| `AuthReducer.RunIsLastSetCurrentUser` | client/src/reducers/authReducer.js:9-23 | without REGISTER_USER, the final state is fixed by the last SET_CURRENT_USER alone, or equals the start state if there is none |
| `AuthActions.SetCurrentUser` | client/src/actions/authActions.js:44-49 | definition: the SET_CURRENT_USER action with the payload unchanged; `LoginSuccess` and `LogoutResets` state what dispatching it does |
| `AuthActions.GetErrors` | client/src/actions/authActions.js:15-18 | definition: the GET_ERRORS action carrying the response data; see `FailureOnlyReportsErrors` |
| `AuthActions.Dispatch` | client/src/actions/authActions.js:34 | definition: `dispatch` records the action and runs the auth reducer on it |
| `AuthActions.AfterLogin` | client/src/actions/authActions.js:23-42 | definition of `loginUser`'s effect; its promises are `LoginSuccess`, `FailureOnlyReportsErrors`, `NoResponseChangesNothing` and `ServerLoginAuthenticates` |
| `AuthActions.AfterLogout` | client/src/actions/authActions.js:51-58 | definition of `logoutUser`'s effect; its promises are `LogoutResets` and `LogoutIdempotent` |
| `AuthActions.AfterRegister` | client/src/actions/authActions.js:7-20 | definition of `registerUser`'s effect; its promises are `RegisterSuccess`, `FailureOnlyReportsErrors` and `NoResponseChangesNothing` |
| `AuthActions.LoginSuccess` | client/src/actions/authActions.js:27-34 | the token goes under `"jwtToken"` and into the auth header; SET_CURRENT_USER with the decoded token is dispatched and becomes the current user; history is untouched |
| `AuthActions.FailureOnlyReportsErrors` | client/src/actions/authActions.js:14-41 | a login or register that fails with an error response only dispatches GET_ERRORS with that response's data; storage, header and auth state stay the same |
| `AuthActions.NoResponseChangesNothing` | client/src/actions/authActions.js:14-41 | a login or register request that fails with no response at all dispatches nothing (the catch throws on `err.response.data`) and changes no state |
| `AuthActions.RegisterSuccess` | client/src/actions/authActions.js:10-12 | a successful register only pushes `"/login"` onto the history; no token is stored |
| `AuthActions.LogoutResets` | client/src/actions/authActions.js:51-58 | logout removes `"jwtToken"` and keeps every other storage key, clears the header, dispatches `setCurrentUser({})` and ends anonymous |
| `AuthActions.LogoutIdempotent` | client/src/actions/authActions.js:51-58 | logging out twice gives the same storage, header and auth state as logging out once |
| `AuthActions.StepKeepsConsistent` | client/src/actions/authActions.js:7-58 | every action creator keeps "authenticated iff the user is non-empty" |
| `AuthActions.EventsKeepConsistent` | client/src/actions/authActions.js:7-58 | that invariant holds through any sequence of logins, logouts and registrations |
| `AuthActions.ServerLoginAuthenticates` | client/src/actions/authActions.js:23-34 | if the server logs a user in and decoding the issued token returns that user's id, name and avatar (other claims allowed), the client stores the token, uses it as the header and is authenticated with that id, name and avatar in its current user |
| `AuthActions.Session.DispatchAction` | client/src/actions/authActions.js:34 | the new session state is `Dispatch` of the old |
| `AuthActions.Session.SetAuthToken` | client/src/actions/authActions.js:30 | only the auth header changes, to the given token, or to none for `false` |
| `AuthActions.Session.LoginUser` | client/src/actions/authActions.js:23-42 | the new session state is `AfterLogin` of the old, and the invariant is kept |
| `AuthActions.Session.LogoutUser` | client/src/actions/authActions.js:51-58 | the new session state is `AfterLogout` of the old, and the invariant is kept |
| `AuthActions.Session.RegisterUser` | client/src/actions/authActions.js:7-20 | the new session state is `AfterRegister` of the old, and the invariant is kept |

## Left out

- Express routing, passport's JWT middleware and response serialisation. Replies are values; status 200 is `Ok`.
- PostRoutes.PostStore.DeletePost: replies with the removed post itself, whereas the route sends it wrapped as `{ post }`. That wrapper is serialisation.
- Mongoose persistence and `save()`. Saving is the store update. The `save().catch` branches (400) are not modelled because the store cannot fail.
- `.catch` branches on `findById` and `findOneAndRemove` for malformed ObjectIds: ids are plain strings, and lookups fail only because the key is absent.
- PostRoutes.PostStore.CreatePost: requires the freshly generated ObjectId to be unused. This stands for the uniqueness of Mongoose ids, not for a check in the handler.
- The read-only routes `GET /api/posts` (with its date-descending sort) and `GET /api/posts/:id`. They are plain database queries.
- The `date` field of posts and comments: there is no clock.
- The like route's missing-post branch sends 400 `postnotfound` and then falls through into a throw. The model stops at the 400 reply and leaves the store unchanged.
- A missing post in the comment and delete-comment routes makes `post.comments` throw a TypeError. The catch serialises it as `{}`, which the model gives as 404 with an empty error object.
- bcrypt, jsonwebtoken, jwt-decode and gravatar are uninterpreted functions. Nothing is proved about what they compute. The login round trip takes "bcrypt accepts a password against its own hash" as a hypothesis. The end-to-end client lemma takes "decoding returns the signed id, name and avatar" as a hypothesis.
- The bcrypt hashing error (`throw err`) and the `save` failure in register, which only logs.
- Token expiry (7200 seconds) appears only as the `expiresIn` option; there is no clock, and the client never checks expiry.
- AuthActions.AfterLogin: treats `jwt-decode` as total. In the code, a token that cannot be decoded throws inside `.then`; the `.catch` then reads `err.response.data` of an error without a response. The storage slot and header have already been written by then.
- `utils/setAuthToken.js` is not part of this model. It is taken to set the default Authorization header to the token it is given, and to remove the header when given `false`.
- `validation/is-empty.js` is not part of this model. For JSON objects it is taken to mean "has no keys". `validation/post.js` is not part of this model either; it is a function parameter.
- The errors reducer that receives GET_ERRORS is not part of this model. Such actions are recorded as dispatched, and the auth reducer ignores them.
- Asynchrony and callback ordering: each handler and each action creator is one sequential step.
- `routes/api/profile.js`, the `/test` routes and `client/src/components/profiles/Profiles.js`. They are constant replies and UI rendering.
