# Follow-graph actions and post blocks, in Dafny

This project models two pieces of logic of a social-network web client.

**Follow-graph action creators** (`follow_actions.dfy`, module `FollowActions`).
The client has a table of twelve Redux action types: four operations (load followers, load following, follow, unfollow), each with INIT, DONE and ERROR.
It also has four thunks built on that table.
A load dispatches INIT, calls the remote API with `(username, count)` and then dispatches DONE with the results or ERROR with the reason. `count` defaults to 1000.
`follow` and `unfollow` first check `authUser.username`. When it is falsy, they raise a danger notification and return a rejected promise. Otherwise they dispatch INIT, submit the operation, and dispatch DONE or ERROR.
The class `FollowCoordinator` holds three append-only logs: dispatched actions, notifications and remote calls.
Each thunk is a method on it. The remote settlement (`Success`/`Failure`) and the session values are the method's inputs.
Each method is proved against a pure function giving the effects of one invocation (`LoadEffects`, `FollowEffects`, `UnfollowEffects`). The lemmas state what those effects are.
The class invariant is proved to hold after every invocation. It says that for each operation, the INIT actions in the log equal the DONE plus ERROR actions, and also equal the remote calls of that operation.

**Post block logic** (`post_data.dfy`, module `PostData`).
The post renderer's `getActualData` lower-cases a block's type and picks a branch: image, text, h1/heading, h2/sub-heading, youtube, ol, ul, or the `??` fallback.
It updates the block's `data` record in place. An image gets default height 9 and width 16. A list's string content is split on `' '`.
Then it chooses what to render: the image padding, the YouTube embed URL, or the list items.
`Classify` is the decision, `Normalized` is the in-place update as a function, and `Rendered` is the chosen block.
`PostDataComponent.GetActualData` is the method that updates a mutable `DataRecord`. Its result and its effect are proved equal to those two functions.

`js.dfy` (module `Js`) holds the JavaScript semantics both parts rely on: falsiness of optional strings and numbers, `toLowerCase` on ASCII letters, and `split`/`join` on a one-character separator.
`wrappers.dfy` holds `Option` and `Result`.

Three behaviours of the source are kept as written:
- `unfollow` checks `getState().authUser.username`, but submits as `localStorage.getItem('username')`. The model has a second identity input for it (`stored`).
- Both mutating thunks report a missing login through `notify.danger`.
- The load thunks check nothing about their arguments, so the model puts no precondition on them.

## Model

| member | source | states |
|---|---|---|
| FollowActions.TagRoundTrip | src/actions/followActions.js:1-14 | every action type of the table reads back as the operation and phase it belongs to |
| FollowActions.TagsDistinct | src/actions/followActions.js:1-14 | the twelve action types are pairwise distinct: two are equal exactly when operation and phase are |
| FollowActions.LoadLifecycle | src/actions/followActions.js:16-36 | a load adds exactly two actions: INIT with username and count, then DONE with the results iff the call succeeded, or ERROR with the reason iff it failed; the terminal action carries the INIT's username and count |
| FollowActions.LoadCount | src/actions/followActions.js:16-36 | an omitted count is 1000 on every action and on the API call; a given count is used unchanged |
| FollowActions.LoadSideEffects | src/actions/followActions.js:16-36 | a load never notifies, makes exactly one API call of its own kind with (username, count), and resolves |
| FollowActions.NotLoggedIn | src/actions/followActions.js:41-58 | with a falsy authUser.username, follow and unfollow notify once ('Please login first!' / 'Please log in first!'), dispatch nothing, call nothing and reject |
| FollowActions.FollowLoggedIn | src/actions/followActions.js:47-50 | a logged-in follow dispatches FOLLOW_INIT first and submits as the checked user, without the unfollow flag, and resolves |
| FollowActions.UnfollowLoggedIn | src/actions/followActions.js:60-63 | a logged-in unfollow dispatches UNFOLLOW_INIT first and submits as the localStorage user with flag true, whatever user passed the check |
| FollowActions.OnlyLoginRejects | src/actions/followActions.js:16-64 | loads always resolve; follow/unfollow reject exactly when authUser.username is falsy, so remote failures resolve |
| FollowActions.MutateEventsShape | src/actions/followActions.js:47-63 | follow/unfollow actions carry the target username and never count or results; success gives DONE, failure one ERROR with the reason |
| FollowActions.LoadEffectsBalanced | src/actions/followActions.js:16-36 | what a load adds keeps, for every operation, INIT count = DONE + ERROR count = remote-call count |
| FollowActions.FollowEffectsBalanced | src/actions/followActions.js:40-51 | what follow adds (including the rejected case) keeps the same balance for every operation |
| FollowActions.UnfollowEffectsBalanced | src/actions/followActions.js:53-64 | what unfollow adds (including the rejected case) keeps the same balance for every operation |
| FollowActions.FollowCoordinator.GetFollowers | src/actions/followActions.js:16-25 | appends exactly the effects of LoadEffects for the followers load to the three logs, returns its settlement, keeps the balance invariant |
| FollowActions.FollowCoordinator.GetFollowing | src/actions/followActions.js:27-36 | the same for the following load |
| FollowActions.FollowCoordinator.Follow | src/actions/followActions.js:40-51 | appends exactly the effects of FollowEffects to the three logs, returns its settlement, keeps the balance invariant |
| FollowActions.FollowCoordinator.Unfollow | src/actions/followActions.js:53-64 | appends exactly the effects of UnfollowEffects to the three logs, returns its settlement, keeps the balance invariant |
| Js.ToLowerIdempotent | src/components/postData/index.js:21 | lower-casing a lower-cased type changes nothing |
| Js.Split | src/components/postData/index.js:69 | a split yields at least one piece and no piece contains the separator |
| Js.JoinSplit | src/components/postData/index.js:69 | joining the pieces of a split with the same separator gives back the string |
| Js.SplitJoin | src/components/postData/index.js:78 | splitting a join of separator-free pieces gives the pieces back |
| PostData.ClassifyCases | src/components/postData/index.js:21-87 | each branch is selected exactly by its lower-cased names, and every other type selects the fallback (both directions) |
| PostData.ClassifyIgnoresCase | src/components/postData/index.js:21 | a type and its lower-cased form select the same branch |
| PostData.ClassifySameLower | src/components/postData/index.js:21 | two types equal up to case select the same branch |
| PostData.ClassifyAliases | src/components/postData/index.js:40-45 | 'h1' and 'heading', in any case, both select the h1 branch |
| PostData.ClassifySubAliases | src/components/postData/index.js:47-52 | 'h2' and 'sub-heading', in any case, both select the h2 branch |
| PostData.ImageDefaults | src/components/postData/index.js:22-24 | an image's falsy height becomes 9 and falsy width 16, truthy ones are kept, type and content are unchanged, and both end truthy |
| PostData.ListSplit | src/components/postData/index.js:67-79 | a list's string content becomes separator-free pieces whose join with ' ' is the original; array content and the other fields are unchanged |
| PostData.OtherKindsUntouched | src/components/postData/index.js:34-86 | text, headings, youtube and unknown types leave data unchanged |
| PostData.NormalizedIdempotent | src/components/postData/index.js:21-87 | updating data a second time changes nothing |
| PostData.RenderedStable | src/components/postData/index.js:17-88 | rendering the updated record gives the same block as the first render |
| PostData.ListRendering | src/components/postData/index.js:67-83 | ol renders an ordered and ul an unordered list whose items are exactly the updated content, in order |
| PostData.ImagePadding | src/components/postData/index.js:22-32 | an image renders its content, padded by state.paddingTop when set, else by the ratio of the updated height and width |
| PostData.YoutubeSource | src/components/postData/index.js:54-65 | the embed URL is 'https://www.youtube.com/embed/' + id + '?rel=0&amp' and a string id can be read back from it; array content appears joined with ',' |
| PostData.FallbackRendering | src/components/postData/index.js:85-86 | an unrecognised type renders '??' and leaves data unchanged |
| PostData.PostDataComponent.GetActualData | src/components/postData/index.js:17-88 | updates data in place to Normalized of its old value and returns Rendered of the old value |

## Left out

- The remote API (`steemAPI.getFollowers`, `getFollowing`, `sc2Operations.follow`), `notify`, `localStorage` and the Redux store are foreign code. They appear only as logs the thunks append to, or as inputs: the settlement of the call, `authUser.username`, and the stored username.
- Promise scheduling and concurrent invocations are not modelled. Each invocation runs to completion with its outcome given up front.
- FollowActions.LoadCount: a count passed as `null` is not modelled. JavaScript keeps it as `null` on the actions and the API call, since the default of 1000 applies only to `undefined`; in the model an omitted count (`None`) is `undefined`.
- FollowActions.FollowCoordinator.Follow: the TypeError thrown by `getState().authUser.username` when `authUser` itself is absent is not modelled; an absent username takes the notify-and-reject path.
- FollowActions.FollowCoordinator.Unfollow: the same TypeError when `authUser` is absent is not modelled.
- PostData.Classify: the TypeError thrown by `data.type.toLowerCase()` when `type` is missing is not modelled; the block type is always a string.
- A `dispatch` that throws inside `.then` is not modelled. In the source, such a throw would also produce an ERROR action.
- The value a resolved thunk promise carries is not modelled. `Settlement` only says resolved or rejected.
- Falsiness covers `undefined`/`null` and the empty string for `authUser.username`, and `undefined`/`null` and 0 for height and width. `NaN`, `false` and values of other types are not modelled.
- Js.ToLower: models `toLowerCase` on ASCII letters only. Among non-ASCII characters, only the Kelvin sign lower-cases to a lone ASCII letter ('k'); 'İ' (U+0130) becomes 'i' followed by U+0307, which is not ASCII. No recognised type contains 'k', and no recognised type contains U+0307, so classification is unaffected.
- Block content is modelled as a string or an array of strings. Other content types, and the exception `.map` would throw on them, are not modelled.
- The aspect-ratio percentage (floating-point division and number formatting) is an opaque function of the updated height and width.
- `resizeDiv` and `setState`, the JSX markup, `LazyLoad`, the iframe attributes and the CSS class lists are UI. `state.paddingTop` is read as a field.
- The leaderboard component (`src/competitions/Leaderboard/index.js`) and the sidebar (`src/components/sidebar/index.js`) are presentational and are not part of this model.
