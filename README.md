# Blog front end: access gate, route selection and post cards

This project models the logic of a small React blog front end:

- the blog page (`pages/blog.tsx`), which reads a developer-mode flag from the
  build-time environment, keeps an `isAuthenticated` flag that starts false and is
  only ever set to true, shows a password prompt in place of every route while it
  is in developer mode and unauthenticated, and otherwise maps `/`, `/create` and
  `/posts/:id` to a list, a create form (or a redirect to `/` in user mode) and a
  detail view;
- the password prompt (`components/blog/PasswordPrompt.tsx`), whose state is the
  typed password and an error message, and whose submit handler compares the typed
  password with the configured one by strict equality, invoking the grant callback
  on a match and setting a fixed error message otherwise;
- the developer and user list pages (`components/blog/blog-list-developer.tsx`,
  `components/blog/blog-list-user.tsx`), which display each post's title cut to 50
  and content cut to 100 UTF-16 code units, with `...` appended only when the text
  is strictly longer than the limit, and navigate to `posts/<id>` on a card click
  (and, in the developer list, to `create`, or delete a post without navigating).

Modules, one per concern:

- `Wrappers` (`wrappers.dfy`): `Option`, for an environment entry that may be unset.
- `Prompt` (`prompt.dfy`): the password prompt, as pure handlers over `PromptState`
  and as the `PasswordPrompt` class whose methods are specified by them.
- `Routing` (`routing.dfy`): `Mode`, `Path`, `View`, the flag rule `ModeFromFlag`,
  the gate-then-route-table selector `Select`, and a route matcher `Match`.
- `Session` (`session.dfy`): the blog page's lifetime. `State`, `Step` and `Run`
  describe what a sequence of prompt events does, and the lemmas about `Run` are
  proved by induction. The `Blog` class is the page component; it owns the mounted
  `PasswordPrompt`, and each of its handlers is specified by `Step`.
- `Cards` (`cards.dfy`): the truncation rule, the decimal rendering of post ids
  with its inverse, the navigation targets, and the click behaviour of both lists.

Modelling choices:

- The two environment entries (`REACT_APP_DEVELOPER_MODE`, `REACT_APP_ACCESS_PASSWORD`)
  are `Option<string>` parameters; `None` is an unset entry. With the password unset,
  the strict comparison fails for every input, so the gate can never be passed
  (`Prompt.UnsetPasswordNeverAccepts`, `Session.UnsetPasswordKeepsGate`).
- A render is a call to `Select`; the password prompt is mounted only while gated,
  so a prompt event arriving in any other state has no effect.
- The unmatched path renders nothing in the source; the model names this `NoMatch`.
- Strings are `seq<char>`. For text within the Basic Multilingual Plane one `char` is
  one UTF-16 code unit, which is what JavaScript's `length` and `substring` count.

## Model

| member | source | states |
|---|---|---|
| `Routing.ModeFromFlag` | frontend/react-project/src/pages/blog.tsx:44 | developer mode holds exactly when the flag is the string "true" |
| `Routing.OnlyTrueSelectsDeveloper` | frontend/react-project/src/pages/blog.tsx:44 | unset, "", "True" and "1" all give user mode; only "true" gives developer mode |
| `Routing.Select` | frontend/react-project/src/pages/blog.tsx:50-60 | the full table as if-and-only-ifs: gate exactly when developer and unauthenticated; developer list / create only in developer mode after authentication on `/` / `/create`; user list / redirect in user mode on `/` / `/create`; detail on `/posts/:id` past the gate with the id forwarded unchanged; no match for any other path |
| `Routing.GateHidesEveryRoute` | frontend/react-project/src/pages/blog.tsx:50-52 | developer mode and unauthenticated shows the gate on every path, `/create` and `/posts/:id` included |
| `Routing.UserModeNeverGates` | frontend/react-project/src/pages/blog.tsx:50 | user mode never shows the gate, whatever the authentication flag |
| `Routing.DeveloperViewsNeedAuthentication` | frontend/react-project/src/pages/blog.tsx:50-58 | the developer list and the create form appear only in developer mode after authentication |
| `Routing.UserModeCreateRedirects` | frontend/react-project/src/pages/blog.tsx:57-58 | in user mode the page's `/create` route is the redirect to `/`, and the page's own `/` route is the user list |
| `Routing.MatchRoutes` | frontend/react-project/src/pages/blog.tsx:56-59 | `/`, `/create` and `/posts/` followed by one non-empty segment match the three routes, the segment becoming the id |
| `Routing.Match` | frontend/react-project/src/pages/blog.tsx:56-59 | a path matches `/` only if it is "/", `/create` only if it is "/create", and the detail route only if it is "/posts/" followed by the id, a non-empty segment without "/" |
| `Routing.OnlyRouteShapesMatch` | frontend/react-project/src/pages/blog.tsx:56-60 | every path outside the three route shapes matches no route |
| `Routing.UnknownPathsMatchNothing` | frontend/react-project/src/pages/blog.tsx:56-60 | examples: `/posts/` without an id, a deeper path and another name match no route |
| `Session.Init` | frontend/react-project/src/pages/blog.tsx:43-44 | the page starts unauthenticated, with the mode from the flag and an empty prompt |
| `Session.SubmitGrantsIffMatch` | frontend/react-project/src/pages/blog.tsx:46-51 | a submission while gated authenticates the page exactly when the typed password matches, and keeps the typed password |
| `Session.RunPastGateIsIdle` | frontend/react-project/src/pages/blog.tsx:50-52 | once past the gate, or in user mode, no later prompt event changes the state |
| `Session.Step` | frontend/react-project/src/pages/blog.tsx:46-51 | one prompt event keeps the mode, never revokes authentication, does nothing once past the gate, and authenticates only on a submission whose typed password matches |
| `Session.Run` | frontend/react-project/src/pages/blog.tsx:43-48 | over any events the mode never changes and authentication is never revoked |
| `Session.UserModeNeverGated` | frontend/react-project/src/pages/blog.tsx:44-52 | with a flag other than "true", no sequence of events ever leads to the gate on any path |
| `Session.UnsetPasswordKeepsGate` | frontend/react-project/src/components/blog/PasswordPrompt.tsx:45-51 | with the password unset, no sequence of events authenticates the page |
| `Session.RunKeepsErrorWellFormed` | frontend/react-project/src/components/blog/PasswordPrompt.tsx:41-51 | over any events the error is "" or the fixed message |
| `Session.AuthenticationNeedsMatchingSubmit` | frontend/react-project/src/pages/blog.tsx:46-51 | a run that ends authenticated contains a submission made while the typed password matched |
| `Session.ScenarioCorrectPassword` | frontend/react-project/src/pages/blog.tsx:50-58 | developer mode, typing the right password and submitting authenticates, and `/create` then shows the form |
| `Session.ScenarioWrongPassword` | frontend/react-project/src/components/blog/PasswordPrompt.tsx:48-51 | a wrong password keeps the page gated (also for `/posts/7`), keeps the input and sets the fixed message |
| `Session.Blog.constructor` | frontend/react-project/src/pages/blog.tsx:43-44 | a new page is in the initial state, its prompt configured with the password entry |
| `Session.Blog.HandleAccessGranted` | frontend/react-project/src/pages/blog.tsx:46-48 | the callback sets authentication to true and changes nothing else |
| `Session.Blog.Render` | frontend/react-project/src/pages/blog.tsx:50-60 | a render returns the selected view and changes no state |
| `Session.Blog.EnterPassword` | frontend/react-project/src/components/blog/PasswordPrompt.tsx:62 | typing into the mounted prompt is one `Step` |
| `Session.Blog.SubmitPassword` | frontend/react-project/src/pages/blog.tsx:51 | submitting the mounted prompt, with the callback wired to the page, is one `Step` |
| `Prompt.Accepts` | frontend/react-project/src/components/blog/PasswordPrompt.tsx:45-48 | the typed password is accepted exactly when the configured entry is set and equal to it |
| `Prompt.Change` | frontend/react-project/src/components/blog/PasswordPrompt.tsx:62 | typing sets the password to the typed value and keeps the error |
| `Prompt.Submit` | frontend/react-project/src/components/blog/PasswordPrompt.tsx:43-53 | the callback fires exactly on a strict match; the password is kept; on a match the error is untouched; otherwise it is the fixed message |
| `Prompt.AcceptsExactly` | frontend/react-project/src/components/blog/PasswordPrompt.tsx:48 | with a configured password, exactly that string is accepted |
| `Prompt.UnsetPasswordNeverAccepts` | frontend/react-project/src/components/blog/PasswordPrompt.tsx:45-48 | with the password unset, no string is accepted, and a submission does not grant |
| `Prompt.NoNormalisation` | frontend/react-project/src/components/blog/PasswordPrompt.tsx:48 | a trailing space or a changed case is rejected; an empty configured password accepts the empty input |
| `Prompt.ErrorShown` | frontend/react-project/src/components/blog/PasswordPrompt.tsx:67 | the error paragraph is rendered exactly when the error string is non-empty |
| `Prompt.FailureShowsMessage` | frontend/react-project/src/components/blog/PasswordPrompt.tsx:50-51 | a failed submission leaves the input and sets exactly the fixed message, which is then displayed |
| `Prompt.ChangeKeepsError` | frontend/react-project/src/components/blog/PasswordPrompt.tsx:62 | typing replaces the password and leaves the error as it was |
| `Prompt.ErrorNeverCleared` | frontend/react-project/src/components/blog/PasswordPrompt.tsx:41-67 | no handler makes a displayed error disappear, and the error stays "" or the fixed message |
| `Prompt.PasswordPrompt.constructor` | frontend/react-project/src/components/blog/PasswordPrompt.tsx:40-41 | password and error both start empty |
| `Prompt.PasswordPrompt.OnChange` | frontend/react-project/src/components/blog/PasswordPrompt.tsx:62 | the password becomes the typed value and the error is unchanged |
| `Prompt.PasswordPrompt.HandleSubmit` | frontend/react-project/src/components/blog/PasswordPrompt.tsx:43-53 | returns whether the callback fires, exactly on a strict match; the password is kept; the error is untouched on success and the fixed message on failure |
| `Cards.Truncate` | frontend/react-project/src/components/blog/blog-list-developer.tsx:62-69 | text within the limit is unchanged; longer text becomes its first `limit` units followed by "..." |
| `Cards.TruncateBoundsAndPrefix` | frontend/react-project/src/components/blog/blog-list-developer.tsx:62-69 | displayed text is at most limit + 3 long and begins with the first min(length, limit) units of the original |
| `Cards.TruncateAtBoundary` | frontend/react-project/src/components/blog/blog-list-developer.tsx:62-64 | a text of exactly the limit is kept; one unit longer is cut |
| `Cards.TruncateIdempotent` | frontend/react-project/src/components/blog/blog-list-user.tsx:53-60 | truncating displayed text again leaves it unchanged |
| `Cards.DisplayTitle` | frontend/react-project/src/components/blog/blog-list-user.tsx:53-55 | a title is shown as is up to 50 units, else as its first 50 plus "...", and never longer than 53 |
| `Cards.DisplayContent` | frontend/react-project/src/components/blog/blog-list-user.tsx:58-60 | content is shown as is up to 100 units, else as its first 100 plus "...", and never longer than 103 |
| `Cards.Cards` | frontend/react-project/src/components/blog/blog-list-developer.tsx:57-70 | one card per post in order, card k showing the displayed title and content of post k; each title at most 53 and content at most 103 long, each beginning with the original's first units |
| `Cards.NatDigitsAreDigits` | frontend/react-project/src/components/blog/blog-list-developer.tsx:45 | the rendering of a natural number is a non-empty string of digits |
| `Cards.NatDigitsRoundTrip` | frontend/react-project/src/components/blog/blog-list-developer.tsx:45 | reading back the digits of a number gives the number |
| `Cards.Decimal` | frontend/react-project/src/components/blog/blog-list-developer.tsx:45 | the rendering of an id is non-empty and starts with "-" exactly for a negative id |
| `Cards.DecimalRoundTrip` | frontend/react-project/src/components/blog/blog-list-developer.tsx:45 | reading back the rendering of an integer id gives the id |
| `Cards.DecimalInjective` | frontend/react-project/src/components/blog/blog-list-user.tsx:39 | distinct ids render to distinct strings |
| `Cards.DecimalIsSegment` | frontend/react-project/src/components/blog/blog-list-user.tsx:39 | a rendered id is a non-empty string without "/", i.e. one path segment |
| `Cards.DetailTarget` | frontend/react-project/src/components/blog/blog-list-user.tsx:38-40 | the card's target is "posts/" followed by the rendered id, which contains no "/" |
| `Cards.CardClickOpensDetail` | frontend/react-project/src/components/blog/blog-list-developer.tsx:44-59 | the card's target `posts/<id>` matches the detail route and, past the gate, shows the detail view of that id, which reads back as the post's id |
| `Cards.DetailTargetInjective` | frontend/react-project/src/components/blog/blog-list-user.tsx:38-50 | different posts navigate to different targets |
| `Cards.CreateButtonOpensForm` | frontend/react-project/src/components/blog/blog-list-developer.tsx:53 | the "create" target matches `/create` and shows the create form in developer mode after authentication |
| `Cards.DeveloperHandler` | frontend/react-project/src/components/blog/blog-list-developer.tsx:53-78 | the create button navigates to `create`, a card to its post's detail target, the delete button deletes its post; only the delete handler stops propagation |
| `Cards.Dispatch` | frontend/react-project/src/components/blog/blog-list-developer.tsx:59-78 | a click runs the control's own handler first; the enclosing card's handler adds its actions only when the click was not stopped and came from inside the card |
| `Cards.DeveloperClick` | frontend/react-project/src/components/blog/blog-list-developer.tsx:53-78 | each click on the developer list triggers one action, a navigation exactly when the control is not the delete button, and a delete of its own post for the delete button |
| `Cards.DeleteDoesNotNavigate` | frontend/react-project/src/components/blog/blog-list-developer.tsx:72-78 | the delete button deletes exactly its post and triggers no navigation; without the stop of propagation the click would also navigate to the post |
| `Cards.DeveloperClickTargets` | frontend/react-project/src/components/blog/blog-list-developer.tsx:53-78 | each developer-list click does one thing: create opens `/create`, a card opens its own detail, delete deletes its own post |
| `Cards.UserClick` | frontend/react-project/src/components/blog/blog-list-user.tsx:50 | a click on a user-list card triggers one action, a navigation to the post's detail target, never the create target |
| `Cards.UserClickOnlyOpensDetail` | frontend/react-project/src/components/blog/blog-list-user.tsx:42-69 | every action of the user list navigates to the clicked post's detail; it never creates or deletes |

## Left out

- Fetching, creating and deleting posts (`getPosts`, `deletePost`, `fetchPosts`, `handleDelete`): network I/O through a module that is not part of this model. The `posts` list those handlers replace is not modelled; `Cards.Cards` takes it as an input and `Action.Delete` only names the post to delete.
- `CreateBlog` and `BlogDetail` are not part of this model; they appear only as the `Create` and `Detail` view tags.
- React's effects, re-rendering and component mounting: a render is a call to `Routing.Select`. The page's state lives for one mounting of the page; leaving the blog page unmounts it and loses `isAuthenticated`, which the model does not represent.
- Route matching: `Routing.Match` covers exact, lower-case paths below the page's mount point, which the router always passes with a leading "/" (the bare mount URL arrives as "/"). The router's case-insensitive matching, optional trailing slash and URL decoding of `:id` are not modelled.
- The user-mode redirect of `/create` goes to the absolute path "/", which names the page's own `/` route only when the page is mounted at the site root. Mounted below a subtree such as `/blog`, it leaves the page for the site root; the model does not follow it out of the page (`Routing.UserModeCreateRedirects` states only the page's own routes).
- `Cards.Decimal` matches the template literal only for safe integers (|id| <= 2^53 - 1). Above that, JavaScript prints the shortest digits that read back to the same double rather than the exact value, and from 10^21 up it uses exponent notation; non-integer ids are not modelled either.
- Post ids are assumed present: the source's `post.id!` is only a non-null assertion, and a missing id would navigate to "posts/undefined", which is not modelled.
- Characters outside the Basic Multilingual Plane are not modelled: JavaScript counts each as two UTF-16 code units, so `substring` can cut between the two halves of a surrogate pair, whereas a `char` here is a whole Unicode scalar value.
- Layout, styling and the visual `textOverflow: 'ellipsis'` are not modelled; only the string truncation is.
- The submit handler writes the configured password to the console (frontend/react-project/src/components/blog/PasswordPrompt.tsx:46). This is a side effect with no bearing on the state, so it is not modelled, but it discloses the secret in the browser console.
- `preventDefault` on the submit event is browser plumbing and is not modelled.
