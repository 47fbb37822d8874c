# More-Recipes client state logic in Dafny

This project models the client-side logic of the More-Recipes web app.
That is the part which turns user actions and HTTP results into state changes and visible effects:

- the recipe listing component: rows of three, the page selector, page clicks, listing responses, and the favourite button;
- the signin form: field changes, and the local validation gate in front of the `signin` thunk;
- the signup actions: the four action creators, and the `signup` thunk with its fixed sequence of dispatches and its status-code classification;
- the `recipes` slice reducer.

Every outward effect is an entry appended to a log (`Effects.Effect`).
The kinds are: a Redux dispatch, a Materialize toast, a localStorage write, a navigation, an HTTP request, and a call of the signin thunk.
The way an HTTP promise settles is an input (`Effects.Reply`, or `RecipeList.FetchResult` for the listing).
JavaScript values are the datatype `JsValue.Value`.
Property reads that throw a TypeError on `undefined`/`null` show up in the model as a `Faulted` completion, not as a precondition.

Files:

- `js_value.dfy`: values, truthiness, property reads, `String(v)`, and the own properties `Object.assign` copies.
- `effects.dfy`: actions, log entries, replies, and occurrence counting.
- `recipe_reducer.dfy`: the reducer.
- `signup_action.dfy`: the action creators and the `signup` thunk. The function `SignupRun` specifies the thunk; the methods `Signup`, `HandleResponse`, `HandleError` and `ToastFieldErrors` perform it step by step.
- `signin_form.dfy`: the `SigninForm` class.
- `recipe_list.dfy`: the row layout, the page selector, the listing state, and the `RecipeList` class.

Three behaviours of the code are worth stating up front:

- **Page after a click.** `page` is set when the click happens, to the `data-page` string rather than a number. A listing response leaves `page` alone, so after any click no selector entry is highlighted.
- **Page in the request.** `{ page }` is passed as the axios configuration, not as a query parameter, so the listing request URL is `/api/v1/recipes` for every page.
- **Missing error response.** The signup `catch` handler destructures `error.response` first. A rejection without a response, or without `response.data`, therefore throws before anything is dispatched or shown (`SignupActions.MissingResponseFaults`).

## Model

| member | source | states |
|---|---|---|
| `RecipeList.RecipeList.constructor` | client/src/components/home/RecipeList.jsx:19-26 | The initial state is no recipes, one page, and page 1 as a number. |
| `RecipeList.RecipeList.ComponentDidMount` | client/src/components/home/RecipeList.jsx:28-30 | Mounting issues one listing GET with the default empty configuration. |
| `RecipeList.RecipeList.GetRecipes` | client/src/components/home/RecipeList.jsx:44-46 | One GET of `/api/v1/recipes`. The argument travels as configuration, so the URL is the same for every page. |
| `RecipeList.RecipeList.ReceiveRecipes` | client/src/components/home/RecipeList.jsx:47-53 | A response replaces `recipes` and `pages` with that response's values. A failure changes nothing. `page` is never touched. |
| `RecipeList.ReceiveReplacesTogether` | client/src/components/home/RecipeList.jsx:47-62 | `recipes` and `pages` are replaced together from the same response. `page` is kept. Since there is no `catch`, a failure leaves the state unchanged. |
| `RecipeList.LastResponseWins` | client/src/components/home/RecipeList.jsx:44-53 | For responses arriving in any order, the final `recipes` and `pages` are those of the last response to arrive. If every request failed, the state is unchanged. |
| `RecipeList.ResponsesNeverMix` | client/src/components/home/RecipeList.jsx:44-53 | After any arrival order, `recipes` and `pages` both come from one single response, or both from the earlier state. |
| `RecipeList.RecipeList.HandlePagination` | client/src/components/home/RecipeList.jsx:65-72 | `page` becomes the clicked `data-page` string. `recipes` and `pages` are unchanged. The listing is requested with `{ page }`. |
| `RecipeList.RecipeList.Pagination` | client/src/components/home/RecipeList.jsx:74-82 | The selector loop yields exactly the entries of `PageLinks(pages, page)`. |
| `RecipeList.PageLinksEnumerate` | client/src/components/home/RecipeList.jsx:76-81 | There are exactly `pages` entries, numbered 1..pages ascending, each with its numeral as `data-page`. There are none when `pages < 1`. |
| `RecipeList.AtMostOneHighlighted` | client/src/components/home/RecipeList.jsx:79 | An entry is highlighted iff `page` is strictly equal to its number, so at most one entry is highlighted. |
| `RecipeList.ClickedPageIsNotHighlighted` | client/src/components/home/RecipeList.jsx:65-79 | After a click, `page` holds a string, so no entry is highlighted, not even the clicked one. Initially entry 1 is highlighted. |
| `RecipeList.RecipeList.RecipeRows` | client/src/components/home/RecipeList.jsx:90-95 | The chunking loop produces a row layout of the loaded recipes. |
| `RecipeList.RowLayoutHead` | client/src/components/home/RecipeList.jsx:93-94 | The first row is the first three recipes, or all of them if there are fewer. The remaining rows lay out the rest. |
| `RecipeList.RowLayoutCount` | client/src/components/home/RecipeList.jsx:93 | A layout of n recipes has ceil(n/3) rows. |
| `RecipeList.RowLayoutUnique` | client/src/components/home/RecipeList.jsx:91-95 | Two layouts of the same recipes are equal. Concatenation in order, rows of 1 to 3, and all rows but the last full together fix the rows completely. |
| `RecipeList.RowLayoutExamples` | client/src/components/home/RecipeList.jsx:92-94 | 7 recipes give rows of sizes 3, 3, 1. 0 recipes give no rows. |
| `RecipeList.RecipeList.HandleAddFavourite` | client/src/components/home/RecipeList.jsx:32-41 | Posts `{ recipeId }` to the user's favourites URL. On success the only other effect is one green "Added to favourite list" toast and the handler settles. A rejected POST has no `catch`, so it ends unhandled (`Faulted`) with nothing after the POST. A missing user throws (`Faulted`) before the post. Component state is untouched. |
| `SigninForm.SigninForm.constructor` | client/src/components/signin/SigninForm.jsx:24-29 | The initial form state is `email = ""` and `password = ""`. |
| `SigninForm.SigninForm.HandleChange` | client/src/components/signin/SigninForm.jsx:83-88 | Sets only the field named by the input's `name`. Every other field keeps its value. |
| `SigninForm.SigninForm.HandleSignin` | client/src/components/signin/SigninForm.jsx:43-55 | If validation reports errors, one red toast per error in list order and no `signin` call. If it reports none, exactly one `signin` call with the current state and no toast. |
| `SignupActions.SignupAction` | client/src/actions/signupAction.js:16-21 | `signupAction` returns `USER_SIGNUP` with the user unchanged as payload. |
| `SignupActions.RequestSignup` | client/src/actions/signupAction.js:30-35 | `requestSignup` returns `REQUEST_SIGNUP` with the flag unchanged as payload. |
| `SignupActions.LoggedIn` | client/src/actions/signupAction.js:44-49 | `loggedIn` returns `USER_LOGGEDIN` with the flag unchanged as payload. |
| `SignupActions.SignupError` | client/src/actions/signupAction.js:58-63 | `signupError` returns `SIGNUP_ERRORS` with the errors unchanged as payload. |
| `SignupActions.ActionCreatorsDistinct` | client/src/actions/signupAction.js:16-63 | The four creators never produce the same action, whatever their arguments. |
| `SignupActions.PreludeComesFirst` | client/src/actions/signupAction.js:74-99 | The four prelude dispatches (request true, user `{}`, loggedIn false, error `{}`) always come first, in order, followed by the POST. Unreadable details throw right after the prelude. |
| `SignupActions.SignupBodyFields` | client/src/actions/signupAction.js:81-99 | The request body has exactly the six signup fields, each taken from the details. Details that agree on those six give the same body, so any other field is dropped. |
| `SignupActions.SuccessSequence` | client/src/actions/signupAction.js:100-109 | On success the log after the POST is: request false, token stored under `userToken`, loggedIn true, the user action, the success toast, and navigation to `/profile`. The thunk then settles. |
| `SignupActions.SessionOnlyOnSuccess` | client/src/actions/signupAction.js:100-119 | A token is written, and loggedIn true dispatched, exactly when the signup succeeds. No failure path writes either. |
| `SignupActions.FailureReportsError` | client/src/actions/signupAction.js:111-119 | A rejection carrying `response.data` dispatches request false and then `{ error: { status, message } }`, straight after the POST. |
| `SignupActions.FieldErrorsToastEach` | client/src/actions/signupAction.js:120-123 | Status 400 shows one red toast per element of `message`, in order, each showing that element's `msg`. A null element stops the loop. A non-array `message` throws before any toast. |
| `SignupActions.SingleMessageToast` | client/src/actions/signupAction.js:124-127 | Status 401 or 409 shows exactly one toast with `message` verbatim. |
| `SignupActions.GenericFailureToast` | client/src/actions/signupAction.js:128-130 | Any other status, including a string "400", shows exactly the one generic toast. |
| `SignupActions.MissingResponseFaults` | client/src/actions/signupAction.js:111-112 | A rejection without `response` (or `response.data`) throws in the catch handler. The log ends at the POST, and request false is never dispatched. |
| `SignupActions.RequestFlagPaired` | client/src/actions/signupAction.js:76-113 | Request true is dispatched exactly once, and first. Request false is dispatched at most once, and exactly once whenever the thunk settles. |
| `SignupActions.FieldToastsShape` | client/src/actions/signupAction.js:121-123 | The 400 toast loop shows one toast per element it reaches, in order. It runs to the end iff no element is undefined or null. |
| `SignupActions.StatusToasts` | client/src/actions/signupAction.js:120-130 | The status classification: every toast is red for 5000 ms. Only status 400 can throw, and it throws at once when `message` is not an array; there it shows at most one toast per element. Every other status settles with exactly one toast. |
| `SignupActions.HandleResponse` | client/src/actions/signupAction.js:100-110 | The `then` handler's step-by-step effects equal its specification `OnResponse`. |
| `SignupActions.ToastFieldErrors` | client/src/actions/signupAction.js:120-123 | The `message.map` loop's effects and ending equal `FieldToasts`. |
| `SignupActions.HandleError` | client/src/actions/signupAction.js:111-131 | The `catch` handler's step-by-step effects equal its specification `OnError`. |
| `SignupActions.Signup` | client/src/actions/signupAction.js:74-132 | The thunk's log and ending equal `SignupRun`, which the lemmas above characterise. |
| `RecipeReducer.Reduce` | client/src/reducers/reducer_recipe.js:3-49 | `ADD_RECIPE` gives an object whose `user` is the payload. Each replacing tag gives the payload. Any other tag gives the slice back, with `undefined` defaulted to `{}`. |
| `RecipeReducer.UnrecognisedIsNoOp` | client/src/reducers/reducer_recipe.js:3-49 | An unrecognised tag returns the input slice unchanged. An undefined slice defaults to `{}`. |
| `RecipeReducer.AddRecipeSetsUser` | client/src/reducers/reducer_recipe.js:5-6 | `ADD_RECIPE` gives an object whose `user` is the payload, keeping every other property of an object slice. A null slice gives `{ user }`. |
| `RecipeReducer.ReplacingTagsReplace` | client/src/reducers/reducer_recipe.js:9-46 | Each of the ten replacing tags returns the payload, whatever the slice was. |
| `RecipeReducer.TenReplacingTags` | client/src/reducers/reducer_recipe.js:9-46 | There are ten distinct replacing tags, and `ADD_RECIPE` is not among them. |
| `RecipeReducer.DownvoteSpelling` | client/src/reducers/reducer_recipe.js:45-46 | Tags match exactly. `DONWVOTE_RECIPE` replaces the slice, while `DOWNVOTE_RECIPE` is a no-op. |
| `RecipeReducer.ReduceIdempotent` | client/src/reducers/reducer_recipe.js:3-49 | Reducing the same action twice gives the same slice as reducing it once, for every tag. |

## Left out

- server/app.js and server/config/config.js are not part of this model. They are middleware wiring and configuration lookup.
- Rendering: JSX markup, CSS classes other than the highlight test, `render`, `connect`/`mapStateToProps`, and `console.log`.
- HTTP transport. A request is a log entry.
  - The `header` constant (RecipeList.jsx:10-15) reads `localStorage.userToken` when the module loads. Log entries do not carry headers.
  - The signup body keeps `undefined` fields; JSON serialisation would drop them.
- `validator.validateSignin` is not part of this model. `HandleSignin` takes it as a function parameter.
- `signinAction` is not part of this model. The call is logged as `CallSignin` with the form state.
- Materialize, `history` and localStorage are logs only. Their calls are assumed not to throw. The stored token is `String(token)`.
- The action type constants (`actions/types`) are not part of this model. Their values are taken to be their names.
- React `setState` is modelled as an immediate assignment, without batching or deferral.
- Overlapping listing requests are modelled only as the arrival order of their results (`ReceiveAll`). There is no interleaving with clicks.
- `RecipeList.FetchResult`: a listing response whose `data.data` is not an array, or whose `data.pages` is not an integer, is not modelled. A response without `data` throws in the callback and is modelled as `Failed`.
- `RecipeList.RecipeList.HandleAddFavourite` takes the clicked element's `data-id` as an input value.
- JavaScript numbers are integers in the model. Floating point, NaN and -0 are left out, and so are the property order of objects and object identity: an object is the map of its own properties.
