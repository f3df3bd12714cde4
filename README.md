# Meetup app: entity projections and the HTTP gateway, in Dafny

This project models the two parts of the meetup application that carry rules:

* **The projection layer** (`Application/Core/MappingProfiles.cs`). It maps the
  entities Activity, ActivityAttendee, User (with its photos, followers and
  followings) and Comment onto the transport records ActivityDto, AttendeeDto,
  UserActivityDto, Profile and CommentDto. The derived fields are a host
  username (the first attendee flagged host), a main-photo url (the first photo
  flagged main), follower and following counts, and a "the viewer follows this
  user" flag. Entities and DTOs are immutable datatypes and every map rule is a
  function, so it is pure by construction: mapping the same graph with the same
  viewer gives the same DTO, and nothing is written back. The profile's captured
  `currentUsername`, `null` unless the projection supplies a value, is an
  explicit `viewer: Option<string>` argument.
* **The client gateway** (`client-app/src/app/api/agent.ts`). It has three
  interceptors:
  * the request interceptor attaches `Authorization: Bearer <token>`;
  * the response interceptor rewraps the body as a paginated result when a
    `pagination` header is present;
  * the error handler dispatches on the HTTP status.

  The common store's `token` and `serverError`, and a logged-in flag, are fields
  of the class `ClientStore`. The request config and the success response are
  classes, because the interceptors overwrite their `headers` and `data` in
  place. The handler's calls to `history.push`, `toast.error`, `console.log`,
  `userStore.logout` and `commonStore.setServerError` are returned as an ordered
  list of `Effect`s. How the call settles is an `Outcome`:
  * resolve;
  * reject with the original error;
  * reject with the flattened validation messages;
  * reject with an exception the handler itself throws.

  The pure function `Agent.Classify` states the dispatch. The method
  `ClientStore.InterceptError` performs it step by step, and its contract says it
  agrees with `Classify`. The `for…in` loop that gathers the validation messages
  is a method with a loop invariant. It is proved against the specification
  function `ModalStateErrors`.
  The endpoint builders are functions from their arguments to a verb and a URL.

JavaScript's value semantics, as far as the handler depends on them, are in the
module `JsValues`:
* truthiness;
* reading a property, which throws a TypeError on `null` and `undefined`;
* `hasOwnProperty`;
* the keys a `for…in` loop visits;
* `flat()` by one level.

Files: `wrappers.dfy` (Option), `entities.dfy`, `dtos.dfy`,
`mapping_profiles.dfy`, `js_values.dfy`, `agent.dfy`, `endpoints.dfy`
(modules Requests, Activities, Account, Profiles), `gateway_scenarios.dfy`.

The model keeps these behaviours of the code:

* There is no default image. When no photo is main, `Image` is absent. The
  `/assets/user.png` fallback belongs to the React components.
* A 400 on a GET whose body is a string first shows the toast. At agent.ts:51
  `data.errors` of a string is `undefined`, and reading `hasOwnProperty` of
  `undefined` throws a TypeError. The call therefore rejects with that
  TypeError, not with the original error. The same happens on a GET whose
  object body has no `errors` or a `null` one.
* A 401 whose response has no `www-authenticate` header throws a TypeError at
  agent.ts:68, after the two console lines.
* If an error has no response at all, the destructuring at agent.ts:44 throws.
* agent.ts itself performs no navigation on 401. It calls `userStore.logout`
  and shows the session-expired toast.

## Model

| member | source | states |
|---|---|---|
| `MappingProfiles.HostUsername` | Application/Core/MappingProfiles.cs:17-20 | the result is the username of the first attendee, in attendee order, flagged host; absent exactly when no attendee is host |
| `MappingProfiles.FirstHostExists` | Application/Core/MappingProfiles.cs:19-20 | if any attendee is host, a first host exists |
| `MappingProfiles.HostUsernameDetermined` | Application/Core/MappingProfiles.cs:19-20 | the first-host rule admits exactly one value |
| `MappingProfiles.SoleHost` | Application/Core/MappingProfiles.cs:17-20 | with exactly one attendee flagged host, the DTO's host is that attendee's username |
| `MappingProfiles.MainPhotoUrl` | Application/Core/MappingProfiles.cs:29-30 | the url of the first photo flagged main; absent exactly when none is main (no default path) |
| `MappingProfiles.FirstMainExists` | Application/Core/MappingProfiles.cs:29-30 | if any photo is main, a first main photo exists |
| `MappingProfiles.MainPhotoUrlDetermined` | Application/Core/MappingProfiles.cs:53-54 | the main-photo rule admits exactly one value |
| `MappingProfiles.IsFollowing` | Application/Core/MappingProfiles.cs:35-36 | true iff some follower edge's observer username equals the viewer; false for no followers and for no viewer |
| `MappingProfiles.MapActivityOnto` | Application/Core/MappingProfiles.cs:15 | mapping an activity onto another overwrites every member with the source's |
| `MappingProfiles.ToAttendeeDto` | Application/Core/MappingProfiles.cs:22-36 | display name, username and bio copied from the user; image per the main-photo rule; counts equal the sizes of followers and followings; following iff the viewer is among the followers |
| `MappingProfiles.ToActivityDto` | Application/Core/MappingProfiles.cs:17-20 | host per the first-host rule; scalar members copied; attendees mapped one by one, in order, by the attendee map |
| `MappingProfiles.ToUserActivityDto` | Application/Core/MappingProfiles.cs:38-50 | id, title, category, date and cancellation flag are the activity's; host per the first-host rule over the activity's attendees |
| `MappingProfiles.ToProfile` | Application/Core/MappingProfiles.cs:52-60 | image per the main-photo rule; counts are the sizes of followers and followings; following iff the viewer is among the followers; username, display name and bio copied |
| `MappingProfiles.ToCommentDto` | Application/Core/MappingProfiles.cs:62-68 | display name and username from the author; image per the main-photo rule over the author's photos |
| `MappingProfiles.UserActivityHostAgrees` | Application/Core/MappingProfiles.cs:49-50 | a user's activity names the same host as the activity's own DTO, for every viewer |
| `MappingProfiles.AttendeeAgreesWithProfile` | Application/Core/MappingProfiles.cs:29-36 | an attendee is projected with exactly the fields its user's profile gets |
| `MappingProfiles.ViewerOnlyAffectsFollowing` | Application/Core/MappingProfiles.cs:52-60 | two viewers get profiles that differ at most in the following flag |
| `MappingProfiles.CommentAgreesWithProfile` | Application/Core/MappingProfiles.cs:62-68 | a comment shows its author's username, display name and profile image |
| `MappingProfiles.DefaultViewerFollowsNobody` | Application/Core/MappingProfiles.cs:13 | with the default null viewer the flag is false; with no followers it is false for every viewer |
| `JsValues.Truthy` | client-app/src/app/api/agent.ts:25 | `undefined` and `null` are never truthy; every array and every object is truthy |
| `JsValues.Lookup` | client-app/src/app/api/agent.ts:58 | a property read gives the value of the first property with that key, `undefined` when there is none |
| `JsValues.Get` | client-app/src/app/api/agent.ts:51 | reading a property throws exactly on null and undefined; on an object it is a lookup, on an array an element |
| `JsValues.HasOwnProperty` | client-app/src/app/api/agent.ts:51 | throws exactly on null and undefined; true exactly for an object owning the key |
| `JsValues.DistinctKeys` | client-app/src/app/api/agent.ts:57 | every key of the object, each once |
| `JsValues.ForInKeys` | client-app/src/app/api/agent.ts:57 | `for…in` visits an object's distinct keys, an array's indices, nothing for primitives other than strings |
| `JsValues.FlatAppend` | client-app/src/app/api/agent.ts:62 | one-level flattening distributes over concatenation |
| `JsValues.FlatMembers` | client-app/src/app/api/agent.ts:62 | the flattened list holds exactly the non-array elements and the items of the array elements |
| `JsValues.FlatWithoutArrays` | client-app/src/app/api/agent.ts:62 | a list without arrays is left unchanged |
| `Agent.Occurrences` | client-app/src/app/api/agent.ts:65-72 | the number of times the effect occurs in the list, as its multiplicity in the list's multiset; zero exactly when absent |
| `Agent.HasToken` | client-app/src/app/api/agent.ts:25 | a token counts exactly when, as a JavaScript value (`null` when absent), it is truthy |
| `Agent.AuthorizedHeaders` | client-app/src/app/api/agent.ts:24-29 | with a truthy token the headers become exactly one `Authorization` entry, `"Bearer "` followed by the token, replacing the old ones; otherwise unchanged |
| `Agent.ClientStore.InterceptRequest` | client-app/src/app/api/agent.ts:20-31 | returns the same config, whose headers are now the authorized headers and whose other fields are unchanged |
| `Agent.PaginationHeader` | client-app/src/app/api/agent.ts:37-38 | present exactly when the `pagination` header, read as a JavaScript value, is truthy; then it holds the header's string |
| `Agent.PaginatedResult` | client-app/src/app/api/agent.ts:39 | an object exposing the original body as `data` and the metadata as `pagination`, with exactly those two keys |
| `Agent.InterceptResponse` | client-app/src/app/api/agent.ts:33-42 | without the header the response passes unchanged; with it the body becomes the paginated result of the old body and the parsed metadata; a parse failure rejects with a SyntaxError and leaves the body |
| `Agent.TruthyValues` | client-app/src/app/api/agent.ts:57-60 | keeps only truthy values, at most one per key |
| `Agent.TruthyValuesMembers` | client-app/src/app/api/agent.ts:57-60 | a value is pushed exactly when some visited key holds it and it is truthy |
| `Agent.TruthyValuesSnoc` | client-app/src/app/api/agent.ts:58-59 | visiting one more key pushes its value exactly when that value is truthy |
| `Agent.TruthyValuesAppend` | client-app/src/app/api/agent.ts:57-60 | visiting two runs of keys in turn pushes the first run's values, then the second's |
| `Agent.TruthyOnlyMembers` | client-app/src/app/api/agent.ts:58 | the reference filter `TruthyOnly` keeps exactly the truthy elements of the list |
| `Agent.TruthyOnlySnoc` | client-app/src/app/api/agent.ts:58-59 | filtering a list extended by one value appends that value exactly when it is truthy |
| `Agent.TruthyOnlyOfTruthy` | client-app/src/app/api/agent.ts:58 | a list with no falsy element is kept whole |
| `Agent.ModalStateErrors` | client-app/src/app/api/agent.ts:56-62 | an `errors` value without keys (number, boolean) yields no messages |
| `Agent.ModalStateErrorsMembers` | client-app/src/app/api/agent.ts:56-62 | the messages are exactly the items of the truthy values found under the visited keys, a non-array value contributing itself |
| `Agent.CollectModalStateErrors` | client-app/src/app/api/agent.ts:56-62 | the loop's result is the one-level flattening of the truthy values under the `for…in` keys |
| `Agent.TruthyValuesOfObject` | client-app/src/app/api/agent.ts:57-60 | for an object with distinct keys the pushed values are its truthy values, in key order, falsy ones skipped |
| `Agent.ValidationMessages` | client-app/src/app/api/agent.ts:55-62 | for an errors object with distinct keys, the thrown list is the flattening of its truthy values in key order |
| `Agent.DistinctKeysOfDistinct` | client-app/src/app/api/agent.ts:57 | with distinct keys the loop visits the keys as written, in order |
| `Agent.ValidationMessagesInKeyOrder` | client-app/src/app/api/agent.ts:55-62 | for an errors object of message arrays, the thrown list is the arrays concatenated in key order |
| `Agent.ValidationStep` | client-app/src/app/api/agent.ts:55-64 | null or undefined body throws; an object body with truthy `errors` rejects with its flattened messages; an object body with missing or falsy `errors`, and a primitive body, reject with the original error; the effects so far are kept |
| `Agent.ClassifyBadRequest` | client-app/src/app/api/agent.ts:46-64 | a string body is toasted first; the only other effect is the not-found navigation, and only on a GET; never resolves; a rejection carries the original error; messages only for an object body; the only exception is a TypeError |
| `Agent.HeaderValue` | client-app/src/app/api/agent.ts:67-68 | a header the response lacks reads as `undefined`, a present one as its string |
| `Agent.ClassifyUnauthorized` | client-app/src/app/api/agent.ts:65-72 | the first two effects are the console lines `401` and the challenge header; rejects with the original error, or throws a TypeError exactly when the header is missing; logs out exactly for the invalid-token challenge |
| `Agent.Classify` | client-app/src/app/api/agent.ts:43-85 | a failed call never resolves; a plain rejection carries the original error; only a 400 rejects with messages; a response-less error throws and does nothing else |
| `Agent.NotFound` | client-app/src/app/api/agent.ts:73-75 | a 404 navigates to `/not-found`, has no other effect, and rejects with the original error |
| `Agent.ServerError` | client-app/src/app/api/agent.ts:76-79 | a 500 stores the body as server error, then navigates to `/server-error`, and rejects with the original error |
| `Agent.OtherStatus` | client-app/src/app/api/agent.ts:80-84 | any other status has no effect and rejects with the original error |
| `Agent.Unauthorized` | client-app/src/app/api/agent.ts:65-72 | logout happens iff `www-authenticate` starts with `Bearer error="invalid_token"`, the session-expired toast iff logout, each at most once; a missing header throws |
| `Agent.BadRequestWithErrors` | client-app/src/app/api/agent.ts:46-63 | with a truthy errors map the call rejects with the flattened messages, not the original error; a GET has exactly the one `/not-found` navigation when errors owns `id` and no effect otherwise; other verbs cause no effect |
| `Agent.BadRequestWithoutErrors` | client-app/src/app/api/agent.ts:46-64 | an object body with missing or falsy `errors` has no effect and rejects with the original error, except on a GET with missing or `null` `errors`, which throws a TypeError |
| `Agent.BadRequestWithStringBody` | client-app/src/app/api/agent.ts:47-53 | a string body is shown as a toast; on a GET the handler then throws a TypeError, otherwise it rejects with the original error |
| `Agent.ClientStore.SetServerError` | client-app/src/app/api/agent.ts:77 | the store's server error becomes the body; nothing else changes |
| `Agent.ClientStore.ClearSession` | client-app/src/app/api/agent.ts:69 | the token is cleared and no one is logged in; the server error is kept |
| `Agent.ClientStore.InterceptError` | client-app/src/app/api/agent.ts:43-85 | performs the effects and outcome of `Classify`; stores the body exactly on 500; clears the session exactly when it logs out |
| `Requests.MethodName` | client-app/src/app/api/agent.ts:89-93 | the recorded method is `"get"` exactly for GET |
| `Requests.Surround` | client-app/src/app/api/agent.ts:100 | the URL is the prefix, the argument and the suffix, as they are |
| `Requests.SurroundsInjective` | client-app/src/app/api/agent.ts:100 | within one fixed frame, equal URLs mean equal arguments |
| `Activities.List` | client-app/src/app/api/agent.ts:97-99 | GET `/activities` with the given query parameters |
| `Activities.Details` | client-app/src/app/api/agent.ts:100 | GET `/activities/` followed by the id |
| `Activities.Create` | client-app/src/app/api/agent.ts:101 | POST `/activities` |
| `Activities.Update` | client-app/src/app/api/agent.ts:102 | PUT `/activities/` followed by the activity's id |
| `Activities.Delete` | client-app/src/app/api/agent.ts:103 | DELETE `/activities/` followed by the id |
| `Activities.Attend` | client-app/src/app/api/agent.ts:104 | POST `/activities/` followed by the id and `/attend` |
| `Activities.SameResource` | client-app/src/app/api/agent.ts:100-104 | details, update and delete share one URL; attend appends `/attend` to it |
| `Activities.DetailsInjective` | client-app/src/app/api/agent.ts:100 | different ids give different detail URLs |
| `Account.Current` | client-app/src/app/api/agent.ts:108 | GET `/account` |
| `Account.FbLogin` | client-app/src/app/api/agent.ts:109 | POST `/account/fbLogin?accessToken=` followed by the token, unescaped |
| `Account.Login` | client-app/src/app/api/agent.ts:110 | POST `/account/login` |
| `Account.Logout` | client-app/src/app/api/agent.ts:111 | GET `/account/logout` |
| `Account.Register` | client-app/src/app/api/agent.ts:112 | POST `/account/register` |
| `Account.RefreshToken` | client-app/src/app/api/agent.ts:113 | POST `/account/refreshToken` |
| `Profiles.DeletePhoto` | client-app/src/app/api/agent.ts:117 | DELETE `/photos/` followed by the id |
| `Profiles.EditProfile` | client-app/src/app/api/agent.ts:118 | PUT `/profiles` |
| `Profiles.Get` | client-app/src/app/api/agent.ts:119 | GET `/profiles/` followed by the username |
| `Profiles.ListFollowings` | client-app/src/app/api/agent.ts:120 | GET `/follow/` followed by the username, `?predicate=` and the predicate |
| `Profiles.ListUserActivities` | client-app/src/app/api/agent.ts:121 | GET `/profiles/` followed by the username, `/activities?predicate=` and the predicate |
| `Profiles.SetMainPhoto` | client-app/src/app/api/agent.ts:122 | POST `/photos/` followed by the id and `/setmain` |
| `Profiles.UpdateFollowing` | client-app/src/app/api/agent.ts:130 | POST `/follow/` followed by the username |
| `Profiles.FollowResource` | client-app/src/app/api/agent.ts:120 | the followings list is the follow URL plus the predicate query |
| `Profiles.ListFollowingsAmbiguous` | client-app/src/app/api/agent.ts:120 | nothing is escaped, so two different argument pairs can produce the same URL |
| `GatewayScenarios.ValidationExample` | client-app/src/app/api/agent.ts:55-62 | `{"errors":{"title":["required"],"date":["required"]}}` on a POST rejects with `["required","required"]` and has no effect |
| `GatewayScenarios.TitleAndDateMessages` | client-app/src/app/api/agent.ts:55-62 | a two-field errors object of message arrays yields the title messages followed by the date messages |
| `GatewayScenarios.MixedErrors` | client-app/src/app/api/agent.ts:57-62 | `{"title":["x"],"date":null}` yields `["x"]`: the falsy entry is skipped |
| `GatewayScenarios.DetailsOfMissingActivity` | client-app/src/app/api/agent.ts:51-62 | a 400 to `Activities.details` whose errors name `id` navigates to `/not-found` and rejects with the id messages |
| `GatewayScenarios.ExpiredSession` | client-app/src/app/api/agent.ts:65-72 | an invalid-token 401 logs twice, logs out once, toasts once, and rejects with the original error |

## Left out

- The development-only one-second delay (agent.ts:12-16, 34-35) is left out, because it only depends on timing and the build environment.
- Axios transport, promises and async sequencing are left out. Each interceptor is a step from a config, response or error to a result. `requests` and `responseBody` (agent.ts:87-94) only hand `response.data` to the caller, so they have no model beyond the builders.
- `JSON.parse` of the pagination header is a parameter `parse`. A parse failure is `None`, which stands for a SyntaxError. The `PaginatedResult` class (models/pagination.ts) is not part of this model, and it is taken to store its two constructor arguments as `data` and `pagination`.
- The multipart photo upload (agent.ts:123-129) is left out, because it is `FormData` plumbing.
- The React components (ActivityListItem.tsx, ProfileCard.tsx) and their `/assets/user.png` fallback are left out, because they are presentation. Store wiring (store.ts) is reduced to the three fields the gateway touches.
- Agent.ClientStore.ClearSession: `userStore.logout` is not part of this model. The handler's call to it is recorded as the `Logout` effect. Its effect on the session is modelled only as clearing the token and the logged-in flag.
- JavaScript numbers are integers here, so floating point and NaN are not modelled. Truthiness is exact for the other values.
- JsValues.ForInKeys: it keeps the order in which object keys were inserted. It does not move integer-like keys to the front, which JavaScript does. Inherited enumerable properties are left out, because a JSON body has none.
- JsValues.Get and JsValues.ForInKeys index a string by character. JavaScript indexes strings by UTF-16 code unit, so the two differ for characters outside the Basic Multilingual Plane.
- JsValues.HasOwnProperty is true only for an object owning a named key. In JavaScript `["x"].hasOwnProperty("0")` is true, since an array owns its index names; the handler only asks an `errors` value for `id`, so this does not matter there.
- JsValues.Truthy: its contract states only that `undefined` and `null` are falsy and that arrays and objects are truthy. The rest of the falsy list (`false`, `0`, `""`) is in its body alone, because a contract naming all five values makes the proofs that use truthiness too costly.
- JsValues.Flat has no contract of its own. Its properties are stated by FlatMembers, FlatAppend and FlatWithoutArrays, because a membership contract on the function itself makes every proof that unfolds it too costly.
- JsValues.HasOwnProperty and JsValues.Get ignore an array's or string's `length` and prototype members. The handler never asks for those, because it only asks for `errors` and `id`.
- The source's entity graph is cyclic. A follow edge keeps only the usernames of its observer and target, and the user-side view of an attendance is paired with its activity (`Attendance`).
- Usernames are non-null strings, so the null-equals-null case of the following comparison is not modelled. With the default null viewer the flag is false.
- Members that the rules do not name are taken to be copied unchanged, as AutoMapper does with same-named members. This covers ActivityDto's scalar fields and attendee list, Profile's username, display name and bio, and CommentDto's id, body and date. Members of the DTO classes that are not shown here (for example a profile's photo list) are left out.
- MappingProfiles.MapActivityOnto: AutoMapper's handling of the attendee collection when mapping onto a tracked entity is not modelled. The whole source value is taken.
