# Team membership controller, modelled in Dafny

This project models the team controller of the techgames landing API
(`src/controllers/team.ts`). The controller keeps teams consistent with users. A
team has a name, an ordered `users` list and a score. A user has an e-mail and an
optional `teamId` that points back to one team. The controller has six handlers:
index, show, create, update, addUser and delete.

The two document stores are modelled as two maps: `TeamId -> Team` and
`UserId -> User`. The HTTP layer is dropped, and each handler answers a tagged
outcome: `Success`, `NotFound(message)`, `BadRequest(message)` or `ServerError`.

- `teams.dfy` (module `Teams`) defines the entities and the pure parts of the
  handlers: the create draft and the update merge. It also defines each mutating
  handler as a function from the stores and the request to the new stores and the
  outcome. These functions carry the handlers' promises in their `ensures`.
- `controller.dfy` (module `Controller`) defines class `TeamController`. It holds
  the two maps and has one method per handler. Each method does the lookups in the
  controller's order: the user id check in update is a loop with an early exit, and
  addUser looks up the user before the team. Each mutating method is proved to leave
  the stores exactly as its `Teams` function says.
- `properties.dfy` (module `Properties`) holds lemmas that relate several calls.
  They also relate a handler to the membership invariant: "a team lists a user's
  e-mail only if the user points back to that team".

The model keeps these behaviours of the code as written:
- The rename check in update is inverted. A name that no team has is rejected with
  BadRequest. A name that another team already has passes, so two teams can end up
  with the same name.
- Update does not `return` after a failed name lookup. The client gets a server
  error, but the merged team is still written.
- Update does not check that the team exists. For an unknown id the user id check
  and the name check still run first, so an unresolved user id still answers
  NotFound "User with id: … not found". Past those checks, an unknown id ends in a
  failure with no write. When `name` is falsy or `users` is absent, the code throws
  a TypeError while building the record (`src/controllers/team.ts:106-107`).
  Otherwise it reaches the store update and fails on `toJSON` of its null result.
  It never answers "Team not found".
- `addUser` appends without a duplicate check.
- `addUser` does not remove the user from a team it was in before.
- `delete` does not clear its members' `teamId`.

JavaScript truthiness is modelled for the body fields. An empty `name` counts as
absent. A `users` array counts as present even when it is empty. Update checks the
listed `users` as user ids, but addUser stores e-mails. The model keeps that
mismatch: a team's `users` is a list of plain strings.

addUser has no distinct partial-failure outcome. When the user save fails after the
team write, the catch at `src/controllers/team.ts:143-144` answers a generic server
error, and the model does the same.

## Model

| member | source | states |
|---|---|---|
| `Controller.TeamController.Index` | src/controllers/team.ts:12-19 | index answers every team in the team store |
| `Controller.TeamController.Show` | src/controllers/team.ts:27-33 | show answers the stored team for a known id and NotFound "Team not found" otherwise; it has no modifies clause, so neither store changes |
| `Teams.UserByEmail` | src/controllers/team.ts:125 | find-by-email gives a user whose e-mail matches, and gives none exactly when no user has that e-mail |
| `Controller.TeamController.FindUserByEmail` | src/controllers/team.ts:125 | the lookup agrees with `UserByEmail`; the user store's e-mail uniqueness makes the answer unique |
| `Teams.FirstMissingIndex` | src/controllers/team.ts:79-91 | the index where the id check stops: every earlier id resolves, and the id at that index does not resolve (or the index is the list's end) |
| `Teams.FirstMissing` | src/controllers/team.ts:79-91 | there is no missing id exactly when every listed id resolves; a reported id does not resolve and is the first such id in the list (every id before it resolves) |
| `Controller.TeamController.FindMissingUser` | src/controllers/team.ts:80-91 | the loop over the listed ids stops at the first id the user store lacks and reports it; it reports nothing when all resolve |
| `Teams.NameTaken` | src/controllers/team.ts:46-47 | the truth test on the store's find-by-name, used at create (:46-47) and in the inverted rename check (:95-96): false exactly when every stored team has a different name, so find-by-name finds nothing |
| `Teams.Draft` | src/controllers/team.ts:51-56 | the record create stores: the request name, users [] and score 0, whatever else the body carries |
| `Teams.Merge` | src/controllers/team.ts:104-108 | the record update writes: a truthy name and a present users list override, otherwise the stored values stay; a supplied score overrides; an empty patch gives back the stored team |
| `Teams.CreateStep` | src/controllers/team.ts:46-57 | create succeeds exactly when no team has the name. On a duplicate it answers BadRequest "Team already exists" and nothing changes. On success it adds one team under the new id, with the request name, no users and score 0, whatever else the body says; no other team and no user changes |
| `Controller.TeamController.Create` | src/controllers/team.ts:40-65 | the create handler leaves the stores and answers exactly as `CreateStep` says |
| `Teams.UpdateStep` | src/controllers/team.ts:72-114 | update never touches users and writes at most the merged record. The first listed id that does not resolve aborts with NotFound "User with id: … not found" and no write. A truthy new name that no team has is rejected with BadRequest (the inverted check), with no write. Update succeeds exactly when the team is known, every listed id resolves, and the name is falsy or (the lookup succeeding) already held by some team. Then the merged record is written and answered: a falsy name and an absent list are kept from the stored team. A failed name lookup answers ServerError, but the write still happens. An unknown team id fails with no write |
| `Controller.TeamController.Update` | src/controllers/team.ts:67-116 | the update handler (user id loop, name check, merge, write) leaves the stores and answers exactly as `UpdateStep` says |
| `Teams.AddUserStep` | src/controllers/team.ts:125-141 | an unknown e-mail gives "User not found" whatever the team; a known user with an unknown team gives "Team not found"; both change nothing. Otherwise the team's list gets the e-mail appended, and no other team changes. On success the user's `teamId` is the team and no other user changes. If the user save fails, the answer is ServerError, the team write stays, and no user changes |
| `Controller.TeamController.AddUser` | src/controllers/team.ts:118-147 | the addUser handler (user lookup, team lookup, append, team write, user write) leaves the stores and answers exactly as `AddUserStep` says |
| `Teams.DeleteStep` | src/controllers/team.ts:155-161 | delete of an unknown id answers NotFound "Team not found" and changes nothing. Otherwise it removes only that team and answers the team's state before the delete. The user store is never touched |
| `Controller.TeamController.Delete` | src/controllers/team.ts:149-166 | the delete handler leaves the stores and answers exactly as `DeleteStep` says |
| `Properties.AddUserTwiceRepeatsEmail` | src/controllers/team.ts:129-130 | two successful addUser calls with the same e-mail and team list the e-mail twice |
| `Properties.AddUserKeepsMembershipConsistent` | src/controllers/team.ts:129-132 | from a consistent state, a successful addUser of an unaffiliated user (or one already pointing at this team) keeps the membership invariant |
| `Properties.SaveFailureBreaksMembership` | src/controllers/team.ts:130-132 | if the user save fails after the team write, the team lists the user but the user does not point back |
| `Properties.MovingUserLeavesStaleEntry` | src/controllers/team.ts:125-133 | adding a user who is listed in another team succeeds, and that other team still lists the e-mail, which breaks the membership invariant |
| `Properties.DeleteLeavesDanglingReference` | src/controllers/team.ts:155-158 | after a team is deleted, a member still points at the deleted team's id |
| `Properties.CreateKeepsNamesUnique` | src/controllers/team.ts:46-57 | create keeps team names unique |
| `Properties.RenameToTakenNameDuplicates` | src/controllers/team.ts:93-110 | renaming a team to a name that another team holds succeeds, and leaves two teams with the same name |
| `Properties.RenameToFreshNameRejected` | src/controllers/team.ts:93-99 | renaming to a name that no team holds is rejected with BadRequest, and nothing changes |
| `Properties.UpdateEmptyPatchKeepsTeam` | src/controllers/team.ts:104-110 | an update with an empty body answers the stored team and leaves both stores unchanged |
| `Properties.AlphaScenario` | src/controllers/team.ts:46-59 | creating "Alpha" gives a team with no users and score 0. Adding an unaffiliated user lists the e-mail and points the user at the team. Creating "Alpha" again answers "Team already exists" and changes nothing |

## Left out

- The Express request and response objects, status codes and `errorMessage` formatting are left out. Each handler answers only an outcome tag and its message.
- `validationResult` and the MISSING_PARAMS branches are left out. The external validator is assumed to have passed the request.
- Mongoose internals are left out. `new Team(...)` and `_id` generation become a fresh id that the caller of `Create` passes in (`newId !in teams`). `user.save()` becomes a map update; `toJSON()` is dropped, and the handler answers the record itself. `teamDBInteractions` and `userDBInteractions` are not part of this model. Their update is assumed to overwrite only the fields it is given, to return the new record, and to write nothing for an unknown id.
- Extra fields spread from `req.body` are left out. Only `name`, `users` and `score` are modelled. On create, the body's `users` and `score` are carried and then ignored.
- async/await and concurrent requests are left out, and so is the lost append when two addUser calls race on one team. Each handler is one atomic step.
- Store failures are left out, except two that are failure flags: the update name lookup (`nameLookupFails`) and the addUser user save (`saveFails`). Every other failing store call would answer SERVER_ERROR with no write; it is not modelled.
- `Controller.TeamController.Update`: an unknown team id is modelled as `ServerError` with no write. The code instead throws (`foundTeam.name` on null) and may send no response, or fails on `toJSON` of a null update result.
- Index returns the team map rather than an ordered array, because the store's listing order is not visible.
