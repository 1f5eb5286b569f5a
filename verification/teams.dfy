/** Entities of the team service and the meaning of each team-controller handler,
    stated as a function from the two stores (and the request) to the new stores and the
    outcome. The class in controller.dfy runs the handlers step by step and is proved to
    agree with these functions; properties.dfy relates several calls. */
module Teams {

  datatype Option<T> = None | Some(value: T)

  /** Store-assigned identifiers and the e-mail join key are all strings. */
  type TeamId = string
  type UserId = string
  type Email = string

  /** A team's `users` list holds e-mails when filled by add-user, but user ids when
      replaced by update, so it is kept as plain strings. */
  datatype Team = Team(name: string, users: seq<string>, score: int)

  /** A user; `teamId` is the optional back-reference to one team. */
  datatype User = User(email: Email, teamId: Option<TeamId>)

  /** The team store and the user store, keyed by their ids. */
  datatype Store = Store(teams: map<TeamId, Team>, users: map<UserId, User>)

  /** What a handler answers: the success value or one of the error kinds it sends. */
  datatype Outcome<T> =
    | Success(value: T)
    | NotFound(message: string)
    | BadRequest(message: string)
    | ServerError

  /** The stores after a handler has run, with its answer. */
  datatype Step<T> = Step(store: Store, out: Outcome<T>)

  /** The fields of a create request body that the model follows. */
  datatype CreateBody = CreateBody(name: string, users: Option<seq<string>>, score: Option<int>)

  /** The fields of an update request body; a field that is absent is None. */
  datatype TeamPatch = TeamPatch(name: Option<string>, users: Option<seq<UserId>>, score: Option<int>)

  const TeamNotFound := "Team not found"
  const UserNotFound := "User not found"
  const TeamExists := "Team already exists"

  function UserIdNotFound(id: UserId): string { "User with id: " + id + " not found" }

  /** The message of the rename check (it says "already exists" although it is sent when no
      team has that name). */
  function NameAlreadyExists(name: string): string { "Team with name: " + name + " already exists" }

  /** A string field of the request body tests true in JavaScript: present and not empty. */
  predicate Truthy(field: Option<string>) { field.Some? && field.value != "" }

  /** Some team in the store carries this exact name (the store's find-by-name succeeds). */
  function NameTaken(teams: map<TeamId, Team>, name: string): (b: bool)
    ensures !b <==> forall id :: id in teams ==> teams[id].name != name
  {
    exists id :: id in teams && teams[id].name == name
  }

  ghost predicate UniqueNames(teams: map<TeamId, Team>) {
    forall a, b :: a in teams && b in teams && teams[a].name == teams[b].name ==> a == b
  }

  /** E-mail is the user store's unique key. */
  ghost predicate UniqueEmails(users: map<UserId, User>) {
    forall a, b :: a in users && b in users && users[a].email == users[b].email ==> a == b
  }

  /** Every team listing a user's e-mail is the team the user points back to. */
  ghost predicate MembershipConsistent(s: Store) {
    forall tid, uid :: tid in s.teams && uid in s.users && s.users[uid].email in s.teams[tid].users
      ==> s.users[uid].teamId == Some(tid)
  }

  /** Every back-reference names a team that exists. */
  ghost predicate NoDanglingTeamRefs(s: Store) {
    forall uid :: uid in s.users && s.users[uid].teamId.Some? ==> s.users[uid].teamId.value in s.teams
  }

  /** Only the entry at `id` may differ between the two maps, and no key is added or removed. */
  ghost predicate OthersUnchanged<K, V>(before: map<K, V>, after: map<K, V>, id: K) {
    after.Keys == before.Keys && forall k :: k in before && k != id ==> after[k] == before[k]
  }

  /** The store's find-by-email. */
  ghost function UserByEmail(users: map<UserId, User>, email: Email): (r: Option<UserId>)
    ensures r.Some? ==> r.value in users && users[r.value].email == email
    ensures r.None? <==> forall uid :: uid in users ==> users[uid].email != email
  {
    if exists uid :: uid in users && users[uid].email == email then
      Some(var uid :| uid in users && users[uid].email == email; uid)
    else
      None
  }

  /** Index of the first id that the user store does not resolve (|ids| when all resolve). */
  function FirstMissingIndex(ids: seq<UserId>, users: map<UserId, User>): (k: nat)
    ensures k <= |ids|
    ensures forall j :: 0 <= j < k ==> ids[j] in users
    ensures k < |ids| ==> ids[k] !in users
  {
    if ids == [] then 0
    else if ids[0] !in users then 0
    else
      var k := 1 + FirstMissingIndex(ids[1..], users);
      assert forall j :: 1 <= j < k ==> ids[j] == ids[1..][j - 1];
      k
  }

  /** The first unresolved id of the list, if any. */
  function FirstMissing(ids: seq<UserId>, users: map<UserId, User>): (r: Option<UserId>)
    ensures r.None? <==> forall j :: 0 <= j < |ids| ==> ids[j] in users
    ensures r.Some? ==> r.value !in users && r.value in ids
    ensures r.Some? ==> exists k :: 0 <= k < |ids| && ids[k] == r.value && forall j :: 0 <= j < k ==> ids[j] in users
  {
    var k := FirstMissingIndex(ids, users);
    if k < |ids| then Some(ids[k]) else None
  }

  /** The record create stores: the request name, no users, score 0, whatever else the body says. */
  function Draft(body: CreateBody): (r: Team)
    ensures r.name == body.name && r.users == [] && r.score == 0
  {
    Team(body.name, [], 0)
  }

  /** The record update writes: the patch overrides, except that a falsy name and an absent
      user list fall back to the stored team. */
  function Merge(found: Team, patch: TeamPatch): (r: Team)
    ensures r.name == (if Truthy(patch.name) then patch.name.value else found.name)
    ensures patch.users.None? ==> r.users == found.users
    ensures patch.users.Some? ==> r.users == patch.users.value
    ensures r.score == (if patch.score.Some? then patch.score.value else found.score)
    ensures patch == TeamPatch(None, None, None) ==> r == found
  {
    Team(if Truthy(patch.name) then patch.name.value else found.name,
         if patch.users.Some? then patch.users.value else found.users,
         if patch.score.Some? then patch.score.value else found.score)
  }

  /** Create: reject a name already in use, otherwise store the draft under a fresh id. */
  ghost function CreateStep(s: Store, body: CreateBody, newId: TeamId): (r: Step<Team>)
    requires newId !in s.teams
    ensures r.out.Success? <==> !NameTaken(s.teams, body.name)
    ensures !r.out.Success? ==> r.out == BadRequest(TeamExists) && r.store == s
    ensures r.out.Success? ==>
      && r.out.value.name == body.name && r.out.value.users == [] && r.out.value.score == 0
      && r.store.teams.Keys == s.teams.Keys + {newId}
      && r.store.teams[newId] == r.out.value
      && (forall id :: id in s.teams ==> r.store.teams[id] == s.teams[id])
      && r.store.users == s.users
  {
    if NameTaken(s.teams, body.name) then Step(s, BadRequest(TeamExists))
    else
      var team := Draft(body);
      Step(Store(s.teams[newId := team], s.users), Success(team))
  }

  /** Update: check every listed user id, then (inverted) require the new name to exist,
      then write the merged record. A failed name lookup answers ServerError but the write
      still happens. An unknown team id fails without a write. */
  ghost function UpdateStep(s: Store, teamId: TeamId, patch: TeamPatch, nameLookupFails: bool): (r: Step<Team>)
    ensures r.store.users == s.users
    ensures r.store == s || (teamId in s.teams && r.store.teams == s.teams[teamId := Merge(s.teams[teamId], patch)])
    ensures patch.users.Some? && FirstMissing(patch.users.value, s.users).Some? ==>
      r == Step(s, NotFound(UserIdNotFound(FirstMissing(patch.users.value, s.users).value)))
    ensures ((patch.users.None? || FirstMissing(patch.users.value, s.users).None?)
             && Truthy(patch.name) && !nameLookupFails && !NameTaken(s.teams, patch.name.value)) ==>
      r == Step(s, BadRequest(NameAlreadyExists(patch.name.value)))
    ensures r.out.Success? ==>
      && teamId in s.teams
      && (Truthy(patch.name) ==> !nameLookupFails && NameTaken(s.teams, patch.name.value))
      && r.out.value == Merge(s.teams[teamId], patch)
      && r.store.teams == s.teams[teamId := r.out.value]
    ensures (teamId in s.teams && (patch.users.None? || FirstMissing(patch.users.value, s.users).None?)
             && (!Truthy(patch.name) || (!nameLookupFails && NameTaken(s.teams, patch.name.value)))) ==>
      r == Step(Store(s.teams[teamId := Merge(s.teams[teamId], patch)], s.users),
                Success(Merge(s.teams[teamId], patch)))
    ensures teamId !in s.teams ==> r.store == s && !r.out.Success?
    ensures (teamId in s.teams && (patch.users.None? || FirstMissing(patch.users.value, s.users).None?)
             && Truthy(patch.name) && nameLookupFails) ==>
      r.out == ServerError && r.store.teams == s.teams[teamId := Merge(s.teams[teamId], patch)]
  {
    if patch.users.Some? && FirstMissing(patch.users.value, s.users).Some? then
      Step(s, NotFound(UserIdNotFound(FirstMissing(patch.users.value, s.users).value)))
    else if Truthy(patch.name) && !nameLookupFails && !NameTaken(s.teams, patch.name.value) then
      Step(s, BadRequest(NameAlreadyExists(patch.name.value)))
    else if teamId !in s.teams then
      Step(s, ServerError)
    else
      var written := Merge(s.teams[teamId], patch);
      Step(Store(s.teams[teamId := written], s.users),
           if Truthy(patch.name) && nameLookupFails then ServerError else Success(written))
  }

  /** Add-user: find the user by e-mail, then the team; append the e-mail to the team's list
      and write the team, then point the user at the team and save the user. */
  ghost function AddUserStep(s: Store, teamId: TeamId, email: Email, saveFails: bool): (r: Step<Team>)
    ensures UserByEmail(s.users, email).None? ==> r == Step(s, NotFound(UserNotFound))
    ensures UserByEmail(s.users, email).Some? && teamId !in s.teams ==> r == Step(s, NotFound(TeamNotFound))
    ensures UserByEmail(s.users, email).Some? && teamId in s.teams ==>
      && r.store.teams.Keys == s.teams.Keys
      && r.store.teams[teamId] == s.teams[teamId].(users := s.teams[teamId].users + [email])
      && OthersUnchanged(s.teams, r.store.teams, teamId)
      && OthersUnchanged(s.users, r.store.users, UserByEmail(s.users, email).value)
      && (saveFails ==> r.out == ServerError && r.store.users == s.users)
      && (!saveFails ==>
            && r.out == Success(r.store.teams[teamId])
            && r.store.users[UserByEmail(s.users, email).value]
               == User(email, Some(teamId)))
  {
    match UserByEmail(s.users, email)
    case None => Step(s, NotFound(UserNotFound))
    case Some(uid) =>
      if teamId !in s.teams then Step(s, NotFound(TeamNotFound))
      else
        var user := s.users[uid];
        var team := s.teams[teamId].(users := s.teams[teamId].users + [user.email]);
        var teams' := s.teams[teamId := team];
        if saveFails then Step(Store(teams', s.users), ServerError)
        else Step(Store(teams', s.users[uid := user.(teamId := Some(teamId))]), Success(team))
  }

  /** Delete: remove the team and answer its last state; users are not touched. */
  ghost function DeleteStep(s: Store, teamId: TeamId): (r: Step<Team>)
    ensures teamId !in s.teams ==> r == Step(s, NotFound(TeamNotFound))
    ensures teamId in s.teams ==>
      && r.out == Success(s.teams[teamId])
      && r.store.teams.Keys == s.teams.Keys - {teamId}
      && forall id :: id in r.store.teams ==> r.store.teams[id] == s.teams[id]
    ensures r.store.users == s.users
  {
    if teamId in s.teams then Step(Store(s.teams - {teamId}, s.users), Success(s.teams[teamId]))
    else Step(s, NotFound(TeamNotFound))
  }
}
